/** The thread addresses that the kernel keeps in its records stay addresses of its own descriptors. */
module Addresses {
  import opened Types
  import opened Links
  import opened Store
  import opened Kernel
  import opened Invariant
  import opened Subtree
  import opened Reap
  import opened Creation
  import opened Endings
  import opened Machine
  import opened Safety
  import opened Protocol
  import opened Managers

  /** The managers that a process may have named are descriptors of the pool or the SSI. */
  ghost predicate MgrsInPool(st: Store) {
    forall p: Pid, k: Mgr {:trigger MgrOf(P(st.pcb, p), k)} ::
      MgrOf(P(st.pcb, p), k).Some? ==> MgrOf(P(st.pcb, p), k).value < |st.tcb|
  }

  ghost predicate InPools(s: State) { MgrsInPool(s.st) && (s.slot.Some? ==> s.slot.value < |s.st.tcb|) }

  /** The step names descriptors below `n` only. */
  predicate Names(e: Step, n: nat) {
    match e
    case USend(d, _) => d < n
    case URecv(src, _) => src.Some? ==> src.value < n
    case SsiServe(SetManager(_, m)) => m.Some? ==> m.value < n
    case _ => true
  }

  lemma MgrsStay(s: State, r: State)
    requires Reaped(s, r) && MgrsInPool(s.st)
    ensures MgrsInPool(r.st)
  {
    forall p: Pid, k: Mgr | MgrOf(P(r.st.pcb, p), k).Some? ensures MgrOf(P(r.st.pcb, p), k).value < |r.st.tcb| {
      assert P(r.st.pcb, p) == P(r.st.pcb, p);
      assert MgrOf(P(s.st.pcb, p), k) == MgrOf(P(r.st.pcb, p), k);
    }
  }


  /** The descriptors stay as many as they are, and the thread in the I/O slot is the one that was there, or the
      applicant of the request just served. */
  lemma StepSlot(s: State, e: Step)
    requires Inv(s) && Enabled(s, e)
    ensures |Next(s, e).st.tcb| == |s.st.tcb|
    ensures var r := Next(s, e);
            r.slot.Some? ==> r.slot == s.slot || (e.SsiServe? && r.slot == Applicant(s))
  {
    hide CoreInv, NoEmpty, CountAgrees, SoftAgrees, Rests, SysRecv, Serve, Timer, IoDone, Send;
    match e {
      case Compute(cpu, mem) =>
      case USend(d, v) => SendFrame(s, d, s.current.value, v);
      case URecv(src, pmsg) => RecvStep(s, src, pmsg); SameSlot(s, SysRecv(s, src, pmsg));
      case URequest(v, pmsg) =>
        SendStep(s, SSI, v);
        SsiLives(Asked(s, v));
        SameSlot(s, Asked(s, v));
        RecvStep(Asked(s, v), Some(SSI), pmsg);
        SameSlot(Asked(s, v), Next(s, e));
      case Tick => TickStep(s); SameSlot(s, Timer(s));
      case Terminal => TerminalSlot(s);
      case SsiReceive(pmsg) => RecvStep(s, None, pmsg); SameSlot(s, SysRecv(s, None, pmsg));
      case SsiServe(req) => ServeSlot(s, req);
    }
  }

  lemma SameSlot(s: State, r: State)
    requires SameStructure(s, r)
    ensures r.slot == s.slot && |r.st.tcb| == |s.st.tcb|
  {
  }

  lemma TerminalSlot(s: State)
    requires s.slot.Some?
    ensures IoDone(s).slot.Some? ==> IoDone(s).slot == s.slot
    ensures |IoDone(s).st.tcb| == |s.st.tcb|
  {
    hide Send;
    SendFrame(s, s.slot.value, SSI, 0);
  }

  lemma ReplySlot(c: State, back: bool, a: Tid, v: Value)
    ensures ReplyIf(c, back, a, v).slot == c.slot && |ReplyIf(c, back, a, v).st.tcb| == |c.st.tcb|
  {
    hide Send;
    if c.current.Some? { SendFrame(c, a, c.current.value, v); }
  }

  lemma ReapedSlot(s: State, r: State)
    requires Reaped(s, r)
    ensures r.slot == s.slot && |r.st.tcb| == |s.st.tcb|
  {
  }

  lemma EndProcessSlot(s: State, a: Tid, p: Pid)
    requires CoreInv(s) && s.current == Some(SSI) && ProcOf(s, a) == Some(p)
    ensures TerminateProcess(s, a).slot == s.slot && |TerminateProcess(s, a).st.tcb| == |s.st.tcb|
  {
    hide CoreInv, TerminateProcess, Reaped, ExactlySubtree, WaitersWoken, MailReaped, Within;
    EndProcessExact(s, a, p);
    ReapedSlot(s, TerminateProcess(s, a));
  }

  lemma ServeSlot(s: State, req: Request)
    requires Inv(s) && Able(s, SsiServe(req))
    ensures var r := Next(s, SsiServe(req));
            |r.st.tcb| == |s.st.tcb| && (r.slot.Some? ==> r.slot == s.slot || r.slot == Applicant(s))
  {
    hide Shape, Sep, ThreadsAgree, ProcsAgree, Tree, MsgsAgree, SchedAgree, NoLostWakeup, NoEmpty, CountAgrees,
      SoftAgrees, Rests, CreateProcess, CreateThreadIn, TerminateProcess, TerminateThread, ReplyIf, Founded, Reaped;
    var a := Applicant(s).value;
    assert ProcOf(s, a).Some?;
    var o := ProcOf(s, a).value;
    assert Allocated(s.st.pcb, o);
    hide ThreadsClean, CoreInv;
    match req {
      case MakeProcess(init) =>
        CreateProcessEffect(s, init, a, o);
        var c := CreateProcess(s, init, a);
        if c.1.Some? { FoundedSlot(s, c.0, c.1.value, o, init); } else { UntouchedWaits(s, c.0); }
        ReplySlot(c.0, true, a, AddrOf(c.1));
      case MakeThread(init) =>
        NewSlot(s, init, ProcOf(s, a));
        ReplySlot(CreateThread(s, init, a).0, true, a, AddrOf(CreateThread(s, init, a).1));
      case EndProcess => EndProcessSlot(s, a, o);
      case EndThread => EndThreadExact(s, a, o); ReapedSlot(s, TerminateThread(s, a));
      case SetManager(k, m) =>
        var c := SetMgr(s, k, m, a);
        ReplySlot(c.0, c.2, a, AddrOf(c.1));
        if m.Some? && MgrOf(P(s.st.pcb, o), k).Some? { EndProcessSlot(s, a, o); }
      case Io(terminal) =>
      case Query(v) => ReplySlot(s, true, a, v);
      case Unknown =>
    }
  }

  lemma FoundedSlot(s: State, r: State, t: Tid, p: Pid, init: Regs)
    requires Founded(s, r, t, p, init)
    ensures r.slot == s.slot && |r.st.tcb| == |s.st.tcb|
  {
    var m: State, c: Pid :|
      ProcessAdded(s, m, c, p) && ThreadAdded(m, r, t, c, init) && Q(m.st.q, PThreads(c)) == [];
  }

  lemma NewSlot(s: State, init: Regs, p: Option<Pid>)
    ensures CreateThreadIn(s, init, p).0.slot == s.slot && |CreateThreadIn(s, init, p).0.st.tcb| == |s.st.tcb|
  {
  }

  /** No step makes the kernel keep an address outside its descriptors, unless a request named one. */
  lemma StepInPools(s: State, e: Step)
    requires Inv(s) && Enabled(s, e) && InPools(s) && Names(e, |s.st.tcb|)
    ensures InPools(Next(s, e))
  {
    hide CoreInv, NoEmpty, CountAgrees, SoftAgrees, Rests, Next;
    var r := Next(s, e);
    StepSlot(s, e);
    if e.SsiServe? { LiveInside(s, Applicant(s).value); }
    forall p: Pid, k: Mgr | MgrOf(P(r.st.pcb, p), k).Some? ensures MgrOf(P(r.st.pcb, p), k).value < |r.st.tcb| {
      StepPcb(s, e, p);
      assert MgrOf(P(s.st.pcb, p), k).Some? ==> MgrOf(P(s.st.pcb, p), k).value < |s.st.tcb|;
    }
  }

  lemma LiveInside(s: State, t: Tid)
    requires Live(s.st.tcb, t)
    ensures t < |s.st.tcb|
  {
  }
}
