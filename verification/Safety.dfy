/** Every reachable state satisfies the invariant, whatever the threads do. */
module Safety {
  import opened Types
  import opened Links
  import opened Store
  import opened Kernel
  import opened Invariant
  import opened Lifecycle
  import opened Reap
  import opened Subtree
  import opened Creation
  import opened Endings
  import opened Machine

  // ----- Creation -----

  lemma UntouchedStructure(s: State, r: State)
    requires Untouched(s, r)
    ensures SameStructure(s, r)
  {
  }

  lemma AddedThreadInv(s: State, r: State, t: Tid, p: Pid, init: Regs)
    requires ThreadAdded(s, r, t, p, init) && CountAgrees(s) && SoftAgrees(s) && T(s.st.tcb, SSI).wait.None?
    requires forall x: Pid {:trigger Q(s.st.q, PThreads(x))} ::
               Allocated(s.st.pcb, x) && x != ROOT && x != p ==> Q(s.st.q, PThreads(x)) != []
    ensures CountAgrees(r) && SoftAgrees(r) && T(r.st.tcb, SSI).wait.None? && NoEmpty(r.st.q, r.st.pcb)
  {
    forall x: Pid | Allocated(r.st.pcb, x) && x != ROOT ensures Q(r.st.q, PThreads(x)) != [] {
      if x != p { assert Q(r.st.q, PThreads(x)) == Q(s.st.q, PThreads(x)); }
    }
  }

  lemma AddedProcessNoEmpty(s: State, m: State, c: Pid, p: Pid)
    requires ProcessAdded(s, m, c, p) && NoEmpty(s.st.q, s.st.pcb)
    ensures forall x: Pid {:trigger Q(m.st.q, PThreads(x))} ::
              Allocated(m.st.pcb, x) && x != ROOT && x != c ==> Q(m.st.q, PThreads(x)) != []
  {
    forall x: Pid | Allocated(m.st.pcb, x) && x != ROOT && x != c ensures Q(m.st.q, PThreads(x)) != [] {
      assert Allocated(s.st.pcb, x);
      assert Q(m.st.q, PThreads(x)) == Q(s.st.q, PThreads(x));
    }
  }

  lemma FoundedInv(s: State, r: State, t: Tid, p: Pid, init: Regs)
    requires Founded(s, r, t, p, init) && CountAgrees(s) && SoftAgrees(s) && NoEmpty(s.st.q, s.st.pcb)
    requires T(s.st.tcb, SSI).wait.None?
    ensures CountAgrees(r) && SoftAgrees(r) && NoEmpty(r.st.q, r.st.pcb) && T(r.st.tcb, SSI).wait.None?
    ensures r.current == s.current && r.mode == s.mode && r.ssi == s.ssi
  {
    var m: State, c: Pid :|
      ProcessAdded(s, m, c, p) && ThreadAdded(m, r, t, c, init) && Q(m.st.q, PThreads(c)) == [];
    AddedProcessNoEmpty(s, m, c, p);
    assert Q(m.st.q, FreeThreads) == Q(s.st.q, FreeThreads);
    hide ProcessAdded;
    assert CountAgrees(m) && SoftAgrees(m);
    AddedThreadInv(m, r, t, c, init);
  }

  lemma MakeProcessKeeps(s: State, init: Regs, a: Tid, p: Pid)
    requires Inv(s) && s.current == Some(SSI) && ProcOf(s, a) == Some(p)
    ensures var r := CreateProcess(s, init, a).0; Inv(r) && r.current == s.current && r.mode == s.mode
  {
    hide CoreInv, NoEmpty, CountAgrees, SoftAgrees, CreateProcess, Founded, Untouched, SameStructure;
    CreateProcessEffect(s, init, a, p);
    var r := CreateProcess(s, init, a);
    if r.1.None? {
      UntouchedStructure(s, r.0);
      StructureKeeps(s, r.0);
      WaitStays(s, r.0);
      UntouchedFrame(s, r.0);
    } else {
      FoundedInv(s, r.0, r.1.value, p, init);
    }
  }

  lemma UntouchedFrame(s: State, r: State)
    requires Untouched(s, r)
    ensures r.current == s.current && r.mode == s.mode && r.ssi == s.ssi
  {
  }

  lemma MakeThreadKeeps(s: State, init: Regs, a: Tid, p: Pid)
    requires Inv(s) && s.current == Some(SSI) && ProcOf(s, a) == Some(p)
    ensures var r := CreateThread(s, init, a).0; Inv(r) && r.current == s.current && r.mode == s.mode
  {
    hide Shape, Sep, ThreadsAgree, ThreadsClean, ProcsAgree, Tree, MsgsAgree, SchedAgree, NoLostWakeup, CountAgrees,
      SoftAgrees, CreateThreadIn;
    assert Allocated(s.st.pcb, p);
    hide Owned;
    CreateThreadEffect(s, init, p);
    CreateKeeps(s, init, Some(p));
    var r := CreateThreadIn(s, init, Some(p));
    if r.1.Some? {
      AddedThreadInv(s, r.0, r.1.value, p, init);
    }
  }

  // ----- Termination -----

  lemma ReapedInv(s: State, r: State)
    requires Inv(s) && CoreInv(r) && Reaped(s, r) && NoEmpty(r.st.q, r.st.pcb) && s.current.Some?
    ensures Inv(r) && r.current == s.current && r.mode == s.mode
  {
    hide Shape, Sep, ThreadsAgree, ProcsAgree, Tree, MsgsAgree, SchedAgree, NoLostWakeup, NoEmpty, ReadyReaped,
      KidsReaped, MailReaped, ProcsReaped;
    assert Live(r.st.tcb, SSI);
    assert T(r.st.tcb, SSI) == Survived(T(s.st.tcb, SSI), s.st.tcb, r.st.tcb);
  }

  lemma EndProcessKeeps(s: State, a: Tid, p: Pid)
    requires Inv(s) && s.current == Some(SSI) && ProcOf(s, a) == Some(p)
    ensures var r := TerminateProcess(s, a); Inv(r) && r.current == s.current && r.mode == s.mode
  {
    hide CoreInv, NoEmpty, CountAgrees, SoftAgrees, TerminateProcess, Reaped, ExactlySubtree, WaitersWoken, Rests,
      MailReaped;
    EndProcessExact(s, a, p);
    var r := TerminateProcess(s, a);
    EndProcessNoEmpty(s, r, p);
    ReapedInv(s, r);
  }

  lemma EndThreadKeeps(s: State, t: Tid, p: Pid)
    requires Inv(s) && s.current == Some(SSI) && ProcOf(s, t) == Some(p)
    ensures var r := TerminateThread(s, t); Inv(r) && r.current == s.current && r.mode == s.mode
  {
    hide CoreInv, NoEmpty, CountAgrees, SoftAgrees, TerminateThread, Reaped, ExactlySubtree, WaitersWoken, Rests,
      OneDown;
    EndThreadExact(s, t, p);
    ReapedInv(s, TerminateThread(s, t));
  }

  // ----- Managers and I/O -----

  lemma MgrStore(s: State, p: Pid, x: Pcb)
    requires CoreInv(s) && Allocated(s.st.pcb, p) && x.parent == P(s.st.pcb, p).parent
    ensures CoreInv(s.(st := s.st.(pcb := Put(s.st.pcb, p, x))))
  {
    hide Sep, ThreadsAgree, ThreadsClean, MsgsAgree, SchedAgree, NoLostWakeup;
    var pcb, pcb' := s.st.pcb, Put(s.st.pcb, p, x);
    PutP(pcb, p, x);
    MgrTree(pcb, p, x);
    forall t: Tid, y: Pid | T(s.st.tcb, t).pcb == Some(y) ensures Allocated(pcb', y) { assert Allocated(pcb, y); }
    assert ProcsAgree(s.st.q, pcb');
    hide Tree;
  }

  lemma MgrTree(pcb: seq<Pcb>, p: Pid, x: Pcb)
    requires Tree(pcb) && Allocated(pcb, p) && x.parent == P(pcb, p).parent
    ensures Tree(Put(pcb, p, x))
  {
    var pcb' := Put(pcb, p, x);
    PutP(pcb, p, x);
    var h :| Heights(pcb, h);
    assert Heights(pcb', h);
    forall c: Pid, y: Pid | P(pcb', c).parent == Some(y) ensures Allocated(pcb', y) {
      assert P(pcb, c).parent == Some(y);
      assert Allocated(pcb, y);
    }
    forall c: Pid | !Allocated(pcb', c) ensures P(pcb', c) == Pcb(None, None, None, None) {
      assert !Allocated(pcb, c);
    }
  }

  lemma MgrNoEmpty(q: Lists, pcb: seq<Pcb>, p: Pid, x: Pcb)
    requires NoEmpty(q, pcb) && x.parent == P(pcb, p).parent
    ensures NoEmpty(q, Put(pcb, p, x))
  {
    PutP(pcb, p, x);
  }

  lemma SetMgrKeeps(s: State, k: Mgr, m: Option<Tid>, a: Tid, p: Pid)
    requires Inv(s) && s.current == Some(SSI) && ProcOf(s, a) == Some(p)
    ensures var r := SetMgr(s, k, m, a).0; Inv(r) && r.current == s.current && r.mode == s.mode
  {
    hide Shape, Sep, ThreadsAgree, ThreadsClean, ProcsAgree, Tree, MsgsAgree, SchedAgree, NoLostWakeup, NoEmpty,
      TerminateProcess;
    assert Allocated(s.st.pcb, p);
    hide Owned;
    var rec := P(s.st.pcb, p);
    if m.Some? {
      if MgrOf(rec, k).Some? {
        EndProcessKeeps(s, a, p);
      } else {
        MgrStore(s, p, WithMgr(rec, k, m));
        MgrNoEmpty(s.st.q, s.st.pcb, p, WithMgr(rec, k, m));
      }
    }
  }

  lemma IncrementMod(n: nat)
    ensures (n % UINT_RANGE + 1) % UINT_RANGE == (n + 1) % UINT_RANGE
  {
  }

  lemma DoIoKeeps(s: State, terminal: bool, a: Tid)
    requires Inv(s) && s.current == Some(SSI) && a != SSI
    ensures Inv(DoIo(s, terminal, a))
  {
    hide CoreInv, NoEmpty, CountAgrees;
    IncrementMod(s.ios);
    var r := DoIo(s, terminal, a);
    SlotCore(s, r);
    assert CountAgrees(r) by { CountFrame(s, r); }
  }

  lemma CountFrame(s: State, r: State)
    requires CountAgrees(s) && r.count == s.count && r.st == s.st
    ensures CountAgrees(r)
  {
  }

  // ----- The SSI -----

  lemma ServeKeeps(s: State, req: Request, a: Tid)
    requires Inv(s) && s.current == Some(SSI) && a != SSI && Live(s.st.tcb, a)
    ensures Inv(Serve(s, req, a))
  {
    hide Shape, Sep, ThreadsAgree, ProcsAgree, Tree, Owned, MsgsAgree, SchedAgree, NoLostWakeup, NoEmpty, CountAgrees,
      SoftAgrees, CreateProcess, CreateThread, TerminateProcess, TerminateThread, SetMgr, DoIo, SysSend;
    assert ProcOf(s, a).Some?;
    hide ThreadsClean, CoreInv;
    var p := ProcOf(s, a).value;
    match req {
      case MakeProcess(init) =>
        MakeProcessKeeps(s, init, a, p);
        var r := CreateProcess(s, init, a);
        SendStep(r.0, a, AddrOf(r.1));
      case MakeThread(init) =>
        MakeThreadKeeps(s, init, a, p);
        var r := CreateThread(s, init, a);
        SendStep(r.0, a, AddrOf(r.1));
      case EndProcess => EndProcessKeeps(s, a, p);
      case EndThread => EndThreadKeeps(s, a, p);
      case SetManager(k, m) =>
        SetMgrKeeps(s, k, m, a, p);
        var r := SetMgr(s, k, m, a);
        if r.2 { SendStep(r.0, a, AddrOf(r.1)); }
      case Io(terminal) => DoIoKeeps(s, terminal, a);
      case Query(v) => SendStep(s, a, v);
      case Unknown => FailKeeps(s);
    }
  }

  lemma FailKeeps(s: State)
    requires Inv(s) && s.current.Some?
    ensures Inv(s.(mode := Failed))
  {
    hide CoreInv, NoEmpty;
    SlotCore(s, s.(mode := Failed));
    ModeIrrelevant(s, s.(mode := Failed));
  }

  lemma PcKeeps(s: State, pc: SsiPc)
    requires Inv(s)
    ensures Inv(s.(ssi := pc))
  {
    hide CoreInv, NoEmpty;
    SlotCore(s, s.(ssi := pc));
  }

  lemma ComputeKeeps(s: State, cpu: Regs, mem: map<nat, Value>)
    requires Inv(s)
    ensures Inv(s.(cpu := cpu, mem := mem))
  {
    hide CoreInv, NoEmpty;
    CpuCore(s, s.(cpu := cpu, mem := mem));
  }

  // ----- The main theorem -----

  /** Every step of every thread, interrupt and service keeps the invariant. */
  lemma StepKeeps(s: State, e: Step)
    requires Inv(s) && Enabled(s, e)
    ensures Inv(Next(s, e))
  {
    hide CoreInv, NoEmpty, CountAgrees, SoftAgrees, Rests, SysRecv, Serve, Timer, IoDone;
    match e {
      case Compute(cpu, mem) => ComputeKeeps(s, cpu, mem);
      case USend(d, v) => SendStep(s, d, v);
      case URecv(src, pmsg) => RecvStep(s, src, pmsg);
      case URequest(v, pmsg) =>
        SendStep(s, SSI, v);
        SsiLives(Asked(s, v));
        RecvStep(Asked(s, v), Some(SSI), pmsg);
      case Tick => TickStep(s);
      case Terminal => TerminalStep(s);
      case SsiReceive(pmsg) =>
        RecvStep(s, None, pmsg);
        PcKeeps(SysRecv(s, None, pmsg), Serving);
      case SsiServe(req) =>
        ServeKeeps(s, req, Applicant(s).value);
        PcKeeps(Serve(s, req, Applicant(s).value), Receiving);
    }
  }

  lemma SsiLives(s: State)
    requires Inv(s)
    ensures Live(s.st.tcb, SSI)
  {
    hide Shape, Sep, ThreadsAgree, ProcsAgree, Tree, Owned, MsgsAgree, SchedAgree, NoLostWakeup, NoEmpty;
  }

  /** The invariant holds after every run. */
  lemma {:induction false} RunKeeps(s: State, es: seq<Step>)
    requires Inv(s)
    ensures Run(s, es) ==> Inv(After(s, es))
    decreases |es|
  {
    hide Inv, Next;
    if es != [] && Run(s, es) {
      StepKeeps(s, es[0]);
      RunKeeps(Next(s, es[0]), es[1..]);
    }
  }
}
