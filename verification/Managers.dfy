/** The process tree and the managers of a process over its lifetime (src/SSI/services/setmgr.c). */
module Managers {
  import opened Types
  import opened Links
  import opened Store
  import opened Kernel
  import opened Invariant
  import opened Reap
  import opened Subtree
  import opened Creation
  import opened Endings
  import opened Machine
  import opened Safety
  import opened Fifo

  // ----- The tree -----

  lemma {:induction false} Bounded(h: seq<nat>) returns (b: nat)
    ensures forall i :: 0 <= i < |h| ==> h[i] < b
  {
    if h == [] {
      b := 0;
    } else {
      var c := Bounded(h[1..]);
      b := if h[0] < c then c else h[0] + 1;
      forall i | 0 <= i < |h| ensures h[i] < b { if i > 0 { assert h[i] == h[1..][i - 1]; } }
    }
  }

  lemma {:induction false} Climb(pcb: seq<Pcb>, h: seq<nat>, b: nat, p: Pid)
    requires Tree(pcb) && Heights(pcb, h) && Allocated(pcb, p) && forall i :: 0 <= i < |h| ==> h[i] < b
    ensures Under(pcb, p, ROOT)
    decreases b - h[p]
  {
    if p == ROOT {
      SelfUnder(pcb, ROOT);
    } else {
      var y := P(pcb, p).parent.value;
      assert Allocated(pcb, y) && pcb[p].parent == Some(y);
      Climb(pcb, h, b, y);
      var k: nat :| Up(pcb, y, k) == Some(ROOT);
      assert Up(pcb, p, k + 1) == Some(ROOT);
    }
  }

  /** Every allocated process reaches the root by parent links, and no process is its own proper ancestor. */
  lemma TreeIsRooted(s: State, p: Pid)
    requires CoreInv(s) && Allocated(s.st.pcb, p)
    ensures Under(s.st.pcb, p, ROOT) && forall k: nat :: Up(s.st.pcb, p, k) == Some(p) ==> k == 0
    ensures forall c: Pid :: PSiblings(c) in Q(s.st.q, PChildren(p)) <==> P(s.st.pcb, c).parent == Some(p)
    ensures forall c: Pid :: PSiblings(c) in Q(s.st.q, FREE_PROCS) <==> c < |s.st.pcb| && !Allocated(s.st.pcb, c)
  {
    forall c: Pid
      ensures PSiblings(c) in Q(s.st.q, PChildren(p)) <==> P(s.st.pcb, c).parent == Some(p)
      ensures PSiblings(c) in Q(s.st.q, FREE_PROCS) <==> c < |s.st.pcb| && !Allocated(s.st.pcb, c)
    {
      ChildrenAreChildren(s, p, c);
    }
    hide SchedAgree, NoLostWakeup, Shaped, Sep, ThreadsAgree, ThreadsClean, ProcsAgree, Owned, MsgsAgree, Under;
    var h :| Heights(s.st.pcb, h);
    var b := Bounded(h);
    Climb(s.st.pcb, h, b, p);
    forall k: nat | Up(s.st.pcb, p, k) == Some(p) ensures k == 0 { UpHigher(s.st.pcb, h, p, k); }
  }

  /** The children list of `p` holds exactly the processes whose parent is `p`; the free list exactly the others
      but the root. */
  lemma ChildrenAreChildren(s: State, p: Pid, c: Pid)
    requires CoreInv(s)
    ensures PSiblings(c) in Q(s.st.q, PChildren(p)) <==> P(s.st.pcb, c).parent == Some(p)
    ensures PSiblings(c) in Q(s.st.q, FREE_PROCS) <==> c < |s.st.pcb| && !Allocated(s.st.pcb, c)
  {
    hide SchedAgree, NoLostWakeup, Shaped, Sep, ThreadsAgree, ThreadsClean, Owned, MsgsAgree;
  }

  // ----- Managers -----

  /** The step sets manager `k` of process `p` to `m`. */
  ghost predicate Sets(s: State, e: Step, p: Pid, k: Mgr, m: Option<Tid>)
    requires Able(s, e)
  {
    e == SsiServe(SetManager(k, m)) && m.Some? && ProcOf(s, Applicant(s).value) == Some(p)
  }

  /** The three kinds of managers are the three fields. */
  lemma MgrFields(p: Pcb)
    ensures MgrOf(p, PgmMgr) == p.pgmMgr && MgrOf(p, TlbMgr) == p.tlbMgr && MgrOf(p, SysMgr) == p.sysMgr
  {
  }

  /** `x` is `was` but for manager `k`, which is `m` now. */
  ghost predicate OneMgrSet(was: Pcb, x: Pcb, k: Mgr, m: Option<Tid>) {
    MgrOf(x, k) == m && x.parent == was.parent && forall l: Mgr :: l != k ==> MgrOf(x, l) == MgrOf(was, l)
  }

  lemma WithMgrSets(was: Pcb, k: Mgr, m: Option<Tid>)
    ensures OneMgrSet(was, WithMgr(was, k, m), k, m)
  {
  }

  /** Setting a manager that was not set stores that one field of the record of the applicant's process, and replies
      with it. */
  lemma SetMgrStores(s: State, k: Mgr, m: Option<Tid>, a: Tid, p: Pid)
    requires ProcOf(s, a) == Some(p) && p < |s.st.pcb| && m.Some? && MgrOf(P(s.st.pcb, p), k).None?
    ensures var r := SetMgr(s, k, m, a);
            && r.1 == m && r.2 && r.0 == s.(st := s.st.(pcb := r.0.st.pcb))
            && OneMgrSet(P(s.st.pcb, p), P(r.0.st.pcb, p), k, m)
            && forall c: Pid :: c != p ==> P(r.0.st.pcb, c) == P(s.st.pcb, c)
  {
    WithMgrSets(P(s.st.pcb, p), k, m);
    PutP(s.st.pcb, p, WithMgr(P(s.st.pcb, p), k, m));
    hide MgrOf, WithMgr;
  }

  /** What a step may do to process record `p`: nothing, free it, allocate it blank, or set one manager that
      was not set. */
  ghost predicate PcbStep(s: State, e: Step, p: Pid, x: Pcb)
    requires Able(s, e)
  {
    var was := P(s.st.pcb, p);
    || x == was
    || (was.parent.Some? && x == Pcb(None, None, None, None))
    || (!Allocated(s.st.pcb, p) && x.parent.Some? && x == Pcb(x.parent, None, None, None))
    || (exists k: Mgr, m: Option<Tid> :: Sets(s, e, p, k, m) && MgrOf(was, k).None? && OneMgrSet(was, x, k, m))
  }

  lemma SameStructurePcb(s: State, r: State)
    requires SameStructure(s, r)
    ensures r.st.pcb == s.st.pcb
  {
  }

  lemma StepPcb(s: State, e: Step, p: Pid)
    requires Inv(s) && Enabled(s, e)
    ensures PcbStep(s, e, p, P(Next(s, e).st.pcb, p))
  {
    hide CoreInv, NoEmpty, CountAgrees, SoftAgrees, Rests, SysRecv, Serve, Timer, IoDone, Send, SameStructure, Sets;
    match e {
      case Compute(cpu, mem) =>
      case USend(d, v) => SendFrame(s, d, s.current.value, v);
      case URecv(src, pmsg) => RecvStep(s, src, pmsg); SameStructurePcb(s, SysRecv(s, src, pmsg));
      case URequest(v, pmsg) =>
        SendStep(s, SSI, v);
        SsiLives(Asked(s, v));
        SameStructurePcb(s, Asked(s, v));
        RecvStep(Asked(s, v), Some(SSI), pmsg);
        SameStructurePcb(Asked(s, v), Next(s, e));
      case Tick => TickStep(s); SameStructurePcb(s, Timer(s));
      case Terminal => TerminalPcb(s);
      case SsiReceive(pmsg) => RecvStep(s, None, pmsg); SameStructurePcb(s, SysRecv(s, None, pmsg));
      case SsiServe(req) => ServePcb(s, req, p);
    }
  }

  lemma TerminalPcb(s: State)
    requires Inv(s) && On(s) && s.slot.Some?
    ensures IoDone(s).st.pcb == s.st.pcb
  {
    hide CoreInv, NoEmpty, CountAgrees, SoftAgrees, Send;
    SendFrame(s, s.slot.value, SSI, 0);
  }

  lemma ReplyPcb(c: State, back: bool, a: Tid, v: Value)
    ensures ReplyIf(c, back, a, v).st.pcb == c.st.pcb
  {
    if c.current.Some? { SendFrame(c, a, c.current.value, v); }
    hide Send;
  }

  lemma FoundedPcb(s: State, r: State, t: Tid, q: Pid, init: Regs, p: Pid)
    requires Founded(s, r, t, q, init)
    ensures var x := P(r.st.pcb, p);
            x == P(s.st.pcb, p) || (!Allocated(s.st.pcb, p) && x == Pcb(Some(q), None, None, None))
  {
    var m: State, c: Pid :|
      ProcessAdded(s, m, c, q) && ThreadAdded(m, r, t, c, init) && Q(m.st.q, PThreads(c)) == [];
    assert r.st.pcb == m.st.pcb;
  }

  lemma CreateThreadPcb(s: State, init: Regs, a: Tid)
    ensures CreateThread(s, init, a).0.st.pcb == s.st.pcb
  {
  }

  lemma ReapedPcb(s: State, r: State, p: Pid)
    requires Reaped(s, r)
    ensures var x := P(r.st.pcb, p);
            x == P(s.st.pcb, p) || (P(s.st.pcb, p).parent.Some? && x == Pcb(None, None, None, None))
  {
    assert P(r.st.pcb, p) == P(r.st.pcb, p);
  }

  lemma EndProcessPcb(s: State, a: Tid, o: Pid, p: Pid)
    requires CoreInv(s) && s.current == Some(SSI) && ProcOf(s, a) == Some(o)
    ensures var x := P(TerminateProcess(s, a).st.pcb, p);
            x == P(s.st.pcb, p) || (P(s.st.pcb, p).parent.Some? && x == Pcb(None, None, None, None))
  {
    hide CoreInv, TerminateProcess, Reaped, ExactlySubtree, WaitersWoken, MailReaped, Within;
    EndProcessExact(s, a, o);
    ReapedPcb(s, TerminateProcess(s, a), p);
  }

  lemma ServePcb(s: State, req: Request, p: Pid)
    requires Inv(s) && Able(s, SsiServe(req))
    ensures PcbStep(s, SsiServe(req), p, P(Next(s, SsiServe(req)).st.pcb, p))
  {
    hide Shape, Sep, ThreadsAgree, ProcsAgree, Tree, MsgsAgree, SchedAgree, NoLostWakeup, NoEmpty, CountAgrees,
      SoftAgrees, Rests, CreateProcess, CreateThread, TerminateProcess, TerminateThread, DoIo, ReplyIf, Founded,
      Reaped;
    var a := Applicant(s).value;
    assert ProcOf(s, a).Some?;
    var o := ProcOf(s, a).value;
    assert Allocated(s.st.pcb, o);
    hide ThreadsClean, CoreInv;
    match req {
      case MakeProcess(init) =>
        CreateProcessEffect(s, init, a, o);
        var c := CreateProcess(s, init, a);
        if c.1.Some? { FoundedPcb(s, c.0, c.1.value, o, init, p); }
        ReplyPcb(c.0, true, a, AddrOf(c.1));
      case MakeThread(init) =>
        CreateThreadPcb(s, init, a);
        ReplyPcb(CreateThread(s, init, a).0, true, a, AddrOf(CreateThread(s, init, a).1));
      case EndProcess => EndProcessPcb(s, a, o, p);
      case EndThread => EndThreadExact(s, a, o); ReapedPcb(s, TerminateThread(s, a), p);
      case SetManager(k, m) =>
        var c := SetMgr(s, k, m, a);
        ReplyPcb(c.0, c.2, a, AddrOf(c.1));
        if m.Some? && MgrOf(P(s.st.pcb, o), k).Some? {
          EndProcessPcb(s, a, o, p);
        } else {
          WithMgrSets(P(s.st.pcb, o), k, m);
          PutP(s.st.pcb, o, WithMgr(P(s.st.pcb, o), k, m));
          assert m.Some? && p == o ==> Sets(s, SsiServe(req), p, k, m);
        }
      case Io(terminal) => DoIoStore(s, terminal, a);
      case Query(v) => ReplyPcb(s, true, a, v);
      case Unknown =>
    }
  }

  /** `p` is allocated in every state of the run. */
  ghost predicate StaysAllocated(s: State, es: seq<Step>, p: Pid)
    requires Run(s, es)
    decreases |es|
  {
    Allocated(s.st.pcb, p) && (es != [] ==> StaysAllocated(Next(s, es[0]), es[1..], p))
  }

  /** While a process stays allocated, its parent never changes and a manager, once set, never changes. */
  lemma {:induction false} WriteOnce(s: State, es: seq<Step>, p: Pid, k: Mgr)
    requires Inv(s) && Run(s, es) && StaysAllocated(s, es, p)
    ensures var x, y := P(s.st.pcb, p), P(After(s, es).st.pcb, p);
            y.parent == x.parent && (MgrOf(x, k).Some? ==> MgrOf(y, k) == MgrOf(x, k))
    decreases |es|
  {
    hide CoreInv, NoEmpty, CountAgrees, SoftAgrees, Rests, Next, Able, On, Sets;
    if es != [] {
      StepKeeps(s, es[0]);
      StepPcb(s, es[0], p);
      var n := Next(s, es[0]);
      AllocatedNow(n, es[1..], p);
      RootStays(s, n, p);
      WriteOnce(n, es[1..], p, k);
    }
  }

  lemma AllocatedNow(s: State, es: seq<Step>, p: Pid)
    requires Run(s, es) && StaysAllocated(s, es, p)
    ensures Allocated(s.st.pcb, p)
  {
  }

  lemma RootStays(s: State, n: State, p: Pid)
    requires Inv(s) && Inv(n)
    ensures p == ROOT ==> P(s.st.pcb, p).parent == None && P(n.st.pcb, p).parent == None
  {
    hide Shape, Sep, ThreadsAgree, ThreadsClean, ProcsAgree, Owned, MsgsAgree, SchedAgree, NoLostWakeup, NoEmpty;
  }

  /** No reply is sent exactly when the applicant has just been terminated, which happens exactly when it tried
      to set a manager that was set already. A free process has no managers. */
  lemma NoReplyMeansTerminated(s: State, k: Mgr, m: Option<Tid>, a: Tid, p: Pid)
    requires CoreInv(s) && s.current == Some(SSI) && ProcOf(s, a) == Some(p) && Live(s.st.tcb, a)
    ensures var r := SetMgr(s, k, m, a);
            && (!r.2 <==> !Live(r.0.st.tcb, a))
            && (!r.2 <==> m.Some? && MgrOf(P(s.st.pcb, p), k).Some?)
            && (r.2 && m.Some? && p < |s.st.pcb| ==> MgrOf(P(r.0.st.pcb, p), k) == m && r.1 == m)
            && (r.2 && m.None? ==> r.0 == s && r.1 == None)
    ensures forall c: Pid :: !Allocated(s.st.pcb, c) ==> MgrOf(P(s.st.pcb, c), k).None?
  {
    hide Shape, Sep, ThreadsAgree, ThreadsClean, ProcsAgree, Owned, MsgsAgree, SchedAgree, NoLostWakeup,
      TerminateProcess, Reaped, WaitersWoken, MailReaped, Within, Under;
    if m.Some? && MgrOf(P(s.st.pcb, p), k).Some? {
      EndProcessExact(s, a, p);
      SelfUnder(s.st.pcb, p);
    } else {
      PutP(s.st.pcb, p, WithMgr(P(s.st.pcb, p), k, m));
    }
  }
}
