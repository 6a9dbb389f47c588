/** The ready queue is fair: a ready thread moves forward with every dispatch (src/handlers/interrupts.c). */
module Fair {
  import opened Types
  import opened Seqs
  import opened Links
  import opened Store
  import opened Kernel
  import opened Invariant
  import opened Preserve
  import opened Termination
  import opened Mail
  import opened Reap
  import opened Subtree
  import opened Creation
  import opened Endings
  import opened Machine
  import opened Safety
  import opened FastPath
  import opened Fifo

  /** Thread `t` has `k` threads in front of it. */
  ghost predicate At(s: State, t: Tid, k: nat) { k < |ReadyList(s)| && ReadyList(s)[k] == TSched(t) }

  /** Does the step end in the scheduler? */
  ghost predicate Dispatches(s: State, e: Step)
    requires Able(s, e)
  {
    match e
    case URecv(src, _) => MsgGet(s.st, src, s.current).1.None?
    case URequest(v, _) => MsgGet(Asked(s, v).st, Some(SSI), s.current).1.None?
    case Tick => true
    case Terminal => s.mode == Waiting && Send(s, s.slot.value, SSI, 0).1
    case SsiReceive(_) => MsgGet(s.st, None, s.current).1.None?
    case _ => false
  }

  // ----- The ready list, operation by operation -----

  lemma SendReady(s: State, d: Tid, snd: Tid, v: Value)
    requires CoreInv(s)
    ensures ReadyList(s) <= ReadyList(Send(s, d, snd, v).0)
  {
    hide CoreInv, Resume;
    var tc := T(s.st.tcb, d);
    if Awaits(tc, snd) {
      DirectDelivery(s, d, snd, v);
    } else if tc.status != Unused {
      AddReady(s, d, snd, v);
    }
  }

  lemma AddReady(s: State, d: Tid, snd: Tid, v: Value)
    requires CoreInv(s) && Live(s.st.tcb, d)
    ensures Q(MsgAdd(s.st, Some(snd), Some(d), v).0.q, ReadyQ) == ReadyList(s)
  {
    hide SchedAgree, NoLostWakeup, ThreadsAgree, ThreadsClean, ProcsAgree, Tree, Owned, Sep, Move, Shaped;
    if Q(s.st.q, FreeMsgs) != [] {
      FreeSlot(s.st);
      var n := Q(s.st.q, FreeMsgs)[0];
      BoxHead(s.st, d);
      MoveAt(s.st.q, n, TMsgq(d), ReadyQ);
      OtherKind(s.st.q, ReadyQ, n, |s.st.pcb|, |s.st.tcb|, |s.st.msg|);
    }
  }

  lemma GetReady(s: State, src: Option<Tid>, d: Tid)
    requires CoreInv(s)
    ensures Q(MsgGet(s.st, src, Some(d)).0.q, ReadyQ) == ReadyList(s)
  {
    hide StoreInv, SchedAgree, NoLostWakeup, MsgFree;
    var f := FirstFrom(Q(s.st.q, TMsgq(d)), s.st.msg, src);
    if f.Some? {
      ShapeOf(s);
      MsgFreeElsewhere(s.st, f.value, ReadyQ);
    }
  }

  /** The scheduler takes the head and leaves the rest in order. */
  lemma DispatchReady(s: State)
    requires CoreInv(s.(current := None)) && ReadyList(s) != []
    ensures ReadyList(Dispatch(s)) == ReadyList(s)[1..]
    ensures Dispatch(s).current.Some? && ReadyList(s)[0] == TSched(Dispatch(s).current.value)
    ensures Dispatch(s).cpu == T(s.st.tcb, Dispatch(s).current.value).regs && Dispatch(s).st.tcb == s.st.tcb
    ensures Dispatch(s).mode == s.mode
  {
    hide SchedAgree, NoLostWakeup, ThreadsAgree, ThreadsClean, ProcsAgree, Tree, Owned, MsgsAgree, Shaped;
    HeadThread(s);
    assert NoDup(ReadyList(s));
    hide Sep;
    WithoutAt(ReadyList(s), 0);
    assert Q(Unlink(s.st.q, ReadyList(s)[0]), ReadyQ) == Without(ReadyList(s), ReadyList(s)[0]);
  }

  /** The ready list at the moment the scheduler is called, if it is called. */
  ghost predicate Taken(s: State, r: State, full: seq<Node>) {
    ReadyList(s) <= full
    && if full == [] then r.current.None?
       else r.current.Some? && full[0] == TSched(r.current.value) && ReadyList(r) == full[1..]
  }

  lemma BlockReady(s: State, src: Option<Tid>)
    requires s.current.Some?
    ensures ReadyList(Block(s, src)) == ReadyList(s)
  {
  }

  lemma DispatchTaken(a: State, s: State)
    requires CoreInv(s.(current := None)) && ReadyList(a) <= ReadyList(s)
    ensures Taken(a, Dispatch(s), ReadyList(s))
  {
    hide CoreInv;
    if ReadyList(s) != [] { DispatchReady(s); }
  }

  lemma RecvReady(a: State, s: State, src: Option<Tid>, pmsg: nat) returns (full: seq<Node>)
    requires CoreInv(s) && s.current.Some? && CanReceive(s, src) && ReadyList(a) <= ReadyList(s)
    ensures var r := SysRecv(s, src, pmsg);
            if MsgGet(s.st, src, s.current).1.None? then Taken(a, r, full) else ReadyList(a) <= ReadyList(r)
  {
    hide CoreInv, MsgGet, Block, Dispatch;
    full := ReadyList(s);
    if MsgGet(s.st, src, s.current).1.None? {
      var s1 := s.(cpu := Regs(Code(SYS_RECV), pmsg));
      CpuCore(s, s1);
      GetNone(s, src);
      BlockKeeps(s1, src);
      BlockReady(s1, src);
      DispatchTaken(a, Block(s1, src));
    } else {
      GetReady(s, src, s.current.value);
    }
  }

  lemma TickReady(s: State) returns (full: seq<Node>)
    requires CoreInv(s)
    ensures Taken(s, Timer(s), full)
    ensures full == ReadyList(s) + if s.current.Some? then [TSched(s.current.value)] else []
  {
    hide CoreInv, Dispatch;
    PreemptKeeps(s);
    full := ReadyList(Preempt(s));
    DispatchTaken(s, Preempt(s));
  }

  /** Every service keeps the surviving ready threads in order. */
  lemma ServeReady(s: State, req: Request, a: Tid)
    requires Inv(s) && s.current == Some(SSI) && a != SSI && Live(s.st.tcb, a)
    ensures ReadyReaped(s.st.q, Serve(s, req, a).st.q, Serve(s, req, a).st.tcb)
  {
    hide Shape, Sep, ThreadsAgree, ProcsAgree, Tree, Owned, MsgsAgree, SchedAgree, NoLostWakeup, NoEmpty, CountAgrees,
      SoftAgrees, Rests, CreateProcess, CreateThread, TerminateProcess, TerminateThread, SetMgr, DoIo, SysSend,
      ReadyReaped;
    assert ProcOf(s, a).Some?;
    hide ThreadsClean, CoreInv;
    var p := ProcOf(s, a).value;
    var r := Serve(s, req, a);
    match req {
      case MakeProcess(init) =>
        MakeProcessKeeps(s, init, a, p);
        CreateProcessReady(s, init, a, p);
        ReplyReady(s, CreateProcess(s, init, a).0, a, AddrOf(CreateProcess(s, init, a).1));
      case MakeThread(init) =>
        MakeThreadKeeps(s, init, a, p);
        CreateThreadReady(s, init, a, p);
        ReplyReady(s, CreateThread(s, init, a).0, a, AddrOf(CreateThread(s, init, a).1));
      case EndProcess =>
        EndProcessExact(s, a, p);
        TreeGoneReady(s, TerminateProcess(s, a), p);
      case EndThread =>
        EndThreadExact(s, a, p);
        ReapedReady(s, TerminateThread(s, a));
      case SetManager(k, m) =>
        SetMgrKeeps(s, k, m, a, p);
        SetMgrReady(s, k, m, a, p);
        var c := SetMgr(s, k, m, a);
        if c.2 { ReplyReady(s, c.0, a, AddrOf(c.1)); }
      case Io(terminal) => DoIoStore(s, terminal, a); PrefixReaped(s, r);
      case Query(v) => ReplyReady(s, s, a, v);
      case Unknown => PrefixReaped(s, r);
    }
  }

  lemma ReapedReady(s: State, r: State)
    requires Reaped(s, r)
    ensures ReadyReaped(s.st.q, r.st.q, r.st.tcb)
  {
  }

  lemma TreeGoneReady(s: State, r: State, p: Pid)
    requires TreeGone(s, r, p)
    ensures ReadyReaped(s.st.q, r.st.q, r.st.tcb)
  {
    hide CoreInv, Within;
  }

  /** If nobody is terminated and the ready list only grew, the ready threads are in order. */
  lemma PrefixReaped(s: State, r: State)
    requires CoreInv(s) && ReadyList(s) <= ReadyList(r) && forall t: Tid :: Live(s.st.tcb, t) ==> Live(r.st.tcb, t)
    ensures ReadyReaped(s.st.q, r.st.q, r.st.tcb)
  {
    hide NoLostWakeup, ThreadsAgree, ThreadsClean, ProcsAgree, Tree, Owned, MsgsAgree, Sep;
    forall n | n in ReadyList(s) ensures Live(r.st.tcb, TidOf(n)) {
      assert Fits(ReadyQ, n, |s.st.pcb|, |s.st.tcb|, |s.st.msg|);
      assert TSched(TidOf(n)) in Q(s.st.q, ReadyQ);
    }
    KeepLiveAll(ReadyList(s), r.st.tcb);
  }

  lemma ReplyReady(s: State, c: State, a: Tid, v: Value)
    requires CoreInv(s) && CoreInv(c) && c.current.Some?
    requires ReadyList(s) <= ReadyList(c) && forall t: Tid :: Live(s.st.tcb, t) ==> Live(c.st.tcb, t)
    ensures ReadyReaped(s.st.q, SysSend(c, a, v).0.st.q, SysSend(c, a, v).0.st.tcb)
  {
    hide CoreInv, Send, ReadyReaped;
    SendReady(c, a, c.current.value, v);
    forall t: Tid | Live(s.st.tcb, t) ensures Live(SysSend(c, a, v).0.st.tcb, t) {
      SendLives(c, a, c.current.value, v, t);
    }
    PrefixReaped(s, SysSend(c, a, v).0);
  }

  lemma AddedReady(s: State, r: State, t: Tid, p: Pid, init: Regs)
    requires ThreadAdded(s, r, t, p, init)
    ensures ReadyList(s) <= ReadyList(r) && forall x: Tid :: Live(s.st.tcb, x) ==> Live(r.st.tcb, x)
  {
  }

  lemma CreateThreadReady(s: State, init: Regs, a: Tid, p: Pid)
    requires CoreInv(s) && ProcOf(s, a) == Some(p)
    ensures var r := CreateThread(s, init, a).0;
            ReadyList(s) <= ReadyList(r) && forall x: Tid :: Live(s.st.tcb, x) ==> Live(r.st.tcb, x)
  {
    hide Shape, Sep, ThreadsAgree, ThreadsClean, ProcsAgree, Tree, MsgsAgree, SchedAgree, NoLostWakeup, CreateThreadIn;
    assert Allocated(s.st.pcb, p);
    hide Owned;
    CreateThreadEffect(s, init, p);
    var r := CreateThreadIn(s, init, Some(p));
    if r.1.Some? { AddedReady(s, r.0, r.1.value, p, init); }
  }

  lemma CreateProcessReady(s: State, init: Regs, a: Tid, p: Pid)
    requires CoreInv(s) && ProcOf(s, a) == Some(p)
    ensures var r := CreateProcess(s, init, a).0;
            ReadyList(s) <= ReadyList(r) && forall x: Tid :: Live(s.st.tcb, x) ==> Live(r.st.tcb, x)
  {
    hide CoreInv, CreateProcess, Founded, Live;
    CreateProcessEffect(s, init, a, p);
    var r := CreateProcess(s, init, a);
    if r.1.Some? { FoundedReady(s, r.0, r.1.value, p, init); }
  }

  lemma FoundedReady(s: State, r: State, t: Tid, p: Pid, init: Regs)
    requires Founded(s, r, t, p, init)
    ensures ReadyList(s) <= ReadyList(r) && forall x: Tid :: Live(s.st.tcb, x) ==> Live(r.st.tcb, x)
  {
    var m: State, c: Pid :|
      ProcessAdded(s, m, c, p) && ThreadAdded(m, r, t, c, init) && Q(m.st.q, PThreads(c)) == [];
    assert ReadyList(m) == ReadyList(s) && m.st.tcb == s.st.tcb;
    AddedReady(m, r, t, c, init);
  }

  lemma SetMgrReady(s: State, k: Mgr, m: Option<Tid>, a: Tid, p: Pid)
    requires Inv(s) && s.current == Some(SSI) && ProcOf(s, a) == Some(p)
    ensures var r := SetMgr(s, k, m, a);
            if r.2 then r.0.st.q == s.st.q && r.0.st.tcb == s.st.tcb
            else ReadyReaped(s.st.q, r.0.st.q, r.0.st.tcb)
  {
    hide CoreInv, NoEmpty, CountAgrees, SoftAgrees, Rests, TerminateProcess, ReadyReaped;
    if m.Some? && MgrOf(P(s.st.pcb, p), k).Some? {
      EndProcessExact(s, a, p);
      TreeGoneReady(s, TerminateProcess(s, a), p);
    }
  }

  // ----- One step -----

  /** A step either leaves the surviving ready threads in order, or dispatches the first of them. */
  lemma StepReady(s: State, e: Step) returns (full: seq<Node>)
    requires Inv(s) && Enabled(s, e)
    ensures if Dispatches(s, e) then Taken(s, Next(s, e), full)
            else ReadyReaped(s.st.q, Next(s, e).st.q, Next(s, e).st.tcb)
  {
    hide CoreInv, NoEmpty, CountAgrees, SoftAgrees, SysRecv, Serve, Timer, IoDone, Send, Taken, ReadyReaped, MsgGet;
    full := [];
    match e {
      case Compute(cpu, mem) => PrefixReaped(s, Next(s, e));
      case USend(d, v) => ReplyReady(s, s, d, v);
      case URecv(src, pmsg) =>
        full := RecvReady(s, s, src, pmsg);
        if !Dispatches(s, e) { RecvLives(s, src, pmsg); PrefixReaped(s, Next(s, e)); }
      case URequest(v, pmsg) =>
        SendStep(s, SSI, v);
        SsiLives(Asked(s, v));
        SendReady(s, SSI, s.current.value, v);
        full := RecvReady(s, Asked(s, v), Some(SSI), pmsg);
        if !Dispatches(s, e) {
          RecvLives(Asked(s, v), Some(SSI), pmsg);
          forall t: Tid | Live(s.st.tcb, t) ensures Live(Next(s, e).st.tcb, t) {
            SendLives(s, SSI, s.current.value, v, t);
          }
          PrefixReaped(s, Next(s, e));
        }
      case Tick => full := TickReady(s);
      case Terminal => full := TerminalReady(s);
      case SsiReceive(pmsg) =>
        full := RecvReady(s, s, None, pmsg);
        if Dispatches(s, e) { PcTaken(s, SysRecv(s, None, pmsg), full); }
        else { RecvLives(s, None, pmsg); PrefixReaped(s, Next(s, e)); }
      case SsiServe(req) => ServeReady(s, req, Applicant(s).value);
    }
  }

  lemma PcTaken(s: State, r: State, full: seq<Node>)
    requires Taken(s, r, full)
    ensures Taken(s, r.(ssi := Serving), full)
  {
  }

  lemma RecvLives(s: State, src: Option<Tid>, pmsg: nat)
    requires s.current.Some? && MsgGet(s.st, src, s.current).1.Some?
    ensures SysRecv(s, src, pmsg).st.tcb == s.st.tcb
  {
  }

  lemma TerminalReady(s: State) returns (full: seq<Node>)
    requires Inv(s) && On(s) && s.slot.Some?
    ensures var r := IoDone(s);
            if s.mode == Waiting && Send(s, s.slot.value, SSI, 0).1 then Taken(s, r, full)
            else ReadyReaped(s.st.q, r.st.q, r.st.tcb)
  {
    hide CoreInv, NoEmpty, CountAgrees, SoftAgrees, Send, Dispatch, Taken, ReadyReaped;
    var m := Send(s, s.slot.value, SSI, 0);
    SendReady(s, s.slot.value, SSI, 0);
    SendKeeps(s, s.slot.value, SSI, 0);
    SendFrame(s, s.slot.value, SSI, 0);
    full := ReadyList(m.0);
    if s.mode == Waiting && m.1 {
      var s2 := m.0.(slot := None, mode := Running);
      SlotCore(m.0, s2);
      assert s2.(current := None) == s2;
      DispatchTaken(s, s2);
    } else {
      forall t: Tid | Live(s.st.tcb, t) ensures Live(IoDone(s).st.tcb, t) { SendLives(s, s.slot.value, SSI, 0, t); }
      PrefixReaped(s, IoDone(s));
    }
  }

  // ----- Bounded waiting -----

  /** Filtering moves a survivor forward, never back. */
  lemma {:induction false} KeepLivePosition(a: seq<Node>, tcb: seq<Tcb>, t: Tid, k: nat) returns (j: nat)
    requires k < |a| && a[k] == TSched(t) && Live(tcb, t)
    ensures j <= k && j < |KeepLive(a, tcb)| && KeepLive(a, tcb)[j] == TSched(t)
  {
    if k == 0 {
      j := 0;
    } else {
      var i := KeepLivePosition(a[1..], tcb, t, k - 1);
      j := if Live(tcb, TidOf(a[0])) then i + 1 else i;
    }
  }

  /** One step moves a surviving ready thread forward by at least one place if it dispatches, never back. */
  lemma StepForward(s: State, e: Step, t: Tid, k: nat) returns (j: nat)
    requires Inv(s) && Enabled(s, e) && At(s, t, k)
    ensures Live(Next(s, e).st.tcb, t) ==>
              if Dispatches(s, e)
              then (if k == 0 then Next(s, e).current == Some(t) else j < k && At(Next(s, e), t, j))
              else j <= k && At(Next(s, e), t, j)
  {
    hide Inv, Next, On, Dispatches;
    var full := StepReady(s, e);
    var r := Next(s, e);
    j := 0;
    if Dispatches(s, e) {
      assert full[k] == TSched(t);
      if k > 0 { j := k - 1; assert ReadyList(r)[j] == full[k]; }
    } else if Live(r.st.tcb, t) {
      j := KeepLivePosition(ReadyList(s), r.st.tcb, t, k);
      assert KeepLive(ReadyList(s), r.st.tcb)[j] == ReadyList(r)[j];
    }
  }

  /** How often a run calls the scheduler. */
  ghost function DispatchCount(s: State, es: seq<Step>): nat
    requires Run(s, es)
    decreases |es|
  {
    if es == [] then 0 else (if Dispatches(s, es[0]) then 1 else 0) + DispatchCount(Next(s, es[0]), es[1..])
  }

  /** A ready thread with `k` threads in front of it runs within `k + 1` dispatches, unless it is terminated. */
  lemma {:induction false} BoundedWaiting(s: State, es: seq<Step>, t: Tid, k: nat) returns (i: nat)
    requires Inv(s) && Run(s, es) && At(s, t, k) && LivesThrough(s, es, t) && DispatchCount(s, es) > k
    ensures i <= |es| && Run(s, es[..i]) && After(s, es[..i]).current == Some(t) && DispatchCount(s, es[..i]) <= k + 1
    decreases |es|
  {
    hide Inv, Next, Live, Dispatches, At;
    var e, n := es[0], Next(s, es[0]);
    assert es[1..][..0] == [];
    assert LivesThrough(n, es[1..], t);
    LivesNow(n, es[1..], t);
    StepKeeps(s, e);
    var j := StepForward(s, e, t, k);
    if Dispatches(s, e) && k == 0 {
      i := 1;
      assert es[..1] == [e];
      assert Run(n, []) && After(n, []) == n && DispatchCount(n, []) == 0;
      assert [e][1..] == [];
    } else {
      var m := BoundedWaiting(n, es[1..], t, j);
      i := m + 1;
      assert es[..i][0] == e && es[..i][1..] == es[1..][..m];
    }
  }

  lemma LivesNow(s: State, es: seq<Step>, t: Tid)
    requires Run(s, es) && LivesThrough(s, es, t)
    ensures Live(s.st.tcb, t)
  {
  }

  // ----- Round robin -----

  /** The running thread and the ready ones, in the order in which they will run. */
  ghost function Cycle(s: State): seq<Node>
    requires s.current.Some?
  {
    [TSched(s.current.value)] + ReadyList(s)
  }

  /** What thread `t` has in its registers, wherever they are kept. */
  function RegsOf(s: State, t: Tid): Regs { if s.current == Some(t) then s.cpu else T(s.st.tcb, t).regs }

  ghost function Rotated(c: seq<Node>, i: nat): seq<Node>
    requires i <= |c|
  {
    c[i..] + c[..i]
  }

  ghost function Ticks(n: nat): seq<Step> { seq(n, _ => Tick) }

  ghost predicate SameRegs(s: State, r: State) { forall t: Tid :: RegsOf(r, t) == RegsOf(s, t) }

  /** Only client threads run in turns: the SSI, which masks the timer, is neither running nor ready. */
  ghost predicate Clientele(s: State) { s.current.Some? && TSched(SSI) !in Cycle(s) && On(s) }

  lemma TickRotates(s: State)
    requires Inv(s) && Clientele(s)
    ensures Enabled(s, Tick)
    ensures var r := Next(s, Tick);
            r.current.Some? && Cycle(r) == Rotated(Cycle(s), 1) && r.mode == s.mode && SameRegs(s, r)
  {
    hide CoreInv, NoEmpty, CountAgrees, SoftAgrees, Dispatch;
    PreemptKeeps(s);
    var m, c := Preempt(s), s.current.value;
    assert Cycle(s)[0] == TSched(c);
    assert ReadyList(m) == ReadyList(s) + [TSched(c)];
    DispatchReady(m);
    CurrentInPool(s);
    PutT(s.st.tcb, c, T(s.st.tcb, c).(regs := s.cpu));
    var r := Timer(s);
    assert Cycle(s) == [TSched(c)] + ReadyList(s);
    assert Cycle(r) == ReadyList(m);
    assert Rotated(Cycle(s), 1) == ReadyList(s) + [TSched(c)];
  }

  lemma CurrentInPool(s: State)
    requires CoreInv(s) && s.current.Some?
    ensures s.current.value < |s.st.tcb|
  {
    CurrentUnlinked(s);
  }

  lemma RotateMore(c: seq<Node>, i: nat)
    requires 1 <= i <= |c|
    ensures Rotated(Rotated(c, 1), i - 1) == Rotated(c, i)
    ensures forall x :: x in Rotated(c, 1) ==> x in c
  {
  }

  lemma FirstTick(s: State, i: nat)
    requires Enabled(s, Tick) && i > 0 && Run(Next(s, Tick), Ticks(i - 1))
    ensures Run(s, Ticks(i)) && After(s, Ticks(i)) == After(Next(s, Tick), Ticks(i - 1))
  {
    hide Next, Able, On;
    assert Ticks(i)[0] == Tick && Ticks(i)[1..] == Ticks(i - 1);
  }

  /** While only clients run, `i` timer ticks rotate the cycle by `i` and change nobody's registers. */
  lemma {:induction false} TicksRotate(s: State, i: nat)
    requires Inv(s) && Clientele(s) && i <= |Cycle(s)|
    ensures Run(s, Ticks(i))
    ensures var r := After(s, Ticks(i)); r.current.Some? && Cycle(r) == Rotated(Cycle(s), i) && SameRegs(s, r)
    decreases i
  {
    hide Inv, RegsOf, Cycle, Next, Able;
    if i == 0 {
      assert Cycle(s)[0..] + Cycle(s)[..0] == Cycle(s);
    } else {
      TickRotates(s);
      StepKeeps(s, Tick);
      var n := Next(s, Tick);
      RotateMore(Cycle(s), i);
      TicksRotate(n, i - 1);
      FirstTick(s, i);
    }
  }

  /** A full round restores who runs, the order of the ready queue and everybody's registers. */
  lemma FullRound(s: State)
    requires Inv(s) && Clientele(s)
    ensures var n := |ReadyList(s)| + 1;
            && Run(s, Ticks(n))
            && var r := After(s, Ticks(n));
               r.current == s.current && ReadyList(r) == ReadyList(s) && r.cpu == s.cpu && SameRegs(s, r)
  {
    hide Inv, On;
    var n := |ReadyList(s)| + 1;
    TicksRotate(s, n);
    RoundOver(s, After(s, Ticks(n)));
  }

  lemma RoundOver(s: State, r: State)
    requires s.current.Some? && r.current.Some? && SameRegs(s, r) && Cycle(r) == Rotated(Cycle(s), |Cycle(s)|)
    ensures r.current == s.current && ReadyList(r) == ReadyList(s) && r.cpu == s.cpu
  {
    assert Cycle(r) == Cycle(s);
    assert Cycle(r)[0] == Cycle(s)[0] && Cycle(r)[1..] == Cycle(s)[1..];
    assert Cycle(r)[1..] == ReadyList(r) && Cycle(s)[1..] == ReadyList(s);
    assert RegsOf(r, s.current.value) == RegsOf(s, s.current.value);
  }
}
