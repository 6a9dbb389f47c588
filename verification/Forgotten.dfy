/** A receive may name a descriptor that is not in use, which the code does not check: the receiver is forgotten. */
module Forgotten {
  import opened Types
  import opened Links
  import opened Store
  import opened Kernel
  import opened Invariant
  import opened Preserve
  import opened Reap
  import opened Subtree
  import opened Creation
  import opened Endings
  import opened Machine
  import opened Safety
  import opened Fifo
  import opened Fair
  import opened Moves
  import opened Promises

  /** `t` is blocked until a message of `u` comes, but `u` is not in use. */
  ghost predicate Forsaken(s: State, t: Tid, u: Tid) {
    T(s.st.tcb, t).status == W4Msg && T(s.st.tcb, t).wait == Some(u) && !Live(s.st.tcb, u)
  }

  lemma ForsakenFacts(s: State, t: Tid, u: Tid)
    requires Inv(s) && Forsaken(s, t, u)
    ensures t != SSI && u != SSI && s.current != Some(t) && s.current != Some(u)
  {
    hide Shape, Sep, ThreadsAgree, ProcsAgree, Tree, Owned, MsgsAgree, NoLostWakeup, NoEmpty, CountAgrees;
  }

  /** No send reaches it, since none comes from `u`. */
  lemma SendPasses(s: State, t: Tid, u: Tid, d: Tid, snd: Tid, v: Value)
    requires CoreInv(s) && T(s.st.tcb, t).status == W4Msg && T(s.st.tcb, t).wait == Some(u) && snd != u
    ensures T(Send(s, d, snd, v).0.st.tcb, t) == T(s.st.tcb, t)
  {
    hide CoreInv, Send;
    SendMoves(s, d, snd, v);
  }

  lemma AddedPasses(s: State, r: State, n: Tid, p: Pid, init: Regs, t: Tid)
    requires ThreadAdded(s, r, n, p, init) && Live(s.st.tcb, t)
    ensures T(r.st.tcb, t) == T(s.st.tcb, t)
  {
  }

  lemma FoundedPasses(s: State, r: State, n: Tid, p: Pid, init: Regs, t: Tid)
    requires Founded(s, r, n, p, init) && Live(s.st.tcb, t)
    ensures T(r.st.tcb, t) == T(s.st.tcb, t)
  {
    var m: State, c: Pid :|
      ProcessAdded(s, m, c, p) && ThreadAdded(m, r, n, c, init) && Q(m.st.q, PThreads(c)) == [];
    AddedPasses(m, r, n, c, init, t);
  }

  lemma ThreadMadePasses(s: State, init: Regs, a: Tid, p: Pid, t: Tid)
    requires CoreInv(s) && ProcOf(s, a) == Some(p) && Live(s.st.tcb, t)
    ensures T(CreateThread(s, init, a).0.st.tcb, t) == T(s.st.tcb, t)
  {
    hide SchedAgree, NoLostWakeup, Shape, Sep, ThreadsAgree, ThreadsClean, ProcsAgree, Tree, MsgsAgree, CreateThreadIn;
    assert Allocated(s.st.pcb, p);
    hide Owned;
    CreateThreadEffect(s, init, p);
    var r := CreateThreadIn(s, init, Some(p));
    if r.1.Some? { AddedPasses(s, r.0, r.1.value, p, init, t); }
  }

  /** Terminations wake only those who wait for a thread that has lived. */
  lemma WokenPasses(s: State, r: State, t: Tid, u: Tid)
    requires WaitersWoken(s, r) && Forsaken(s, t, u) && Live(r.st.tcb, t)
    ensures T(r.st.tcb, t) == T(s.st.tcb, t)
  {
    assert !Bereaved(s, r, t);
  }

  lemma ServicePasses(s: State, req: Request, a: Tid, t: Tid, u: Tid)
    requires Inv(s) && s.current == Some(SSI) && a != SSI && Live(s.st.tcb, a) && Forsaken(s, t, u)
    ensures var r := ReplyState(s, req, a).0; Live(r.st.tcb, t) ==> T(r.st.tcb, t) == T(s.st.tcb, t)
  {
    hide Shape, Sep, ThreadsAgree, ProcsAgree, Tree, Owned, MsgsAgree, SchedAgree, NoLostWakeup, NoEmpty, CountAgrees,
      SoftAgrees, Rests, CreateProcess, CreateThread, TerminateProcess, TerminateThread, Reaped, MailReaped, Within,
      Under, CellsReaped, Founded, WaitersWoken;
    assert ProcOf(s, a).Some?;
    var p := ProcOf(s, a).value;
    hide ThreadsClean, CoreInv;
    var r := ReplyState(s, req, a).0;
    match req {
      case MakeProcess(init) =>
        CreateProcessEffect(s, init, a, p);
        var c := CreateProcess(s, init, a);
        if c.1.Some? { FoundedPasses(s, c.0, c.1.value, p, init, t); }
      case MakeThread(init) => ThreadMadePasses(s, init, a, p, t);
      case EndProcess => EndProcessExact(s, a, p); if Live(r.st.tcb, t) { WokenPasses(s, r, t, u); }
      case EndThread => EndThreadExact(s, a, p); if Live(r.st.tcb, t) { WokenPasses(s, r, t, u); }
      case SetManager(k, m) =>
        EndProcessExact(s, a, p);
        if m.Some? && MgrOf(P(s.st.pcb, p), k).Some? && Live(r.st.tcb, t) { WokenPasses(s, r, t, u); }
      case Io(terminal) => DoIoStore(s, terminal, a);
      case Query(v) =>
      case Unknown =>
    }
  }

  lemma ServePasses(s: State, req: Request, t: Tid, u: Tid)
    requires Inv(s) && Able(s, SsiServe(req)) && Forsaken(s, t, u)
    ensures var r := Next(s, SsiServe(req)); Live(r.st.tcb, t) ==> T(r.st.tcb, t) == T(s.st.tcb, t)
  {
    hide CoreInv, NoEmpty, CountAgrees, SoftAgrees, Rests, Serve, Send, ReplyState;
    var a := Applicant(s).value;
    ServiceRuns(s, req);
    ForsakenFacts(s, t, u);
    ReplyKeeps(s, req, a);
    ServicePasses(s, req, a, t, u);
    var p := ReplyState(s, req, a);
    if p.1.Some? {
      SendLives(p.0, a, SSI, p.1.value, t);
      if Live(p.0.st.tcb, t) { SendPasses(p.0, t, u, a, SSI, p.1.value); }
    }
  }

  /** No step changes anything about a forsaken thread, unless it ends it. */
  lemma StepPasses(s: State, e: Step, t: Tid, u: Tid)
    requires Inv(s) && Enabled(s, e) && Forsaken(s, t, u)
    ensures var r := Next(s, e); Live(r.st.tcb, t) ==> T(r.st.tcb, t) == T(s.st.tcb, t)
  {
    hide CoreInv, NoEmpty, CountAgrees, SoftAgrees, Rests, SysRecv, Serve, Timer, IoDone, Send, SameMail, MsgGet;
    ForsakenFacts(s, t, u);
    match e {
      case Compute(cpu, mem) =>
      case USend(d, v) => SendPasses(s, t, u, d, s.current.value, v);
      case URecv(src, pmsg) => RecvMoves(s, s.current.value, src, pmsg);
      case URequest(v, pmsg) =>
        SendPasses(s, t, u, SSI, s.current.value, v);
        SendStep(s, SSI, v);
        SsiLives(Asked(s, v));
        RecvMoves(Asked(s, v), s.current.value, Some(SSI), pmsg);
      case Tick => TickPasses(s, t);
      case Terminal => TerminalPasses(s, t, u);
      case SsiReceive(pmsg) => RecvMoves(s, SSI, None, pmsg);
      case SsiServe(req) => ServePasses(s, req, t, u);
    }
  }

  lemma TickPasses(s: State, t: Tid)
    requires CoreInv(s) && s.current != Some(t)
    ensures T(Timer(s).st.tcb, t) == T(s.st.tcb, t)
  {
    hide CoreInv, SameMail, Dispatch, ReadyList;
    if s.current.Some? {
      Ticked(s, s.current.value);
    } else {
      Schedules(s);
      assert s.(current := None) == s;
      IdleTick(s);
    }
  }

  lemma TerminalPasses(s: State, t: Tid, u: Tid)
    requires Inv(s) && On(s) && s.slot.Some? && Forsaken(s, t, u)
    ensures T(IoDone(s).st.tcb, t) == T(s.st.tcb, t)
  {
    hide CoreInv, NoEmpty, CountAgrees, Send, Dispatch, SameMail, ReadyList;
    var d := s.slot.value;
    ForsakenFacts(s, t, u);
    SendPasses(s, t, u, d, SSI, 0);
    SendFrame(s, d, SSI, 0);
    SendKeeps(s, d, SSI, 0);
    var m := Send(s, d, SSI, 0).0;
    if s.mode == Waiting {
      var n := m.(slot := None, mode := Running);
      SlotCore(m, n);
      assert n.(current := None) == n;
      Schedules(n);
    }
  }

  /** `u` is in use in no state of the run. */
  ghost predicate UnusedThrough(s: State, es: seq<Step>, u: Tid)
    requires Run(s, es)
    decreases |es|
  {
    !Live(s.st.tcb, u) && (es != [] ==> UnusedThrough(Next(s, es[0]), es[1..], u))
  }

  /** Until its descriptor is allocated again, whoever waits for a thread that is not in use stays blocked, without an
      error, in every run of the machine. */
  lemma {:induction false} StaysForsaken(s: State, es: seq<Step>, t: Tid, u: Tid)
    requires Inv(s) && Run(s, es) && Forsaken(s, t, u) && LivesThrough(s, es, t) && UnusedThrough(s, es, u)
    ensures Forsaken(After(s, es), t, u) && T(After(s, es).st.tcb, t) == T(s.st.tcb, t)
    decreases |es|
  {
    hide Inv, Next, Able, On, Live;
    if es != [] {
      var n := Next(s, es[0]);
      StepKeeps(s, es[0]);
      StepPasses(s, es[0], t, u);
      LivesNow(n, es[1..], t);
      UnusedNow(n, es[1..], u);
      StaysForsaken(n, es[1..], t, u);
    }
  }

  lemma UnusedNow(s: State, es: seq<Step>, u: Tid)
    requires Run(s, es) && UnusedThrough(s, es, u)
    ensures !Live(s.st.tcb, u)
  {
  }
}
