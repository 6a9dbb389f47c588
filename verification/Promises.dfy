/** No request gets lost: a client waits in vain for the SSI exactly when the message pool was empty as it asked. */
module Promises {
  import opened Types
  import opened Links
  import opened Store
  import opened Kernel
  import opened Invariant
  import opened Preserve
  import opened Lifecycle
  import opened Termination
  import opened Mail
  import opened Reap
  import opened Subtree
  import opened Creation
  import opened Endings
  import opened Machine
  import opened Safety
  import opened Requests
  import opened FastPath
  import opened Fifo
  import opened Fair
  import opened Moves
  import opened Ssi
  import opened Delivery
  import opened Protocol

  /** The SSI holds the request of `x`, or has it in its mailbox, or has passed it on to the terminal. */
  ghost predicate Owed(s: State, x: Tid) { Held(s) == Some(x) || s.slot == Some(x) || Pending(s.st, x, SSI) != [] }

  /** `x` waits for the SSI, which knows nothing of it. */
  ghost predicate Stranded(s: State, x: Tid) { Waits(s.st.tcb, x) && !Owed(s, x) }

  /** `x` asks, and its request finds neither the SSI waiting nor a free message. */
  ghost predicate Refused(s: State, e: Step, x: Tid)
    requires Able(s, e)
  {
    e.URequest? && s.current == Some(x) && T(s.st.tcb, SSI).status == Ready && Q(s.st.q, FreeMsgs) == []
  }

  /** That is exactly when the send of the request fails. */
  lemma RefusedIsFailure(s: State, e: Step, x: Tid)
    requires Inv(s) && Enabled(s, e)
    ensures Refused(s, e, x) <==> e.URequest? && s.current == Some(x) && !Send(s, SSI, x, e.v).1
  {
    hide CoreInv, NoEmpty, CountAgrees, SoftAgrees, Send;
    SsiLives(s);
    if e.URequest? { FastNeedsNoSlot(s, SSI, x, e.v); }
  }

  // ----- Threads and requests in steps of clients and interrupts -----

  /** The SSI has the same status, registers and position in its loop. */
  ghost predicate SsiFrame(s: State, r: State) {
    r.ssi == s.ssi && T(r.st.tcb, SSI).status == T(s.st.tcb, SSI).status && RegsOf(r, SSI) == RegsOf(s, SSI)
  }

  lemma SsiFrameHeld(s: State, r: State)
    requires SsiFrame(s, r)
    ensures Held(r) == Held(s)
  {
  }

  /** What a send does to the thread at the other end, and to nobody else. */
  lemma SendMoves(s: State, d: Tid, snd: Tid, v: Value)
    requires CoreInv(s)
    ensures var r := Send(s, d, snd, v).0;
            && r.current == s.current && r.slot == s.slot && r.ssi == s.ssi && r.mode == s.mode
            && (forall u: Tid {:trigger T(r.st.tcb, u)} :: u != d ==> T(r.st.tcb, u) == T(s.st.tcb, u))
            && if Awaits(T(s.st.tcb, d), snd)
               then T(r.st.tcb, d).status == Ready && T(r.st.tcb, d).regs.a1 == Ptr(Some(snd))
               else T(r.st.tcb, d) == T(s.st.tcb, d)
  {
    hide CoreInv, Resume, MsgAdd;
    SendFrame(s, d, snd, v);
    if Awaits(T(s.st.tcb, d), snd) { DirectDelivery(s, d, snd, v); } else { NotResumed(s, d, snd, v); }
  }

  lemma NotResumed(s: State, d: Tid, snd: Tid, v: Value)
    requires !Awaits(T(s.st.tcb, d), snd)
    ensures Send(s, d, snd, v).0.st.tcb == s.st.tcb
  {
  }

  /** A receive moves nobody but the receiver, which goes on or waits for `src`. */
  lemma RecvMoves(s: State, t: Tid, src: Option<Tid>, pmsg: nat)
    requires CoreInv(s) && s.current == Some(t) && CanReceive(s, src)
    ensures var r := SysRecv(s, src, pmsg);
            && r.slot == s.slot && r.ssi == s.ssi
            && (forall u: Tid {:trigger T(r.st.tcb, u)} :: u != t ==> T(r.st.tcb, u) == T(s.st.tcb, u))
            && (t != SSI ==> SsiFrame(s, r))
            && if MsgGet(s.st, src, s.current).1.Some? then T(r.st.tcb, t) == T(s.st.tcb, t)
               else T(r.st.tcb, t).status == W4Msg && T(r.st.tcb, t).wait == src
  {
    hide CoreInv, SameMail, ReadyList;
    if MsgGet(s.st, src, s.current).1.Some? {
      RecvLives(s, src, pmsg);
    } else {
      Yields(s, t, src, pmsg);
      hide SysRecv;
    }
  }

  /** What steps other than those of the SSI do to a client. */
  ghost predicate ClientStep(s: State, e: Step, r: State, x: Tid)
    requires Able(s, e)
  {
    && (Waits(r.st.tcb, x) <==>
          (Waits(s.st.tcb, x) && !(e == Terminal && s.slot == Some(x)))
          || (e.URequest? && s.current == Some(x) && MsgGet(Asked(s, e.v).st, Some(SSI), s.current).1.None?))
    && (Held(r) == if e.URequest? && T(s.st.tcb, SSI).status == W4Msg then s.current else Held(s))
    && r.slot == if e == Terminal then None else s.slot
  }

  lemma RunningNotWaiting(s: State)
    requires CoreInv(s) && s.current.Some?
    ensures !Waits(s.st.tcb, s.current.value)
  {
    CurrentUnlinked(s);
  }

  /** A user cannot wake a thread that waits for the SSI. */
  lemma UserSend(s: State, d: Tid, v: Value, x: Tid)
    requires Inv(s) && UserRuns(s) && d != SSI
    ensures ClientStep(s, USend(d, v), SysSend(s, d, v).0, x)
  {
    hide CoreInv, NoEmpty, CountAgrees, SoftAgrees, Send;
    SendMoves(s, d, s.current.value, v);
    SsiFrameHeld(s, SysSend(s, d, v).0);
    hide Held;
  }

  lemma UserRecv(s: State, src: Option<Tid>, pmsg: nat, x: Tid)
    requires Inv(s) && UserRuns(s) && src != Some(SSI) && CanReceive(s, src)
    ensures ClientStep(s, URecv(src, pmsg), SysRecv(s, src, pmsg), x)
  {
    hide CoreInv, NoEmpty, CountAgrees, SoftAgrees, SysRecv, MsgGet;
    RecvMoves(s, s.current.value, src, pmsg);
    RunningNotWaiting(s);
    SsiFrameHeld(s, SysRecv(s, src, pmsg));
    hide Held;
  }

  /** With the SSI waiting it has the request in hand at once; otherwise it keeps what it has. */
  lemma UserRequest(s: State, v: Value, pmsg: nat, x: Tid)
    requires Inv(s) && Asking(s) && UserRuns(s)
    ensures ClientStep(s, URequest(v, pmsg), Next(s, URequest(v, pmsg)), x)
  {
    hide CoreInv, NoEmpty, CountAgrees, SoftAgrees, Send, SysRecv, MsgGet, Waits;
    var t, m := s.current.value, Asked(s, v);
    var r := Next(s, URequest(v, pmsg));
    SendStep(s, SSI, v);
    SendMoves(s, SSI, t, v);
    SsiLives(m);
    RecvMoves(m, t, Some(SSI), pmsg);
    RunningNotWaiting(s);
    assert Held(m) == if T(s.st.tcb, SSI).status == W4Msg then Some(t) else Held(s);
    SsiFrameHeld(m, r);
    hide Held, SsiFrame;
    WaitsAfter(s, m, r, t, x);
  }

  lemma WaitsAfter(s: State, m: State, r: State, t: Tid, x: Tid)
    requires t != SSI && !Waits(s.st.tcb, t)
    requires forall u: Tid :: u != SSI ==> T(m.st.tcb, u) == T(s.st.tcb, u)
    requires forall u: Tid :: u != t ==> T(r.st.tcb, u) == T(m.st.tcb, u)
    requires if MsgGet(m.st, Some(SSI), Some(t)).1.Some? then T(r.st.tcb, t) == T(m.st.tcb, t)
             else T(r.st.tcb, t).status == W4Msg && T(r.st.tcb, t).wait == Some(SSI)
    ensures Waits(r.st.tcb, x) <==> Waits(s.st.tcb, x) || (x == t && MsgGet(m.st, Some(SSI), Some(t)).1.None?)
  {
    hide MsgGet;
  }

  lemma TickStepped(s: State, x: Tid)
    requires Inv(s) && Able(s, Tick)
    ensures ClientStep(s, Tick, Timer(s), x)
  {
    hide CoreInv, NoEmpty, CountAgrees, SoftAgrees, SameMail, ReadyList, Timer;
    if s.current.Some? {
      Ticked(s, s.current.value);
      RunningNotWaiting(s);
      CurrentUnlinked(s);
    } else {
      Schedules(s);
      assert s.(current := None) == s;
      IdleTick(s);
    }
    SsiFrameHeld(s, Timer(s));
    hide Held;
  }

  lemma IdleTick(s: State)
    requires s.current.None?
    ensures Timer(s) == Dispatch(s)
  {
  }

  /** The terminal answers the client in the slot and nobody else. */
  lemma TerminalStepped(s: State, x: Tid)
    requires Inv(s) && SsiInv(s) && On(s) && Able(s, Terminal)
    ensures ClientStep(s, Terminal, IoDone(s), x)
  {
    hide CoreInv, NoEmpty, CountAgrees, SoftAgrees, SameMail, Send, Dispatch, ReadyList, NotFromSsi, MailOk;
    var d := s.slot.value;
    TerminalSsi(s);
    SendMoves(s, d, SSI, 0);
    SendKeeps(s, d, SSI, 0);
    var m := Send(s, d, SSI, 0).0;
    var n := m.(slot := None);
    if s.mode == Waiting {
      n := m.(slot := None, mode := Running);
      SlotCore(m, n);
      assert n.(current := None) == n;
      Schedules(n);
    }
    var r := IoDone(s);
    SsiFrameHeld(s, r);
    hide Held;
  }

  lemma StepOfClient(s: State, e: Step, x: Tid)
    requires Inv(s) && SsiInv(s) && Enabled(s, e) && Polite(s, e) && !e.SsiServe? && !e.SsiReceive?
    ensures ClientStep(s, e, Next(s, e), x)
  {
    hide CoreInv, NoEmpty, CountAgrees, SoftAgrees, Rests, SysRecv, Timer, IoDone, Send, ClientStep, MailOk, NotFromSsi;
    match e {
      case Compute(cpu, mem) => Computed(s, cpu, mem, x);
      case USend(d, v) => UserSend(s, d, v, x);
      case URecv(src, pmsg) => UserRecv(s, src, pmsg, x);
      case URequest(v, pmsg) => UserRequest(s, v, pmsg, x);
      case Tick => TickStepped(s, x);
      case Terminal => TerminalStepped(s, x);
    }
  }

  lemma Computed(s: State, cpu: Regs, mem: map<nat, Value>, x: Tid)
    requires UserRuns(s)
    ensures ClientStep(s, Compute(cpu, mem), s.(cpu := cpu, mem := mem), x)
  {
  }

  // ----- The SSI -----

  /** Taking a request out of the mailbox keeps the promise to its client. */
  lemma SsiReceives(s: State, pmsg: nat, x: Tid)
    requires Inv(s) && SsiInv(s) && SsiRuns(s, Receiving) && x != SSI
    ensures var r := Next(s, SsiReceive(pmsg));
            (Waits(r.st.tcb, x) <==> Waits(s.st.tcb, x)) && (Owed(r, x) <==> Owed(s, x))
  {
    hide CoreInv, NoEmpty, CountAgrees, SoftAgrees, SysRecv, Pending, MsgGet, MailOk, NotFromSsi, SameMail;
    var r := Next(s, SsiReceive(pmsg));
    var g := MsgGet(s.st, None, Some(SSI));
    RecvMoves(s, SSI, None, pmsg);
    MsgGetPending(s.st, None, SSI, x, SSI) by { MailAgrees(s); }
    if g.1.Some? {
      SenderNamed(s);
      GotRequest(s, pmsg);
      assert Pending(s.st, x, SSI)
          == (if g.1.value.sender == Some(x) then [g.1.value.value] else []) + Pending(g.0, x, SSI);
      assert g.1.value.sender != Some(x) ==> Pending(s.st, x, SSI) == Pending(g.0, x, SSI);
    } else {
      Yields(s, SSI, None, pmsg);
      SameMailPending(s, SysRecv(s, None, pmsg), x, SSI);
    }
  }

  lemma MailAgrees(s: State)
    requires CoreInv(s)
    ensures Shape(s.st) && Sep(s.st.q) && MsgsAgree(s.st.q, s.st.msg, s.st.tcb)
  {
  }

  lemma SenderNamed(s: State)
    requires CoreInv(s) && MsgGet(s.st, None, Some(SSI)).1.Some?
    ensures MsgGet(s.st, None, Some(SSI)).1.value.sender.Some?
  {
    hide SchedAgree, NoLostWakeup, ThreadsAgree, ThreadsClean, ProcsAgree, Tree, Owned, MsgFree;
    var box := Q(s.st.q, TMsgq(SSI));
    HeadMsg(s.st, SSI);
    assert MNext(MidOf(box[0])) in Q(s.st.q, TMsgq(SSI));
  }

  lemma GotRequest(s: State, pmsg: nat)
    requires s.current == Some(SSI) && MsgGet(s.st, None, s.current).1.Some?
    ensures var g := MsgGet(s.st, None, s.current); var r := SysRecv(s, None, pmsg);
            r.st == g.0 && r.current == s.current && r.cpu.a1 == Ptr(g.1.value.sender)
  {
  }

  /** Which clients still wait after a service, before its reply. */
  lemma ServiceWaits(s: State, req: Request, a: Tid, x: Tid)
    requires Inv(s) && s.current == Some(SSI) && a != SSI && Live(s.st.tcb, a) && x != SSI
    ensures var r := ReplyState(s, req, a);
            && (Waits(r.0.st.tcb, x) <==> Waits(s.st.tcb, x) && Live(r.0.st.tcb, x))
            && (r.1.None? && !req.Io? && r.0.mode != Failed ==> !Live(r.0.st.tcb, a))
            && (r.0.mode != Failed ==> r.0.slot == if req.Io? then Some(a) else s.slot)
            && (req.Io? && r.0.mode != Failed ==> s.slot.None?)
            && (r.1.Some? ==> r.0.mode == s.mode && !req.Io?)
  {
    hide Shape, Sep, ThreadsAgree, ProcsAgree, Tree, Owned, MsgsAgree, SchedAgree, NoLostWakeup, NoEmpty, CountAgrees,
      SoftAgrees, Rests, CreateProcess, CreateThread, TerminateProcess, TerminateThread, Reaped, MailReaped, Within,
      Under, CellsReaped, Founded, Untouched, WaitersWoken;
    assert ProcOf(s, a).Some?;
    var p := ProcOf(s, a).value;
    hide ThreadsClean, CoreInv;
    match req {
      case MakeProcess(init) =>
        CreateProcessEffect(s, init, a, p);
        MakeProcessKeeps(s, init, a, p);
        var c := CreateProcess(s, init, a);
        if c.1.Some? { FoundedWaiting(s, c.0, c.1.value, p, init, x); } else { UntouchedWaits(s, c.0); }
      case MakeThread(init) =>
        MakeThreadKeeps(s, init, a, p);
        ThreadMadeWaits(s, init, a, p, x);
      case EndProcess => ProcessEndedWaits(s, a, p, x);
      case EndThread =>
        EndThreadExact(s, a, p);
        EndThreadKeeps(s, a, p);
        WokenWaits(s, TerminateThread(s, a), x);
        ReapedSlot(s, TerminateThread(s, a));
      case SetManager(k, m) =>
        if m.Some? && MgrOf(P(s.st.pcb, p), k).Some? { ProcessEndedWaits(s, a, p, x); }
      case Io(terminal) =>
      case Query(v) =>
      case Unknown =>
    }
  }

  lemma ProcessEndedWaits(s: State, a: Tid, p: Pid, x: Tid)
    requires Inv(s) && s.current == Some(SSI) && ProcOf(s, a) == Some(p) && Live(s.st.tcb, a) && x != SSI
    ensures var r := TerminateProcess(s, a);
            && (Waits(r.st.tcb, x) <==> Waits(s.st.tcb, x) && Live(r.st.tcb, x)) && !Live(r.st.tcb, a)
            && r.slot == s.slot && r.mode == s.mode
  {
    hide CoreInv, NoEmpty, CountAgrees, SoftAgrees, Rests, TerminateProcess, Reaped, MailReaped, Within, Under,
      CellsReaped, WaitersWoken;
    EndProcessExact(s, a, p);
    EndProcessKeeps(s, a, p);
    SelfUnder(s.st.pcb, p);
    WokenWaits(s, TerminateProcess(s, a), x);
    ReapedSlot(s, TerminateProcess(s, a));
  }

  /** Whoever waits for the SSI is not woken, since the SSI stays. */
  lemma WokenWaits(s: State, r: State, x: Tid)
    requires CoreInv(r) && WaitersWoken(s, r) && x != SSI
    ensures Waits(r.st.tcb, x) <==> Waits(s.st.tcb, x) && Live(r.st.tcb, x)
  {
    hide Shape, Sep, ThreadsAgree, ProcsAgree, Tree, Owned, MsgsAgree, SchedAgree, NoLostWakeup;
    assert Live(r.st.tcb, SSI);
    assert T(r.st.tcb, x) == T(r.st.tcb, x);
  }

  lemma ReapedSlot(s: State, r: State)
    requires Reaped(s, r)
    ensures r.slot == s.slot
  {
  }

  lemma AddedWaiting(s: State, r: State, t: Tid, p: Pid, init: Regs, x: Tid)
    requires ThreadAdded(s, r, t, p, init) && x != SSI
    ensures (Waits(r.st.tcb, x) <==> Waits(s.st.tcb, x)) && (Waits(s.st.tcb, x) ==> Live(r.st.tcb, x))
    ensures r.slot == s.slot && r.mode == s.mode
  {
    assert T(r.st.tcb, x) == if x == t then Born(p, init) else T(s.st.tcb, x);
  }

  lemma ThreadMadeWaits(s: State, init: Regs, a: Tid, p: Pid, x: Tid)
    requires CoreInv(s) && ProcOf(s, a) == Some(p) && x != SSI
    ensures var r := CreateThread(s, init, a).0;
            && (Waits(r.st.tcb, x) <==> Waits(s.st.tcb, x) && Live(r.st.tcb, x)) && r.slot == s.slot && r.mode == s.mode
  {
    hide SchedAgree, NoLostWakeup, Shape, Sep, ThreadsAgree, ThreadsClean, ProcsAgree, Tree, MsgsAgree, CreateThreadIn;
    assert Allocated(s.st.pcb, p);
    hide Owned;
    CreateThreadEffect(s, init, p);
    var r := CreateThreadIn(s, init, Some(p));
    if r.1.Some? { AddedWaiting(s, r.0, r.1.value, p, init, x); }
  }

  lemma FoundedWaiting(s: State, r: State, t: Tid, p: Pid, init: Regs, x: Tid)
    requires Founded(s, r, t, p, init) && x != SSI
    ensures (Waits(r.st.tcb, x) <==> Waits(s.st.tcb, x) && Live(r.st.tcb, x)) && r.slot == s.slot && r.mode == s.mode
  {
    var m: State, c: Pid :|
      ProcessAdded(s, m, c, p) && ThreadAdded(m, r, t, c, init) && Q(m.st.q, PThreads(c)) == [];
    AddedWaiting(m, r, t, c, init, x);
  }

  /** Whom the SSI answers does not wait any more, nor does whom it ends; nobody else notices. */
  lemma SsiServes(s: State, req: Request, x: Tid)
    requires Inv(s) && SsiInv(s) && Enabled(s, SsiServe(req)) && x != SSI
    ensures var r := Next(s, SsiServe(req)); var a := Applicant(s).value;
            r.mode != Failed ==>
              && Held(r) == None && Held(s) == Some(a)
              && (Waits(r.st.tcb, x) <==> Waits(s.st.tcb, x) && Live(r.st.tcb, x) && (x == a ==> req.Io?))
              && r.slot == (if req.Io? then Some(a) else s.slot) && (req.Io? ==> s.slot.None?)
  {
    hide CoreInv, NoEmpty, CountAgrees, SoftAgrees, Rests, Serve, SysSend, ReplyState, Send, MailOk, NotFromSsi;
    var a := Applicant(s).value;
    ServesLive(s, req);
    HeldIs(s);
    ReplyKeeps(s, req, a);
    ServiceWaits(s, req, a, x);
    ServiceWaits(s, req, a, a);
    var p := ReplyState(s, req, a);
    if p.1.Some? {
      SendMoves(p.0, a, SSI, p.1.value);
      ReplySent(p.0, a, p.1.value);
      AnsweredNotWaiting(p.0, a, p.1.value);
    }
    hide Inv;
  }

  lemma HeldIs(s: State)
    requires CoreInv(s) && SsiRuns(s, Serving)
    ensures Held(s) == Applicant(s)
  {
    CurrentUnlinked(s);
  }

  lemma AnsweredNotWaiting(c: State, a: Tid, v: Value)
    requires CoreInv(c)
    ensures !Waits(Send(c, a, SSI, v).0.st.tcb, a)
  {
    hide CoreInv, Send;
    SendMoves(c, a, SSI, v);
  }

  lemma ReplySent(c: State, a: Tid, v: Value)
    requires c.current == Some(SSI)
    ensures SysSend(c, a, v).0.st == Send(c, a, SSI, v).0.st && SysSend(c, a, v).0.slot == Send(c, a, SSI, v).0.slot
    ensures SysSend(c, a, v).0.mode == Send(c, a, SSI, v).0.mode
  {
  }

  // ----- The mailbox of the SSI -----

  /** Apart from the SSI taking messages out, the mailbox only gets the request of the running client. */
  lemma RequestsQueued(s: State, e: Step, x: Tid)
    requires Inv(s) && SsiInv(s) && Enabled(s, e) && Polite(s, e) && !e.SsiReceive? && x != SSI
    requires Live(s.st.tcb, x)
    ensures var queued := e.URequest? && s.current == Some(x) && Send(s, SSI, x, e.v).1 && !Awaits(T(s.st.tcb, SSI), x);
            Live(Next(s, e).st.tcb, x) ==>
              Pending(Next(s, e).st, x, SSI) == Pending(s.st, x, SSI) + if queued then [e.v] else []
  {
    hide CoreInv, NoEmpty, CountAgrees, SoftAgrees, Next, Pending, Send, ReplyState, MsgGet, MailOk, NotFromSsi, Ends;
    StepKeeps(s, e);
    SsiLives(s);
    SsiLives(Next(s, e));
    if Live(Next(s, e).st.tcb, x) { StepFifo(s, e, x, SSI); }
    RefusedNotAwaited(s, x, if e.URequest? then e.v else 0);
    if e.SsiServe? { ServiceRuns(s, e.req); }
    var a, b := Pending(s.st, x, SSI), Pending(Next(s, e).st, x, SSI);
    assert a + [] == a && [] + b == b;
    if Got(s, e, x, SSI) != [] {
      assert a == [] by { NotWaitingNothing(s, x); }
    }
  }

  lemma RefusedNotAwaited(s: State, x: Tid, v: Value)
    ensures Awaits(T(s.st.tcb, SSI), x) ==> Send(s, SSI, x, v).1
  {
  }

  /** A client that does not wait has no request at the SSI. */
  lemma NotWaitingNothing(s: State, x: Tid)
    requires SsiInv(s) && (s.current == Some(x) ==> CoreInv(s)) && (s.current == Some(x) || !Waits(s.st.tcb, x))
    ensures Pending(s.st, x, SSI) == [] && Held(s) != Some(x) && s.slot != Some(x)
  {
    hide NotFromSsi, CoreInv;
    if s.current == Some(x) { RunningNotWaiting(s); }
    var box := Q(s.st.q, TMsgq(SSI));
    forall n | n in box ensures M(s.st.msg, MidOf(n)).sender != Some(x) {
      assert Sender(s.st.msg, n).Some?;
    }
    FromNothing(box, s.st.msg, x);
  }

  // ----- The theorem -----

  /** A step strands exactly the client whose request it refuses, and whoever is stranded stays so for life. */
  lemma StepStrands(s: State, e: Step, x: Tid)
    requires Inv(s) && SsiInv(s) && Enabled(s, e) && Polite(s, e) && x != SSI
    ensures var r := Next(s, e);
            r.mode != Failed ==>
              (Stranded(r, x) <==> Live(r.st.tcb, x) && (Stranded(s, x) || Refused(s, e, x)))
  {
    hide CoreInv, NoEmpty, CountAgrees, SoftAgrees, Rests, Next, Pending, Send, MsgGet, SsiInv, Held, Ends, Awaits;
    var r := Next(s, e);
    match e {
      case SsiReceive(pmsg) => SsiReceives(s, pmsg, x);
      case SsiServe(req) => ServeStrands(s, req, x);
      case URequest(v, pmsg) =>
        if s.current == Some(x) { RequestStrands(s, v, pmsg, x); } else { OthersStranded(s, e, x); }
      case _ =>
        OthersStranded(s, e, x);
    }
  }

  lemma WaitingLives(s: State, x: Tid)
    ensures Waits(s.st.tcb, x) ==> Live(s.st.tcb, x)
  {
  }

  lemma ServeStrands(s: State, req: Request, x: Tid)
    requires Inv(s) && SsiInv(s) && Enabled(s, SsiServe(req)) && Polite(s, SsiServe(req)) && x != SSI
    ensures var r := Next(s, SsiServe(req));
            r.mode != Failed ==> (Stranded(r, x) <==> Live(r.st.tcb, x) && Stranded(s, x))
  {
    hide CoreInv, NoEmpty, CountAgrees, SoftAgrees, Rests, Next, Pending, Send, SsiInv, Held, Ends, Waits, On, Able;
    var r := Next(s, SsiServe(req));
    SsiServes(s, req, x);
    WaitingLives(s, x);
    if Waits(s.st.tcb, x) && Live(r.st.tcb, x) {
      RequestsQueued(s, SsiServe(req), x);
      assert Pending(s.st, x, SSI) + [] == Pending(s.st, x, SSI);
    }
  }

  lemma OthersStranded(s: State, e: Step, x: Tid)
    requires Inv(s) && SsiInv(s) && Enabled(s, e) && Polite(s, e) && !e.SsiServe? && !e.SsiReceive? && x != SSI
    requires !(e.URequest? && s.current == Some(x))
    ensures Stranded(Next(s, e), x) <==> Live(Next(s, e).st.tcb, x) && Stranded(s, x)
  {
    hide CoreInv, NoEmpty, CountAgrees, SoftAgrees, Rests, Next, Pending, Send, MsgGet, SsiInv, Ends, Awaits, On, Able;
    var r := Next(s, e);
    StepOfClient(s, e, x);
    WaitingLives(s, x);
    WaitingLives(r, x);
    if Waits(s.st.tcb, x) && Waits(r.st.tcb, x) {
      RequestsQueued(s, e, x);
      assert Pending(s.st, x, SSI) + [] == Pending(s.st, x, SSI);
      assert T(s.st.tcb, SSI).status == W4Msg ==> Held(s).None?;
    } else {
      StrandedStays(s, e, x);
    }
  }

  lemma StrandedStays(s: State, e: Step, x: Tid)
    requires Able(s, e) && ClientStep(s, e, Next(s, e), x)
    ensures Stranded(s, x) ==> Waits(Next(s, e).st.tcb, x)
  {
    hide Next, Held, Pending, MsgGet;
  }

  lemma RequestStrands(s: State, v: Value, pmsg: nat, x: Tid)
    requires Inv(s) && SsiInv(s) && Enabled(s, URequest(v, pmsg)) && s.current == Some(x) && x != SSI
    ensures var r := Next(s, URequest(v, pmsg));
            !Stranded(s, x) && Live(r.st.tcb, x) && (Stranded(r, x) <==> Refused(s, URequest(v, pmsg), x))
  {
    hide CoreInv, NoEmpty, CountAgrees, SoftAgrees, Next, Pending, Send, MsgGet, MailOk, NotFromSsi, Held;
    var e := URequest(v, pmsg);
    var r := Next(s, e);
    StepOfClient(s, e, x);
    AskedBlocks(s, v, pmsg);
    RunningNotWaiting(s);
    NotWaitingNothing(s, x);
    assert Waits(r.st.tcb, x);
    CurrentUnlinked(s);
    RequestsQueued(s, e, x);
    RefusedNotAwaited(s, x, v);
    RefusedIsFailure(s, e, x);
    assert T(s.st.tcb, SSI).wait.None?;
    assert [] + [v] == [v];
  }

  /** Was a request of `x` refused in the run? */
  ghost predicate EverRefused(s: State, es: seq<Step>, x: Tid)
    requires Run(s, es)
    decreases |es|
  {
    es != [] && (Refused(s, es[0], x) || EverRefused(Next(s, es[0]), es[1..], x))
  }

  /** Over every polite run: a client that waits for the SSI is owed an answer, unless it was stranded before, or a
      request of it was refused; and then, as long as it lives, it waits in vain. */
  lemma {:induction false} RunStrands(s: State, es: seq<Step>, x: Tid)
    requires Inv(s) && SsiInv(s) && PoliteRun(s, es) && Run(s, es) && After(s, es).mode != Failed && x != SSI
    ensures Stranded(After(s, es), x) ==> Stranded(s, x) || EverRefused(s, es, x)
    ensures LivesThrough(s, es, x) && (Stranded(s, x) || EverRefused(s, es, x)) ==> Stranded(After(s, es), x)
    decreases |es|
  {
    hide Inv, SsiInv, Next, Able, Stranded, Refused, Polite, Live;
    if es != [] {
      var n := Next(s, es[0]);
      StepKeeps(s, es[0]);
      StepSsi(s, es[0]);
      assert n.mode != Failed by {
        if es[1..] != [] { assert Enabled(n, es[1..][0]); } else { assert After(n, es[1..]) == n; }
      }
      StepStrands(s, es[0], x);
      RunStrands(n, es[1..], x);
      if LivesThrough(s, es, x) { LivesNow(n, es[1..], x); }
    }
  }

  // ----- Never twice -----

  lemma {:induction false} AtMostOne(box: seq<Node>, msg: seq<Msg>, x: Tid)
    requires forall i, j :: 0 <= i < j < |box| ==> Sender(msg, box[i]) != Sender(msg, box[j])
    ensures |From(box, msg, x)| <= 1
  {
    if box != [] {
      AtMostOne(box[1..], msg, x);
      if Sender(msg, box[0]) == Some(x) {
        forall n | n in box[1..] ensures M(msg, MidOf(n)).sender != Some(x) {
          var i :| 0 <= i < |box[1..]| && box[1..][i] == n;
          assert box[i + 1] == n && Sender(msg, box[0]) != Sender(msg, box[i + 1]);
        }
        FromNothing(box[1..], msg, x);
      }
    }
  }

  /** A client waiting for the SSI, and not in vain, has exactly one request: in the mailbox, in the hands of the SSI
      or at the terminal. Nobody else has any. */
  lemma ExactlyOneRequest(s: State, x: Tid)
    requires SsiInv(s)
    ensures |Pending(s.st, x, SSI)| + (if Held(s) == Some(x) then 1 else 0) + (if s.slot == Some(x) then 1 else 0)
            == if Waits(s.st.tcb, x) && !Stranded(s, x) then 1 else 0
  {
    hide NotFromSsi, Waits, Held;
    var box := Q(s.st.q, TMsgq(SSI));
    AtMostOne(box, s.st.msg, x);
    if Held(s) == Some(x) || s.slot == Some(x) {
      assert MailOk(s.st, Some(x));
      NoPendingFrom(s.st, x);
    }
    if !Waits(s.st.tcb, x) {
      forall n | n in box ensures M(s.st.msg, MidOf(n)).sender != Some(x) { assert Sender(s.st.msg, n).Some?; }
      FromNothing(box, s.st.msg, x);
      assert Held(s) != Some(x) by { HeldWaits(s); }
    }
    assert s.slot.Some? ==> s.slot != Held(s) && Waits(s.st.tcb, s.slot.value);
  }

  lemma HeldWaits(s: State)
    requires Asking(s)
    ensures Held(s).Some? ==> Waits(s.st.tcb, Held(s).value)
  {
  }

  /** Under the protocol no reply is ever queued, so every message received is found with its payload. */
  lemma PoliteGotIsFound(s: State, e: Step, x: Tid, d: Tid)
    requires Inv(s) && SsiInv(s) && Enabled(s, e)
    ensures Got(s, e, x, d) != [] ==> Finds(Next(s, e), d, x, Got(s, e, x, d)[0])
  {
    hide CoreInv, NoEmpty, CountAgrees, SoftAgrees, SsiInv, Next, Got, Finds, MsgGet;
    if Got(s, e, x, d) != [] { GotIsFound(s, e, x, d); }
    if e.URequest? { AskedBlocks(s, e.v, e.pmsg); }
  }
}
