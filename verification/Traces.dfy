/** Runs from the first state of the machine to the places where the kernel goes wrong. */
module Traces {
  import opened Types
  import opened Links
  import opened Store
  import opened Kernel
  import opened Invariant
  import opened Preserve
  import opened Lifecycle
  import opened Termination
  import opened Subtree
  import opened Endings
  import opened Machine
  import opened Safety
  import opened Requests
  import opened FastPath
  import opened Fifo
  import opened Fair
  import opened Moves
  import opened Ssi
  import opened Protocol
  import opened Promises
  import opened Startup
  import opened Idle
  import opened Conserve
  import opened Mail
  import opened Reap
  import opened Creation
  import opened Stale
  import opened Delivery
  import opened Forgotten

  // ----- One step at a time -----

  /** A client asks while the SSI waits: the SSI gets the request at once, and the client waits for the answer. */
  lemma Asks(s: State, c: Tid, v: Value, pmsg: nat)
    requires Inv(s) && On(s) && s.current == Some(c) && c != SSI && T(s.st.tcb, SSI).status == W4Msg
    requires Q(s.st.q, TMsgq(c)) == []
    ensures Enabled(s, URequest(v, pmsg))
    ensures var r := Next(s, URequest(v, pmsg));
            && Inv(r) && Scheduled(s, r, ReadyList(s) + [TSched(SSI)]) && Quiet(s, r) && SameMail(s, r)
            && Waits(r.st.tcb, c) && ProcOf(r, c) == ProcOf(s, c)
            && T(r.st.tcb, SSI).status == Ready && T(r.st.tcb, SSI).regs.a1 == Ptr(Some(c))
            && forall u: Tid :: u != c && u != SSI ==> T(r.st.tcb, u) == T(s.st.tcb, u)
  {
    hide CoreInv, NoEmpty, CountAgrees, SoftAgrees, SameMail, Resume, SysRecv;
    var m := Asked(s, v);
    StepKeeps(s, URequest(v, pmsg));
    SendStep(s, SSI, v);
    SendFrame(s, SSI, c, v);
    DirectDelivery(s, SSI, c, v);
    ResumeMail(s, SSI, Some(c), v);
    assert SameMail(s, m) by { CpuMail(s, Send(s, SSI, c, v).0, m); }
    assert Q(m.st.q, TMsgq(c)) == [] by { BoxOf(s, m, c); }
    EmptyBox(m.st, Some(SSI), c);
    SsiLives(m);
    Yields(m, c, Some(SSI), pmsg);
    MailThrough(s, s, m, Next(s, URequest(v, pmsg)));
  }

  /** The SSI finds no request and waits for one. */
  lemma Listens(s: State, pmsg: nat)
    requires Inv(s) && On(s) && SsiRuns(s, Receiving) && Q(s.st.q, TMsgq(SSI)) == []
    ensures Enabled(s, SsiReceive(pmsg))
    ensures var r := Next(s, SsiReceive(pmsg));
            && Inv(r) && Scheduled(s, r, ReadyList(s)) && Quiet(s, r.(ssi := Receiving)) && r.ssi == Serving
            && SameMail(s, r) && T(r.st.tcb, SSI).status == W4Msg && T(r.st.tcb, SSI).regs.a3 == pmsg
            && forall u: Tid :: u != SSI ==> T(r.st.tcb, u) == T(s.st.tcb, u)
  {
    hide CoreInv, NoEmpty, CountAgrees, SoftAgrees, SameMail, SysRecv;
    StepKeeps(s, SsiReceive(pmsg));
    EmptyBox(s.st, None, SSI);
    Yields(s, SSI, None, pmsg);
    CpuMail(s, SysRecv(s, None, pmsg), Next(s, SsiReceive(pmsg)));
  }

  // ----- One client doing I/O -----

  /** Client `c` runs and nobody else can: the SSI waits for a request, no message is on its way, no I/O is going on. */
  ghost predicate Alone(s: State, c: Tid) {
    && s.current == Some(c) && c != SSI && s.mode == Running && s.ssi == Serving && ReadyList(s) == []
    && T(s.st.tcb, SSI).status == W4Msg && s.slot.None?
    && Q(s.st.q, TMsgq(SSI)) == [] && Q(s.st.q, TMsgq(c)) == []
  }

  /** Client `c` waits for the terminal, the SSI waits for requests, and nobody runs. */
  ghost predicate AllWait(s: State, c: Tid) {
    && s.current.None? && c != SSI && s.ssi == Serving && ReadyList(s) == []
    && T(s.st.tcb, SSI).status == W4Msg && s.slot == Some(c) && Waits(s.st.tcb, c)
    && Q(s.st.q, TMsgq(SSI)) == [] && Q(s.st.q, TMsgq(c)) == []
  }

  /** The machine starts with the SSI waiting for the first request. */
  lemma Starts(s: State, c: Tid, pmsg: nat)
    requires Inv(s) && Opening(s, c)
    ensures Enabled(s, SsiReceive(pmsg))
    ensures var r := Next(s, SsiReceive(pmsg)); 
            && Inv(r) && Alone(r, c) && r.ios == 0 && r.count == 2
            && r.st.msg == s.st.msg && |r.st.tcb| == |s.st.tcb| && T(r.st.tcb, SSI).regs.a3 == pmsg
  {
    hide Inv, SameMail;
    Listens(s, pmsg);
    BoxOf(s, Next(s, SsiReceive(pmsg)), SSI);
    BoxOf(s, Next(s, SsiReceive(pmsg)), c);
  }

  const REQUEST_IO: seq<Step> := [URequest(0, 0), SsiServe(Io(true)), SsiReceive(0)]

  /** A client asks the SSI for terminal output and everybody waits, unless the count of requests wraps to 0. */
  lemma AskForIo(s: State, c: Tid)
    requires Inv(s) && Alone(s, c)
    ensures Run(s, REQUEST_IO)
    ensures var r := After(s, REQUEST_IO);
            && Inv(r) && AllWait(r, c) && r.ios == s.ios + 1
            && r.mode == if r.ios % UINT_RANGE == 0 then Deadlocked else Waiting
  {
    hide Inv, SameMail, Able, Next, EmptyVerdict, Waits;
    var e0, e1, e2 := URequest(0, 0), SsiServe(Io(true)), SsiReceive(0);
    Asks(s, c, 0, 0);
    var m := Next(s, e0);
    BoxOf(s, m, SSI);
    BoxOf(s, m, c);
    assert [TSched(SSI)][0] == TSched(m.current.value) by { assert ReadyList(s) + [TSched(SSI)] == [TSched(SSI)]; }
    assert ReadyList(m) == [];
    Served(m, c);
    var n := Next(m, e1);
    Listens(n, 0);
    var r := Next(n, e2);
    BoxOf(n, r, SSI);
    BoxOf(n, r, c);
    assert Waits(r.st.tcb, c) by { WaitsStill(n, r, c); }
    IoVerdict(n, r);
    RunThree(s, e0, e1, e2);
  }

  /** The SSI takes on the I/O of the client that it holds. */
  lemma Served(s: State, c: Tid)
    requires Inv(s) && On(s) && SsiRuns(s, Serving) && s.cpu.a1 == Ptr(Some(c)) && Waits(s.st.tcb, c) && s.slot.None?
    ensures Enabled(s, SsiServe(Io(true)))
    ensures var r := Next(s, SsiServe(Io(true)));
            && Inv(r) && r == s.(soft := r.soft, ios := s.ios + 1, slot := Some(c), ssi := Receiving)
            && Live(r.st.tcb, c)
  {
    hide Inv;
    assert Live(s.st.tcb, c);
    StepKeeps(s, SsiServe(Io(true)));
  }

  lemma WaitsStill(s: State, r: State, c: Tid)
    requires Waits(s.st.tcb, c) && T(r.st.tcb, c) == T(s.st.tcb, c)
    ensures Waits(r.st.tcb, c)
  {
  }

  lemma IoVerdict(s: State, r: State)
    requires Inv(s) && On(s) && s.current.Some? && s.slot.Some? && Live(s.st.tcb, s.slot.value)
    requires r.mode == EmptyVerdict(s)
    ensures r.mode == if s.ios % UINT_RANGE == 0 then Deadlocked else Waiting
  {
    hide CoreInv, CountAgrees, NoEmpty;
    CountOne(s);
    assert s.slot.value != SSI;
  }

  lemma RunThree(s: State, a: Step, b: Step, c: Step)
    requires Enabled(s, a) && Enabled(Next(s, a), b) && Enabled(Next(Next(s, a), b), c)
    ensures Run(s, [a, b, c]) && After(s, [a, b, c]) == Next(Next(Next(s, a), b), c)
  {
    hide Able, On, Next;
    RunOne(s, a);
    RunOne(Next(s, a), b);
    RunOne(Next(Next(s, a), b), c);
    RunThen(Next(s, a), [b], [c]);
    RunThen(s, [a], [b] + [c]);
    assert [a] + ([b] + [c]) == [a, b, c];
  }

  /** The terminal answers: the client gets its reply and runs again. */
  lemma Answered(s: State, c: Tid)
    requires Inv(s) && AllWait(s, c) && s.mode == Waiting
    ensures Enabled(s, Terminal)
    ensures var r := Next(s, Terminal); Inv(r) && Alone(r, c) && r.ios == s.ios
  {
    hide CoreInv, NoEmpty, CountAgrees, SoftAgrees, SameMail, Send, Dispatch;
    StepKeeps(s, Terminal);
    SendKeeps(s, c, SSI, 0);
    SendFrame(s, c, SSI, 0);
    DirectDelivery(s, c, SSI, 0);
    ResumeMail(s, c, Some(SSI), 0);
    var m := Send(s, c, SSI, 0).0;
    assert Send(s, c, SSI, 0).1 && m == Resume(s, c, Some(SSI), 0) by { AwaitedSend(s, c, SSI, 0); }
    var n := m.(slot := None, mode := Running);
    SlotCore(m, n);
    assert n.(current := None) == n;
    Schedules(n);
    BoxOf(s, m, SSI);
    BoxOf(s, m, c);
    BoxOf(n, Dispatch(n), SSI);
    BoxOf(n, Dispatch(n), c);
  }

  const IO_ROUND: seq<Step> := REQUEST_IO + [Terminal]

  ghost function Rounds(n: nat): seq<Step> { if n == 0 then [] else IO_ROUND + Rounds(n - 1) }

  /** As long as the count does not wrap, rounds of I/O lead back to the same situation. */
  lemma {:induction false} RoundsReturn(s: State, c: Tid, n: nat)
    requires Inv(s) && Alone(s, c) && s.ios + n < UINT_RANGE
    ensures Run(s, Rounds(n))
    ensures var r := After(s, Rounds(n)); Inv(r) && Alone(r, c) && r.ios == s.ios + n
    decreases n
  {
    hide Inv, Able, On, Next, Alone, AllWait;
    if n > 0 {
      AskForIo(s, c);
      var m := After(s, REQUEST_IO);
      Answered(m, c);
      RunOne(m, Terminal);
      RunThen(s, REQUEST_IO, [Terminal]);
      var r := Next(m, Terminal);
      RoundsReturn(r, c, n - 1);
      RunThen(s, IO_ROUND, Rounds(n - 1));
    }
  }

  /** The run that fools the deadlock verdict: as many I/O requests, one after the other, as an unsigned int has
      values. The last is taken for a deadlock, although the terminal is about to answer it. */
  lemma DeadlockVerdictWraps(s: State, c: Tid) returns (es: seq<Step>)
    requires Inv(s) && Opening(s, c)
    ensures Run(s, es)
    ensures var r := After(s, es);
            && r.mode == Deadlocked && r.ios == 0x1_0000_0000 && r.slot == Some(c) && Waits(r.st.tcb, c)
            && Able(r, Terminal) && !Stuck(r) && ReadyList(Next(r, Terminal)) == [TSched(c)]
  {
    hide Inv, Next, Alone, Able, On;
    Starts(s, c, 0);
    var m := Next(s, SsiReceive(0));
    RunOne(s, SsiReceive(0));
    var n := UINT_RANGE - 1;
    RoundsReturn(m, c, n);
    AskForIo(After(m, Rounds(n)), c);
    RunThen(m, Rounds(n), REQUEST_IO);
    RunThen(s, [SsiReceive(0)], Rounds(n) + REQUEST_IO);
    es := [SsiReceive(0)] + (Rounds(n) + REQUEST_IO);
    Owed(After(s, es), c);
  }

  lemma Owed(s: State, c: Tid)
    requires Inv(s) && AllWait(s, c) && s.mode == Deadlocked
    ensures Able(s, Terminal) && !Stuck(s) && ReadyList(Next(s, Terminal)) == [TSched(c)]
  {
    hide CoreInv, NoEmpty, CountAgrees, SoftAgrees, Send;
    DirectDelivery(s, c, SSI, 0);
    AwaitedSend(s, c, SSI, 0);
    SendFrame(s, c, SSI, 0);
  }

  /** The run that fails the assertion of the idle handler: the first I/O request, and then a timer tick. */
  lemma IdleTickFails(s: State, c: Tid)
    requires Inv(s) && Opening(s, c)
    ensures var es := [SsiReceive(0)] + REQUEST_IO;
            && Run(s, es) && After(s, es).mode == Waiting
            && Run(s, es + [Tick]) && After(s, es + [Tick]).mode == Failed
  {
    hide Inv, Next, Alone, Able;
    Starts(s, c, 0);
    var m := Next(s, SsiReceive(0));
    RunOne(s, SsiReceive(0));
    AskForIo(m, c);
    RunThen(s, [SsiReceive(0)], REQUEST_IO);
    var es := [SsiReceive(0)] + REQUEST_IO;
    var r := After(s, es);
    assert 1 % UINT_RANGE == 1;
    assert Enabled(r, Tick) by { NobodyRuns(r); }
    TickWhileWaiting(r);
    RunOne(r, Tick);
    RunThen(s, es, [Tick]);
  }

  lemma NobodyRuns(s: State)
    requires s.current.None?
    ensures Able(s, Tick)
  {
  }

  // ----- Two threads of one process -----

  /** Threads `a` and `b` of one process: `a` runs, `b` is ready, the SSI waits for a request, and there is room
      for a message. */
  ghost predicate Alongside(s: State, a: Tid, b: Tid) {
    && s.current == Some(a) && a != SSI && b != SSI && a != b && s.mode == Running && s.ssi == Serving
    && ReadyList(s) == [TSched(b)] && T(s.st.tcb, b).status == Ready && T(s.st.tcb, SSI).status == W4Msg
    && ProcOf(s, a).Some? && ProcOf(s, b) == ProcOf(s, a)
    && Q(s.st.q, TMsgq(SSI)) == [] && Q(s.st.q, TMsgq(a)) == [] && Q(s.st.q, FreeMsgs) != []
  }

  lemma RoomStays(s: State, r: State)
    requires CoreInv(s) && CoreInv(r) && r.st.msg == s.st.msg && Q(s.st.q, FreeMsgs) != []
    ensures Q(r.st.q, FreeMsgs) != []
  {
    hide SchedAgree, NoLostWakeup, ThreadsAgree, ThreadsClean, ProcsAgree, Tree, Owned, Sep;
    var n := Q(s.st.q, FreeMsgs)[0];
    FreeSlot(s.st);
    assert MNext(MidOf(n)) in Q(s.st.q, FreeMsgs);
    assert MNext(MidOf(n)) in Q(r.st.q, FreeMsgs);
  }

  /** Only `b` has a message in the mailbox of the SSI. */
  ghost predicate OnlyFrom(st: Store, b: Tid) {
    Pending(st, b, SSI) != [] && forall x: Tid :: x != b ==> Pending(st, x, SSI) == []
  }

  /** The send of `b` to the SSI, which has been woken but does not run yet. */
  lemma Queues(s: State, b: Tid, v: Value)
    requires Inv(s) && On(s) && s.current == Some(b) && b != SSI && T(s.st.tcb, SSI).status == Ready
    requires Q(s.st.q, TMsgq(SSI)) == [] && Q(s.st.q, FreeMsgs) != []
    ensures Enabled(s, USend(SSI, v))
    ensures var r := Next(s, USend(SSI, v));
            && Inv(r) && OnlyFrom(r.st, b) && r.st.tcb == s.st.tcb && ReadyList(r) == ReadyList(s) && Quiet(s, r)
            && r.current == s.current && r.mode == s.mode
  {
    hide CoreInv, NoEmpty, CountAgrees, SoftAgrees, Send, Pending;
    StepKeeps(s, USend(SSI, v));
    SendStep(s, SSI, v);
    SendFrame(s, SSI, b, v);
    QueuedIs(s, b, v);
    forall x: Tid ensures Pending(Next(s, USend(SSI, v)).st, x, SSI) == if x == b then [v] else [] {
      SendFifo(s, SSI, b, v, x, SSI);
      assert Pending(s.st, x, SSI) == [] by { NothingPending(s.st, x); }
      assert [] + [v] == [v];
    }
    assert Pending(Next(s, USend(SSI, v)).st, b, SSI)[0] == v;
  }

  lemma NothingPending(st: Store, x: Tid)
    requires Q(st.q, TMsgq(SSI)) == []
    ensures Pending(st, x, SSI) == []
  {
  }

  lemma QueuedIs(s: State, b: Tid, v: Value)
    requires CoreInv(s) && T(s.st.tcb, SSI).status == Ready && Q(s.st.q, FreeMsgs) != []
    ensures var r := Send(s, SSI, b, v); r.1 && r.0.st.tcb == s.st.tcb && ReadyList(r.0) == ReadyList(s)
  {
    hide CoreInv, Move;
    AddReady(s, SSI, b, v);
  }

  /** A tick hands the processor from `b` to the SSI. */
  lemma Turns(s: State, a: Tid, b: Tid)
    requires Inv(s) && On(s) && s.current == Some(b) && b != SSI && ReadyList(s) == [TSched(SSI)]
    requires Live(s.st.tcb, a) && a != b && OnlyFrom(s.st, b)
    ensures Enabled(s, Tick)
    ensures var r := Next(s, Tick);
            && Inv(r) && r.mode == s.mode && r.current == Some(SSI) && r.ssi == s.ssi && r.cpu == T(s.st.tcb, SSI).regs
            && OnlyFrom(r.st, b) && T(r.st.tcb, b).status == Ready && Live(r.st.tcb, a)
            && ProcOf(r, a) == ProcOf(s, a) && ProcOf(r, b) == ProcOf(s, b)
  {
    hide CoreInv, NoEmpty, CountAgrees, SoftAgrees, SameMail, Timer, Pending;
    StepKeeps(s, Tick);
    Ticked(s, b);
    CurrentUnlinked(s);
    var l := ReadyList(s) + [TSched(b)];
    assert l[0] == TSched(SSI);
    forall x: Tid ensures Pending(Next(s, Tick).st, x, SSI) == Pending(s.st, x, SSI) {
      SameMailPending(s, Next(s, Tick), x, SSI);
    }
  }

  /** The SSI ends the process of `a`, and the message of the ready thread `b` stays. */
  lemma EndsBoth(s: State, a: Tid, b: Tid, p: Pid)
    requires Inv(s) && On(s) && SsiRuns(s, Serving) && s.cpu.a1 == Ptr(Some(a)) && a != SSI && OnlyFrom(s.st, b)
    requires ProcOf(s, a) == Some(p) && ProcOf(s, b) == Some(p) && T(s.st.tcb, b).status == Ready && Live(s.st.tcb, a)
    ensures Enabled(s, SsiServe(EndProcess))
    ensures var r := Next(s, SsiServe(EndProcess));
            Inv(r) && On(r) && SsiRuns(r, Receiving) && OnlyFrom(r.st, b) && !Live(r.st.tcb, b)
  {
    hide CoreInv, NoEmpty, CountAgrees, SoftAgrees, Rests, TerminateProcess, Pending, Reaped, WaitersWoken, MailReaped,
      CellsReaped, Within, Under;
    StepKeeps(s, SsiServe(EndProcess));
    EndProcessKeeps(s, a, p);
    EndProcessExact(s, a, p);
    SelfUnder(s.st.pcb, p);
    var r := TerminateProcess(s, a);
    assert !Live(r.st.tcb, b);
    EndProcessRemains(s, a, p, b);
    forall x: Tid | x != b ensures Pending(r.st, x, SSI) == [] {
      EndProcessRemains(s, a, p, x);
      assert Pending(s.st, x, SSI) == [];
    }
  }

  lemma FirstIsFrom(s: State, b: Tid)
    requires CoreInv(s) && OnlyFrom(s.st, b)
    ensures var g := MsgGet(s.st, None, Some(SSI)).1; g.Some? && g.value.sender == Some(b)
  {
    hide SchedAgree, NoLostWakeup, ThreadsAgree, ThreadsClean, ProcsAgree, Tree, Owned, Pending, MsgFree;
    var box := Q(s.st.q, TMsgq(SSI));
    assert box != [] by { if box == [] { NothingPending(s.st, b); } }
    BoxFits(s.st, SSI);
    assert box[0] in box;
    var x := M(s.st.msg, MidOf(box[0])).sender;
    assert MNext(MidOf(box[0])) in box && x.Some?;
    MsgGetPending(s.st, None, SSI, x.value, SSI);
  }

  /** Then the SSI takes the request of the dead `b`. */
  lemma TakesFromDead(s: State, b: Tid)
    requires Inv(s) && On(s) && SsiRuns(s, Receiving) && OnlyFrom(s.st, b) && !Live(s.st.tcb, b)
    ensures Enabled(s, SsiReceive(0))
    ensures var r := Next(s, SsiReceive(0)); SsiRuns(r, Serving) && Applicant(r) == Some(b) && !Live(r.st.tcb, b)
  {
    hide CoreInv, NoEmpty, CountAgrees, SoftAgrees, OnlyFrom, MsgGet;
    FirstIsFrom(s, b);
    RecvLives(s, None, 0);
  }

  lemma NotAble(s: State, b: Tid, req: Request)
    requires Applicant(s) == Some(b) && !Live(s.st.tcb, b)
    ensures !Able(s, SsiServe(req))
  {
  }

  function StaleRun(v: Value): seq<Step> {
    [URequest(0, 0), USend(SSI, v), Tick] + [SsiServe(EndProcess), SsiReceive(0)]
  }

  /** Both threads ask the SSI as the request wrappers do, but `b` is preempted between its send and its receive.
      The SSI ends the process at the request of `a`, and is then left with the request of a dead thread. */
  lemma DeadApplicant(s: State, a: Tid, b: Tid, v: Value)
    requires Inv(s) && Alongside(s, a, b)
    ensures Run(s, StaleRun(v))
    ensures var r := After(s, StaleRun(v));
            && SsiRuns(r, Serving) && Applicant(r) == Some(b) && !Live(r.st.tcb, b)
            && forall req :: !Able(r, SsiServe(req))
  {
    hide Inv, Able, Next, SameMail, OnlyFrom, Pending;
    var p := ProcOf(s, a).value;
    Asks(s, a, 0, 0);
    var s1 := Next(s, URequest(0, 0));
    BoxOf(s, s1, SSI);
    RoomStays(s, s1) by { InvCore(s); InvCore(s1); }
    var l := ReadyList(s) + [TSched(SSI)];
    assert l == [TSched(b), TSched(SSI)] && l[1..] == [TSched(SSI)];
    assert s1.current == Some(b);
    Queues(s1, b, v);
    var s2 := Next(s1, USend(SSI, v));
    Turns(s2, a, b);
    var s3 := Next(s2, Tick);
    assert ProcOf(s3, a) == Some(p) && ProcOf(s3, b) == Some(p);
    EndsBoth(s3, a, b, p);
    var s4 := Next(s3, SsiServe(EndProcess));
    TakesFromDead(s4, b);
    var r := Next(s4, SsiReceive(0));
    forall req ensures !Able(r, SsiServe(req)) { NotAble(r, b, req); }
    RunThree(s, URequest(0, 0), USend(SSI, v), Tick);
    RunOne(s3, SsiServe(EndProcess));
    RunOne(s4, SsiReceive(0));
    RunThen(s3, [SsiServe(EndProcess)], [SsiReceive(0)]);
    assert [SsiServe(EndProcess)] + [SsiReceive(0)] == [SsiServe(EndProcess), SsiReceive(0)];
    RunThen(s, [URequest(0, 0), USend(SSI, v), Tick], [SsiServe(EndProcess), SsiReceive(0)]);
  }

  lemma InvCore(s: State)
    requires Inv(s)
    ensures CoreInv(s)
  {
  }

  // ----- How the two threads come about -----

  /** The SSI makes a thread for the only client, which gets its reply: both are ready, the new one first. */
  lemma Spawns(s: State, c: Tid, init: Regs)
    requires Inv(s) && On(s) && SsiRuns(s, Serving) && s.cpu.a1 == Ptr(Some(c)) && Waits(s.st.tcb, c)
    requires ReadyList(s) == [] && Q(s.st.q, TMsgq(SSI)) == [] && Q(s.st.q, FreeThreads) != []
    ensures Enabled(s, SsiServe(MakeThread(init)))
    ensures var r := Next(s, SsiServe(MakeThread(init))); var n := TidOf(Q(s.st.q, FreeThreads)[0]);
            && Inv(r) && SsiRuns(r, Receiving) && r.mode == s.mode && ReadyList(r) == [TSched(n), TSched(c)]
            && n != c && n != SSI && T(r.st.tcb, c).status == Ready
            && ProcOf(r, n) == ProcOf(r, c) && ProcOf(r, n).Some?
            && Q(r.st.q, TMsgq(SSI)) == [] && Q(r.st.q, TMsgq(n)) == [] && r.st.msg == s.st.msg
  {
    hide CoreInv, NoEmpty, CountAgrees, SoftAgrees, Rests, CreateThread, SysSend;
    assert Live(s.st.tcb, c);
    StepKeeps(s, SsiServe(MakeThread(init)));
    var n := TidOf(Q(s.st.q, FreeThreads)[0]);
    Created(s, c, n, init);
    var a := CreateThread(s, init, c).0;
    Replied(a, c, n, AddrOf(Some(n)));
  }

  lemma Created(s: State, c: Tid, n: Tid, init: Regs)
    requires Inv(s) && s.current == Some(SSI) && Waits(s.st.tcb, c) && ReadyList(s) == []
    requires Q(s.st.q, FreeThreads) != [] && n == TidOf(Q(s.st.q, FreeThreads)[0])
    ensures var r := CreateThread(s, init, c);
            && r.1 == Some(n) && CoreInv(r.0) && Waits(r.0.st.tcb, c) && ReadyList(r.0) == [TSched(n)]
            && n != c && n != SSI && ProcOf(r.0, n) == ProcOf(r.0, c) && ProcOf(r.0, n).Some?
            && r.0.current == s.current && r.0.mode == s.mode && r.0.st.msg == s.st.msg
            && Q(r.0.st.q, TMsgq(n)) == [] && Q(r.0.st.q, TMsgq(SSI)) == Q(s.st.q, TMsgq(SSI))
  {
    hide CoreInv, NoEmpty, CountAgrees, SoftAgrees, Rests, CreateThreadIn;
    assert Live(s.st.tcb, c);
    LiveOwned(s, c);
    var p := ProcOf(s, c).value;
    CreateThreadEffect(s, init, p);
    MakeThreadKeeps(s, init, c, p);
    NoMailYet(s, n);
    assert [] + [TSched(n)] == [TSched(n)];
    assert n != c && n != SSI by { DeadIsNot(s, n); }
  }

  lemma DeadIsNot(s: State, n: Tid)
    requires Inv(s) && !Live(s.st.tcb, n)
    ensures n != SSI
  {
    SsiLives(s);
  }

  lemma Replied(s: State, c: Tid, n: Tid, v: Value)
    requires CoreInv(s) && s.current == Some(SSI) && Waits(s.st.tcb, c) && n != c && ReadyList(s) == [TSched(n)]
    ensures var r := SysSend(s, c, v).0;
            && r.current == s.current && r.mode == s.mode && ReadyList(r) == [TSched(n), TSched(c)]
            && T(r.st.tcb, c).status == Ready && ProcOf(r, c) == ProcOf(s, c) && ProcOf(r, n) == ProcOf(s, n)
            && Q(r.st.q, TMsgq(SSI)) == Q(s.st.q, TMsgq(SSI)) && Q(r.st.q, TMsgq(n)) == Q(s.st.q, TMsgq(n))
            && r.st.msg == s.st.msg
  {
    hide CoreInv, Send, SameMail;
    DirectDelivery(s, c, SSI, v);
    AwaitedSend(s, c, SSI, v);
    ResumeMail(s, c, Some(SSI), v);
    SendFrame(s, c, SSI, v);
    var m := Send(s, c, SSI, v).0;
    BoxOf(s, m, SSI);
    BoxOf(s, m, n);
    OwnerKept(s, c, v);
    assert [TSched(n)] + [TSched(c)] == [TSched(n), TSched(c)];
  }

  lemma OwnerKept(s: State, c: Tid, v: Value)
    ensures T(Send(s, c, SSI, v).0.st.tcb, c).pcb == T(s.st.tcb, c).pcb
  {
  }

  lemma LiveOwned(s: State, c: Tid)
    requires CoreInv(s) && c != SSI && Live(s.st.tcb, c)
    ensures ProcOf(s, c).Some? && Allocated(s.st.pcb, ProcOf(s, c).value)
  {
    hide SchedAgree, NoLostWakeup, ThreadsAgree, ProcsAgree, Tree, MsgsAgree, Sep, Shaped;
    assert ProcOf(s, c).Some?;
    var p := ProcOf(s, c).value;
    assert Allocated(s.st.pcb, p);
  }

  /** An unused descriptor has an empty mailbox. */
  lemma NoMailYet(s: State, n: Tid)
    requires CoreInv(s) && Q(s.st.q, FreeThreads) != [] && n == TidOf(Q(s.st.q, FreeThreads)[0])
    ensures !Live(s.st.tcb, n) && Q(s.st.q, TMsgq(n)) == []
  {
    hide SchedAgree, NoLostWakeup, ProcsAgree, Tree, Owned, Sep;
    FreeThread(s.st);
    assert TNext(n) in Q(s.st.q, FreeThreads);
    var box := Q(s.st.q, TMsgq(n));
    if box != [] {
      HeadMsg(s.st, n);
      assert MNext(MidOf(box[0])) in Q(s.st.q, TMsgq(n));
    }
  }

  lemma ThreadLeft(s: State)
    requires Inv(s) && s.count == 2 && |s.st.tcb| > 2
    ensures Q(s.st.q, FreeThreads) != []
  {
    hide CoreInv, NoEmpty;
  }

  lemma RoomAtStart(s: State, c: Tid)
    requires CoreInv(s) && Opening(s, c) && |s.st.msg| > 0
    ensures Q(s.st.q, FreeMsgs) != []
  {
    hide SchedAgree, NoLostWakeup, ThreadsAgree, ThreadsClean, ProcsAgree, Tree, Owned, Sep, Shaped;
    assert !Boxed(s.st.q, 0);
    assert MNext(0) in Q(s.st.q, FreeMsgs);
  }

  function SpawnRun(init: Regs): seq<Step> {
    [SsiReceive(0)] + [URequest(0, 0), SsiServe(MakeThread(init)), SsiReceive(0)]
  }

  /** From the start of the machine, with room for one more thread and a message, the two threads can come about. */
  lemma SpawnsSibling(s: State, c: Tid, init: Regs) returns (n: Tid)
    requires Inv(s) && SsiInv(s) && Opening(s, c) && |s.st.tcb| > 2 && |s.st.msg| > 0
    ensures Run(s, SpawnRun(init))
    ensures var r := After(s, SpawnRun(init)); Inv(r) && SsiInv(r) && Alongside(r, n, c)
  {
    hide Inv, SsiInv, Able, Next, SameMail;
    Starts(s, c, 0);
    var s1 := Next(s, SsiReceive(0));
    StepSsi(s, SsiReceive(0));
    Asks(s1, c, 0, 0);
    var s2 := Next(s1, URequest(0, 0));
    StepSsi(s1, URequest(0, 0));
    BoxOf(s1, s2, SSI);
    assert ReadyList(s1) + [TSched(SSI)] == [TSched(SSI)];
    ThreadLeft(s2);
    n := TidOf(Q(s2.st.q, FreeThreads)[0]);
    Spawns(s2, c, init);
    var s3 := Next(s2, SsiServe(MakeThread(init)));
    StepSsi(s2, SsiServe(MakeThread(init)));
    Listens(s3, 0);
    var s4 := Next(s3, SsiReceive(0));
    StepSsi(s3, SsiReceive(0));
    BoxOf(s3, s4, SSI);
    BoxOf(s3, s4, n);
    assert [TSched(n), TSched(c)][1..] == [TSched(c)];
    assert Q(s4.st.q, FreeMsgs) != [] by {
      InvCore(s);
      InvCore(s4);
      RoomAtStart(s, c);
      RoomStays(s, s4);
    }
    RunOne(s, SsiReceive(0));
    RunThree(s1, URequest(0, 0), SsiServe(MakeThread(init)), SsiReceive(0));
    RunThen(s, [SsiReceive(0)], [URequest(0, 0), SsiServe(MakeThread(init)), SsiReceive(0)]);
  }

  /** So a run from the start leaves the SSI with the request of a dead thread. */
  lemma StaleFromStart(s: State, c: Tid, init: Regs, v: Value)
    requires Inv(s) && SsiInv(s) && Opening(s, c) && |s.st.tcb| > 2 && |s.st.msg| > 0
    ensures Run(s, SpawnRun(init) + StaleRun(v))
    ensures var r := After(s, SpawnRun(init) + StaleRun(v));
            SsiRuns(r, Serving) && Applicant(r) == Some(c) && !Live(r.st.tcb, c)
  {
    hide Inv, SsiInv, Able, On, Next, Opening, Alongside, SpawnRun, StaleRun;
    var n := SpawnsSibling(s, c, init);
    DeadApplicant(After(s, SpawnRun(init)), n, c, v);
    RunThen(s, SpawnRun(init), StaleRun(v));
  }

  // ----- A request that is refused -----

  ghost function SelfSends(b: Tid, n: nat): seq<Step> { if n == 0 then [] else [USend(b, 0)] + SelfSends(b, n - 1) }

  /** A message that the running thread sends to itself takes one slot of the pool. */
  lemma SendsItself(s: State, b: Tid)
    requires Inv(s) && SsiInv(s) && On(s) && s.current == Some(b) && b != SSI && Q(s.st.q, FreeMsgs) != []
    ensures Enabled(s, USend(b, 0))
    ensures var r := Next(s, USend(b, 0));
            && Inv(r) && SsiInv(r) && r.current == s.current && r.mode == s.mode
            && T(r.st.tcb, SSI) == T(s.st.tcb, SSI) && Q(r.st.q, FreeMsgs) == Q(s.st.q, FreeMsgs)[1..]
  {
    hide CoreInv, NoEmpty, CountAgrees, SoftAgrees, Send, SsiInv;
    StepKeeps(s, USend(b, 0));
    StepSsi(s, USend(b, 0));
    SendStep(s, b, 0);
    CurrentUnlinked(s);
    SlotTaken(s, b, b, 0);
  }

  lemma SlotTaken(s: State, d: Tid, snd: Tid, v: Value)
    requires CoreInv(s) && T(s.st.tcb, d).status == Ready && Q(s.st.q, FreeMsgs) != []
    ensures var r := Send(s, d, snd, v).0;
            && r.st.tcb == s.st.tcb && Q(r.st.q, FreeMsgs) == Q(s.st.q, FreeMsgs)[1..]
            && forall k: Node :: k != FreeMsgs && k != TMsgq(d) ==> Q(r.st.q, k) == Q(s.st.q, k)
  {
    hide SchedAgree, NoLostWakeup, ThreadsAgree, ThreadsClean, ProcsAgree, Tree, Owned, MsgsAgree, Move, Shaped;
    BoxHead(s.st, d);
    MoveHead(s.st.q, FreeMsgs, TMsgq(d));
    FreeIsMsg(s);
  }

  lemma FreeIsMsg(s: State)
    requires CoreInv(s) && Q(s.st.q, FreeMsgs) != []
    ensures var n := Q(s.st.q, FreeMsgs)[0]; n == MNext(MidOf(n))
  {
    hide SchedAgree, NoLostWakeup, ThreadsAgree, ThreadsClean, ProcsAgree, Tree, Owned, Sep;
    FreeSlot(s.st);
  }

  lemma {:induction false} PoolFills(s: State, b: Tid, n: nat)
    requires Inv(s) && SsiInv(s) && On(s) && s.current == Some(b) && b != SSI && |Q(s.st.q, FreeMsgs)| == n
    ensures Run(s, SelfSends(b, n))
    ensures var r := After(s, SelfSends(b, n));
            && Inv(r) && SsiInv(r) && On(r) && r.current == s.current && T(r.st.tcb, SSI) == T(s.st.tcb, SSI)
            && Q(r.st.q, FreeMsgs) == []
    decreases n
  {
    hide Inv, SsiInv, Able, Next;
    if n > 0 {
      SendsItself(s, b);
      var r := Next(s, USend(b, 0));
      PoolFills(r, b, n - 1);
      RunOne(s, USend(b, 0));
      RunThen(s, [USend(b, 0)], SelfSends(b, n - 1));
    }
  }

  /** The run that strands a client: `a` asks, then `b` uses up the message pool before the SSI runs, and asks too. Its
      request is refused, but the request wrappers do not look at that, and `b` waits for an answer nobody owes it. */
  lemma ClientStranded(s: State, a: Tid, b: Tid) returns (es: seq<Step>)
    requires Inv(s) && SsiInv(s) && Alongside(s, a, b)
    ensures Run(s, es) && Inv(After(s, es)) && SsiInv(After(s, es)) && Stranded(After(s, es), b)
  {
    hide Inv, SsiInv, Able, Next, SameMail, Send, Stranded, Pending;
    var e := URequest(0, 0);
    Asks(s, a, 0, 0);
    var s1 := Next(s, e);
    StepSsi(s, e);
    var l := ReadyList(s) + [TSched(SSI)];
    assert l == [TSched(b), TSched(SSI)];
    var n := |Q(s1.st.q, FreeMsgs)|;
    PoolFills(s1, b, n);
    var s2 := After(s1, SelfSends(b, n));
    RefusedNow(s2, b);
    StepStrands(s2, e, b);
    StepSsi(s2, e);
    RunOne(s, e);
    RunOne(s2, e);
    RunThen(s1, SelfSends(b, n), [e]);
    RunThen(s, [e], SelfSends(b, n) + [e]);
    es := [e] + (SelfSends(b, n) + [e]);
  }

  lemma RefusedNow(s: State, b: Tid)
    requires Inv(s) && SsiInv(s) && On(s) && s.current == Some(b) && b != SSI
    requires T(s.st.tcb, SSI).status == Ready && Q(s.st.q, FreeMsgs) == []
    ensures var e := URequest(0, 0);
            && Enabled(s, e) && Refused(s, e, b) && Inv(Next(s, e))
            && Next(s, e).mode != Failed && Live(Next(s, e).st.tcb, b)
  {
    hide CoreInv, NoEmpty, CountAgrees, SoftAgrees, Send, SysRecv, SsiInv;
    var e := URequest(0, 0);
    StepKeeps(s, e);
    FastNeedsNoSlot(s, SSI, b, 0);
    RequestLives(s, b);
  }

  /** A client that asks does not stop the machine and does not die of it. */
  lemma RequestLives(s: State, b: Tid)
    requires Inv(s) && SsiInv(s) && On(s) && s.current == Some(b) && b != SSI
    ensures var r := Next(s, URequest(0, 0)); r.mode != Failed && Live(r.st.tcb, b)
  {
    hide CoreInv, NoEmpty, CountAgrees, SoftAgrees, Send, SysRecv, MailOk, NotFromSsi, SameMail, ReadyList;
    var m := Asked(s, 0);
    SendStep(s, SSI, 0);
    AskedBlocks(s, 0, 0);
    SsiLives(m);
    Yields(m, b, Some(SSI), 0);
  }

  /** The start of the machine leads there, too. */
  lemma StrandedFromStart(s: State, c: Tid, init: Regs) returns (es: seq<Step>)
    requires Inv(s) && SsiInv(s) && Opening(s, c) && |s.st.tcb| > 2 && |s.st.msg| > 0
    ensures Run(s, es) && Stranded(After(s, es), c)
  {
    hide Inv, SsiInv, Able, On, Next, Opening, Alongside, SpawnRun, Stranded;
    var n := SpawnsSibling(s, c, init);
    var more := ClientStranded(After(s, SpawnRun(init)), n, c);
    RunThen(s, SpawnRun(init), more);
    es := SpawnRun(init) + more;
  }

  // ----- A receive from a descriptor that is not in use -----

  /** The first client forsakes itself if it receives from a descriptor that is not in use. */
  lemma ClientForsaken(s: State, c: Tid, pmsg: nat) returns (u: Tid)
    requires Inv(s) && Opening(s, c) && |s.st.tcb| > 2
    ensures var es := [SsiReceive(0)] + [URecv(Some(u), pmsg)];
            Run(s, es) && Inv(After(s, es)) && Forsaken(After(s, es), c, u) && After(s, es).mode == Deadlocked
  {
    hide Inv, CoreInv, Able, Next, MsgGet, SysRecv, SameMail;
    Starts(s, c, 0);
    RunOne(s, SsiReceive(0));
    var r := Next(s, SsiReceive(0));
    ThreadLeft(r);
    u := TidOf(Q(r.st.q, FreeThreads)[0]);
    InvCore(r);
    UnusedThread(r);
    NoMailYet(r, u);
    EmptyBox(r.st, Some(u), c);
    Yields(r, c, Some(u), pmsg);
    var e := URecv(Some(u), pmsg);
    assert Enabled(r, e) && Next(r, e) == SysRecv(r, Some(u), pmsg) by { ReceiveEnabled(r, u, pmsg); }
    StepKeeps(r, e);
    CurrentUnlinked(r);
    assert T(Next(r, e).st.tcb, u) == T(r.st.tcb, u) && T(Next(r, e).st.tcb, c) == T(Next(r, e).st.tcb, c);
    NoIoYet(r);
    RunOne(r, e);
    RunThen(s, [SsiReceive(0)], [e]);
  }

  lemma ReceiveEnabled(s: State, u: Tid, pmsg: nat)
    requires UserRuns(s) && On(s) && u < |s.st.tcb|
    ensures var e := URecv(Some(u), pmsg); Enabled(s, e) && Next(s, e) == SysRecv(s, Some(u), pmsg)
  {
  }

  lemma NoIoYet(s: State)
    requires Inv(s) && s.ios == 0
    ensures s.soft == 0
  {
  }

  lemma UnusedThread(s: State)
    requires CoreInv(s) && Q(s.st.q, FreeThreads) != []
    ensures 1 <= TidOf(Q(s.st.q, FreeThreads)[0]) < |s.st.tcb|
  {
    hide SchedAgree, NoLostWakeup, ProcsAgree, Tree, Owned, Sep, MsgsAgree;
    FreeThread(s.st);
  }

  // ----- A payload that is overwritten -----

  /** The first client sends to the waiting SSI without asking for anything, and goes on. */
  lemma WakesSsi(s: State, c: Tid, v: Value)
    requires Inv(s) && Alone(s, c)
    ensures Enabled(s, USend(SSI, v))
    ensures var r := Next(s, USend(SSI, v));
            && Inv(r) && Quiet(s, r) && SameMail(s, r) && r.current == Some(c) && r.mode == Running
            && ReadyList(r) == [TSched(SSI)] && T(r.st.tcb, c) == T(s.st.tcb, c)
            && T(r.st.tcb, SSI).status == Ready && T(r.st.tcb, SSI).regs.a1 == Ptr(Some(c))
  {
    hide CoreInv, NoEmpty, CountAgrees, SoftAgrees, SameMail, Send;
    StepKeeps(s, USend(SSI, v));
    SendStep(s, SSI, v);
    SendFrame(s, SSI, c, v);
    DirectDelivery(s, SSI, c, v);
    AwaitedSend(s, SSI, c, v);
    ResumeMail(s, SSI, Some(c), v);
    CpuMail(s, Send(s, SSI, c, v).0, Next(s, USend(SSI, v)));
    assert [] + [TSched(SSI)] == [TSched(SSI)];
  }

  lemma AwaitedSend(s: State, d: Tid, snd: Tid, v: Value)
    requires Awaits(T(s.st.tcb, d), snd)
    ensures Send(s, d, snd, v) == (Resume(s, d, Some(snd), v), true)
  {
  }

  /** Then the timer gives the processor to the SSI. */
  lemma HandsOver(s: State, c: Tid)
    requires Inv(s) && On(s) && s.current == Some(c) && c != SSI && ReadyList(s) == [TSched(SSI)]
    ensures Enabled(s, Tick)
    ensures var r := Next(s, Tick);
            && Inv(r) && r.mode == s.mode && r.current == Some(SSI) && r.ssi == s.ssi && r.cpu == T(s.st.tcb, SSI).regs
            && ReadyList(r) == [TSched(c)] && T(r.st.tcb, c).status == Ready && SameMail(s, r)
  {
    hide CoreInv, NoEmpty, CountAgrees, SoftAgrees, SameMail, Timer;
    StepKeeps(s, Tick);
    Ticked(s, c);
    CurrentUnlinked(s);
    var l := ReadyList(s) + [TSched(c)];
    assert l == [TSched(SSI), TSched(c)] && l[1..] == [TSched(c)];
  }

  /** The SSI answers the client, which does not wait: the reply is queued. */
  lemma QueuesReply(s: State, c: Tid, w: Value)
    requires Inv(s) && On(s) && SsiRuns(s, Serving) && s.cpu.a1 == Ptr(Some(c)) && c != SSI
    requires T(s.st.tcb, c).status == Ready && Q(s.st.q, TMsgq(c)) == [] && Q(s.st.q, FreeMsgs) != []
    ensures Enabled(s, SsiServe(Query(w)))
    ensures var r := Next(s, SsiServe(Query(w)));
            && Inv(r) && r.mode == s.mode && SsiRuns(r, Receiving) && ReadyList(r) == ReadyList(s)
            && Q(r.st.q, TMsgq(SSI)) == Q(s.st.q, TMsgq(SSI)) && Pending(r.st, SSI, c) == [w]
  {
    hide CoreInv, NoEmpty, CountAgrees, SoftAgrees, Send, Pending;
    StepKeeps(s, SsiServe(Query(w)));
    SendFrame(s, c, SSI, w);
    ReplyQueued(s, c, w);
  }

  lemma ReplyQueued(s: State, c: Tid, w: Value)
    requires CoreInv(s) && c != SSI && T(s.st.tcb, c).status == Ready && Q(s.st.q, TMsgq(c)) == []
    requires Q(s.st.q, FreeMsgs) != []
    ensures var r := Send(s, c, SSI, w).0;
            && r.st.tcb == s.st.tcb && ReadyList(r) == ReadyList(s) && Q(r.st.q, TMsgq(SSI)) == Q(s.st.q, TMsgq(SSI))
            && Pending(r.st, SSI, c) == [w]
  {
    hide CoreInv, Send, Pending;
    SlotTaken(s, c, SSI, w);
    QueuedAt(s, c, SSI, w);
    SendFifo(s, c, SSI, w, SSI, c);
    BoxEmpty(s.st, SSI, c);
    assert [] + [w] == [w];
  }

  lemma BoxEmpty(st: Store, x: Tid, d: Tid)
    requires Q(st.q, TMsgq(d)) == []
    ensures Pending(st, x, d) == []
  {
  }

  lemma QueuedAt(s: State, d: Tid, snd: Tid, v: Value)
    requires CoreInv(s) && T(s.st.tcb, d).status == Ready && Q(s.st.q, FreeMsgs) != []
    ensures Send(s, d, snd, v).1 && SendIn(s, d, snd, v, snd, d) == []
  {
  }

  /** The request goes straight to the waiting SSI, and the queued reply stays. */
  lemma HandedOver(s: State, c: Tid, a: nat, v: Value, w: Value)
    requires Inv(s) && s.current == Some(c) && T(s.st.tcb, SSI).status == W4Msg && T(s.st.tcb, SSI).regs.a3 == a
    requires Pending(s.st, SSI, c) == [w] && c != SSI
    ensures var m := Asked(s, v);
            && CoreInv(m) && m.current == Some(c) && RegsOf(m, SSI).a3 == a && Awaits(T(s.st.tcb, SSI), c)
            && MsgGet(m.st, Some(SSI), Some(c)).1 == Some(Msg(Some(SSI), w))
  {
    hide CoreInv, NoEmpty, CountAgrees, SoftAgrees, SameMail, Send, Pending, MsgGet;
    var m := Asked(s, v);
    SendStep(s, SSI, v);
    SendFrame(s, SSI, c, v);
    DirectDelivery(s, SSI, c, v);
    AwaitedSend(s, SSI, c, v);
    ResumeMail(s, SSI, Some(c), v);
    CpuMail(s, Send(s, SSI, c, v).0, m);
    SameMailPending(s, m, SSI, c);
    MailAgrees(m);
    PendingFound(m.st, SSI, c);
  }

  /** With a reply queued, the request of the client is handed to the SSI and then overwritten by the reply. */
  lemma Overwritten(s: State, c: Tid, a: nat, v: Value, w: Value)
    requires Inv(s) && On(s) && s.current == Some(c) && c != SSI && a != NULL_ADDR && v != w
    requires T(s.st.tcb, SSI).status == W4Msg && T(s.st.tcb, SSI).regs.a3 == a && Pending(s.st, SSI, c) == [w]
    ensures var e := URequest(v, a);
            Enabled(s, e) && Got(s, e, c, SSI) == [v] && Clobbers(s, e) && !Finds(Next(s, e), SSI, c, v)
  {
    hide Send, Pending, MsgGet, Finds, SysRecv, Inv, RegsOf;
    var e := URequest(v, a);
    HandedOver(s, c, a, v, w);
    assert Enabled(s, e) by { AskEnabled(s, v, a); }
    assert Got(s, e, c, SSI) == [v] + [] == [v];
    GotIsFound(s, e, c, SSI);
  }

  lemma AskEnabled(s: State, v: Value, pmsg: nat)
    requires Inv(s) && On(s) && UserRuns(s)
    ensures Enabled(s, URequest(v, pmsg))
  {
  }

  function ClobberRun(a: nat, u: Value, w: Value): seq<Step> {
    [SsiReceive(a), USend(SSI, u), Tick] + [SsiServe(Query(w)), SsiReceive(a)]
  }

  /** From the start of the machine, a client that sends without receiving can make its next request get lost: the
      queued reply goes into the cell that the SSI gave for the request. */
  lemma PayloadClobbered(s: State, c: Tid, a: nat, u: Value, v: Value, w: Value)
    requires Inv(s) && Opening(s, c) && |s.st.msg| > 0 && a != NULL_ADDR && v != w
    ensures Run(s, ClobberRun(a, u, w))
    ensures var r := After(s, ClobberRun(a, u, w)); var e := URequest(v, a);
            Enabled(r, e) && Got(r, e, c, SSI) == [v] && !Finds(Next(r, e), SSI, c, v)
  {
    hide Inv, Able, Next, SameMail, Pending, Got, Finds, Clobbers;
    Starts(s, c, a);
    var s1 := Next(s, SsiReceive(a));
    WakesSsi(s1, c, u);
    var s2 := Next(s1, USend(SSI, u));
    BoxOf(s1, s2, SSI);
    BoxOf(s1, s2, c);
    HandsOver(s2, c);
    var s3 := Next(s2, Tick);
    BoxOf(s2, s3, SSI);
    BoxOf(s2, s3, c);
    InvCore(s);
    InvCore(s3);
    RoomAtStart(s, c);
    RoomStays(s, s3);
    QueuesReply(s3, c, w);
    var s4 := Next(s3, SsiServe(Query(w)));
    Listens(s4, a);
    var s5 := Next(s4, SsiReceive(a));
    SameMailPending(s4, s5, SSI, c);
    assert s5.current == Some(c);
    Overwritten(s5, c, a, v, w);
    RunThree(s, SsiReceive(a), USend(SSI, u), Tick);
    RunOne(s3, SsiServe(Query(w)));
    RunOne(s4, SsiReceive(a));
    RunThen(s3, [SsiServe(Query(w))], [SsiReceive(a)]);
    assert [SsiServe(Query(w))] + [SsiReceive(a)] == [SsiServe(Query(w)), SsiReceive(a)];
    RunThen(s, [SsiReceive(a), USend(SSI, u), Tick], [SsiServe(Query(w)), SsiReceive(a)]);
  }
}
