/** Messages between two live threads arrive exactly once and in order, whether queued or handed over directly. */
module Fifo {
  import opened Types
  import opened Seqs
  import opened Links
  import opened Store
  import opened Kernel
  import opened Invariant
  import opened Preserve
  import opened Termination
  import opened Mail
  import opened Reap
  import opened Creation
  import opened Endings
  import opened Machine
  import opened Safety

  // ----- What one operation sends from x to d, and what d receives from x -----

  ghost function SendOut(s: State, d': Tid, snd: Tid, v: Value, x: Tid, d: Tid): seq<Value> {
    if snd == x && d' == d && Send(s, d', snd, v).1 then [v] else []
  }

  ghost function SendIn(s: State, d': Tid, snd: Tid, v: Value, x: Tid, d: Tid): seq<Value> {
    if snd == x && d' == d && Awaits(T(s.st.tcb, d'), snd) then [v] else []
  }

  ghost function RecvIn(s: State, src: Option<Tid>, x: Tid, d: Tid): seq<Value> {
    var g := MsgGet(s.st, src, s.current);
    if s.current == Some(d) && g.1.Some? && g.1.value.sender == Some(x) then [g.1.value.value] else []
  }

  /** The state in which the SSI sends its reply to `a`, and the payload, if it replies at all. */
  ghost function ReplyState(s: State, req: Request, a: Tid): (State, Option<Value>) {
    match req
    case MakeProcess(init) => var r := CreateProcess(s, init, a); (r.0, Some(AddrOf(r.1)))
    case MakeThread(init) => var r := CreateThread(s, init, a); (r.0, Some(AddrOf(r.1)))
    case SetManager(k, m) => var r := SetMgr(s, k, m, a); (r.0, if r.2 then Some(AddrOf(r.1)) else None)
    case Query(v) => (s, Some(v))
    case _ => (Serve(s, req, a), None)
  }

  ghost function Sent(s: State, e: Step, x: Tid, d: Tid): seq<Value>
    requires Able(s, e)
  {
    match e
    case USend(d', v) => SendOut(s, d', s.current.value, v, x, d)
    case URequest(v, _) => SendOut(s, SSI, s.current.value, v, x, d)
    case Terminal => SendOut(s, s.slot.value, SSI, 0, x, d)
    case SsiServe(req) =>
      var p := ReplyState(s, req, Applicant(s).value);
      if p.1.Some? then SendOut(p.0, Applicant(s).value, SSI, p.1.value, x, d) else []
    case _ => []
  }

  ghost function Got(s: State, e: Step, x: Tid, d: Tid): seq<Value>
    requires Able(s, e)
  {
    match e
    case USend(d', v) => SendIn(s, d', s.current.value, v, x, d)
    case URecv(src, _) => RecvIn(s, src, x, d)
    case URequest(v, _) => SendIn(s, SSI, s.current.value, v, x, d) + RecvIn(Asked(s, v), Some(SSI), x, d)
    case Terminal => SendIn(s, s.slot.value, SSI, 0, x, d)
    case SsiReceive(_) => RecvIn(s, None, x, d)
    case SsiServe(req) =>
      var p := ReplyState(s, req, Applicant(s).value);
      if p.1.Some? then SendIn(p.0, Applicant(s).value, SSI, p.1.value, x, d) else []
    case _ => []
  }

  // ----- Pending messages, operation by operation -----

  /** Mailboxes and message records are the same. */
  ghost predicate SameMail(s: State, r: State) {
    && r.st.msg == s.st.msg
    && forall d: Tid {:trigger Q(r.st.q, TMsgq(d))} :: Q(r.st.q, TMsgq(d)) == Q(s.st.q, TMsgq(d))
  }

  lemma SameMailPending(s: State, r: State, x: Tid, d: Tid)
    requires SameMail(s, r)
    ensures Pending(r.st, x, d) == Pending(s.st, x, d)
  {
  }

  lemma ResumeMail(s: State, t: Tid, rval: Option<Tid>, v: Value)
    requires CoreInv(s)
    ensures SameMail(s, Resume(s, t, rval, v))
  {
    hide SchedAgree, NoLostWakeup, ThreadsAgree, ThreadsClean, ProcsAgree, Tree, Owned, MsgsAgree, Sep, Move, Shaped;
    var st, r := s.st, Resume(s, t, rval, v).st;
    Heads(st);
    forall d: Tid ensures Q(r.q, TMsgq(d)) == Q(st.q, TMsgq(d)) {
      MoveAt(st.q, TSched(t), ReadyQ, TMsgq(d));
      OtherKind(st.q, TMsgq(d), TSched(t), |st.pcb|, |st.tcb|, |st.msg|);
    }
  }

  lemma BoxHead(st: Store, d: Tid)
    requires Shape(st) && d < |st.tcb|
    ensures TMsgq(d) in st.q
  {
    assert IsHead(TMsgq(d), |st.pcb|, |st.tcb|);
  }

  lemma AddMail(s: State, snd: Tid, d': Tid, v: Value, x: Tid, d: Tid)
    requires CoreInv(s) && Live(s.st.tcb, d') && Q(s.st.q, FreeMsgs) != []
    ensures var r := MsgAdd(s.st, Some(snd), Some(d'), v).0;
            Pending(r, x, d) == Pending(s.st, x, d) + if snd == x && d' == d then [v] else []
  {
    hide SchedAgree, NoLostWakeup, ThreadsAgree, ThreadsClean, ProcsAgree, Tree, Owned, Move, Shaped, From;
    var st := s.st;
    FreeSlot(st);
    var n := Q(st.q, FreeMsgs)[0];
    var m := MidOf(n);
    var r := MsgAdd(st, Some(snd), Some(d'), v).0;
    BoxHead(st, d');
    hide MsgsAgree;
    MoveHead(st.q, FreeMsgs, TMsgq(d'));
    PutM(st.msg, m, Msg(Some(snd), v));
    BoxFits(st, d);
    var box := Q(st.q, TMsgq(d));
    assert n !in box;
    FromFrame(box, st.msg, r.msg, x);
    if d' == d {
      FromAppend(box, [n], r.msg, x);
      FromOne(n, r.msg, x);
    }
  }

  lemma FromOne(n: Node, msg: seq<Msg>, x: Tid)
    ensures From([n], msg, x) == if M(msg, MidOf(n)).sender == Some(x) then [M(msg, MidOf(n)).value] else []
  {
  }

  lemma SendFifo(s: State, d': Tid, snd: Tid, v: Value, x: Tid, d: Tid)
    requires CoreInv(s)
    ensures Pending(s.st, x, d) + SendOut(s, d', snd, v, x, d)
            == SendIn(s, d', snd, v, x, d) + Pending(Send(s, d', snd, v).0.st, x, d)
  {
    hide CoreInv, Resume, Pending;
    var tc := T(s.st.tcb, d');
    if Awaits(tc, snd) {
      ResumeMail(s, d', Some(snd), v);
      SameMailPending(s, Send(s, d', snd, v).0, x, d);
      if snd == x && d' == d { NothingPending(s, x, d); }
    } else if tc.status != Unused && Q(s.st.q, FreeMsgs) != [] {
      AddMail(s, snd, d', v, x, d);
    }
  }

  /** A thread that waits for `x` has no message from `x` queued. */
  lemma NothingPending(s: State, x: Tid, d: Tid)
    requires CoreInv(s) && Awaits(T(s.st.tcb, d), x)
    ensures Pending(s.st, x, d) == []
  {
    hide SchedAgree, ThreadsAgree, ThreadsClean, ProcsAgree, Tree, Owned, Sep, Shaped, MsgsAgree;
    var box := Q(s.st.q, TMsgq(d));
    forall n | n in box ensures M(s.st.msg, MidOf(n)).sender != Some(x) {}
    FromNothing(box, s.st.msg, x);
  }

  lemma {:induction false} FromNothing(box: seq<Node>, msg: seq<Msg>, x: Tid)
    requires forall n :: n in box ==> M(msg, MidOf(n)).sender != Some(x)
    ensures From(box, msg, x) == []
  {
    if box != [] {
      assert box[0] in box;
      assert forall n :: n in box[1..] ==> n in box;
      FromNothing(box[1..], msg, x);
    }
  }

  lemma DispatchMail(s: State)
    requires CoreInv(s.(current := None))
    ensures SameMail(s, Dispatch(s))
  {
    hide SchedAgree, NoLostWakeup, ThreadsAgree, ThreadsClean, ProcsAgree, Tree, Owned, MsgsAgree, Sep, Unlink, Shaped;
    var st := s.st;
    if ReadyList(s) != [] {
      HeadThread(s);
      var n := ReadyList(s)[0];
      forall d: Tid ensures Q(Unlink(st.q, n), TMsgq(d)) == Q(st.q, TMsgq(d)) {
        assert Q(Unlink(st.q, n), TMsgq(d)) == Without(Q(st.q, TMsgq(d)), n);
        OtherKind(st.q, TMsgq(d), n, |st.pcb|, |st.tcb|, |st.msg|);
      }
    }
  }

  lemma RecvFifo(s: State, src: Option<Tid>, pmsg: nat, x: Tid, d: Tid)
    requires CoreInv(s) && s.current.Some? && CanReceive(s, src)
    ensures Pending(s.st, x, d) == RecvIn(s, src, x, d) + Pending(SysRecv(s, src, pmsg).st, x, d)
  {
    hide CoreInv, Dispatch, Pending, MsgGet, Block;
    var g := MsgGet(s.st, src, s.current);
    if g.1.Some? {
      GetFifo(s, src, x, d);
    } else {
      var s1 := s.(cpu := Regs(Code(SYS_RECV), pmsg));
      CpuCore(s, s1);
      GetNone(s, src);
      BlockKeeps(s1, src);
      BlockMail(s1, src);
      DispatchMail(Block(s1, src));
      SameMailPending(s1, Block(s1, src), x, d);
      SameMailPending(Block(s1, src), Dispatch(Block(s1, src)), x, d);
      assert SysRecv(s, src, pmsg) == Dispatch(Block(s1, src));
      assert [] + Pending(s.st, x, d) == Pending(s.st, x, d);
    }
  }

  lemma GetFifo(s: State, src: Option<Tid>, x: Tid, d: Tid)
    requires CoreInv(s) && s.current.Some?
    ensures Pending(s.st, x, d) == RecvIn(s, src, x, d) + Pending(MsgGet(s.st, src, s.current).0, x, d)
  {
    hide SchedAgree, NoLostWakeup, ThreadsAgree, ThreadsClean, ProcsAgree, Tree, Owned, MsgsAgree, Sep, Shaped, Pending,
      MsgGet;
    MsgGetPending(s.st, src, s.current.value, x, d);
  }

  lemma BlockMail(s: State, src: Option<Tid>)
    requires s.current.Some?
    ensures SameMail(s, Block(s, src))
  {
    AppendAt(s.st.q, WaitQueue(src), TSched(s.current.value));
  }

  lemma PreemptMail(s: State)
    ensures SameMail(s, Preempt(s))
  {
    if s.current.Some? { AppendAt(s.st.q, ReadyQ, TSched(s.current.value)); }
  }

  lemma TickFifo(s: State, x: Tid, d: Tid)
    requires CoreInv(s)
    ensures Pending(Timer(s).st, x, d) == Pending(s.st, x, d)
  {
    hide CoreInv, Dispatch, Preempt, Pending;
    PreemptKeeps(s);
    PreemptMail(s);
    DispatchMail(Preempt(s));
    SameMailPending(s, Preempt(s), x, d);
    SameMailPending(Preempt(s), Timer(s), x, d);
  }

  lemma TerminalFifo(s: State, x: Tid, d: Tid)
    requires Inv(s) && s.slot.Some? && On(s)
    ensures var e := Terminal;
            Pending(s.st, x, d) + SendOut(s, s.slot.value, SSI, 0, x, d)
            == SendIn(s, s.slot.value, SSI, 0, x, d) + Pending(IoDone(s).st, x, d)
  {
    hide CoreInv, Dispatch, Send, Pending, NoEmpty;
    SendFifo(s, s.slot.value, SSI, 0, x, d);
    SendKeeps(s, s.slot.value, SSI, 0);
    SendFrame(s, s.slot.value, SSI, 0);
    var m := Send(s, s.slot.value, SSI, 0);
    if m.1 && s.mode == Waiting {
      var s1 := m.0.(slot := None, mode := Running);
      SlotCore(m.0, s1);
      assert s1.(current := None) == s1;
      DispatchMail(s1);
      SameMailPending(s1, Dispatch(s1), x, d);
    }
  }

  // ----- The services -----

  /** Whatever the SSI does before it replies, survivors lose no message and get none. */
  lemma ServiceFifo(s: State, req: Request, a: Tid, x: Tid, d: Tid)
    requires Inv(s) && s.current == Some(SSI) && a != SSI && Live(s.st.tcb, a)
    requires Live(s.st.tcb, x) && Live(s.st.tcb, d)
    ensures var r := ReplyState(s, req, a).0.st;
            Live(r.tcb, x) && Live(r.tcb, d) ==> Pending(r, x, d) == Pending(s.st, x, d)
  {
    hide Shape, Sep, ThreadsAgree, ProcsAgree, Tree, Owned, MsgsAgree, SchedAgree, NoLostWakeup, NoEmpty, CountAgrees,
      SoftAgrees, Rests, CreateProcess, CreateThread, TerminateProcess, TerminateThread, Pending, SysSend;
    assert ProcOf(s, a).Some?;
    hide ThreadsClean, CoreInv;
    var p := ProcOf(s, a).value;
    match req {
      case MakeProcess(init) =>
        CreateProcessEffect(s, init, a, p);
        CreateProcessMail(s, init, a, p);
        SameMailPending(s, CreateProcess(s, init, a).0, x, d);
      case MakeThread(init) =>
        CreateThreadMail(s, init, a, p);
        SameMailPending(s, CreateThread(s, init, a).0, x, d);
      case EndProcess => EndProcessExact(s, a, p);
      case EndThread =>
        EndThreadExact(s, a, p);
        ReapedMail(s, TerminateThread(s, a));
      case SetManager(k, m) => if m.Some? && MgrOf(P(s.st.pcb, p), k).Some? { EndProcessExact(s, a, p); }
        else { MgrMail(s, k, m, a); SameMailPending(s, SetMgr(s, k, m, a).0, x, d); }
      case Io(terminal) => DoIoStore(s, terminal, a);
      case Query(v) =>
      case Unknown =>
    }
  }

  lemma ReapedMail(s: State, r: State)
    requires Reaped(s, r)
    ensures MailReaped(s.st, r.st)
  {
  }

  lemma DoIoStore(s: State, terminal: bool, a: Tid)
    ensures DoIo(s, terminal, a).st == s.st
  {
  }

  lemma MgrMail(s: State, k: Mgr, m: Option<Tid>, a: Tid)
    requires ProcOf(s, a).Some? && !(m.Some? && MgrOf(P(s.st.pcb, ProcOf(s, a).value), k).Some?)
    ensures SameMail(s, SetMgr(s, k, m, a).0)
  {
  }

  lemma CreateThreadMail(s: State, init: Regs, a: Tid, p: Pid)
    requires CoreInv(s) && ProcOf(s, a) == Some(p)
    ensures SameMail(s, CreateThread(s, init, a).0)
  {
    hide Shape, Sep, ThreadsAgree, ThreadsClean, ProcsAgree, Tree, MsgsAgree, SchedAgree, NoLostWakeup, CreateThreadIn;
    assert Allocated(s.st.pcb, p);
    CreateThreadEffect(s, init, p);
  }

  lemma CreateProcessMail(s: State, init: Regs, a: Tid, p: Pid)
    requires CoreInv(s) && ProcOf(s, a) == Some(p)
    ensures SameMail(s, CreateProcess(s, init, a).0)
  {
    hide CoreInv, CreateProcess, Founded, Untouched;
    CreateProcessEffect(s, init, a, p);
    var r := CreateProcess(s, init, a);
    if r.1.Some? { FoundedMail(s, r.0, r.1.value, p, init); } else { UntouchedMail(s, r.0); }
  }

  lemma UntouchedMail(s: State, r: State)
    requires Untouched(s, r)
    ensures SameMail(s, r)
  {
  }

  lemma FoundedMail(s: State, r: State, t: Tid, p: Pid, init: Regs)
    requires Founded(s, r, t, p, init)
    ensures SameMail(s, r)
  {
    var m: State, c: Pid :|
      ProcessAdded(s, m, c, p) && ThreadAdded(m, r, t, c, init) && Q(m.st.q, PThreads(c)) == [];
    assert SameMail(s, m);
    hide ProcessAdded;
    forall d: Tid ensures Q(r.st.q, TMsgq(d)) == Q(s.st.q, TMsgq(d)) {
      assert Q(m.st.q, TMsgq(d)) == Q(s.st.q, TMsgq(d));
    }
  }

  lemma ReplyKeeps(s: State, req: Request, a: Tid)
    requires Inv(s) && s.current == Some(SSI) && a != SSI && Live(s.st.tcb, a)
    ensures var p := ReplyState(s, req, a);
            && CoreInv(p.0) && p.0.current == Some(SSI)
            && Serve(s, req, a) == if p.1.Some? then SysSend(p.0, a, p.1.value).0 else p.0
  {
    hide Shape, Sep, ThreadsAgree, ProcsAgree, Tree, Owned, MsgsAgree, SchedAgree, NoLostWakeup, NoEmpty, CountAgrees,
      SoftAgrees, CreateProcess, CreateThread, TerminateProcess, TerminateThread, SetMgr, SysSend;
    assert ProcOf(s, a).Some?;
    hide ThreadsClean, CoreInv;
    var p := ProcOf(s, a).value;
    match req {
      case MakeProcess(init) => MakeProcessKeeps(s, init, a, p);
      case MakeThread(init) => MakeThreadKeeps(s, init, a, p);
      case EndProcess => EndProcessKeeps(s, a, p);
      case EndThread => EndThreadKeeps(s, a, p);
      case SetManager(k, m) => SetMgrKeeps(s, k, m, a, p);
      case Io(terminal) => DoIoKeeps(s, terminal, a); DoIoCurrent(s, terminal, a);
      case Query(v) =>
      case Unknown => FailKeeps(s);
    }
  }

  lemma DoIoCurrent(s: State, terminal: bool, a: Tid)
    ensures DoIo(s, terminal, a).current == s.current
  {
  }

  lemma SendLives(s: State, d: Tid, snd: Tid, v: Value, x: Tid)
    ensures Live(Send(s, d, snd, v).0.st.tcb, x) <==> Live(s.st.tcb, x)
  {
  }

  lemma ServeFifo(s: State, req: Request, x: Tid, d: Tid)
    requires Inv(s) && Enabled(s, SsiServe(req))
    requires Live(s.st.tcb, x) && Live(s.st.tcb, d)
    ensures var e := SsiServe(req); var r := Next(s, e).st;
            Live(r.tcb, x) && Live(r.tcb, d) ==>
              Pending(s.st, x, d) + Sent(s, e, x, d) == Got(s, e, x, d) + Pending(r, x, d)
  {
    hide Inv, CoreInv, Serve, ReplyState, Pending, Send, SendOut, SendIn;
    var a := Applicant(s).value;
    var p := ReplyState(s, req, a);
    ServiceRuns(s, req);
    ReplyKeeps(s, req, a);
    if p.1.Some? {
      SendLives(p.0, a, SSI, p.1.value, x);
      SendLives(p.0, a, SSI, p.1.value, d);
      ServiceFifo(s, req, a, x, d);
      SendFifo(p.0, a, SSI, p.1.value, x, d);
    } else {
      ServiceFifo(s, req, a, x, d);
    }
  }

  lemma ServiceRuns(s: State, req: Request)
    requires Able(s, SsiServe(req))
    ensures s.current == Some(SSI)
  {
  }

  // ----- The theorem -----

  /** In one step: pending before, then sent = received, then pending after. */
  lemma StepFifo(s: State, e: Step, x: Tid, d: Tid)
    requires Inv(s) && Enabled(s, e)
    requires Live(s.st.tcb, x) && Live(s.st.tcb, d) && Live(Next(s, e).st.tcb, x) && Live(Next(s, e).st.tcb, d)
    ensures Pending(s.st, x, d) + Sent(s, e, x, d) == Got(s, e, x, d) + Pending(Next(s, e).st, x, d)
  {
    hide CoreInv, NoEmpty, CountAgrees, SoftAgrees, Rests, SysRecv, Serve, Timer, IoDone, Pending, Send, SendOut, SendIn,
      RecvIn, ReplyState;
    match e {
      case Compute(cpu, mem) =>
      case USend(d', v) => SendFifo(s, d', s.current.value, v, x, d);
      case URecv(src, pmsg) => RecvFifo(s, src, pmsg, x, d);
      case URequest(v, pmsg) =>
        SendFifo(s, SSI, s.current.value, v, x, d);
        SendStep(s, SSI, v);
        SsiLives(Asked(s, v));
        RecvFifo(Asked(s, v), Some(SSI), pmsg, x, d);
      case Tick => TickFifo(s, x, d);
      case Terminal => TerminalFifo(s, x, d);
      case SsiReceive(pmsg) => RecvFifo(s, None, pmsg, x, d);
      case SsiServe(req) => ServeFifo(s, req, x, d);
    }
  }

  ghost function AllSent(s: State, es: seq<Step>, x: Tid, d: Tid): seq<Value>
    requires Run(s, es)
    decreases |es|
  {
    if es == [] then [] else Sent(s, es[0], x, d) + AllSent(Next(s, es[0]), es[1..], x, d)
  }

  ghost function AllGot(s: State, es: seq<Step>, x: Tid, d: Tid): seq<Value>
    requires Run(s, es)
    decreases |es|
  {
    if es == [] then [] else Got(s, es[0], x, d) + AllGot(Next(s, es[0]), es[1..], x, d)
  }

  /** `t` is live in every state of the run. */
  ghost predicate LivesThrough(s: State, es: seq<Step>, t: Tid)
    requires Run(s, es)
    decreases |es|
  {
    Live(s.st.tcb, t) && (es != [] ==> LivesThrough(Next(s, es[0]), es[1..], t))
  }

  /** Over every run in which both live: pending before, then all sent = all received, then pending after. */
  lemma {:induction false} RunFifo(s: State, es: seq<Step>, x: Tid, d: Tid)
    requires Inv(s) && Run(s, es) && LivesThrough(s, es, x) && LivesThrough(s, es, d)
    ensures Pending(s.st, x, d) + AllSent(s, es, x, d) == AllGot(s, es, x, d) + Pending(After(s, es).st, x, d)
    decreases |es|
  {
    hide Inv, Next, Pending, Sent, Got, Live;
    if es == [] {
      assert Pending(s.st, x, d) + [] == [] + Pending(s.st, x, d);
    } else {
      var n := Next(s, es[0]);
      StepKeeps(s, es[0]);
      assert LivesThrough(n, es[1..], x) && LivesThrough(n, es[1..], d);
      StepFifo(s, es[0], x, d);
      RunFifo(n, es[1..], x, d);
      var a, b, c := Pending(s.st, x, d), Sent(s, es[0], x, d), AllSent(n, es[1..], x, d);
      var g, h, z := Got(s, es[0], x, d), AllGot(n, es[1..], x, d), Pending(After(n, es[1..]).st, x, d);
      calc {
        a + (b + c);
        (a + b) + c;
        (g + Pending(n.st, x, d)) + c;
        g + (Pending(n.st, x, d) + c);
        g + (h + z);
        (g + h) + z;
      }
    }
  }
}
