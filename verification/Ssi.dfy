/** Under the client protocol of src/nucleus.h the SSI never serves a dead thread, and never fails to answer. */
module Ssi {
  import opened Types
  import opened Links
  import opened Store
  import opened Kernel
  import opened Invariant
  import opened Preserve
  import opened Termination
  import opened Mail
  import opened Reap
  import opened Subtree
  import opened Endings
  import opened Machine
  import opened Safety
  import opened Requests
  import opened Fifo
  import opened Fair

  // ----- The protocol -----

  /** `x` belongs to the process of `a` or to a descendant of it. */
  ghost predicate InTree(s: State, a: Tid, x: Tid) {
    ProcOf(s, a).Some? && ProcOf(s, x).Some? && Under(s.st.pcb, ProcOf(s, x).value, ProcOf(s, a).value)
  }

  ghost predicate LastThread(s: State, a: Tid) { forall u: Tid :: ProcOf(s, u) == ProcOf(s, a) <==> u == a }

  /** Does serving `req` of `a` end thread `x`? */
  ghost predicate Ends(s: State, req: Request, a: Tid, x: Tid) {
    match req
    case EndProcess => InTree(s, a, x)
    case EndThread => if LastThread(s, a) then InTree(s, a, x) else x == a
    case SetManager(k, m) =>
      m.Some? && ProcOf(s, a).Some? && MgrOf(P(s.st.pcb, ProcOf(s, a).value), k).Some? && InTree(s, a, x)
    case _ => false
  }

  /** A request ends exactly the threads that can be told from the state it is served in. */
  lemma EndsExactly(s: State, req: Request, x: Tid)
    requires Inv(s) && Able(s, SsiServe(req)) && Live(s.st.tcb, x)
    ensures Live(Next(s, SsiServe(req)).st.tcb, x) <==> !Ends(s, req, Applicant(s).value, x)
  {
    hide CoreInv, NoEmpty, CountAgrees, SoftAgrees, Rests, Serve, Send, ReplyState, Ends;
    var a := Applicant(s).value;
    var r := ReplyState(s, req, a);
    ServiceRuns(s, req);
    ReplyKeeps(s, req, a);
    EndedThreads(s, req, a, x);
    if r.1.Some? { SendLives(r.0, a, SSI, r.1.value, x); }
  }

  lemma EndedThreads(s: State, req: Request, a: Tid, x: Tid)
    requires Inv(s) && s.current == Some(SSI) && a != SSI && Live(s.st.tcb, a) && Live(s.st.tcb, x)
    ensures Live(ReplyState(s, req, a).0.st.tcb, x) <==> !Ends(s, req, a, x)
  {
    hide Shape, Sep, ThreadsAgree, ProcsAgree, Tree, Owned, MsgsAgree, SchedAgree, NoLostWakeup, NoEmpty, CountAgrees,
      SoftAgrees, Rests, CreateProcess, CreateThread, TerminateProcess, TerminateThread, Reaped, WaitersWoken,
      MailReaped, Within, Under, CellsReaped;
    assert ProcOf(s, a).Some?;
    var p := ProcOf(s, a).value;
    hide ThreadsClean, CoreInv;
    match req {
      case MakeProcess(init) => CreateProcessReady(s, init, a, p);
      case MakeThread(init) => CreateThreadReady(s, init, a, p);
      case EndProcess => EndProcessExact(s, a, p);
      case EndThread => EndThreadExact(s, a, p);
      case SetManager(k, m) => EndProcessExact(s, a, p);
      case Io(terminal) => DoIoStore(s, terminal, a);
      case _ =>
    }
  }

  /** Clients talk to the SSI by requests only: one send at once followed by a receive from it. No request ends the
      thread registered for I/O before its I/O is done. */
  ghost predicate Polite(s: State, e: Step)
    requires Able(s, e)
  {
    match e
    case USend(d, _) => d != SSI
    case URecv(src, _) => src != Some(SSI)
    case SsiServe(req) => s.slot.Some? ==> !Ends(s, req, Applicant(s).value, s.slot.value)
    case _ => true
  }

  ghost predicate PoliteRun(s: State, es: seq<Step>)
    decreases |es|
  {
    es == [] || (Enabled(s, es[0]) && Polite(s, es[0]) && PoliteRun(Next(s, es[0]), es[1..]))
  }

  // ----- The invariant of the protocol -----

  function SsiRegs(s: State): Regs { if s.current == Some(SSI) then s.cpu else T(s.st.tcb, SSI).regs }

  /** The client whose request the SSI has received and not yet served. */
  function Held(s: State): Option<Tid> {
    if s.ssi == Serving && T(s.st.tcb, SSI).status == Ready && SsiRegs(s).a1.Ptr? then SsiRegs(s).a1.thread else None
  }

  ghost predicate Asking(s: State) {
    && (s.ssi == Receiving ==> T(s.st.tcb, SSI).status == Ready)
    && (s.ssi == Serving && T(s.st.tcb, SSI).status == Ready ==> Held(s).Some? && Waits(s.st.tcb, Held(s).value))
    && (s.slot.Some? ==> Waits(s.st.tcb, s.slot.value) && s.slot != Held(s))
  }

  ghost predicate NotFromSsi(msg: seq<Msg>) { forall m: Mid :: M(msg, m).sender != Some(SSI) }

  /** A request is in the mailbox, or held by the SSI, or it is the I/O in progress; its client is live and
      blocked on the SSI, and is in only one of these places, once. */
  ghost predicate SsiInv(s: State) {
    && Asking(s) && NotFromSsi(s.st.msg)
    && MailOk(s.st, Held(s)) && MailOk(s.st, s.slot)
  }

  /** The SSI sees the same requests and the same clients. */
  ghost predicate SameRequests(s: State, r: State) {
    && r.ssi == s.ssi && r.slot == s.slot && Held(r) == Held(s)
    && T(r.st.tcb, SSI).status == T(s.st.tcb, SSI).status
    && (forall x: Tid {:trigger Waits(r.st.tcb, x)} :: Waits(s.st.tcb, x) ==> Waits(r.st.tcb, x))
  }

  lemma SameClients(box: seq<Node>, msg: seq<Msg>, msg': seq<Msg>, tcb: seq<Tcb>, tcb': seq<Tcb>, but: Option<Tid>)
    requires Clients(box, msg, tcb, but) && (forall n :: n in box ==> M(msg', MidOf(n)) == M(msg, MidOf(n)))
    requires forall x: Tid {:trigger Waits(tcb', x)} :: Waits(tcb, x) ==> Waits(tcb', x)
    ensures Clients(box, msg', tcb', but)
  {
    hide Waits;
    ClientsFrame(box, msg, msg', tcb, but);
  }

  /** With the same mailbox nothing about the requests changes. */
  lemma RequestsKeep(s: State, r: State)
    requires SsiInv(s) && SameRequests(s, r) && SameMail(s, r)
    ensures SsiInv(r)
  {
    hide Waits, Clients;
    assert Q(r.st.q, TMsgq(SSI)) == Q(s.st.q, TMsgq(SSI));
    SameClients(Q(s.st.q, TMsgq(SSI)), s.st.msg, r.st.msg, s.st.tcb, r.st.tcb, Held(s));
    SameClients(Q(s.st.q, TMsgq(SSI)), s.st.msg, r.st.msg, s.st.tcb, r.st.tcb, s.slot);
    hide SameMail, Held;
  }

  // ----- Operation by operation -----

  lemma ResumeOther(s: State, d: Tid, snd: Tid, v: Value)
    requires CoreInv(s) && SsiInv(s) && d != SSI && snd != SSI && Awaits(T(s.st.tcb, d), snd)
    ensures SsiInv(Resume(s, d, Some(snd), v))
  {
    ResumeMail(s, d, Some(snd), v);
    hide CoreInv, MailOk, SameMail, Move;
    var r := Resume(s, d, Some(snd), v);
    PutT(s.st.tcb, d, Resumed(T(s.st.tcb, d), Some(snd)));
    RequestsKeep(s, r);
  }

  lemma AddOther(s: State, d: Tid, snd: Tid, v: Value)
    requires CoreInv(s) && SsiInv(s) && d != SSI && snd != SSI && Live(s.st.tcb, d)
    ensures SsiInv(s.(st := MsgAdd(s.st, Some(snd), Some(d), v).0))
  {
    hide SchedAgree, NoLostWakeup, ThreadsAgree, ThreadsClean, ProcsAgree, Tree, Owned, Move, Shaped, Clients;
    var st := s.st;
    if Q(st.q, FreeMsgs) != [] {
      FreeSlot(st);
      hide MsgsAgree;
      var n := Q(st.q, FreeMsgs)[0];
      var r := MsgAdd(st, Some(snd), Some(d), v).0;
      BoxHead(st, d);
      MoveHead(st.q, FreeMsgs, TMsgq(d));
      PutM(st.msg, n.m, Msg(Some(snd), v));
      BoxFits(st, SSI);
      assert n !in Q(st.q, TMsgq(SSI));
      ClientsFrame(Q(st.q, TMsgq(SSI)), st.msg, r.msg, st.tcb, Held(s));
      ClientsFrame(Q(st.q, TMsgq(SSI)), st.msg, r.msg, st.tcb, s.slot);
    }
  }

  lemma SendOther(s: State, d: Tid, snd: Tid, v: Value)
    requires CoreInv(s) && SsiInv(s) && d != SSI && snd != SSI
    ensures SsiInv(Send(s, d, snd, v).0)
  {
    hide CoreInv, SsiInv, Resume, MsgAdd;
    var tc := T(s.st.tcb, d);
    if tc.status != Unused {
      if Awaits(tc, snd) { ResumeOther(s, d, snd, v); } else { AddOther(s, d, snd, v); }
    }
  }

  lemma ClientsBut(box: seq<Node>, msg: seq<Msg>, tcb: seq<Tcb>, tcb': seq<Tcb>, but: Option<Tid>, a: Tid)
    requires Clients(box, msg, tcb, but) && Clients(box, msg, tcb, Some(a))
    requires forall x: Tid {:trigger Waits(tcb', x)} :: x != a && Waits(tcb, x) ==> Waits(tcb', x)
    ensures Clients(box, msg, tcb', but)
  {
    hide Waits;
  }

  /** Answering a client that has no other request. */
  lemma Answer(s: State, a: Tid, v: Value)
    requires CoreInv(s) && SsiInv(s) && Waits(s.st.tcb, a)
    requires MailOk(s.st, Some(a)) && Held(s) != Some(a) && s.slot != Some(a)
    ensures Send(s, a, SSI, v).1 && SsiInv(Send(s, a, SSI, v).0)
  {
    ResumeMail(s, a, Some(SSI), v);
    hide CoreInv, Move, Clients, NotFromSsi;
    var r := Resume(s, a, Some(SSI), v);
    assert Send(s, a, SSI, v) == (r, true);
    PutT(s.st.tcb, a, Resumed(T(s.st.tcb, a), Some(SSI)));
    var box := Q(s.st.q, TMsgq(SSI));
    assert Q(r.st.q, TMsgq(SSI)) == box;
    assert Asking(r) && Held(r) == Held(s);
    assert forall x: Tid :: x != a && Waits(s.st.tcb, x) ==> Waits(r.st.tcb, x);
    hide SameMail, Q, Resume, Send, Waits, Asking, Held;
    ClientsBut(box, s.st.msg, s.st.tcb, r.st.tcb, Held(s), a);
    ClientsBut(box, s.st.msg, s.st.tcb, r.st.tcb, s.slot, a);
  }

  lemma UserCpu(s: State, r: State)
    requires SsiInv(s) && UserRuns(s) && r == s.(cpu := r.cpu, mem := r.mem)
    ensures SsiInv(r)
  {
    hide Clients;
  }

  lemma DispatchSsi(s: State)
    requires CoreInv(s.(current := None)) && SsiInv(s.(current := None))
    ensures SsiInv(Dispatch(s))
  {
    DispatchMail(s);
    hide CoreInv, SsiInv, Unlink;
    var n, r := s.(current := None), Dispatch(s);
    assert r == Dispatch(n);
    SameMailCurrent(s, n, r);
    assert SameRequests(n, r);
    RequestsKeep(n, r);
  }

  lemma SameMailCurrent(s: State, n: State, r: State)
    requires SameMail(s, r) && n == s.(current := None)
    ensures SameMail(n, r)
  {
  }

  lemma PreemptSsi(s: State)
    requires CoreInv(s) && SsiInv(s) && s.current != Some(SSI)
    ensures SsiInv(Preempt(s).(current := None))
  {
    PreemptMail(s);
    var r := Preempt(s).(current := None);
    if s.current.Some? {
      var t := s.current.value;
      CurrentUnlinked(s);
      PutT(s.st.tcb, t, T(s.st.tcb, t).(regs := s.cpu));
      hide CoreInv, MailOk, Append;
      assert SameRequests(s, r);
    } else {
      hide CoreInv, MailOk;
      assert SameRequests(s, r);
    }
    hide SsiInv;
    RequestsKeep(s, r);
  }

  lemma BlockSsi(s: State, src: Option<Tid>)
    requires CoreInv(s) && SsiInv(s) && UserRuns(s)
    ensures SsiInv(Block(s, src).(current := None))
  {
    BlockMail(s, src);
    var r, t := Block(s, src).(current := None), s.current.value;
    CurrentUnlinked(s);
    PutT(s.st.tcb, t, T(s.st.tcb, t).(regs := s.cpu, status := W4Msg, wait := src));
    hide CoreInv, MailOk, Append;
    assert SameRequests(s, r);
    hide SsiInv;
    RequestsKeep(s, r);
  }

  /** A receive by a client from somebody else. */
  lemma RecvOther(s: State, src: Option<Tid>, pmsg: nat)
    requires CoreInv(s) && SsiInv(s) && UserRuns(s) && CanReceive(s, src)
    ensures SsiInv(SysRecv(s, src, pmsg))
  {
    hide CoreInv, SsiInv, MsgGet, Block, Dispatch;
    var g := MsgGet(s.st, src, s.current);
    if g.1.Some? {
      GetOther(s, src);
      UserCpu(s.(st := g.0), SysRecv(s, src, pmsg));
    } else {
      var s1 := s.(cpu := Regs(Code(SYS_RECV), pmsg));
      CpuCore(s, s1);
      UserCpu(s, s1);
      GetNone(s, src);
      BlockKeeps(s1, src);
      BlockSsi(s1, src);
      DispatchSsi(Block(s1, src));
    }
  }

  /** Taking a message out of the mailbox of a client does not touch the requests. */
  lemma GetOther(s: State, src: Option<Tid>)
    requires CoreInv(s) && SsiInv(s) && UserRuns(s)
    ensures SsiInv(s.(st := MsgGet(s.st, src, s.current).0))
  {
    hide CoreInv, Clients, Sep, Shaped;
    ShapeOf(s);
    var st, t := s.st, s.current.value;
    var f := FirstFrom(Q(st.q, TMsgq(t)), st.msg, src);
    if f.Some? {
      FirstFromIn(Q(st.q, TMsgq(t)), st.msg, src);
      BoxFits(st, t);
      BoxFits(st, SSI);
      MsgFreeBox(st, f.value, SSI);
      OneBox(s, MNext(f.value), t, SSI);
      PutM(st.msg, f.value, M(st.msg, f.value).(sender := None));
      var r := MsgFree(st, f.value);
      ClientsFrame(Q(st.q, TMsgq(SSI)), st.msg, r.msg, st.tcb, Held(s));
      ClientsFrame(Q(st.q, TMsgq(SSI)), st.msg, r.msg, st.tcb, s.slot);
      hide MsgFree;
      FreeNotFromSsi(st.msg, f.value);
    }
  }

  lemma OneBox(s: State, n: Node, d: Tid, e: Tid)
    requires CoreInv(s) && n in Q(s.st.q, TMsgq(d)) && d != e
    ensures n !in Q(s.st.q, TMsgq(e))
  {
    hide Shape, ThreadsAgree, ThreadsClean, ProcsAgree, Tree, Owned, MsgsAgree, SchedAgree, NoLostWakeup;
  }

  lemma FreeNotFromSsi(msg: seq<Msg>, m: Mid)
    requires NotFromSsi(msg)
    ensures NotFromSsi(Put(msg, m, M(msg, m).(sender := None)))
  {
    PutM(msg, m, M(msg, m).(sender := None));
  }

  // ----- A request -----

  /** The SSI was blocked: it gets the request at once, from a client that blocks on it right away. */
  lemma RequestDirect(s: State, v: Value, pmsg: nat)
    requires CoreInv(s) && SsiInv(s) && UserRuns(s) && T(s.st.tcb, SSI).wait.None?
    requires T(s.st.tcb, SSI).status == W4Msg
    ensures SsiInv(Block(Asked(s, v).(cpu := Regs(Code(SYS_RECV), pmsg)), Some(SSI)).(current := None))
  {
    ResumeMail(s, SSI, Some(s.current.value), v);
    CurrentUnlinked(s);
    hide CoreInv, Move, Append;
    var t := s.current.value;
    var a := Asked(s, v).(cpu := Regs(Code(SYS_RECV), pmsg));
    PutT(s.st.tcb, SSI, Resumed(T(s.st.tcb, SSI), Some(t)));
    BlockMail(a, Some(SSI));
    var r := Block(a, Some(SSI)).(current := None);
    PutT(a.st.tcb, t, T(a.st.tcb, t).(regs := a.cpu, status := W4Msg, wait := Some(SSI)));
    assert s.ssi == Serving;
    assert Held(r) == Some(t) && Waits(r.st.tcb, t);
    assert forall x: Tid :: Waits(s.st.tcb, x) ==> Waits(r.st.tcb, x) && x != t;
    var box := Q(s.st.q, TMsgq(SSI));
    assert Q(a.st.q, TMsgq(SSI)) == box && Q(r.st.q, TMsgq(SSI)) == box;
    hide SameMail, Q, Asked, Block;
    ButRunning(box, s.st.msg, s.st.tcb, s.slot, t);
    SameClients(box, s.st.msg, r.st.msg, s.st.tcb, r.st.tcb, Some(t));
    SameClients(box, s.st.msg, r.st.msg, s.st.tcb, r.st.tcb, s.slot);
  }

  lemma ButRunning(box: seq<Node>, msg: seq<Msg>, tcb: seq<Tcb>, but: Option<Tid>, t: Tid)
    requires Clients(box, msg, tcb, but) && !Waits(tcb, t)
    ensures Clients(box, msg, tcb, Some(t))
  {
  }

  /** The request of `t` is appended: `t` is a client now, and had no request before. */
  lemma Enqueued(box: seq<Node>, n: Node, msg: seq<Msg>, msg': seq<Msg>, tcb: seq<Tcb>, tcb': seq<Tcb>, but: Option<Tid>,
                 t: Tid)
    requires Clients(box, msg, tcb, but) && (forall k :: k in box ==> M(msg', MidOf(k)) == M(msg, MidOf(k)))
    requires forall x: Tid {:trigger Waits(tcb', x)} :: Waits(tcb, x) ==> Waits(tcb', x)
    requires Sender(msg', n) == Some(t) && !Waits(tcb, t) && Waits(tcb', t) && but != Some(t)
    ensures Clients(box + [n], msg', tcb', but)
  {
    hide Waits;
    forall i | 0 <= i < |box| ensures Sender(msg', box[i]) != Some(t) && Sender(msg', box[i]) == Sender(msg, box[i]) {
      assert box[i] in box;
    }
  }

  /** The mailbox of the SSI after `msgq_add`: one more request, if a slot was free. */
  lemma AddedToSsi(s: State, t: Tid, v: Value)
    requires CoreInv(s)
    ensures var m := MsgAdd(s.st, Some(t), Some(SSI), v).0; var box := Q(s.st.q, TMsgq(SSI));
            && m == s.st.(q := m.q, msg := m.msg)
            && (forall k :: k in box ==> M(m.msg, MidOf(k)) == M(s.st.msg, MidOf(k)))
            && if Q(s.st.q, FreeMsgs) == [] then Q(m.q, TMsgq(SSI)) == box
               else var n := Q(s.st.q, FreeMsgs)[0]; Q(m.q, TMsgq(SSI)) == box + [n] && Sender(m.msg, n) == Some(t)
  {
    hide SchedAgree, NoLostWakeup, ThreadsAgree, ProcsAgree, Tree, Owned, Move, Shaped;
    if Q(s.st.q, FreeMsgs) != [] {
      FreeSlot(s.st);
      hide MsgsAgree;
      var n := Q(s.st.q, FreeMsgs)[0];
      BoxHead(s.st, SSI);
      MoveHead(s.st.q, FreeMsgs, TMsgq(SSI));
      PutM(s.st.msg, n.m, Msg(Some(t), v));
      BoxFits(s.st, SSI);
      assert n !in Q(s.st.q, TMsgq(SSI));
    }
  }

  lemma RequestQueued(s: State, v: Value, pmsg: nat)
    requires CoreInv(s) && SsiInv(s) && UserRuns(s) && T(s.st.tcb, SSI).status == Ready
    ensures SsiInv(Block(Asked(s, v).(cpu := Regs(Code(SYS_RECV), pmsg)), Some(SSI)).(current := None))
  {
    CurrentUnlinked(s);
    AddedToSsi(s, s.current.value, v);
    hide CoreInv, MsgAdd, Append, Clients;
    var t := s.current.value;
    var a := Asked(s, v).(cpu := Regs(Code(SYS_RECV), pmsg));
    var m := MsgAdd(s.st, Some(t), Some(SSI), v).0;
    assert a.st == m;
    BlockMail(a, Some(SSI));
    var r := Block(a, Some(SSI)).(current := None);
    PutT(s.st.tcb, t, T(a.st.tcb, t).(regs := a.cpu, status := W4Msg, wait := Some(SSI)));
    var box := Q(s.st.q, TMsgq(SSI));
    assert Held(r) == Held(s) && Waits(r.st.tcb, t) && Asking(r);
    assert forall x: Tid :: Waits(s.st.tcb, x) ==> Waits(r.st.tcb, x) && x != t;
    assert Q(r.st.q, TMsgq(SSI)) == Q(m.q, TMsgq(SSI)) && r.st.msg == m.msg;
    AskedNotFromSsi(s, v);
    assert !Waits(s.st.tcb, t) && Held(s) != Some(t) && s.slot != Some(t);
    hide Asked, Block, SameMail, Asking, Held, NotFromSsi, Waits;
    if Q(s.st.q, FreeMsgs) == [] {
      SameClients(box, s.st.msg, r.st.msg, s.st.tcb, r.st.tcb, Held(s));
      SameClients(box, s.st.msg, r.st.msg, s.st.tcb, r.st.tcb, s.slot);
    } else {
      var n := Q(s.st.q, FreeMsgs)[0];
      Enqueued(box, n, s.st.msg, m.msg, s.st.tcb, r.st.tcb, Held(s), t);
      Enqueued(box, n, s.st.msg, m.msg, s.st.tcb, r.st.tcb, s.slot, t);
    }
  }

  /** After asking, a client always blocks: no reply of the SSI is ever queued. */
  lemma AskedBlocks(s: State, v: Value, pmsg: nat)
    requires CoreInv(s) && SsiInv(s) && UserRuns(s)
    ensures SysRecv(Asked(s, v), Some(SSI), pmsg)
            == Dispatch(Block(Asked(s, v).(cpu := Regs(Code(SYS_RECV), pmsg)), Some(SSI)))
    ensures MsgGet(Asked(s, v).st, Some(SSI), s.current).1.None?
  {
    hide CoreInv, Dispatch, Block, Move;
    var a, t := Asked(s, v), s.current.value;
    assert NotFromSsi(a.st.msg) by { AskedNotFromSsi(s, v); }
    FirstFromNone(Q(a.st.q, TMsgq(t)), a.st.msg, Some(SSI));
    hide Asked;
  }

  lemma AskedNotFromSsi(s: State, v: Value)
    requires NotFromSsi(s.st.msg) && UserRuns(s)
    ensures NotFromSsi(Asked(s, v).st.msg)
  {
    hide Move, Q;
    var m := MsgAdd(s.st, Some(s.current.value), Some(SSI), v).0;
    if Q(s.st.q, FreeMsgs) != [] {
      PutM(s.st.msg, MidOf(Q(s.st.q, FreeMsgs)[0]), Msg(Some(s.current.value), v));
    }
    assert NotFromSsi(m.msg);
  }

  lemma RequestSsi(s: State, v: Value, pmsg: nat)
    requires Inv(s) && SsiInv(s) && UserRuns(s)
    ensures SsiInv(SysRecv(Asked(s, v), Some(SSI), pmsg))
  {
    hide CoreInv, SsiInv, Asked, Block, Dispatch, SysRecv, NoEmpty;
    AskedBlocks(s, v, pmsg);
    SsiLives(s);
    if T(s.st.tcb, SSI).status == W4Msg { RequestDirect(s, v, pmsg); } else { RequestQueued(s, v, pmsg); }
    SendStep(s, SSI, v);
    SsiLives(SysSend(s, SSI, v).0);
    AskedIs(s, v);
    var a := Asked(s, v).(cpu := Regs(Code(SYS_RECV), pmsg));
    CpuCore(Asked(s, v), a);
    GetNone(Asked(s, v), Some(SSI));
    BlockKeeps(a, Some(SSI));
    DispatchSsi(Block(a, Some(SSI)));
  }

  lemma AskedIs(s: State, v: Value)
    requires s.current.Some?
    ensures Asked(s, v) == SysSend(s, SSI, v).0
  {
  }
}
