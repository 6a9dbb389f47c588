/** Every polite run keeps the protocol invariant, so the SSI always has a live, blocked client to serve. */
module Protocol {
  import opened Types
  import opened Seqs
  import opened Links
  import opened Store
  import opened Kernel
  import opened Invariant
  import opened Preserve
  import opened Lifecycle
  import opened Mail
  import opened Reap
  import opened Subtree
  import opened Creation
  import opened Endings
  import opened Machine
  import opened Safety
  import opened Requests
  import opened Fifo
  import opened Ssi

  // ----- Receiving a request -----

  lemma HeadGone(box: seq<Node>, msg: seq<Msg>, tcb: seq<Tcb>, but: Option<Tid>, m: Mid)
    requires Clients(box, msg, tcb, but) && NoDup(box) && box != [] && box[0] == MNext(m)
    requires forall n :: n in box ==> n == MNext(MidOf(n))
    ensures var msg' := Put(msg, m, M(msg, m).(sender := None));
            Clients(box[1..], msg', tcb, but) && Clients(box[1..], msg', tcb, Sender(msg, box[0]))
    ensures Without(box, box[0]) == box[1..]
  {
    hide Clients, Without, NoDup;
    var rest := box[1..];
    HeadDropped(box, msg, tcb, but);
    RestIsOther(box, m);
    PutM(msg, m, M(msg, m).(sender := None));
    var msg' := Put(msg, m, M(msg, m).(sender := None));
    forall n | n in rest ensures M(msg', MidOf(n)) == M(msg, MidOf(n)) {}
    hide *;
    ClientsFrame(rest, msg, msg', tcb, but);
    ClientsFrame(rest, msg, msg', tcb, Sender(msg, box[0]));
  }

  lemma HeadDropped(box: seq<Node>, msg: seq<Msg>, tcb: seq<Tcb>, but: Option<Tid>)
    requires Clients(box, msg, tcb, but) && NoDup(box) && box != []
    ensures Without(box, box[0]) == box[1..]
    ensures Clients(box[1..], msg, tcb, but) && Clients(box[1..], msg, tcb, Sender(msg, box[0]))
  {
    hide Clients, Without;
    WithoutAt(box, 0);
    assert box[..0] + box[0 + 1..] == box[1..];
    hide NoDup;
    DropOne(box, msg, tcb, but, 0);
  }

  lemma RestIsOther(box: seq<Node>, m: Mid)
    requires NoDup(box) && box != [] && box[0] == MNext(m) && forall n :: n in box ==> n == MNext(MidOf(n))
    ensures forall n :: n in box[1..] ==> n in box && MidOf(n) != m
  {
    forall n | n in box[1..] ensures n in box && n != box[0] {
      var i :| 0 <= i < |box[1..]| && box[1..][i] == n;
      assert n == box[i + 1];
    }
  }

  lemma FirstTaken(s: State)
    requires CoreInv(s) && SsiInv(s) && Q(s.st.q, TMsgq(SSI)) != []
    ensures var box := Q(s.st.q, TMsgq(SSI)); var m := MidOf(box[0]); var x := Sender(s.st.msg, box[0]);
            && MsgGet(s.st, None, Some(SSI)) == (MsgFree(s.st, m), Some(M(s.st.msg, m)))
            && MailOk(MsgFree(s.st, m), x) && MailOk(MsgFree(s.st, m), s.slot)
            && NotFromSsi(MsgFree(s.st, m).msg)
            && x.Some? && x != s.slot && Waits(s.st.tcb, x.value)
  {
    hide CoreInv, Clients, Sep, Shaped, Asking, Waits;
    ShapeOf(s);
    var st, box := s.st, Q(s.st.q, TMsgq(SSI));
    BoxFits(st, SSI);
    assert box[0] in box;
    var m := MidOf(box[0]);
    MsgFreeBox(st, m, SSI);
    HeadGone(box, st.msg, st.tcb, s.slot, m);
    HeadClient(box, st.msg, st.tcb, s.slot);
    FreeNotFromSsi(st.msg, m);
    hide NotFromSsi, NoDup;
    assert FirstFrom(box, st.msg, None) == Some(m);
  }

  lemma TakeFirst(s: State, pmsg: nat)
    requires CoreInv(s) && SsiInv(s) && SsiRuns(s, Receiving) && Q(s.st.q, TMsgq(SSI)) != []
    ensures SsiInv(SysRecv(s, None, pmsg).(ssi := Serving))
  {
    FirstTaken(s);
    hide CoreInv, MailOk, NotFromSsi, MsgGet;
    var r := SysRecv(s, None, pmsg).(ssi := Serving);
    assert r.st.tcb == s.st.tcb && Held(r) == Sender(s.st.msg, Q(s.st.q, TMsgq(SSI))[0]);
  }

  lemma HeadClient(box: seq<Node>, msg: seq<Msg>, tcb: seq<Tcb>, but: Option<Tid>)
    requires Clients(box, msg, tcb, but) && box != []
    ensures Sender(msg, box[0]).Some? && Sender(msg, box[0]) != but && Waits(tcb, Sender(msg, box[0]).value)
  {
    assert box[0] in box;
  }

  lemma SsiBlocks(s: State, pmsg: nat)
    requires CoreInv(s) && SsiInv(s) && SsiRuns(s, Receiving) && Q(s.st.q, TMsgq(SSI)) == []
    ensures SsiInv(SysRecv(s, None, pmsg).(ssi := Serving))
  {
    hide StoreInv, SchedAgree, NoLostWakeup, Unlink, Append;
    var s1 := s.(cpu := Regs(Code(SYS_RECV), pmsg));
    CpuCore(s, s1);
    BlockKeeps(s1, None);
    var b := Block(s1, None).(ssi := Serving);
    BlockMail(s1, None);
    assert SsiInv(b.(current := None)) by {
      CurrentUnlinked(s1);
      PutT(s.st.tcb, SSI, T(s.st.tcb, SSI).(regs := s1.cpu, status := W4Msg, wait := None));
      assert Q(b.st.q, TMsgq(SSI)) == [];
      assert Held(b.(current := None)) == None;
    }
    hide SsiInv, Block, SameMail;
    SlotCore(Block(s1, None).(current := None), b.(current := None));
    DispatchSsi(b);
    assert Dispatch(b) == SysRecv(s, None, pmsg).(ssi := Serving);
  }

  lemma ReceiveSsi(s: State, pmsg: nat)
    requires CoreInv(s) && SsiInv(s) && SsiRuns(s, Receiving)
    ensures SsiInv(SysRecv(s, None, pmsg).(ssi := Serving))
  {
    hide CoreInv, SsiInv, SysRecv;
    if Q(s.st.q, TMsgq(SSI)) == [] { SsiBlocks(s, pmsg); } else { TakeFirst(s, pmsg); }
  }

  // ----- Answering -----

  lemma SlotOut(s: State)
    requires SsiInv(s)
    ensures SsiInv(s.(slot := None))
  {
    ForgetBut(s.st, s.slot);
    hide Clients, NotFromSsi, Waits;
  }

  /** I/O completion always finds its thread blocked on the SSI, so its message is delivered. */
  lemma TerminalSsi(s: State)
    requires Inv(s) && SsiInv(s) && s.slot.Some? && On(s)
    ensures SsiInv(IoDone(s))
    ensures Send(s, s.slot.value, SSI, 0).1
  {
    hide CoreInv, Clients, NotFromSsi, NoEmpty, CountAgrees, SoftAgrees, Dispatch, Resume, MsgAdd;
    var x := s.slot.value;
    var s0 := s.(slot := None);
    SlotOut(s);
    SlotCore(s, s0);
    assert Waits(s.st.tcb, x) && Held(s0) != Some(x);
    assert MailOk(s0.st, Some(x));
    hide SsiInv, MailOk;
    Answer(s0, x, 0);
    var r0 := Send(s0, x, SSI, 0).0;
    SendKeeps(s0, x, SSI, 0);
    SendSlot(s, s0, x);
    SendFrame(s0, x, SSI, 0);
    if s.mode == Waiting {
      var m := r0.(mode := Running);
      ModeSsi(r0, m);
      SlotCore(r0, m);
      assert m.(current := None) == m;
      DispatchSsi(m);
    }
  }

  lemma SendSlot(s: State, s0: State, x: Tid)
    requires s0 == s.(slot := None)
    ensures Send(s0, x, SSI, 0).0 == Send(s, x, SSI, 0).0.(slot := None) && Send(s0, x, SSI, 0).1 == Send(s, x, SSI, 0).1
  {
  }

  lemma ModeSsi(s: State, r: State)
    requires SsiInv(s) && r == s.(mode := r.mode, count := r.count, soft := r.soft, ios := r.ios)
    ensures SsiInv(r)
  {
    hide Clients, NotFromSsi;
  }

  // ----- Serving -----

  /** The client `a` has just been taken off the list of requests. */
  ghost predicate Accepted(s: State, a: Tid) {
    && s.current == Some(SSI) && s.ssi == Receiving && SsiInv(s)
    && Waits(s.st.tcb, a) && s.slot != Some(a) && MailOk(s.st, Some(a))
  }

  lemma Accept(s: State)
    requires CoreInv(s) && SsiInv(s) && SsiRuns(s, Serving)
    ensures Applicant(s).Some? && Accepted(s.(ssi := Receiving), Applicant(s).value)
  {
    hide StoreInv, NoLostWakeup, Clients, NotFromSsi;
    assert T(s.st.tcb, SSI).status == Ready;
    assert Held(s) == Applicant(s);
    ForgetBut(s.st, Held(s));
    hide SchedAgree;
  }

  lemma ReplySsi(c: State, a: Tid, v: Value)
    requires CoreInv(c) && Accepted(c.(ssi := Receiving), a)
    ensures SsiInv(SysSend(c, a, v).0.(ssi := Receiving))
  {
    hide CoreInv, Clients, NotFromSsi, Resume, MsgAdd, Waits;
    var c0 := c.(ssi := Receiving);
    SlotCore(c, c0);
    assert Held(c0) == None;
    hide MailOk, SsiInv;
    Answer(c0, a, v);
    var r, r0 := SysSend(c, a, v).0.(ssi := Receiving), Send(c0, a, SSI, v).0;
    SendPc(c, c0, a, v);
    SendFrame(c0, a, SSI, v);
    CpuReceiving(r0, r);
  }

  lemma SendPc(s: State, s0: State, a: Tid, v: Value)
    requires s0 == s.(ssi := Receiving)
    ensures Send(s0, a, SSI, v).0 == Send(s, a, SSI, v).0.(ssi := Receiving)
  {
  }

  lemma CpuReceiving(s: State, r: State)
    requires SsiInv(s) && s.ssi == Receiving && r == s.(cpu := r.cpu)
    ensures SsiInv(r)
  {
    hide Clients, NotFromSsi;
  }

  /** Mailboxes, clients and slot are the same, so `a` is still accepted. */
  lemma StillAccepted(s: State, c: State, a: Tid)
    requires Accepted(s, a) && SameMail(s, c) && c.ssi == Receiving && c.slot == s.slot && c.current == s.current
    requires T(c.st.tcb, SSI).status == T(s.st.tcb, SSI).status
    requires forall x: Tid {:trigger Waits(c.st.tcb, x)} :: Waits(s.st.tcb, x) ==> Waits(c.st.tcb, x)
    ensures Accepted(c, a)
  {
    hide Waits, Clients;
    assert Q(c.st.q, TMsgq(SSI)) == Q(s.st.q, TMsgq(SSI));
    SameClients(Q(s.st.q, TMsgq(SSI)), s.st.msg, c.st.msg, s.st.tcb, c.st.tcb, Some(a));
    assert Held(c) == Held(s);
    assert SameRequests(s, c);
    hide SsiInv;
    RequestsKeep(s, c);
  }

  lemma AddedWaits(s: State, r: State, t: Tid, p: Pid, init: Regs)
    requires ThreadAdded(s, r, t, p, init)
    ensures T(r.st.tcb, SSI) == T(s.st.tcb, SSI) && r.slot == s.slot && r.current == s.current && r.ssi == s.ssi
    ensures forall x: Tid :: Waits(s.st.tcb, x) ==> Waits(r.st.tcb, x)
  {
  }

  lemma FoundedWaits(s: State, r: State, t: Tid, p: Pid, init: Regs)
    requires Founded(s, r, t, p, init)
    ensures T(r.st.tcb, SSI) == T(s.st.tcb, SSI) && r.slot == s.slot && r.current == s.current && r.ssi == s.ssi
    ensures forall x: Tid :: Waits(s.st.tcb, x) ==> Waits(r.st.tcb, x)
  {
    var m: State, c: Pid :|
      ProcessAdded(s, m, c, p) && ThreadAdded(m, r, t, c, init) && Q(m.st.q, PThreads(c)) == [];
    assert m.st.tcb == s.st.tcb;
    AddedWaits(m, r, t, c, init);
  }

  lemma MakeProcessSsi(s: State, init: Regs, a: Tid, p: Pid)
    requires Inv(s) && ProcOf(s, a) == Some(p) && Accepted(s.(ssi := Receiving), a)
    ensures var c := CreateProcess(s, init, a); SsiInv(SysSend(c.0, a, AddrOf(c.1)).0.(ssi := Receiving))
  {
    hide CoreInv, SsiInv, CreateProcess, Founded, Untouched, NoEmpty, MailOk, CountAgrees, SoftAgrees, Rests;
    CreateProcessEffect(s, init, a, p);
    CreateProcessMail(s, init, a, p);
    var c := CreateProcess(s, init, a);
    if c.1.Some? { FoundedWaits(s, c.0, c.1.value, p, init); } else { UntouchedWaits(s, c.0); }
    PcMail(s, c.0);
    StillAccepted(s.(ssi := Receiving), c.0.(ssi := Receiving), a);
    ReplySsi(c.0, a, AddrOf(c.1));
  }

  lemma UntouchedWaits(s: State, r: State)
    requires Untouched(s, r)
    ensures r.st.tcb == s.st.tcb && r.slot == s.slot && r.current == s.current && r.ssi == s.ssi
  {
  }

  lemma PcMail(s: State, r: State)
    requires SameMail(s, r)
    ensures SameMail(s.(ssi := Receiving), r.(ssi := Receiving))
  {
  }

  lemma MakeThreadSsi(s: State, init: Regs, a: Tid, p: Pid)
    requires Inv(s) && ProcOf(s, a) == Some(p) && Accepted(s.(ssi := Receiving), a)
    ensures var c := CreateThread(s, init, a); SsiInv(SysSend(c.0, a, AddrOf(c.1)).0.(ssi := Receiving))
  {
    hide Shape, Sep, ThreadsAgree, ThreadsClean, ProcsAgree, Tree, MsgsAgree, SchedAgree, NoLostWakeup, SsiInv,
      CreateThreadIn, NoEmpty, MailOk, CountAgrees, SoftAgrees, Rests;
    assert Allocated(s.st.pcb, p);
    CreateThreadEffect(s, init, p);
    CreateKeeps(s, init, Some(p));
    CreateThreadMail(s, init, a, p);
    var c := CreateThread(s, init, a);
    if c.1.Some? { AddedWaits(s, c.0, c.1.value, p, init); }
    PcMail(s, c.0);
    StillAccepted(s.(ssi := Receiving), c.0.(ssi := Receiving), a);
    ReplySsi(c.0, a, AddrOf(c.1));
  }

  // ----- Terminations -----

  lemma {:induction false} NothingFrom(box: seq<Node>, msg: seq<Msg>, x: Tid)
    requires From(box, msg, x) == []
    ensures forall n :: n in box ==> Sender(msg, n) != Some(x)
  {
    if box != [] {
      assert box == [box[0]] + box[1..];
      NothingFrom(box[1..], msg, x);
    }
  }

  lemma StillNotFromSsi(s: State, r: State)
    requires CoreInv(r) && NotFromSsi(s.st.msg) && MailReaped(s.st, r.st)
    ensures NotFromSsi(r.st.msg)
  {
    hide Shape, Sep, ThreadsAgree, ProcsAgree, Tree, Owned, SchedAgree, NoLostWakeup, From;
    forall m: Mid ensures M(r.st.msg, m).sender != Some(SSI) {
      if M(r.st.msg, m).sender == Some(SSI) {
        assert Boxed(r.st.q, m);
        var d: Tid :| MNext(m) in Q(r.st.q, TMsgq(d));
        NoneFromSsi(s, d);
        NothingFrom(Q(r.st.q, TMsgq(d)), r.st.msg, SSI) by {
          assert Live(r.st.tcb, SSI) && Live(r.st.tcb, d);
          assert Pending(r.st, SSI, d) == Pending(s.st, SSI, d);
        }
      }
    }
  }

  lemma NoneFromSsi(s: State, d: Tid)
    requires NotFromSsi(s.st.msg)
    ensures Pending(s.st, SSI, d) == []
  {
    FromNothing(Q(s.st.q, TMsgq(d)), s.st.msg, SSI);
  }

  /** After terminations that spare the thread in the I/O slot, the other requests are in order. */
  lemma ReapedSsi(s: State, r: State)
    requires CoreInv(s) && CoreInv(r) && Reaped(s, r) && MailOk(r.st, None)
    requires SsiInv(s.(ssi := Receiving)) && (s.slot.Some? ==> Live(r.st.tcb, s.slot.value))
    ensures SsiInv(r.(ssi := Receiving))
  {
    StillNotFromSsi(s, r);
    hide Shape, Sep, ThreadsAgree, ProcsAgree, Tree, Owned, MsgsAgree, SchedAgree, NoLostWakeup, NotFromSsi, ReadyReaped,
      KidsReaped, ProcsReaped, From;
    assert Live(r.st.tcb, SSI);
    assert T(r.st.tcb, SSI) == Survived(T(s.st.tcb, SSI), s.st.tcb, r.st.tcb);
    assert T(r.st.tcb, SSI).status == Ready ==> T(s.st.tcb, SSI).status != Unused;
    var r0 := r.(ssi := Receiving);
    SsiStaysReady(s, r);
    hide ThreadsClean;
    if s.slot.Some? {
      var x := s.slot.value;
      assert Waits(s.st.tcb, x);
      assert T(r.st.tcb, x) == Survived(T(s.st.tcb, x), s.st.tcb, r.st.tcb);
      assert Pending(r.st, x, SSI) == Pending(s.st, x, SSI);
      assert MailOk(s.st, Some(x));
      NoPendingFrom(s.st, x);
      NothingFrom(Q(r.st.q, TMsgq(SSI)), r.st.msg, x);
    }
  }

  lemma NoPendingFrom(st: Store, x: Tid)
    requires MailOk(st, Some(x))
    ensures Pending(st, x, SSI) == []
  {
    FromNothing(Q(st.q, TMsgq(SSI)), st.msg, x);
  }

  lemma SsiStaysReady(s: State, r: State)
    requires SsiInv(s.(ssi := Receiving)) && Live(r.st.tcb, SSI)
    requires T(r.st.tcb, SSI) == Survived(T(s.st.tcb, SSI), s.st.tcb, r.st.tcb)
    ensures T(r.st.tcb, SSI).status == Ready
  {
    hide Clients, NotFromSsi;
  }

  lemma EndProcessMail(s: State, a: Tid, p: Pid)
    requires CoreInv(s) && s.current == Some(SSI) && ProcOf(s, a) == Some(p) && MailOk(s.st, Some(a))
    ensures MailOk(TerminateProcess(s, a).st, None)
  {
    hide SchedAgree, NoLostWakeup, Shaped, Sep, ThreadsAgree, ThreadsClean, ProcsAgree, Tree, MsgsAgree, KillTree,
      MailOk, Heights;
    assert Allocated(s.st.pcb, p);
    HeightsExist(s, p);
    KillTreeRequests(s, p, Some(a), HeightsOf(s.st.pcb));
  }

  lemma EndProcessSsi(s: State, a: Tid, p: Pid)
    requires Inv(s) && ProcOf(s, a) == Some(p) && Accepted(s.(ssi := Receiving), a)
    requires var r := TerminateProcess(s, a); s.slot.Some? ==> Live(r.st.tcb, s.slot.value)
    ensures SsiInv(TerminateProcess(s, a).(ssi := Receiving))
  {
    hide CoreInv, SsiInv, TerminateProcess, MailOk, Reaped, Within, ExactlySubtree, WaitersWoken, NoEmpty, CountAgrees,
      SoftAgrees, Rests, MailReaped;
    EndProcessExact(s, a, p);
    EndProcessMail(s, a, p);
    ReapedSsi(s, TerminateProcess(s, a));
  }

  lemma EndThreadSsi(s: State, a: Tid, p: Pid)
    requires Inv(s) && ProcOf(s, a) == Some(p) && Accepted(s.(ssi := Receiving), a)
    requires var r := TerminateThread(s, a); s.slot.Some? ==> Live(r.st.tcb, s.slot.value)
    ensures SsiInv(TerminateThread(s, a).(ssi := Receiving))
  {
    hide CoreInv, SsiInv, TerminateProcess, KillThread, MailOk, Reaped, OneDown, ExactlySubtree, WaitersWoken, NoEmpty,
      CountAgrees, SoftAgrees, Rests;
    if Q(s.st.q, PThreads(p)) == [TNext(a)] {
      EndProcessSsi(s, a, p);
    } else {
      OnlyThread(s, a, p);
      KillReaps(s, a);
      ForgetBut(s.st, Some(a));
      KillRequests(s, a, None);
      ReapedSsi(s, KillThread(s, a));
    }
  }

  lemma SetMgrSsi(s: State, k: Mgr, m: Option<Tid>, a: Tid, p: Pid)
    requires Inv(s) && ProcOf(s, a) == Some(p) && Accepted(s.(ssi := Receiving), a)
    requires var r := SetMgr(s, k, m, a); s.slot.Some? && !r.2 ==> Live(r.0.st.tcb, s.slot.value)
    ensures var r := SetMgr(s, k, m, a); SsiInv(ReplyIf(r.0, r.2, a, AddrOf(r.1)).(ssi := Receiving))
  {
    hide CoreInv, SsiInv, TerminateProcess, MailOk, NoEmpty, CountAgrees, SoftAgrees, Rests, SysSend;
    var r := SetMgr(s, k, m, a);
    if m.Some? && MgrOf(P(s.st.pcb, p), k).Some? {
      EndProcessSsi(s, a, p);
    } else {
      SetMgrKeeps(s, k, m, a, p);
      MgrMail(s, k, m, a);
      PcMail(s, r.0);
      StillAccepted(s.(ssi := Receiving), r.0.(ssi := Receiving), a);
      ReplySsi(r.0, a, AddrOf(r.1));
    }
  }

  lemma DoIoSsi(s: State, terminal: bool, a: Tid)
    requires Accepted(s.(ssi := Receiving), a)
    ensures SsiInv(DoIo(s, terminal, a).(ssi := Receiving))
  {
    hide Clients, NotFromSsi, Waits;
  }

  /** Whatever the request, serving it leaves every other request in order. */
  lemma SlotSpared(s: State, req: Request)
    requires Inv(s) && SsiInv(s) && Able(s, SsiServe(req)) && Polite(s, SsiServe(req))
    ensures s.slot.Some? ==> Live(Next(s, SsiServe(req)).st.tcb, s.slot.value)
  {
    hide Inv, Able, Next, Ends, NotFromSsi, MailOk, Held;
    if s.slot.Some? { EndsExactly(s, req, s.slot.value); }
  }

  /** The services that end threads. */
  predicate Ending(req: Request) { req.EndProcess? || req.EndThread? || req.SetManager? }

  lemma EndingSsi(s: State, req: Request)
    requires Inv(s) && SsiInv(s) && Able(s, SsiServe(req)) && Polite(s, SsiServe(req)) && Ending(req)
    ensures SsiInv(Next(s, SsiServe(req)))
  {
    SlotSpared(s, req);
    hide Shape, Sep, ThreadsAgree, ProcsAgree, Tree, Owned, MsgsAgree, SchedAgree, NoLostWakeup, NoEmpty, CountAgrees,
      SoftAgrees, Rests, TerminateProcess, TerminateThread, SetMgr, SysSend, SsiInv, Accepted, Ends, Polite, Held;
    var a := Applicant(s).value;
    Accept(s);
    assert ProcOf(s, a).Some?;
    hide ThreadsClean, CoreInv;
    var p := ProcOf(s, a).value;
    match req {
      case EndProcess => EndProcessSsi(s, a, p);
      case EndThread => EndThreadSsi(s, a, p);
      case SetManager(k, m) => SetMgrSsi(s, k, m, a, p);
    }
  }

  lemma ServeSsi(s: State, req: Request)
    requires Inv(s) && SsiInv(s) && Able(s, SsiServe(req)) && Polite(s, SsiServe(req))
    ensures SsiInv(Next(s, SsiServe(req)))
  {
    hide Shape, Sep, ThreadsAgree, ProcsAgree, Tree, Owned, MsgsAgree, SchedAgree, NoLostWakeup, NoEmpty, CountAgrees,
      SoftAgrees, Rests, CreateProcess, CreateThread, SysSend, DoIo, SsiInv, Accepted, Ends, Polite, Held;
    if Ending(req) {
      EndingSsi(s, req);
    } else {
      var a := Applicant(s).value;
      Accept(s);
      assert ProcOf(s, a).Some?;
      hide ThreadsClean, CoreInv;
      var p := ProcOf(s, a).value;
      match req {
        case MakeProcess(init) =>
          MakeProcessSsi(s, init, a, p);
          MakeProcessKeeps(s, init, a, p);
        case MakeThread(init) =>
          MakeThreadSsi(s, init, a, p);
          MakeThreadKeeps(s, init, a, p);
        case Io(terminal) => DoIoSsi(s, terminal, a);
        case Query(v) => ReplySsi(s, a, v);
        case Unknown => FailSsi(s, a);
      }
    }
  }

  lemma FailSsi(s: State, a: Tid)
    requires Accepted(s.(ssi := Receiving), a)
    ensures SsiInv(s.(mode := Failed, ssi := Receiving))
  {
    hide SsiInv;
    ModeSsi(s.(ssi := Receiving), s.(mode := Failed, ssi := Receiving));
  }

  // ----- The theorem -----

  lemma StepSsi(s: State, e: Step)
    requires Inv(s) && SsiInv(s) && Enabled(s, e) && Polite(s, e)
    ensures SsiInv(Next(s, e))
  {
    hide CoreInv, NoEmpty, CountAgrees, SoftAgrees, Rests, SysRecv, Serve, Timer, IoDone, SsiInv, Send;
    match e {
      case Compute(cpu, mem) => UserCpu(s, s.(cpu := cpu, mem := mem));
      case USend(d, v) =>
        SendOther(s, d, s.current.value, v);
        SendFrame(s, d, s.current.value, v);
        UserCpu(Send(s, d, s.current.value, v).0, SysSend(s, d, v).0);
      case URecv(src, pmsg) => RecvOther(s, src, pmsg);
      case URequest(v, pmsg) => RequestSsi(s, v, pmsg);
      case Tick => TickSsi(s);
      case Terminal => TerminalSsi(s);
      case SsiReceive(pmsg) => ReceiveSsi(s, pmsg);
      case SsiServe(req) => ServeSsi(s, req);
    }
  }

  lemma TickSsi(s: State)
    requires CoreInv(s) && SsiInv(s) && s.current != Some(SSI)
    ensures SsiInv(Timer(s))
  {
    hide CoreInv, SsiInv, Preempt, Dispatch;
    PreemptKeeps(s);
    PreemptSsi(s);
    DispatchSsi(Preempt(s));
  }

  /** When the SSI is about to serve, its client is live and blocked on it: service is always possible. */
  lemma ServesLive(s: State, req: Request)
    requires Inv(s) && SsiInv(s) && SsiRuns(s, Serving)
    ensures Able(s, SsiServe(req)) && Waits(s.st.tcb, Applicant(s).value)
  {
    hide Shape, Sep, ThreadsAgree, ThreadsClean, ProcsAgree, Tree, Owned, MsgsAgree, NoLostWakeup, NoEmpty, Clients,
      NotFromSsi;
    assert T(s.st.tcb, SSI).status == Ready;
    assert Held(s) == Applicant(s);
  }

  /** Over every polite run: the SSI never meets a dead client, and the request of every client in its mailbox,
      in its hands or in the I/O slot comes from a live thread that is blocked on it. */
  lemma {:induction false} PoliteRunSafe(s: State, es: seq<Step>)
    requires Inv(s) && SsiInv(s) && PoliteRun(s, es)
    ensures Run(s, es) && Inv(After(s, es)) && SsiInv(After(s, es))
    ensures SsiRuns(After(s, es), Serving) ==> forall req :: Able(After(s, es), SsiServe(req))
    decreases |es|
  {
    hide Inv, SsiInv, Next;
    if es == [] {
      if SsiRuns(s, Serving) { forall req ensures Able(s, SsiServe(req)) { ServesLive(s, req); } }
    } else {
      StepKeeps(s, es[0]);
      StepSsi(s, es[0]);
      PoliteRunSafe(Next(s, es[0]), es[1..]);
    }
  }
}
