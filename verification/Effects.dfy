/** What each call leaves for its caller to see: return codes, replies, payload cells, records, with the constants and
    fields of src/handlers/handlers.h and src/mikabooq.h written out. */
module Effects {
  import opened Types
  import opened Links
  import opened Store
  import opened Kernel
  import opened Invariant
  import opened Reap
  import opened Creation
  import opened Endings
  import opened Machine
  import opened Safety
  import opened Requests
  import opened FastPath
  import opened Fifo
  import opened Managers
  import opened Promises

  // ----- Send and receive -----

  /** What the caller of the send system call finds in a1: 0 exactly when the message was handed over or queued, and
      otherwise -1 as an unsigned int, and then nothing else has happened. */
  lemma SendReturns(s: State, d: Tid, v: Value)
    requires CoreInv(s) && s.current.Some?
    ensures var r := SysSend(s, d, v).0; var tc := T(s.st.tcb, d);
            && r.cpu.a1 == (if tc.status == Ready && Q(s.st.q, FreeMsgs) != [] then Code(0)
                            else if tc.status == W4Msg && (tc.wait == s.current || tc.wait == None) then Code(0)
                            else if tc.status == W4Msg && Q(s.st.q, FreeMsgs) != [] then Code(0)
                            else Code(0x1_0000_0000 - 1))
            && r.cpu.a3 == s.cpu.a3
            && (r.cpu.a1 != Code(0) ==> r == s.(cpu := r.cpu))
  {
    hide CoreInv, Send;
    if Live(s.st.tcb, d) { FastNeedsNoSlot(s, d, s.current.value, v); } else { DeadSend(s, d, s.current.value, v); }
    SendFrame(s, d, s.current.value, v);
    SendKeepsCpu(s, d, s.current.value, v);
  }

  lemma DeadSend(s: State, d: Tid, snd: Tid, v: Value)
    requires !Live(s.st.tcb, d)
    ensures Send(s, d, snd, v) == (s, false)
  {
  }

  lemma SendKeepsCpu(s: State, d: Tid, snd: Tid, v: Value)
    ensures Send(s, d, snd, v).0.cpu == s.cpu
  {
  }

  /** A send stores the payload into the cell of a receiver that waits for it, if that gave one, and nowhere else. */
  lemma SendCells(s: State, d: Tid, snd: Tid, v: Value)
    requires CoreInv(s)
    ensures var r := Send(s, d, snd, v).0; var tc := T(s.st.tcb, d);
            var taken := tc.status == W4Msg && (tc.wait == Some(snd) || tc.wait == None) && tc.regs.a3 != 0;
            && (forall a: nat :: !taken || a != tc.regs.a3 ==> SameCell(s.mem, r.mem, a))
            && (taken ==> tc.regs.a3 in r.mem && r.mem[tc.regs.a3] == v)
  {
    hide StoreInv, SchedAgree, NoLostWakeup;
  }

  /** A receive stores the payload into the cell it gave, if it gave one and finds a message, and nowhere else; then a1
      holds the sender. The cell stays in a3. */
  lemma ReceiveCells(s: State, src: Option<Tid>, pmsg: nat)
    requires s.current.Some?
    ensures var r := SysRecv(s, src, pmsg); var g := MsgGet(s.st, src, s.current).1;
            && (forall a: nat :: a != pmsg || a == 0 || g.None? ==> SameCell(s.mem, r.mem, a))
            && (g.Some? && pmsg != 0 ==> pmsg in r.mem && r.mem[pmsg] == g.value.value)
            && (g.Some? ==> r.cpu == Regs(Ptr(g.value.sender), pmsg) && r.current == s.current)
            && (g.None? && s.current.value < |s.st.tcb| ==>
                  T(r.st.tcb, s.current.value)
                  == T(s.st.tcb, s.current.value).(regs := Regs(Code(2), pmsg), status := W4Msg, wait := src))
  {
    hide MsgGet, Unlink, Append;
    PutT(s.st.tcb, s.current.value,
         T(s.st.tcb, s.current.value).(regs := Regs(Code(SYS_RECV), pmsg), status := W4Msg, wait := src));
  }

  /** A terminal interrupt leaves the interrupted thread as it was. */
  lemma TerminalRestores(s: State)
    requires Inv(s) && Enabled(s, Terminal) && s.mode == Running
    ensures var r := Next(s, Terminal); r.cpu == s.cpu && r.current == s.current
  {
    hide CoreInv, NoEmpty, CountAgrees, SoftAgrees, Send;
    SendFrame(s, s.slot.value, SSI, 0);
    SendKeepsCpu(s, s.slot.value, SSI, 0);
  }

  // ----- Replies -----

  /** NULL is 0, and different threads have different addresses. */
  lemma AddrFaithful(x: Option<Tid>, y: Option<Tid>)
    ensures AddrOf(x) == 0 <==> x == None
    ensures AddrOf(x) == AddrOf(y) ==> x == y
  {
  }

  /** A client that waits for the SSI gets its reply: it is ready, the SSI in a1 and the payload in its cell. */
  ghost predicate Told(s: State, r: State, a: Tid, v: Value) {
    var cell := T(s.st.tcb, a).regs.a3;
    && T(r.st.tcb, a).status == Ready && T(r.st.tcb, a).regs == Regs(Ptr(Some(SSI)), cell)
    && (cell != 0 ==> cell in r.mem && r.mem[cell] == v)
  }

  lemma ReplyTold(s: State, c: State, a: Tid, v: Value)
    requires CoreInv(c) && c.current == Some(SSI) && Waits(c.st.tcb, a) && T(c.st.tcb, a) == T(s.st.tcb, a)
    ensures Told(s, SysSend(c, a, v).0, a, v)
    ensures forall t: Tid :: Live(SysSend(c, a, v).0.st.tcb, t) <==> Live(c.st.tcb, t)
  {
    hide CoreInv, Send;
    DirectDelivery(c, a, SSI, v);
    forall t: Tid ensures Live(SysSend(c, a, v).0.st.tcb, t) <==> Live(c.st.tcb, t) { SendLives(c, a, SSI, v, t); }
  }

  /** The thread `t` is new. */
  ghost predicate Appears(s: State, r: State, t: Tid) { !Live(s.st.tcb, t) && Live(r.st.tcb, t) }

  /** The value tells what was created: 0 if there is no new thread, and otherwise the only new one. */
  ghost predicate Reports(s: State, r: State, v: Value) {
    && (v == 0 <==> forall t: Tid :: !Appears(s, r, t))
    && (forall t: Tid :: Appears(s, r, t) <==> v == AddrOf(Some(t)))
  }

  lemma OneAppears(s: State, r: State, v: Value, o: Option<Tid>)
    requires v == AddrOf(o) && forall t: Tid :: Appears(s, r, t) <==> o == Some(t)
    ensures Reports(s, r, v)
  {
    hide Appears;
    AddrFaithful(o, o);
    forall t: Tid ensures o == Some(t) <==> v == AddrOf(Some(t)) { AddrFaithful(o, Some(t)); }
  }

  /** Creating a thread replies NULL exactly when the pool of descriptors is empty, and otherwise the one new thread:
      ready,
      of the process of the applicant and with the given state. */
  lemma ThreadReply(s: State, init: Regs)
    requires Inv(s) && Enabled(s, SsiServe(MakeThread(init))) && Waits(s.st.tcb, Applicant(s).value)
    ensures var r := Next(s, SsiServe(MakeThread(init))); var a := Applicant(s).value;
            exists v: Value ::
              && Told(s, r, a, v) && Reports(s, r, v) && (v == 0 <==> Q(s.st.q, FreeThreads) == [])
              && forall t: Tid :: v == AddrOf(Some(t)) ==> T(r.st.tcb, t) == Tcb(ProcOf(s, a), init, Ready, 0, None)
  {
    hide CoreInv, NoEmpty, CountAgrees, SoftAgrees, Rests, CreateThread, SysSend, Told, Reports;
    var a := Applicant(s).value;
    var p := LiveOwner(s, a);
    MakeThreadKeeps(s, init, a, p);
    ThreadCreated(s, init, a, p);
    var c := CreateThread(s, init, a);
    ReplyTold(s, c.0, a, AddrOf(c.1));
    var r := SysSend(c.0, a, AddrOf(c.1)).0;
    forall t: Tid ensures Appears(s, r, t) <==> c.1 == Some(t) { assert Live(r.st.tcb, t) <==> Live(c.0.st.tcb, t); }
    OneAppears(s, r, AddrOf(c.1), c.1);
    AddrFaithful(c.1, c.1);
    if c.1.Some? { NewKept(s, c.0, a, c.1.value, AddrOf(c.1)); }
    assert Next(s, SsiServe(MakeThread(init))) == r.(ssi := Receiving);
    PcTold(s, r, a, AddrOf(c.1));
    forall t: Tid | AddrOf(c.1) == AddrOf(Some(t)) ensures T(r.st.tcb, t) == Tcb(ProcOf(s, a), init, Ready, 0, None) {
      AddrFaithful(c.1, Some(t));
    }
  }

  lemma PcTold(s: State, r: State, a: Tid, v: Value)
    ensures Told(s, r, a, v) ==> Told(s, r.(ssi := Receiving), a, v)
    ensures Reports(s, r, v) ==> Reports(s, r.(ssi := Receiving), v)
  {
    assert forall t: Tid :: Appears(s, r.(ssi := Receiving), t) <==> Appears(s, r, t);
  }

  lemma LiveOwner(s: State, a: Tid) returns (p: Pid)
    requires CoreInv(s) && a != SSI && Live(s.st.tcb, a)
    ensures ProcOf(s, a) == Some(p) && Allocated(s.st.pcb, p)
  {
    hide SchedAgree, NoLostWakeup, ThreadsAgree, ProcsAgree, Tree, MsgsAgree, Sep, Shaped;
    assert ProcOf(s, a).Some?;
    p := ProcOf(s, a).value;
    assert Allocated(s.st.pcb, p);
  }

  /** The reply does not touch the new thread. */
  lemma NewKept(s: State, c: State, a: Tid, t: Tid, v: Value)
    requires CoreInv(c) && c.current == Some(SSI) && t != a
    ensures T(SysSend(c, a, v).0.st.tcb, t) == T(c.st.tcb, t)
  {
    hide CoreInv, Send;
    SendMoves(c, a, SSI, v);
  }

  /** `create_thread_s`: the new thread joins the process of the applicant. */
  lemma ThreadCreated(s: State, init: Regs, a: Tid, p: Pid)
    requires CoreInv(s) && ProcOf(s, a) == Some(p) && Allocated(s.st.pcb, p)
    ensures var r := CreateThread(s, init, a);
            && (r.1.None? <==> Q(s.st.q, FreeThreads) == []) && (r.1.None? ==> r.0 == s)
            && (r.1.Some? ==> ThreadAdded(s, r.0, r.1.value, p, init))
            && (forall t: Tid :: Appears(s, r.0, t) <==> r.1 == Some(t))
            && (forall t: Tid :: Live(s.st.tcb, t) ==> T(r.0.st.tcb, t) == T(s.st.tcb, t))
            && (r.1.Some? ==> T(r.0.st.tcb, r.1.value) == Tcb(Some(p), init, Ready, 0, None))
  {
    hide CoreInv, CreateThreadIn;
    CreateThreadEffect(s, init, p);
    var r := CreateThreadIn(s, init, Some(p));
    if r.1.Some? { AddedThread(s, r.0, r.1.value, p, init); }
  }

  lemma AddedThread(s: State, r: State, t: Tid, p: Pid, init: Regs)
    requires ThreadAdded(s, r, t, p, init)
    ensures forall u: Tid :: T(r.st.tcb, u) == if u == t then Tcb(Some(p), init, Ready, 0, None) else T(s.st.tcb, u)
    ensures !Live(s.st.tcb, t)
  {
  }

  /** Creating a process replies NULL exactly when a pool is empty, and otherwise the one new thread, the only one of
      a new
      process, which is a child of that of the applicant. */
  lemma ProcessReply(s: State, init: Regs)
    requires Inv(s) && Enabled(s, SsiServe(MakeProcess(init))) && Waits(s.st.tcb, Applicant(s).value)
    ensures var r := Next(s, SsiServe(MakeProcess(init))); var a := Applicant(s).value;
            exists v: Value ::
              && Told(s, r, a, v) && Reports(s, r, v)
              && (v == 0 <==> Q(s.st.q, FREE_PROCS) == [] || Q(s.st.q, FreeThreads) == [])
              && forall t: Tid :: v == AddrOf(Some(t)) ==> Founder(s, r, t, ProcOf(s, a), init)
  {
    hide CoreInv, NoEmpty, CountAgrees, SoftAgrees, Rests, CreateProcess, SysSend, Told, Reports, Founder;
    var a := Applicant(s).value;
    var p := LiveOwner(s, a);
    MakeProcessKeeps(s, init, a, p);
    ProcessCreated(s, init, a, p);
    var c := CreateProcess(s, init, a);
    ReplyTold(s, c.0, a, AddrOf(c.1));
    var r := SysSend(c.0, a, AddrOf(c.1)).0;
    forall t: Tid ensures Appears(s, r, t) <==> c.1 == Some(t) { assert Live(r.st.tcb, t) <==> Live(c.0.st.tcb, t); }
    OneAppears(s, r, AddrOf(c.1), c.1);
    AddrFaithful(c.1, c.1);
    assert Next(s, SsiServe(MakeProcess(init))) == r.(ssi := Receiving);
    PcTold(s, r, a, AddrOf(c.1));
    forall t: Tid | AddrOf(c.1) == AddrOf(Some(t)) ensures Founder(s, r.(ssi := Receiving), t, ProcOf(s, a), init) {
      AddrFaithful(c.1, Some(t));
      NewKept(s, c.0, a, t, AddrOf(c.1));
      FounderKept(s, c.0, r, a, t, Some(p), init, AddrOf(c.1));
    }
  }

  /** `t` is the thread of a new process under `parent`. */
  ghost predicate Founder(s: State, r: State, t: Tid, parent: Option<Pid>, init: Regs) {
    exists c: Pid ::
      && !Allocated(s.st.pcb, c) && P(r.st.pcb, c) == Pcb(parent, None, None, None)
      && T(r.st.tcb, t) == Tcb(Some(c), init, Ready, 0, None)
  }

  lemma FounderKept(s: State, c: State, r: State, a: Tid, t: Tid, parent: Option<Pid>, init: Regs, v: Value)
    requires Founder(s, c, t, parent, init) && c.current.Some? && r == SysSend(c, a, v).0
    requires T(r.st.tcb, t) == T(c.st.tcb, t)
    ensures Founder(s, r.(ssi := Receiving), t, parent, init)
  {
    hide Send;
    SendFrame(c, a, c.current.value, v);
  }

  lemma ProcessCreated(s: State, init: Regs, a: Tid, p: Pid)
    requires CoreInv(s) && ProcOf(s, a) == Some(p) && Live(s.st.tcb, a)
    ensures var r := CreateProcess(s, init, a);
            && (r.1.None? <==> Q(s.st.q, FREE_PROCS) == [] || Q(s.st.q, FreeThreads) == [])
            && (forall t: Tid :: Appears(s, r.0, t) <==> r.1 == Some(t))
            && (forall t: Tid :: Live(s.st.tcb, t) ==> T(r.0.st.tcb, t) == T(s.st.tcb, t))
            && (r.1.Some? ==> Founder(s, r.0, r.1.value, Some(p), init))
  {
    hide CoreInv, CreateProcess;
    CreateProcessEffect(s, init, a, p);
    var r := CreateProcess(s, init, a);
    if r.1.Some? { FoundedThread(s, r.0, r.1.value, p, init); }
  }

  lemma FoundedThread(s: State, r: State, t: Tid, p: Pid, init: Regs)
    requires Founded(s, r, t, p, init)
    ensures forall u: Tid :: u != t ==> T(r.st.tcb, u) == T(s.st.tcb, u)
    ensures !Live(s.st.tcb, t) && Live(r.st.tcb, t) && Founder(s, r, t, Some(p), init)
  {
    var m: State, c: Pid :|
      ProcessAdded(s, m, c, p) && ThreadAdded(m, r, t, c, init) && Q(m.st.q, PThreads(c)) == [];
    AddedThread(m, r, t, c, init);
    assert m.st.tcb == s.st.tcb && r.st.pcb == m.st.pcb;
    assert P(r.st.pcb, c) == Pcb(Some(p), None, None, None);
  }

  /** Setting a manager replies NULL when none was named, nothing when one was set already, and then the applicant is
      ended, and otherwise the manager, which is then the one field that has changed. */
  lemma ManagerReply(s: State, k: Mgr, m: Option<Tid>, p: Pid)
    requires Inv(s) && Enabled(s, SsiServe(SetManager(k, m))) && Waits(s.st.tcb, Applicant(s).value)
    requires ProcOf(s, Applicant(s).value) == Some(p)
    ensures var r := Next(s, SsiServe(SetManager(k, m))); var a := Applicant(s).value;
            if m.None? then Told(s, r, a, 0) && r.st.pcb == s.st.pcb
            else if MgrOf(P(s.st.pcb, p), k).Some? then !Live(r.st.tcb, a)
            else
              && Told(s, r, a, AddrOf(m)) && OneMgrSet(P(s.st.pcb, p), P(r.st.pcb, p), k, m)
              && forall c: Pid :: c != p ==> P(r.st.pcb, c) == P(s.st.pcb, c)
  {
    hide CoreInv, NoEmpty, CountAgrees, SoftAgrees, Rests, SetMgr, Send, Told, MgrOf, OneMgrSet;
    var a := Applicant(s).value;
    var o := LiveOwner(s, a);
    SetMgrKeeps(s, k, m, a, p);
    NoReplyMeansTerminated(s, k, m, a, p);
    var c := SetMgr(s, k, m, a);
    if c.2 {
      if m.Some? { SetMgrStores(s, k, m, a, p); }
      ReplyTold(s, c.0, a, AddrOf(c.1));
      SendFrame(c.0, a, SSI, AddrOf(c.1));
      AddrFaithful(c.1, m);
      PcTold(s, SysSend(c.0, a, AddrOf(c.1)).0, a, AddrOf(c.1));
    }
  }

  lemma QueryReply(s: State, v: Value)
    requires Inv(s) && Enabled(s, SsiServe(Query(v))) && Waits(s.st.tcb, Applicant(s).value)
    ensures Told(s, Next(s, SsiServe(Query(v))), Applicant(s).value, v)
  {
    hide CoreInv, NoEmpty, CountAgrees, SoftAgrees, Rests, SysSend, Told;
    var a := Applicant(s).value;
    ReplyTold(s, s, a, v);
    PcTold(s, SysSend(s, a, v).0, a, v);
  }

  /** The terminal answers in the name of the SSI, with an empty payload; if the processor was idle, the client runs. */
  lemma TerminalReply(s: State, a: Tid)
    requires Inv(s) && Enabled(s, Terminal) && s.slot == Some(a) && Waits(s.st.tcb, a)
    ensures var r := Next(s, Terminal);
            && Told(s, r, a, 0) && r.slot == None && r.mode == Running
            && (s.mode == Waiting ==> r.current == Some(a) && r.cpu == T(r.st.tcb, a).regs)
  {
    hide CoreInv, NoEmpty, CountAgrees, SoftAgrees, Send;
    DirectDelivery(s, a, SSI, 0);
    SendFrame(s, a, SSI, 0);
    AwaitedSucceeds(s, a);
    if s.mode == Waiting { assert ReadyList(s) == []; }
  }

  lemma AwaitedSucceeds(s: State, a: Tid)
    requires Waits(s.st.tcb, a)
    ensures Send(s, a, SSI, 0).1 && Send(s, a, SSI, 0).0.mode == s.mode
  {
  }

  // ----- Freeing -----

  /** The codes of `thread_free`: -1 for messages left, -2 for waiters left, and then nothing has happened; otherwise 0,
      and the descriptor is clean, but for the saved registers, which stay. */
  lemma FreeCodes(st: Store, t: Tid)
    requires t < |st.tcb|
    ensures var r := ThreadFree(st, t);
            && r.1 == (if Q(st.q, TMsgq(t)) != [] then -1 else if Q(st.q, TWait4me(t)) != [] then -2 else 0)
            && (r.1 != 0 ==> r.0 == st)
            && (r.1 == 0 ==> T(r.0.tcb, t) == Tcb(None, T(st.tcb, t).regs, Unused, 0, None))
            && forall u: Tid :: u != t ==> T(r.0.tcb, u) == T(st.tcb, u)
  {
    hide Unlink, Move;
    PutT(st.tcb, t, Cleaned(T(st.tcb, t)));
  }
}
