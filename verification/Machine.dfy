/** The kernel as a state machine: its atomic steps, when each can happen, and the invariant of every run. */
module Machine {
  import opened Types
  import opened Seqs
  import opened Links
  import opened Store
  import opened Kernel
  import opened Invariant
  import opened Preserve
  import opened Termination
  import opened Creation
  import opened Endings

  datatype Step =
    | Compute(cpu: Regs, mem: map<nat, Value>)   // the running thread works on its registers and memory
    | USend(d: Tid, v: Value)                    // msgsend
    | URecv(src: Option<Tid>, pmsg: nat)         // msgrecv
    | URequest(v: Value, pmsg: nat)              // msgsend to the SSI, then at once msgrecv from it
    | Tick                                       // interval timer
    | Terminal                                   // terminal interrupt
    | SsiReceive(pmsg: nat)                      // top of the SSI loop
    | SsiServe(req: Request)                     // body of the SSI loop, on the request just received

  predicate UserRuns(s: State) { s.current.Some? && s.current.value != SSI }

  predicate SsiRuns(s: State, pc: SsiPc) { s.current == Some(SSI) && s.ssi == pc }

  /** The sender of the request that the SSI holds. */
  function Applicant(s: State): Option<Tid> { if s.cpu.a1.Ptr? then s.cpu.a1.thread else None }

  /** What the kernel relies on: who is running, interrupts that the SSI keeps disabled, a receive from a
      live thread, a request from a live thread of the pool. */
  ghost predicate Able(s: State, e: Step) {
    match e
    case Compute(_, _) => UserRuns(s)
    case USend(_, _) => UserRuns(s)
    case URecv(src, _) => UserRuns(s) && CanReceive(s, src)
    case URequest(_, _) => UserRuns(s)
    case Tick => s.current != Some(SSI)
    case Terminal => s.current != Some(SSI) && s.slot.Some?
    case SsiReceive(_) => SsiRuns(s, Receiving)
    case SsiServe(_) =>
      SsiRuns(s, Serving) && Applicant(s).Some? && Applicant(s).value != SSI && Live(s.st.tcb, Applicant(s).value)
  }

  /** A halted or panicked machine takes no step. */
  predicate On(s: State) { s.mode == Running || s.mode == Waiting }

  ghost predicate Enabled(s: State, e: Step) { On(s) && Able(s, e) }

  ghost function Next(s: State, e: Step): State
    requires Able(s, e)
  {
    match e
    case Compute(cpu, mem) => s.(cpu := cpu, mem := mem)
    case USend(d, v) => SysSend(s, d, v).0
    case URecv(src, pmsg) => SysRecv(s, src, pmsg)
    case URequest(v, pmsg) => SysRecv(Asked(s, v), Some(SSI), pmsg)
    case Tick => Timer(s)
    case Terminal => IoDone(s)
    case SsiReceive(pmsg) => SysRecv(s, None, pmsg).(ssi := Serving)
    case SsiServe(req) => Serve(s, req, Applicant(s).value).(ssi := Receiving)
  }

  /** The running thread has sent its request to the SSI. */
  ghost function Asked(s: State, v: Value): (r: State)
    requires s.current.Some?
    ensures r.current == s.current
  {
    SendFrame(s, SSI, s.current.value, v);
    SysSend(s, SSI, v).0
  }

  lemma SendFrame(s: State, d: Tid, snd: Tid, v: Value)
    ensures var r := Send(s, d, snd, v).0;
            && r == s.(st := r.st, mem := r.mem) && r.st.pcb == s.st.pcb && |r.st.tcb| == |s.st.tcb|
            && |r.st.msg| == |s.st.msg|
  {
  }

  ghost predicate Run(s: State, es: seq<Step>)
    decreases |es|
  {
    es == [] || (Enabled(s, es[0]) && Run(Next(s, es[0]), es[1..]))
  }

  ghost function After(s: State, es: seq<Step>): State
    requires Run(s, es)
    decreases |es|
  {
    if es == [] then s else After(Next(s, es[0]), es[1..])
  }

  /** Runs can be put together. */
  lemma {:induction false} RunThen(s: State, a: seq<Step>, b: seq<Step>)
    requires Run(s, a) && Run(After(s, a), b)
    ensures Run(s, a + b) && After(s, a + b) == After(After(s, a), b)
    decreases |a|
  {
    hide Able, On, Next;
    if a == [] {
      assert a + b == b;
    } else {
      assert (a + b)[0] == a[0] && (a + b)[1..] == a[1..] + b;
      RunThen(Next(s, a[0]), a[1..], b);
    }
  }

  lemma RunOne(s: State, e: Step)
    requires Enabled(s, e)
    ensures Run(s, [e]) && After(s, [e]) == Next(s, e)
  {
    hide Able, On, Next;
    assert [e][1..] == [];
    assert After(Next(s, e), []) == Next(s, e);
  }

  // ----- The invariant of the machine -----

  /** `thread_count` is one more than the number of allocated descriptors. */
  ghost predicate CountAgrees(s: State) { s.count + |Q(s.st.q, FreeThreads)| == |s.st.tcb| }

  /** The SSI only ever receives from anybody; the processor rests only when nobody is ready, and waits for I/O
      only when there are other threads and the count of I/O requests is not 0. */
  ghost predicate Rests(s: State) {
    && T(s.st.tcb, SSI).wait.None?
    && (s.current.None? ==> ReadyList(s) == [] && s.mode != Running)
    && (s.mode == Waiting ==> s.current.None? && s.count != 1 && s.soft != 0)
  }

  /** The soft block count is the number of I/O requests, as far as an unsigned int can hold it. */
  ghost predicate SoftAgrees(s: State) {
    s.soft == s.ios % UINT_RANGE && (s.slot.Some? ==> s.ios > 0) && s.slot != Some(SSI)
  }

  ghost predicate Inv(s: State) {
    CoreInv(s) && CountAgrees(s) && NoEmpty(s.st.q, s.st.pcb) && Rests(s) && SoftAgrees(s)
  }

  // ----- What each operation leaves alone -----

  /** Everything but the messages, the scheduling lists and the threads' registers and status. */
  ghost predicate SameStructure(s: State, r: State) {
    && r.count == s.count && r.soft == s.soft && r.ios == s.ios && r.slot == s.slot
    && r.st.pcb == s.st.pcb && |r.st.tcb| == |s.st.tcb|
    && Q(r.st.q, FreeThreads) == Q(s.st.q, FreeThreads)
    && (forall p: Pid {:trigger Q(r.st.q, PThreads(p))} :: Q(r.st.q, PThreads(p)) == Q(s.st.q, PThreads(p)))
    && (T(s.st.tcb, SSI).wait.None? ==> T(r.st.tcb, SSI).wait.None?)
  }

  lemma StructureKeeps(s: State, r: State)
    requires SameStructure(s, r) && CountAgrees(s) && NoEmpty(s.st.q, s.st.pcb) && SoftAgrees(s)
    ensures CountAgrees(r) && NoEmpty(r.st.q, r.st.pcb) && SoftAgrees(r)
  {
  }

  lemma StructureTrans(a: State, b: State, c: State)
    requires SameStructure(a, b) && SameStructure(b, c)
    ensures SameStructure(a, c)
  {
    forall p: Pid ensures Q(c.st.q, PThreads(p)) == Q(a.st.q, PThreads(p)) {
      assert Q(b.st.q, PThreads(p)) == Q(a.st.q, PThreads(p));
    }
  }

  lemma ResumeStructure(s: State, t: Tid, rval: Option<Tid>, v: Value)
    requires CoreInv(s)
    ensures SameStructure(s, Resume(s, t, rval, v))
  {
    hide SchedAgree, NoLostWakeup, ThreadsAgree, ThreadsClean, ProcsAgree, Tree, Owned, MsgsAgree, Sep, Move, Shaped;
    var st, r := s.st, Resume(s, t, rval, v).st;
    assert ReadyQ in st.q by { Heads(st); }
    PutT(st.tcb, t, Resumed(T(st.tcb, t), rval));
    forall k: Node | k.PThreads? || k == FreeThreads ensures Q(r.q, k) == Q(st.q, k) {
      MoveAt(st.q, TSched(t), ReadyQ, k);
      OtherKind(st.q, k, TSched(t), |st.pcb|, |st.tcb|, |st.msg|);
    }
  }

  lemma Heads(st: Store)
    requires Shape(st)
    ensures ReadyQ in st.q && BlockedQ in st.q && FreeMsgs in st.q && FreeThreads in st.q && FREE_PROCS in st.q
  {
    assert IsHead(ReadyQ, |st.pcb|, |st.tcb|) && IsHead(BlockedQ, |st.pcb|, |st.tcb|) && IsHead(FreeMsgs, |st.pcb|, |st.tcb|);
    assert IsHead(FreeThreads, |st.pcb|, |st.tcb|) && IsHead(FREE_PROCS, |st.pcb|, |st.tcb|);
  }

  lemma MsgStructure(s: State, r: Store, n: Node, h: Node)
    requires Shape(s.st) && r == s.st.(q := Move(s.st.q, n, h), msg := r.msg) && n.MNext? && h in s.st.q
    requires h.TMsgq? || h.FreeMsgs?
    ensures SameStructure(s, s.(st := r))
  {
    hide Move, Shaped;
    forall k: Node | k.PThreads? || k == FreeThreads ensures Q(r.q, k) == Q(s.st.q, k) {
      MoveAt(s.st.q, n, h, k);
      OtherKind(s.st.q, k, n, |s.st.pcb|, |s.st.tcb|, |s.st.msg|);
    }
  }

  lemma SameSelf(s: State)
    ensures SameStructure(s, s)
  {
  }

  lemma SendStructure(s: State, d: Tid, snd: Tid, v: Value)
    requires CoreInv(s)
    ensures SameStructure(s, Send(s, d, snd, v).0)
  {
    hide SchedAgree, NoLostWakeup, ThreadsAgree, ThreadsClean, ProcsAgree, Tree, Owned, MsgsAgree, Sep, Move, Resume,
      SameStructure;
    var tc := T(s.st.tcb, d);
    SameSelf(s);
    if tc.status != Unused {
      if Awaits(tc, snd) {
        ResumeStructure(s, d, Some(snd), v);
      } else if Q(s.st.q, FreeMsgs) != [] {
        assert IsHead(TMsgq(d), |s.st.pcb|, |s.st.tcb|);
        MsgStructure(s, MsgAdd(s.st, Some(snd), Some(d), v).0, MNext(MidOf(Q(s.st.q, FreeMsgs)[0])), TMsgq(d));
      }
    }
  }

  lemma GetStructure(s: State, from: Option<Tid>, d: Tid)
    requires CoreInv(s)
    ensures SameStructure(s, s.(st := MsgGet(s.st, from, Some(d)).0))
  {
    hide SchedAgree, NoLostWakeup, ThreadsAgree, ThreadsClean, ProcsAgree, Tree, Owned, MsgsAgree, Sep, Move,
      SameStructure;
    SameSelf(s);
    var f := FirstFrom(Q(s.st.q, TMsgq(d)), s.st.msg, from);
    if f.Some? {
      Heads(s.st);
      MsgStructure(s, MsgFree(s.st, f.value), MNext(f.value), FreeMsgs);
    }
  }

  lemma AppendStructure(s: State, h: Node, t: Tid, tc: Tcb)
    requires h == ReadyQ || h == BlockedQ || h.TWait4me?
    requires t == SSI ==> tc.wait == None || T(s.st.tcb, SSI).wait.Some?
    ensures SameStructure(s, s.(st := s.st.(q := Append(s.st.q, h, TSched(t)), tcb := Put(s.st.tcb, t, tc))))
  {
    PutT(s.st.tcb, t, tc);
    AppendAt(s.st.q, h, TSched(t));
  }

  lemma DispatchStructure(s: State)
    requires CoreInv(s)
    ensures SameStructure(s, Dispatch(s))
    ensures var r := Dispatch(s);
            if ReadyList(s) == [] then r.current.None? && ReadyList(r) == [] && r.mode != Running
            else r.current.Some? && r.mode == s.mode
  {
    hide SchedAgree, NoLostWakeup, ThreadsAgree, ThreadsClean, ProcsAgree, Tree, Owned, MsgsAgree, Sep, Shaped, Unlink;
    var st := s.st;
    if ReadyList(s) != [] {
      HeadThread(s);
      var n := ReadyList(s)[0];
      var r := Unlink(st.q, n);
      forall k: Node | k.PThreads? || k == FreeThreads ensures Q(r, k) == Q(st.q, k) {
        assert Q(r, k) == Without(Q(st.q, k), n);
        OtherKind(st.q, k, n, |st.pcb|, |st.tcb|, |st.msg|);
      }
    }
  }

  lemma DispatchRests(s: State)
    requires CoreInv(s.(current := None)) && T(s.st.tcb, SSI).wait.None? && (s.mode == Waiting ==> ReadyList(s) == [])
    ensures Rests(Dispatch(s)) && SameStructure(s, Dispatch(s)) && CoreInv(Dispatch(s))
  {
    hide CoreInv, SameStructure, Unlink;
    var n := s.(current := None);
    DispatchStructure(n);
    DispatchKeeps(n);
    assert Dispatch(s) == Dispatch(n);
    SameFor(s, n, Dispatch(s));
    WaitStays(s, Dispatch(s));
  }

  /** The structure does not mention who runs. */
  lemma SameFor(s: State, n: State, r: State)
    requires n == s.(current := None) && SameStructure(n, r)
    ensures SameStructure(s, r)
  {
  }

  lemma WaitStays(s: State, r: State)
    requires SameStructure(s, r) && T(s.st.tcb, SSI).wait.None?
    ensures T(r.st.tcb, SSI).wait.None?
  {
  }

  // ----- Every step keeps the invariant -----

  lemma SendStep(s: State, d: Tid, v: Value)
    requires Inv(s) && s.current.Some?
    ensures var r := SysSend(s, d, v).0; Inv(r) && r.current == s.current && SameStructure(s, r)
    ensures SysSend(s, d, v).0.mode == s.mode && SysSend(s, d, v).0.ssi == s.ssi
  {
    hide CoreInv, NoEmpty, SameStructure, CountAgrees, SoftAgrees, Send;
    SysSendKeeps(s, d, v);
    SendStructure(s, d, s.current.value, v);
    SendFrame(s, d, s.current.value, v);
    var r := SysSend(s, d, v).0;
    CpuStructure(s, Send(s, d, s.current.value, v).0, r);
    StructureKeeps(s, r);
    WaitStays(s, r);
  }

  lemma CpuStructure(s: State, m: State, r: State)
    requires SameStructure(s, m) && r == m.(cpu := r.cpu, mem := r.mem)
    ensures SameStructure(s, r)
  {
  }

  lemma BlockStructure(s: State, src: Option<Tid>)
    requires s.current.Some? && (s.current == Some(SSI) ==> src.None?)
    ensures SameStructure(s, Block(s, src))
  {
    var t := s.current.value;
    AppendStructure(s, WaitQueue(src), t, T(s.st.tcb, t).(regs := s.cpu, status := W4Msg, wait := src));
  }

  lemma RecvStep(s: State, src: Option<Tid>, pmsg: nat)
    requires Inv(s) && s.current.Some? && CanReceive(s, src) && (src.Some? ==> s.current != Some(SSI))
    ensures Inv(SysRecv(s, src, pmsg)) && SameStructure(s, SysRecv(s, src, pmsg))
  {
    hide CoreInv, NoEmpty, SameStructure, CountAgrees, SoftAgrees, Dispatch, Block, MsgGet;
    SysRecvKeeps(s, src, pmsg);
    var r, t := SysRecv(s, src, pmsg), s.current.value;
    var g := MsgGet(s.st, src, s.current);
    if g.1.Some? {
      GetStructure(s, src, t);
      CpuStructure(s, s.(st := g.0), r);
      WaitStays(s, r);
    } else {
      var s1 := s.(cpu := Regs(Code(SYS_RECV), pmsg));
      SameSelf(s);
      CpuStructure(s, s, s1);
      BlockStructure(s1, src);
      StructureTrans(s, s1, Block(s1, src));
      WaitStays(s, Block(s1, src));
      GetNone(s, src);
      CpuCore(s, s1);
      BlockKeeps(s1, src);
      BlockMode(s1, src);
      DispatchRests(Block(s1, src));
      StructureTrans(s, Block(s1, src), r);
    }
    StructureKeeps(s, r);
  }

  lemma GetNone(s: State, src: Option<Tid>)
    requires s.current.Some? && MsgGet(s.st, src, s.current).1.None?
    ensures FirstFrom(Q(s.st.q, TMsgq(s.current.value)), s.st.msg, src).None?
  {
  }

  lemma CpuCore(s: State, r: State)
    requires CoreInv(s) && r == s.(cpu := r.cpu, mem := r.mem)
    ensures CoreInv(r)
  {
  }

  lemma BlockMode(s: State, src: Option<Tid>)
    requires s.current.Some?
    ensures Block(s, src).mode == s.mode
  {
  }

  lemma TickStep(s: State)
    requires Inv(s)
    ensures Inv(Timer(s)) && SameStructure(s, Timer(s))
  {
    hide CoreInv, NoEmpty, SameStructure, CountAgrees, SoftAgrees, Dispatch;
    PreemptKeeps(s);
    SameSelf(s);
    if s.current.Some? {
      var t := s.current.value;
      AppendStructure(s, ReadyQ, t, T(s.st.tcb, t).(regs := s.cpu));
    }
    var m := Preempt(s);
    WaitStays(s, m);
    hide Append;
    DispatchRests(m);
    StructureTrans(s, m, Timer(s));
    StructureKeeps(s, Timer(s));
  }

  lemma TerminalStep(s: State)
    requires Inv(s) && On(s) && s.slot.Some?
    ensures Inv(IoDone(s))
  {
    hide CoreInv, NoEmpty, SameStructure, CountAgrees, Dispatch, Send;
    var d := s.slot.value;
    IoDoneKeeps(s);
    SendKeeps(s, d, SSI, 0);
    SendStructure(s, d, SSI, 0);
    SendFrame(s, d, SSI, 0);
    var m := Send(s, d, SSI, 0);
    StructureKeeps(s, m.0);
    WaitStays(s, m.0);
    if !m.1 {
      FailedSend(s, d, SSI, 0);
      ModeIrrelevant(m.0, IoDone(s));
    } else {
      var s1 := m.0.(slot := None);
      ModeIrrelevant(m.0, s1);
      if s.mode == Waiting {
        var s2 := s1.(mode := Running);
        ModeIrrelevant(m.0, s2);
        SlotCore(m.0, s2);
        assert s2.(current := None) == s2;
        DispatchRests(s2);
        StructureKeeps(s2, Dispatch(s2));
      }
    }
  }

  lemma SlotCore(s: State, r: State)
    requires CoreInv(s) && r == s.(slot := r.slot, mode := r.mode, soft := r.soft, ios := r.ios, ssi := r.ssi)
    ensures CoreInv(r)
  {
  }

  lemma ModeIrrelevant(s: State, r: State)
    requires r == s.(slot := r.slot, mode := r.mode) && (r.slot == s.slot || r.slot == None)
    ensures CountAgrees(s) ==> CountAgrees(r)
    ensures NoEmpty(s.st.q, s.st.pcb) ==> NoEmpty(r.st.q, r.st.pcb)
    ensures SoftAgrees(s) ==> SoftAgrees(r)
  {
  }

  lemma FailedSend(s: State, d: Tid, snd: Tid, v: Value)
    requires !Send(s, d, snd, v).1
    ensures Send(s, d, snd, v).0 == s
  {
  }
}
