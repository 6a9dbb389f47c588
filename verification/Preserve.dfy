/** The small steps that every kernel routine is made of keep the invariant. */
module Preserve {
  import opened Types
  import opened Links
  import opened Store
  import opened Kernel
  import opened Invariant

  /** Only the place of `n` differs. */
  ghost predicate SameBut(q: Lists, r: Lists, n: Node) {
    forall k, x {:trigger x in Q(r, k)} :: x != n ==> (x in Q(r, k) <==> x in Q(q, k))
  }

  lemma FrameThreads(q: Lists, r: Lists, n: Node, tcb: seq<Tcb>)
    requires SameBut(q, r, n) && !n.TNext? && ThreadsAgree(q, tcb)
    ensures ThreadsAgree(r, tcb)
  {
  }

  lemma FrameProcs(q: Lists, r: Lists, n: Node, pcb: seq<Pcb>)
    requires SameBut(q, r, n) && !n.PSiblings? && ProcsAgree(q, pcb)
    ensures ProcsAgree(r, pcb)
  {
  }

  lemma FrameSched(q: Lists, r: Lists, n: Node, tcb: seq<Tcb>, current: Option<Tid>)
    requires SameBut(q, r, n) && !n.TSched? && SchedAgree(q, tcb, current)
    ensures SchedAgree(r, tcb, current)
  {
  }

  lemma FrameMsgs(q: Lists, r: Lists, n: Node, msg: seq<Msg>, tcb: seq<Tcb>)
    requires SameBut(q, r, n) && !n.MNext? && MsgsAgree(q, msg, tcb)
    ensures MsgsAgree(r, msg, tcb)
  {
    forall m: Mid | M(msg, m).sender.Some? ensures Boxed(r, m) {
      assert Boxed(q, m);
      var t: Tid :| MNext(m) in Q(q, TMsgq(t));
      assert MNext(m) in Q(r, TMsgq(t));
    }
  }

  lemma FrameWakeup(q: Lists, r: Lists, n: Node, tcb: seq<Tcb>, msg: seq<Msg>, np: nat, nm: nat)
    requires SameBut(q, r, n) && !n.MNext? && NoLostWakeup(q, tcb, msg) && Shaped(r, np, |tcb|, nm)
    ensures NoLostWakeup(r, tcb, msg)
  {
    forall t: Tid, x | T(tcb, t).status == W4Msg && x in Q(r, TMsgq(t))
      ensures !Matches(M(msg, MidOf(x)), T(tcb, t).wait)
    {
      assert Fits(TMsgq(t), x, np, |tcb|, nm);
      assert x in Q(q, TMsgq(t));
    }
  }

  // ----- Messages -----

  lemma FreedMsgs(q: Lists, r: Lists, msg: seq<Msg>, tcb: seq<Tcb>, m: Mid)
    requires MsgsAgree(q, msg, tcb) && Moved(q, r, MNext(m), FreeMsgs) && m < |msg|
    ensures MsgsAgree(r, Put(msg, m, M(msg, m).(sender := None)), tcb)
  {
    var msg' := Put(msg, m, M(msg, m).(sender := None));
    forall x: Mid | M(msg', x).sender.Some? ensures Boxed(r, x) {
      assert Boxed(q, x);
      var t: Tid :| MNext(x) in Q(q, TMsgq(t));
      assert MNext(x) in Q(r, TMsgq(t));
    }
  }

  lemma FreedWakeup(q: Lists, r: Lists, msg: seq<Msg>, tcb: seq<Tcb>, m: Mid, np: nat)
    requires NoLostWakeup(q, tcb, msg) && Shaped(q, np, |tcb|, |msg|) && Moved(q, r, MNext(m), FreeMsgs)
    ensures NoLostWakeup(r, tcb, Put(msg, m, M(msg, m).(sender := None)))
  {
    var msg' := Put(msg, m, M(msg, m).(sender := None));
    forall t: Tid, x | T(tcb, t).status == W4Msg && x in Q(r, TMsgq(t))
      ensures !Matches(M(msg', MidOf(x)), T(tcb, t).wait)
    {
      assert x in Q(q, TMsgq(t)) && x != MNext(m);
      assert Fits(TMsgq(t), x, np, |tcb|, |msg|);
    }
  }

  lemma MsgFreeKeeps(s: State, m: Mid)
    requires CoreInv(s) && m < |s.st.msg|
    ensures CoreInv(s.(st := MsgFree(s.st, m)))
  {
    hide Move, MsgsAgree, ThreadsAgree, ProcsAgree, SchedAgree, NoLostWakeup, ThreadsClean, Tree, Owned, Sep;
    var st := s.st;
    var q, r, n := st.q, MsgFree(st, m).q, MNext(m);
    var np, nt, nm := |st.pcb|, |st.tcb|, |st.msg|;
    assert IsHead(FreeMsgs, np, nt) && Fits(FreeMsgs, n, np, nt, nm);
    FitsNotHead(q, FreeMsgs, n, np, nt, nm);
    MoveFacts(q, n, FreeMsgs);
    ShapedMoved(q, r, n, FreeMsgs, np, nt, nm);
    FrameThreads(q, r, n, st.tcb);
    FrameProcs(q, r, n, st.pcb);
    FrameSched(q, r, n, st.tcb, s.current);
    FreedMsgs(q, r, st.msg, st.tcb, m);
    FreedWakeup(q, r, st.msg, st.tcb, m, np);
  }

  /** The slot that `msgq_add` takes is free, so in no mailbox. */
  lemma FreeSlot(st: Store)
    requires Shape(st) && MsgsAgree(st.q, st.msg, st.tcb) && Q(st.q, FreeMsgs) != []
    ensures var n := Q(st.q, FreeMsgs)[0];
            && n == MNext(MidOf(n)) && MidOf(n) < |st.msg| && M(st.msg, MidOf(n)).sender == None
            && n in Q(st.q, FreeMsgs)
  {
    var n := Q(st.q, FreeMsgs)[0];
    assert n in Q(st.q, FreeMsgs);
    assert Fits(FreeMsgs, n, |st.pcb|, |st.tcb|, |st.msg|);
  }

  lemma AddedMsgs(q: Lists, r: Lists, msg: seq<Msg>, tcb: seq<Tcb>, m: Mid, snd: Tid, d: Tid, v: Value)
    requires MsgsAgree(q, msg, tcb) && Moved(q, r, MNext(m), TMsgq(d)) && m < |msg| && Live(tcb, d)
    ensures MsgsAgree(r, Put(msg, m, Msg(Some(snd), v)), tcb)
  {
    var msg' := Put(msg, m, Msg(Some(snd), v));
    forall x: Mid | M(msg', x).sender.Some? ensures Boxed(r, x) {
      if x == m {
        assert MNext(x) in Q(r, TMsgq(d));
      } else {
        assert Boxed(q, x);
        var t: Tid :| MNext(x) in Q(q, TMsgq(t));
        assert MNext(x) in Q(r, TMsgq(t));
      }
    }
  }

  lemma AddedWakeup(q: Lists, r: Lists, msg: seq<Msg>, tcb: seq<Tcb>, m: Mid, snd: Tid, d: Tid, v: Value, np: nat)
    requires NoLostWakeup(q, tcb, msg) && Shaped(q, np, |tcb|, |msg|) && Moved(q, r, MNext(m), TMsgq(d))
    requires m < |msg| && !Awaits(T(tcb, d), snd)
    ensures NoLostWakeup(r, tcb, Put(msg, m, Msg(Some(snd), v)))
  {
    var msg' := Put(msg, m, Msg(Some(snd), v));
    forall t: Tid, x | T(tcb, t).status == W4Msg && x in Q(r, TMsgq(t))
      ensures !Matches(M(msg', MidOf(x)), T(tcb, t).wait)
    {
      if x != MNext(m) {
        assert x in Q(q, TMsgq(t));
        assert Fits(TMsgq(t), x, np, |tcb|, |msg|);
      }
    }
  }

  lemma MsgAddKeeps(s: State, snd: Tid, d: Tid, v: Value)
    requires CoreInv(s) && Live(s.st.tcb, d) && !Awaits(T(s.st.tcb, d), snd)
    ensures CoreInv(s.(st := MsgAdd(s.st, Some(snd), Some(d), v).0))
  {
    hide Move, ThreadsAgree, ProcsAgree, SchedAgree, NoLostWakeup, ThreadsClean, Tree, Owned, Sep;
    var st := s.st;
    if Q(st.q, FreeMsgs) != [] {
      FreeSlot(st);
      hide MsgsAgree;
      var q, r, n := st.q, MsgAdd(st, Some(snd), Some(d), v).0.q, Q(st.q, FreeMsgs)[0];
      var np, nt, nm := |st.pcb|, |st.tcb|, |st.msg|;
      assert IsHead(TMsgq(d), np, nt) && Fits(TMsgq(d), n, np, nt, nm);
      FitsNotHead(q, TMsgq(d), n, np, nt, nm);
      MoveFacts(q, n, TMsgq(d));
      ShapedMoved(q, r, n, TMsgq(d), np, nt, nm);
      FrameThreads(q, r, n, st.tcb);
      FrameProcs(q, r, n, st.pcb);
      FrameSched(q, r, n, st.tcb, s.current);
      AddedMsgs(q, r, st.msg, st.tcb, n.m, snd, d, v);
      AddedWakeup(q, r, st.msg, st.tcb, n.m, snd, d, v, np);
    }
  }

  lemma {:induction false} FirstFromIn(box: seq<Node>, msg: seq<Msg>, from: Option<Tid>)
    ensures var m := FirstFrom(box, msg, from);
            m.Some? ==> Matches(M(msg, m.value), from) && exists n :: n in box && MidOf(n) == m.value
  {
    if box != [] {
      assert box[0] in box;
      FirstFromIn(box[1..], msg, from);
    }
  }

  lemma MsgGetKeeps(s: State, from: Option<Tid>, dest: Option<Tid>)
    requires CoreInv(s)
    ensures CoreInv(s.(st := MsgGet(s.st, from, dest).0))
  {
    hide MsgFree, MsgsAgree, ThreadsAgree, ProcsAgree, SchedAgree, NoLostWakeup, ThreadsClean, Tree, Owned, Sep;
    if dest.Some? {
      var box := Q(s.st.q, TMsgq(dest.value));
      var m := FirstFrom(box, s.st.msg, from);
      FirstFromIn(box, s.st.msg, from);
      if m.Some? {
        var n :| n in box && MidOf(n) == m.value;
        assert Fits(TMsgq(dest.value), n, |s.st.pcb|, |s.st.tcb|, |s.st.msg|);
        MsgFreeKeeps(s, m.value);
      }
    }
  }

  // ----- Threads that change status -----

  /** Every thread keeps its process and stays as live as it was. */
  ghost predicate SameLife(tcb: seq<Tcb>, tcb': seq<Tcb>) {
    && |tcb'| == |tcb|
    && forall t: Tid :: T(tcb', t).pcb == T(tcb, t).pcb && (Live(tcb', t) <==> Live(tcb, t))
  }

  lemma LifeKeeps(q: Lists, pcb: seq<Pcb>, msg: seq<Msg>, tcb: seq<Tcb>, tcb': seq<Tcb>)
    requires SameLife(tcb, tcb')
    ensures ThreadsAgree(q, tcb) ==> ThreadsAgree(q, tcb')
    ensures Owned(pcb, tcb) ==> Owned(pcb, tcb')
    ensures MsgsAgree(q, msg, tcb) ==> MsgsAgree(q, msg, tcb')
  {
  }

  lemma ResumedSched(q: Lists, r: Lists, tcb: seq<Tcb>, current: Option<Tid>, t: Tid, rval: Option<Tid>)
    requires SchedAgree(q, tcb, current) && Moved(q, r, TSched(t), ReadyQ) && T(tcb, t).status == W4Msg
    ensures SchedAgree(r, Put(tcb, t, Resumed(T(tcb, t), rval)), current)
  {
    var tcb' := Put(tcb, t, Resumed(T(tcb, t), rval));
    assert forall x: Tid :: x != t ==> T(tcb', x) == T(tcb, x);
  }

  lemma ResumeKeeps(s: State, t: Tid, rval: Option<Tid>, v: Value)
    requires CoreInv(s) && T(s.st.tcb, t).status == W4Msg
    ensures CoreInv(Resume(s, t, rval, v))
  {
    hide Move, ThreadsAgree, ProcsAgree, SchedAgree, MsgsAgree, Tree, Owned, Sep;
    var st := s.st;
    var q, r, n, tcb' := st.q, Resume(s, t, rval, v).st.q, TSched(t), Resume(s, t, rval, v).st.tcb;
    var np, nt, nm := |st.pcb|, |st.tcb|, |st.msg|;
    assert IsHead(ReadyQ, np, nt) && Fits(ReadyQ, n, np, nt, nm);
    FitsNotHead(q, ReadyQ, n, np, nt, nm);
    MoveFacts(q, n, ReadyQ);
    ShapedMoved(q, r, n, ReadyQ, np, nt, nm);
    FrameThreads(q, r, n, st.tcb);
    FrameProcs(q, r, n, st.pcb);
    FrameMsgs(q, r, n, st.msg, st.tcb);
    FrameWakeup(q, r, n, st.tcb, st.msg, np, nm);
    ResumedSched(q, r, st.tcb, s.current, t, rval);
    LifeKeeps(r, st.pcb, st.msg, st.tcb, tcb');
  }

  lemma SendKeeps(s: State, d: Tid, snd: Tid, v: Value)
    requires CoreInv(s)
    ensures CoreInv(Send(s, d, snd, v).0)
  {
    hide CoreInv, Resume, MsgAdd;
    var tc := T(s.st.tcb, d);
    if tc.status != Unused {
      if Awaits(tc, snd) {
        ResumeKeeps(s, d, Some(snd), v);
      } else {
        MsgAddKeeps(s, snd, d, v);
      }
    }
  }

  /** The registers, the payload cells and the counters are no part of the invariant. */
  lemma SysSendKeeps(s: State, d: Tid, v: Value)
    requires CoreInv(s) && s.current.Some?
    ensures CoreInv(SysSend(s, d, v).0)
  {
    hide StoreInv, SchedAgree, NoLostWakeup, Send;
    SendKeeps(s, d, s.current.value, v);
  }

  lemma {:induction false} FirstFromNone(box: seq<Node>, msg: seq<Msg>, from: Option<Tid>)
    ensures FirstFrom(box, msg, from).None? <==> forall n :: n in box ==> !Matches(M(msg, MidOf(n)), from)
  {
    if box != [] {
      assert box == [box[0]] + box[1..];
      FirstFromNone(box[1..], msg, from);
      if forall n :: n in box ==> !Matches(M(msg, MidOf(n)), from) {
        assert box[0] in box;
      }
    }
  }

  function Blocked(tc: Tcb, regs: Regs, src: Option<Tid>): Tcb { tc.(regs := regs, status := W4Msg, wait := src) }

  lemma BlockedSched(q: Lists, r: Lists, tcb: seq<Tcb>, t: Tid, regs: Regs, src: Option<Tid>)
    requires SchedAgree(q, tcb, Some(t)) && Moved(q, r, TSched(t), WaitQueue(src))
    ensures SchedAgree(r, Put(tcb, t, Blocked(T(tcb, t), regs, src)), None)
  {
    var tcb' := Put(tcb, t, Blocked(T(tcb, t), regs, src));
    assert forall x: Tid :: x != t ==> T(tcb', x) == T(tcb, x);
  }

  lemma BlockedWakeup(q: Lists, msg: seq<Msg>, tcb: seq<Tcb>, t: Tid, regs: Regs, src: Option<Tid>)
    requires NoLostWakeup(q, tcb, msg) && FirstFrom(Q(q, TMsgq(t)), msg, src).None?
    ensures NoLostWakeup(q, Put(tcb, t, Blocked(T(tcb, t), regs, src)), msg)
  {
    FirstFromNone(Q(q, TMsgq(t)), msg, src);
  }

  lemma ShapeOf(s: State)
    requires CoreInv(s)
    ensures Shape(s.st) && Sep(s.st.q)
  {
  }

  lemma MemberFits(s: State, h: Node, n: Node)
    requires CoreInv(s) && n in Q(s.st.q, h)
    ensures h in s.st.q && Fits(h, n, |s.st.pcb|, |s.st.tcb|, |s.st.msg|)
  {
    hide ThreadsAgree, ProcsAgree, MsgsAgree, Tree, Owned, Sep, NoLostWakeup, ThreadsClean, SchedAgree;
  }

  /** The running thread is on no scheduling list. */
  lemma CurrentUnlinked(s: State)
    requires CoreInv(s) && s.current.Some?
    ensures !Linked(s.st.q, TSched(s.current.value))
    ensures T(s.st.tcb, s.current.value).status == Ready && s.current.value < |s.st.tcb|
  {
    hide ThreadsAgree, ProcsAgree, MsgsAgree, Tree, Owned, Sep, NoLostWakeup, ThreadsClean;
    var n := TSched(s.current.value);
    forall h ensures n !in Q(s.st.q, h) {
      assert n in Q(s.st.q, h) ==> h in s.st.q && Fits(h, n, |s.st.pcb|, |s.st.tcb|, |s.st.msg|);
    }
  }

  lemma BlockKeeps(s: State, src: Option<Tid>)
    requires CoreInv(s) && s.current.Some?
    requires src.Some? ==> src.value < |s.st.tcb|
    requires FirstFrom(Q(s.st.q, TMsgq(s.current.value)), s.st.msg, src).None?
    ensures CoreInv(Block(s, src).(current := None))
  {
    hide Append, ThreadsAgree, ProcsAgree, SchedAgree, MsgsAgree, Tree, Owned, Sep, Linked, ThreadsClean;
    CurrentUnlinked(s);
    var st, t, h := s.st, s.current.value, WaitQueue(src);
    var np, nt, nm := |st.pcb|, |st.tcb|, |st.msg|;
    var q, r, n, tcb' := st.q, Block(s, src).st.q, TSched(t), Block(s, src).st.tcb;
    assert IsHead(h, np, nt) && Fits(h, n, np, nt, nm);
    FitsNotHead(q, h, n, np, nt, nm);
    AppendFacts(q, h, n);
    ShapedMoved(q, r, n, h, np, nt, nm);
    FrameThreads(q, r, n, st.tcb);
    FrameProcs(q, r, n, st.pcb);
    FrameMsgs(q, r, n, st.msg, st.tcb);
    BlockedWakeup(q, st.msg, st.tcb, t, s.cpu, src);
    FrameWakeup(q, r, n, tcb', st.msg, np, nm);
    BlockedSched(q, r, st.tcb, t, s.cpu, src);
    PutT(st.tcb, t, Blocked(T(st.tcb, t), s.cpu, src));
    LifeKeeps(r, st.pcb, st.msg, st.tcb, tcb');
    BlockedClean(st.tcb, t, s.cpu, src);
  }

  lemma BlockedClean(tcb: seq<Tcb>, t: Tid, regs: Regs, src: Option<Tid>)
    requires ThreadsClean(tcb) && T(tcb, t).status == Ready
    ensures ThreadsClean(Put(tcb, t, Blocked(T(tcb, t), regs, src)))
  {
    PutT(tcb, t, Blocked(T(tcb, t), regs, src));
  }

  lemma DispatchedSched(q: Lists, r: Lists, tcb: seq<Tcb>, t: Tid)
    requires SchedAgree(q, tcb, None) && Gone(q, r, TSched(t)) && TSched(t) in Q(q, ReadyQ)
    ensures SchedAgree(r, tcb, Some(t))
  {
  }

  lemma HeadThread(s: State)
    requires Shape(s.st) && ReadyList(s) != []
    ensures var n := ReadyList(s)[0]; n in Q(s.st.q, ReadyQ) && n == TSched(TidOf(n)) && TidOf(n) < |s.st.tcb|
  {
    var n := ReadyList(s)[0];
    assert n in Q(s.st.q, ReadyQ);
    assert Fits(ReadyQ, n, |s.st.pcb|, |s.st.tcb|, |s.st.msg|);
  }

  lemma DispatchKeeps(s: State)
    requires CoreInv(s) && s.current.None?
    ensures CoreInv(Dispatch(s))
  {
    var st := s.st;
    if ReadyList(s) != [] {
      HeadThread(s);
      hide Unlink, ThreadsAgree, ProcsAgree, SchedAgree, MsgsAgree, Tree, Owned, Sep, NoLostWakeup, ThreadsClean;
      var q, r, n := st.q, Dispatch(s).st.q, ReadyList(s)[0];
      var np, nt, nm := |st.pcb|, |st.tcb|, |st.msg|;
      UnlinkFacts(q, n);
      ShapedGone(q, r, n, np, nt, nm);
      FrameThreads(q, r, n, st.tcb);
      FrameProcs(q, r, n, st.pcb);
      FrameMsgs(q, r, n, st.msg, st.tcb);
      FrameWakeup(q, r, n, st.tcb, st.msg, np, nm);
      DispatchedSched(q, r, st.tcb, n.t);
    }
  }

  lemma RequeuedSched(q: Lists, r: Lists, tcb: seq<Tcb>, t: Tid, regs: Regs)
    requires SchedAgree(q, tcb, Some(t)) && Moved(q, r, TSched(t), ReadyQ)
    ensures SchedAgree(r, Put(tcb, t, T(tcb, t).(regs := regs)), None)
  {
    var tcb' := Put(tcb, t, T(tcb, t).(regs := regs));
    PutT(tcb, t, T(tcb, t).(regs := regs));
  }

  lemma RegsKeep(q: Lists, tcb: seq<Tcb>, msg: seq<Msg>, t: Tid, regs: Regs)
    requires ThreadsClean(tcb) && NoLostWakeup(q, tcb, msg)
    ensures var tcb' := Put(tcb, t, T(tcb, t).(regs := regs)); ThreadsClean(tcb') && NoLostWakeup(q, tcb', msg)
  {
    PutT(tcb, t, T(tcb, t).(regs := regs));
  }

  lemma PreemptKeeps(s: State)
    requires CoreInv(s)
    ensures CoreInv(Preempt(s).(current := None))
  {
    if s.current.Some? {
      hide Append, ThreadsAgree, ProcsAgree, SchedAgree, MsgsAgree, Tree, Owned, Sep, Linked, NoLostWakeup, ThreadsClean;
      CurrentUnlinked(s);
      var st, t := s.st, s.current.value;
      var np, nt, nm := |st.pcb|, |st.tcb|, |st.msg|;
      var q, r, n, tcb' := st.q, Preempt(s).st.q, TSched(t), Preempt(s).st.tcb;
      assert IsHead(ReadyQ, np, nt) && Fits(ReadyQ, n, np, nt, nm);
      FitsNotHead(q, ReadyQ, n, np, nt, nm);
      AppendFacts(q, ReadyQ, n);
      ShapedMoved(q, r, n, ReadyQ, np, nt, nm);
      FrameThreads(q, r, n, st.tcb);
      FrameProcs(q, r, n, st.pcb);
      FrameMsgs(q, r, n, st.msg, st.tcb);
      FrameWakeup(q, r, n, st.tcb, st.msg, np, nm);
      RequeuedSched(q, r, st.tcb, t, s.cpu);
      PutT(st.tcb, t, T(st.tcb, t).(regs := s.cpu));
      LifeKeeps(r, st.pcb, st.msg, st.tcb, tcb');
      RegsKeep(r, st.tcb, st.msg, t, s.cpu);
    }
  }

  /** The receive finds a message, or names a descriptor of the pool, in use or not, or the SSI, or nobody. */
  ghost predicate CanReceive(s: State, src: Option<Tid>) {
    (src.Some? ==> src.value < |s.st.tcb|) || MsgGet(s.st, src, s.current).1.Some?
  }

  /** Blocking on something that is not a descriptor is the one receive that breaks the invariant. */
  lemma SysRecvKeeps(s: State, src: Option<Tid>, pmsg: nat)
    requires CoreInv(s) && s.current.Some?
    ensures CoreInv(SysRecv(s, src, pmsg)) <==> CanReceive(s, src)
  {
    hide StoreInv, SchedAgree, NoLostWakeup, MsgFree;
    if MsgGet(s.st, src, s.current).1.Some? {
      MsgGetKeeps(s, src, s.current);
    } else if !CanReceive(s, src) {
      WaitsForNothing(s, src.value, pmsg);
    } else {
      var s1 := s.(cpu := Regs(Code(SYS_RECV), pmsg));
      BlockKeeps(s1, src);
      var b := Block(s1, src);
      DispatchKeeps(b.(current := None));
      assert Dispatch(b) == Dispatch(b.(current := None));
    }
  }

  lemma WaitsForNothing(s: State, u: Tid, pmsg: nat)
    requires CoreInv(s) && s.current.Some? && !CanReceive(s, Some(u))
    ensures !CoreInv(SysRecv(s, Some(u), pmsg))
  {
    hide StoreInv, NoLostWakeup, MsgFree, SchedAgree;
    var s1 := s.(cpu := Regs(Code(SYS_RECV), pmsg));
    var b, r := Block(s1, Some(u)), SysRecv(s, Some(u), pmsg);
    assert r == Dispatch(b);
    assert TWait4me(u) in b.st.q && |b.st.tcb| == |s.st.tcb|;
    assert TWait4me(u) in r.st.q && |r.st.tcb| == |s.st.tcb|;
    assert !IsHead(TWait4me(u), |r.st.pcb|, |r.st.tcb|);
    if CoreInv(r) { ShapeOf(r); }
  }

  lemma IoDoneKeeps(s: State)
    requires CoreInv(s) && (s.mode == Waiting ==> s.current.None?)
    ensures CoreInv(IoDone(s))
  {
    hide StoreInv, SchedAgree, NoLostWakeup, Dispatch, Send;
    if s.slot.Some? {
      SendKeeps(s, s.slot.value, SSI, 0);
      var r := Send(s, s.slot.value, SSI, 0);
      var s1 := r.0.(slot := None);
      if r.1 && s.mode == Waiting {
        SendCurrent(s, s.slot.value, SSI, 0);
        DispatchKeeps(s1.(mode := Running));
      }
    }
  }

  lemma SendCurrent(s: State, d: Tid, snd: Tid, v: Value)
    ensures Send(s, d, snd, v).0.current == s.current
  {
  }
}
