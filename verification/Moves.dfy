/** What one send, receive, tick or call of the scheduler does to every thread. */
module Moves {
  import opened Types
  import opened Links
  import opened Store
  import opened Kernel
  import opened Invariant
  import opened Preserve
  import opened Machine
  import opened Fifo
  import opened Fair

  /** Nothing but threads, queues and messages changed. */
  ghost predicate Quiet(s: State, r: State) {
    r.count == s.count && r.soft == s.soft && r.ios == s.ios && r.slot == s.slot && r.ssi == s.ssi
    && r.st.pcb == s.st.pcb && |r.st.tcb| == |s.st.tcb|
  }

  /** The scheduler took the first of the ready list `l`, or gave its verdict on the empty one. */
  ghost predicate Scheduled(s: State, r: State, l: seq<Node>) {
    if l == [] then r.current.None? && ReadyList(r) == [] && r.mode == EmptyVerdict(s)
    else
      && r.mode == s.mode && r.current.Some? && l[0] == TSched(r.current.value) && ReadyList(r) == l[1..]
      && r.cpu == T(r.st.tcb, r.current.value).regs
  }

  lemma Schedules(s: State)
    requires CoreInv(s.(current := None))
    ensures var r := Dispatch(s); Scheduled(s, r, ReadyList(s)) && Quiet(s, r) && SameMail(s, r) && r.st.tcb == s.st.tcb
  {
    hide CoreInv, SameMail, Unlink;
    DispatchMail(s);
    if ReadyList(s) != [] { DispatchReady(s); }
  }

  ghost predicate OneChanged(tcb: seq<Tcb>, tcb': seq<Tcb>, t: Tid, x: Tcb) {
    forall u: Tid {:trigger T(tcb', u)} :: T(tcb', u) == if u == t then x else T(tcb, u)
  }

  /** A thread that finds no message blocks, and the next one runs. */
  lemma Yields(s: State, t: Tid, src: Option<Tid>, pmsg: nat)
    requires CoreInv(s) && s.current == Some(t) && CanReceive(s, src) && MsgGet(s.st, src, s.current).1.None?
    ensures var r := SysRecv(s, src, pmsg);
            && Scheduled(s, r, ReadyList(s)) && Quiet(s, r) && SameMail(s, r)
            && OneChanged(s.st.tcb, r.st.tcb, t,
                 T(s.st.tcb, t).(regs := Regs(Code(SYS_RECV), pmsg), status := W4Msg, wait := src))
  {
    hide CoreInv, Dispatch, SameMail, Q, Append, MsgGet;
    var s1 := s.(cpu := Regs(Code(SYS_RECV), pmsg));
    CpuCore(s, s1);
    GetNone(s, src);
    BlockKeeps(s1, src);
    BlockReady(s1, src);
    BlockMail(s1, src);
    var b := Block(s1, src);
    Schedules(b);
    CurrentUnlinked(s);
    PutT(s.st.tcb, t, T(s.st.tcb, t).(regs := s1.cpu, status := W4Msg, wait := src));
    MailThrough(s, s1, b, Dispatch(b));
  }

  lemma MailThrough(s: State, s1: State, b: State, r: State)
    requires s1.st == s.st && SameMail(s1, b) && SameMail(b, r)
    ensures SameMail(s, r)
  {
    forall d: Tid ensures Q(r.st.q, TMsgq(d)) == Q(s.st.q, TMsgq(d)) {
      assert Q(b.st.q, TMsgq(d)) == Q(s1.st.q, TMsgq(d));
    }
  }

  lemma EmptyBox(st: Store, src: Option<Tid>, d: Tid)
    requires Q(st.q, TMsgq(d)) == []
    ensures MsgGet(st, src, Some(d)) == (st, None)
  {
  }

  /** The interval timer takes the processor from `t` and gives it to the next one. */
  lemma Ticked(s: State, t: Tid)
    requires CoreInv(s) && s.current == Some(t)
    ensures var r := Timer(s);
            && Scheduled(s, r, ReadyList(s) + [TSched(t)]) && Quiet(s, r) && SameMail(s, r)
            && OneChanged(s.st.tcb, r.st.tcb, t, T(s.st.tcb, t).(regs := s.cpu))
  {
    hide CoreInv, Dispatch, SameMail;
    PreemptKeeps(s);
    PreemptMail(s);
    var m := Preempt(s);
    assert ReadyList(m) == ReadyList(s) + [TSched(t)];
    Schedules(m);
    CurrentUnlinked(s);
    PutT(s.st.tcb, t, T(s.st.tcb, t).(regs := s.cpu));
    hide Q, Append;
    MailThrough(s, s, m, Timer(s));
  }

  lemma CpuMail(s: State, m: State, r: State)
    requires SameMail(s, m) && r.st == m.st
    ensures SameMail(s, r)
  {
  }

  lemma BoxOf(s: State, r: State, d: Tid)
    requires SameMail(s, r)
    ensures Q(r.st.q, TMsgq(d)) == Q(s.st.q, TMsgq(d)) && r.st.msg == s.st.msg
  {
  }
}
