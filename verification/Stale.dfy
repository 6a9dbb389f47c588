/** When a termination leaves a request of its victim behind, and when it does not: the client protocol is needed
    (src/SSI/services/terminate_process.c). */
module Stale {
  import opened Types
  import opened Links
  import opened Store
  import opened Kernel
  import opened Invariant
  import opened Preserve
  import opened Termination
  import opened Mail
  import opened Reap
  import opened Subtree
  import opened Requests
  import opened Machine
  import opened Safety
  import opened Endings
  import opened Fifo
  import opened Fair

  /** Is one request of `t` taken out of the SSI mailbox before `t` is killed? */
  predicate Cleans(s: State, t: Tid, applicant: Option<Tid>) {
    Cleaning(s, t, applicant) && CleanedBox(s.st, t) == Some(SSI)
  }

  /** The payloads of `t` left in the SSI mailbox: all, or all but the first when the mailbox is cleaned. */
  lemma LeftBehind(s: State, t: Tid, applicant: Option<Tid>)
    requires CoreInv(s) && 1 <= t && Live(s.st.tcb, t) && s.current != Some(t)
    ensures var before := Pending(s.st, t, SSI);
            Pending(KillVictim(s, t, applicant).st, t, SSI)
            == if Cleans(s, t, applicant) && before != [] then before[1..] else before
  {
    hide CoreInv, KillThread, Pending, CleanSysMsg, CleanedBox;
    if applicant != Some(t) && T(s.st.tcb, t).status == W4Msg {
      CleanFacts(s, t);
      var s1 := s.(st := CleanSysMsg(s.st, t));
      ShapeOf(s1);
      KillKeeps(s1, t);
      KilledMail(s1, KillThread(s1, t), t, t, SSI);
      CleanLeaves(s, t);
    } else {
      ShapeOf(s);
      KillKeeps(s, t);
      KilledMail(s, KillThread(s, t), t, t, SSI);
    }
  }

  lemma CleanLeaves(s: State, t: Tid)
    requires CoreInv(s)
    ensures var before := Pending(s.st, t, SSI);
            Pending(CleanSysMsg(s.st, t), t, SSI)
            == if CleanedBox(s.st, t) == Some(SSI) && before != [] then before[1..] else before
  {
    hide SchedAgree, NoLostWakeup, ThreadsAgree, ThreadsClean, ProcsAgree, Tree, Owned, MsgsAgree, Shaped, Sep, Pending,
      CleanedBox, MsgFree;
    var b := CleanedBox(s.st, t);
    if b.Some? {
      MsgGetPending(s.st, Some(t), b.value, t, SSI);
      var box := Q(s.st.q, TMsgq(b.value));
      FirstFromIn(box, s.st.msg, Some(t));
      if b == Some(SSI) && FirstFrom(box, s.st.msg, Some(t)).None? {
        FirstFromNone(box, s.st.msg, Some(t));
        FromEmpty(s.st, t);
      }
    }
  }

  lemma FromEmpty(st: Store, t: Tid)
    requires forall n :: n in Q(st.q, TMsgq(SSI)) ==> M(st.msg, MidOf(n)).sender != Some(t)
    ensures Pending(st, t, SSI) == []
  {
    FromNothing(Q(st.q, TMsgq(SSI)), st.msg, t);
  }

  /** A queued message of `x` is found by a receive from `x`. */
  lemma PendingFound(st: Store, x: Tid, d: Tid)
    requires Shape(st) && Sep(st.q) && MsgsAgree(st.q, st.msg, st.tcb) && Pending(st, x, d) != []
    ensures MsgGet(st, Some(x), Some(d)).1 == Some(Msg(Some(x), Pending(st, x, d)[0]))
  {
    hide Shape, Sep, MsgsAgree, Pending, MsgFree;
    var box := Q(st.q, TMsgq(d));
    MsgGetPending(st, Some(x), d, x, d);
    if FirstFrom(box, st.msg, Some(x)).None? {
      FirstFromNone(box, st.msg, Some(x));
      NoneQueued(st, x, d);
    } else {
      FirstFromIn(box, st.msg, Some(x));
    }
  }

  lemma NoneQueued(st: Store, x: Tid, d: Tid)
    requires forall n :: n in Q(st.q, TMsgq(d)) ==> M(st.msg, MidOf(n)).sender != Some(x)
    ensures Pending(st, x, d) == []
  {
    FromNothing(Q(st.q, TMsgq(d)), st.msg, x);
  }

  /** What cleaning takes out, mailbox by mailbox: the first message of the victim, from the SSI if it waits for the
      SSI,
      and from its system manager if it waits for that or for its program manager. So a message to the program manager
      stays, unless one thread is both. */
  lemma CleanedExactly(s: State, t: Tid, p: Pid, x: Tid, d: Tid)
    requires CoreInv(s) && ProcOf(s, t) == Some(p)
    ensures var wait, proc := T(s.st.tcb, t).wait, P(s.st.pcb, p); var before := Pending(s.st, x, d);
            var ssi, mgr := wait == Some(SSI) && d == SSI,
                            wait != Some(SSI) && (wait == proc.sysMgr || wait == proc.pgmMgr) && proc.sysMgr == Some(d);
            Pending(CleanSysMsg(s.st, t), x, d)
            == if x == t && (ssi || mgr) && before != [] then before[1..] else before
  {
    hide SchedAgree, NoLostWakeup, ThreadsAgree, ThreadsClean, ProcsAgree, Tree, Owned, Shaped, Sep, Pending, MsgFree,
      MsgsAgree;
    var b := CleanedBox(s.st, t);
    if b.Some? {
      MsgGetPending(s.st, Some(t), b.value, x, d);
      var g := MsgGet(s.st, Some(t), b);
      if Pending(s.st, t, b.value) != [] { PendingFound(s.st, t, b.value); }
      TakenSender(s.st, t, b.value);
      assert [] + Pending(g.0, x, d) == Pending(g.0, x, d);
    }
  }

  lemma TakenSender(st: Store, t: Tid, d: Tid)
    ensures var g := MsgGet(st, Some(t), Some(d)); if g.1.Some? then g.1.value.sender == Some(t) else g.0 == st
  {
    var box := Q(st.q, TMsgq(d));
    if FirstFrom(box, st.msg, Some(t)).Some? { FirstFromIn(box, st.msg, Some(t)); }
  }

  /** A request of a dead thread stays behind exactly when the victim had more requests queued than the one that
      cleaning removes; a victim that is not blocked on the SSI is not cleaned at all. */
  lemma StaleExactlyWhen(s: State, t: Tid, applicant: Option<Tid>)
    requires CoreInv(s) && 1 <= t && Live(s.st.tcb, t) && s.current != Some(t)
    ensures var r := KillVictim(s, t, applicant);
            && !Live(r.st.tcb, t)
            && (Pending(r.st, t, SSI) != []
                <==> |Pending(s.st, t, SSI)| > if Cleans(s, t, applicant) then 1 else 0)
  {
    hide CoreInv, Pending, KillVictim, Reaped, CleanedBox;
    LeftBehind(s, t, applicant);
    VictimReaps(s, t, applicant);
  }

  /** The window: a client preempted between the send and the receive of its request is ready with the request
      queued, so terminating it then leaves the request of a dead thread for the SSI. */
  lemma PreemptedRequestGoesStale(s: State, v: Value, applicant: Option<Tid>)
    requires Inv(s) && UserRuns(s) && On(s) && T(s.st.tcb, SSI).status == Ready && Q(s.st.q, FreeMsgs) != []
    requires ReadyList(s) != []
    ensures Run(s, [USend(SSI, v), Tick])
    ensures var t := s.current.value; var r := After(s, [USend(SSI, v), Tick]);
            && T(r.st.tcb, t).status == Ready && Pending(r.st, t, SSI) == Pending(s.st, t, SSI) + [v]
            && r.current != Some(t)
            && !Live(KillVictim(r, t, applicant).st.tcb, t) && Pending(KillVictim(r, t, applicant).st, t, SSI) != []
  {
    hide CoreInv, NoEmpty, CountAgrees, SoftAgrees, Pending, Send, Timer, KillVictim;
    var t := s.current.value;
    CurrentUnlinked(s);
    var e := USend(SSI, v);
    SendStep(s, SSI, v);
    var m := Next(s, e);
    StepKeeps(s, e);
    assert Enabled(m, Tick) by { SendMode(s, v); }
    assert [e, Tick][1..] == [Tick] && [Tick][1..] == [];
    StepKeeps(m, Tick);
    var r := Next(m, Tick);
    assert After(s, [e, Tick]) == After(m, [Tick]) == After(r, []) == r;
    QueuedAtSsi(s, v);
    TickFifo(m, t, SSI);
    TickStatus(m, t);
    SendReady(s, SSI, t, v);
    TurnOver(m);
    LeftBehind(r, t, applicant);
    VictimReaps(r, t, applicant);
  }

  /** If somebody is ready, a tick takes the processor from the running thread. */
  lemma TurnOver(s: State)
    requires CoreInv(s) && s.current.Some? && ReadyList(s) != []
    ensures Timer(s).current != s.current
  {
    hide CoreInv, Dispatch;
    PreemptKeeps(s);
    DispatchReady(Preempt(s));
    CurrentUnlinked(s);
    assert ReadyList(s)[0] in Q(s.st.q, ReadyQ);
    assert ReadyList(Preempt(s)) == ReadyList(s) + [TSched(s.current.value)];
  }

  // ----- The termination of a process -----

  /** The process of `x` has not named the SSI as its system manager. */
  predicate NoSsiMgr(st: Store, x: Tid) {
    T(st.tcb, x).pcb.Some? ==> P(st.pcb, T(st.tcb, x).pcb.value).sysMgr != Some(SSI)
  }

  function Rest(v: seq<Value>): seq<Value> { if v == [] then [] else v[1..] }

  /** What terminations leave of the requests of `x`: a survivor keeps all, and goes on waiting if it did. A victim
      keeps all but its first if it was blocked on the SSI and not the applicant, and all otherwise. */
  ghost predicate Remains(st: Store, r: Store, x: Tid, applicant: Option<Tid>) {
    var before, after := Pending(st, x, SSI), Pending(r, x, SSI);
    && (NoSsiMgr(st, x) ==> NoSsiMgr(r, x))
    && (!Live(st.tcb, x) ==> !Live(r.tcb, x))
    && if Live(r.tcb, x) || !Live(st.tcb, x) then
         && after == before && (Waits(r.tcb, x) <==> Waits(st.tcb, x))
         && (T(r.tcb, x).status == W4Msg ==> T(st.tcb, x).status == W4Msg)
       else
         && (after == before || (T(st.tcb, x).status == W4Msg && after == Rest(before)))
         && (NoSsiMgr(st, x) ==>
               after == if applicant != Some(x) && Waits(st.tcb, x) then Rest(before) else before)
  }

  lemma RemainsTrans(a: Store, b: Store, c: Store, x: Tid, first: Option<Tid>, second: Option<Tid>)
    requires Remains(a, b, x, first) && Remains(b, c, x, second)
    requires Live(b.tcb, x) ==> (first == Some(x) <==> second == Some(x))
    ensures Remains(a, c, x, first)
  {
    hide Pending, NoSsiMgr, Waits, Rest;
  }

  lemma VictimRemains(s: State, t: Tid, applicant: Option<Tid>, x: Tid)
    requires CoreInv(s) && 1 <= t && Live(s.st.tcb, t) && s.current != Some(t)
    ensures Remains(s.st, KillVictim(s, t, applicant).st, x, applicant)
  {
    hide CoreInv, KillThread, Pending, CleanSysMsg, CleanedBox, Waits, KillVictim, Cleans;
    if x == t {
      LeftBehind(s, t, applicant);
      VictimReaps(s, t, applicant);
      VictimOwnerless(KillVictim(s, t, applicant), t);
      BlockedIsCleaned(s, t, applicant);
    } else {
      CleanFacts(s, t);
      var s1 := if Cleaning(s, t, applicant) then s.(st := CleanSysMsg(s.st, t)) else s;
      assert KillVictim(s, t, applicant) == KillThread(s1, t) by { VictimIs(s, t, applicant); }
      KillLeavesOthers(s1, t, x, applicant);
    }
  }

  lemma VictimIs(s: State, t: Tid, applicant: Option<Tid>)
    ensures KillVictim(s, t, applicant)
            == KillThread(if Cleaning(s, t, applicant) then s.(st := CleanSysMsg(s.st, t)) else s, t)
  {
  }

  lemma VictimOwnerless(r: State, t: Tid)
    requires CoreInv(r) && 1 <= t && !Live(r.st.tcb, t)
    ensures T(r.st.tcb, t).pcb == None
  {
    hide SchedAgree, NoLostWakeup, Shaped, Sep, ThreadsAgree, ProcsAgree, Tree, Owned, MsgsAgree;
  }

  /** Without such managers it is the mailbox of the SSI that is cleaned exactly for those who wait for the SSI. */
  lemma BlockedIsCleaned(s: State, t: Tid, applicant: Option<Tid>)
    requires t != SSI
    ensures NoSsiMgr(s.st, t) ==> (Cleans(s, t, applicant) <==> applicant != Some(t) && Waits(s.st.tcb, t))
    ensures Cleans(s, t, applicant) ==> T(s.st.tcb, t).status == W4Msg
  {
  }

  lemma KillLeavesOthers(s: State, t: Tid, x: Tid, applicant: Option<Tid>)
    requires CoreInv(s) && 1 <= t && Live(s.st.tcb, t) && s.current != Some(t) && x != t
    ensures Remains(s.st, KillThread(s, t).st, x, applicant)
  {
    hide CoreInv, KillThread, Pending, KilledLists, KilledThreads;
    var r := KillThread(s, t);
    ShapeOf(s);
    KillKeeps(s, t);
    KilledMail(s, r, t, x, SSI);
    OtherAfterKill(s, r, t, x);
    hide Killed, Shape, Sep, Waits;
  }

  /** Another thread is as it was, or was waiting for the victim and is now ready. */
  lemma OtherAfterKill(s: State, r: State, t: Tid, x: Tid)
    requires CoreInv(s) && KilledThreads(s.st.q, s.st.tcb, r.st.tcb, t) && x != t && t != SSI
    ensures var a, b := T(s.st.tcb, x), T(r.st.tcb, x);
            && b.pcb == a.pcb && (Live(r.st.tcb, x) <==> Live(s.st.tcb, x)) && (b.status == W4Msg ==> a.status == W4Msg)
            && (Waits(r.st.tcb, x) <==> Waits(s.st.tcb, x))
  {
    hide StoreInv, NoLostWakeup;
    assert T(r.st.tcb, x) == T(r.st.tcb, x);
    assert TSched(x) in Q(s.st.q, TWait4me(t)) ==> T(s.st.tcb, x).status == W4Msg && T(s.st.tcb, x).wait == Some(t);
  }

  predicate Cleaning(s: State, t: Tid, applicant: Option<Tid>) {
    applicant != Some(t) && T(s.st.tcb, t).status == W4Msg
  }

  lemma RemainsSelf(st: Store, x: Tid, applicant: Option<Tid>)
    ensures Remains(st, st, x, applicant)
  {
    hide Pending;
  }

  lemma {:induction false} KillThreadsRemain(s: State, p: Pid, applicant: Option<Tid>, x: Tid)
    requires CoreInv(s) && Service(s.current)
    ensures Remains(s.st, KillThreads(s, Q(s.st.q, PThreads(p)), applicant).st, x, applicant)
    decreases |Q(s.st.q, PThreads(p))|
  {
    hide SchedAgree, NoLostWakeup, StoreInv, Reaped, KillVictim, Remains;
    var ts := Q(s.st.q, PThreads(p));
    if ts == [] {
      RemainsSelf(s.st, x, applicant);
    } else {
      var t := TidOf(ts[0]);
      HeadOfThreads(s.st, p);
      VictimReaps(s, t, applicant);
      VictimRemains(s, t, applicant, x);
      var s1 := KillVictim(s, t, applicant);
      assert s1.current == s.current by { ReapedFrame(s, s1); }
      assert Q(s1.st.q, PThreads(p)) == ts[1..];
      KillThreadsRemain(s1, p, applicant, x);
      assert KillThreads(s1, ts[1..], applicant) == KillThreads(s, ts, applicant);
      RemainsTrans(s.st, s1.st, KillThreads(s1, ts[1..], applicant).st, x, applicant, applicant);
    }
  }

  lemma DeleteRemains(s: State, p: Pid, x: Tid)
    requires CoreInv(s)
    ensures Remains(s.st, ProcDelete(s.st, p).0, x, None)
  {
    hide CoreInv, Shaped, Move;
    if ProcDelete(s.st, p).1 {
      ShapeOf(s);
      DeleteElsewhere(s.st, p, TMsgq(SSI));
      PutP(s.st.pcb, p, Pcb(None, None, None, None));
    }
  }

  /** The applicant belongs to the process, so it is gone with the other threads. */
  lemma ApplicantGone(s: State, r: State, p: Pid, a: Tid)
    requires CoreInv(s) && ThreadsGone(s, r, p) && ProcOf(s, a) == Some(p)
    ensures !Live(r.st.tcb, a)
  {
    hide CoreInv, Reaped;
    if Live(r.st.tcb, a) { SameProcess(s, r, a); }
    OwnerLists(r, a);
  }

  lemma OwnerLists(s: State, t: Tid)
    requires CoreInv(s)
    ensures ProcOf(s, t).Some? ==> TNext(t) in Q(s.st.q, PThreads(ProcOf(s, t).value))
  {
    hide SchedAgree, NoLostWakeup, Shaped, Sep, ProcsAgree, Tree, Owned, MsgsAgree;
    assert ProcOf(s, t).Some? ==> 1 <= t < |s.st.tcb|;
  }

  lemma {:induction false} KillTreeRemains(s: State, p: Pid, applicant: Option<Tid>, h: seq<nat>, x: Tid)
    requires CoreInv(s) && Service(s.current) && Allocated(s.st.pcb, p) && Heights(s.st.pcb, h) && p < |h|
    requires applicant.Some? ==> ProcOf(s, applicant.value) == Some(p)
    ensures Remains(s.st, KillTree(s, p, applicant, h).st, x, applicant)
    decreases h[p], 1, 0
  {
    hide CoreInv, Reaped, KillThreads, Heights, Under, ProcDelete, Remains;
    var s1 := KillThreads(s, Q(s.st.q, PThreads(p)), applicant);
    KillThreadsKeeps(s, p, applicant);
    KillThreadsRemain(s, p, applicant, x);
    if applicant.Some? { ApplicantGone(s, s1, p, applicant.value); }
    ReapedFrame(s, s1);
    KillKidsKeeps(s1, p, h);
    KillKidsRemain(s1, p, h, x);
    var s2 := KillKids(s1, Q(s1.st.q, PChildren(p)), h, h[p]);
    DeleteRemains(s2, p, x);
    RemainsTrans(s1.st, s2.st, ProcDelete(s2.st, p).0, x, None, None);
    RemainsTrans(s.st, s1.st, ProcDelete(s2.st, p).0, x, applicant, None);
  }

  lemma {:induction false} KillKidsRemain(s: State, p: Pid, h: seq<nat>, x: Tid)
    requires CoreInv(s) && Service(s.current) && Heights(s.st.pcb, h) && p < |h| && Q(s.st.q, PThreads(p)) == []
    ensures Remains(s.st, KillKids(s, Q(s.st.q, PChildren(p)), h, h[p]).st, x, None)
    decreases h[p], 0, |Q(s.st.q, PChildren(p))|
  {
    hide StoreInv, SchedAgree, NoLostWakeup, Reaped, KillTree, Heights, Under, Within, Remains;
    var cs := Q(s.st.q, PChildren(p));
    if cs == [] {
      RemainsSelf(s.st, x, None);
    } else {
      var c := PidOf(cs[0]);
      FirstChild(s.st, p, h);
      var s1 := KillTree(s, c, None, h);
      KillTreeKeeps(s, c, None, h);
      KillTreeRemains(s, c, None, h, x);
      FirstChildGone(s, s1, p, h);
      StillNoThreads(s, s1, p);
      ReapedFrame(s, s1);
      HeightsMono(s.st.pcb, s1.st.pcb, h);
      KillKidsRemain(s1, p, h, x);
      var r := KillKids(s1, cs[1..], h, h[p]);
      assert r == KillKids(s, cs, h, h[p]);
      RemainsTrans(s.st, s1.st, r.st, x, None, None);
    }
  }

  lemma EndProcessRemains(s: State, a: Tid, p: Pid, x: Tid)
    requires CoreInv(s) && Service(s.current) && ProcOf(s, a) == Some(p)
    ensures Remains(s.st, TerminateProcess(s, a).st, x, Some(a))
  {
    hide Shape, Sep, ThreadsAgree, ProcsAgree, Tree, MsgsAgree, SchedAgree, NoLostWakeup, KillTree, Remains;
    assert Allocated(s.st.pcb, p);
    HeightsExist(s, p);
    KillTreeRemains(s, p, Some(a), HeightsOf(s.st.pcb), x);
  }

  /** The service as a whole: a request of a thread that is gone stays behind exactly when the thread had more queued
      than the one that is cleaned, which is cleaned only for a thread blocked on the SSI that is not the applicant. */
  lemma ProcessStaleExactlyWhen(s: State, a: Tid, p: Pid, x: Tid)
    requires CoreInv(s) && Service(s.current) && ProcOf(s, a) == Some(p) && NoSsiMgr(s.st, x)
    ensures var r := TerminateProcess(s, a).st;
            if Live(r.tcb, x) then Pending(r, x, SSI) == Pending(s.st, x, SSI)
            else Pending(r, x, SSI) != []
                 <==> |Pending(s.st, x, SSI)| > if x != a && Waits(s.st.tcb, x) then 1 else 0
  {
    hide CoreInv, TerminateProcess, Pending, NoSsiMgr;
    EndProcessRemains(s, a, p, x);
  }

  lemma SendMode(s: State, v: Value)
    requires s.current.Some?
    ensures var r := SysSend(s, SSI, v).0; r.mode == s.mode && r.current == s.current
  {
    SendFrame(s, SSI, s.current.value, v);
  }

  lemma QueuedAtSsi(s: State, v: Value)
    requires CoreInv(s) && UserRuns(s) && T(s.st.tcb, SSI).status == Ready && Q(s.st.q, FreeMsgs) != []
    ensures var r := SysSend(s, SSI, v).0; var t := s.current.value;
            Pending(r.st, t, SSI) == Pending(s.st, t, SSI) + [v] && r.st.tcb == s.st.tcb
  {
    hide CoreInv, Pending, Resume;
    SendFifo(s, SSI, s.current.value, v, s.current.value, SSI);
    assert Send(s, SSI, s.current.value, v).1;
  }

  lemma TickStatus(s: State, t: Tid)
    requires CoreInv(s) && T(s.st.tcb, t).status == Ready
    ensures T(Timer(s).st.tcb, t).status == Ready
  {
    hide CoreInv, Unlink;
    if s.current.Some? { PutT(s.st.tcb, s.current.value, T(s.st.tcb, s.current.value).(regs := s.cpu)); }
  }
}
