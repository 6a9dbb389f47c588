/** The verdicts of the scheduler when nobody is ready are sound (src/scheduler.c). */
module Idle {
  import opened Types
  import opened Links
  import opened Store
  import opened Kernel
  import opened Invariant
  import opened Machine
  import opened Endings
  import opened Conserve

  /** Every live thread is blocked, and no queued message is one it would accept. */
  ghost predicate AllBlocked(s: State) {
    forall t: Tid :: Live(s.st.tcb, t) ==>
      && T(s.st.tcb, t).status == W4Msg
      && forall n :: n in Q(s.st.q, TMsgq(t)) ==> !Matches(M(s.st.msg, MidOf(n)), T(s.st.tcb, t).wait)
  }

  lemma NobodyReady(s: State)
    requires CoreInv(s) && s.current.None? && ReadyList(s) == []
    ensures AllBlocked(s)
  {
    hide Shape, Sep, ThreadsAgree, ThreadsClean, ProcsAgree, Tree, Owned, MsgsAgree;
    forall t: Tid | Live(s.st.tcb, t) ensures T(s.st.tcb, t).status == W4Msg {
      assert TSched(t) !in Q(s.st.q, ReadyQ);
    }
  }

  /** The shutdown verdict is given exactly when no thread but the SSI exists; the deadlock verdict means that
      some thread exists, all are blocked for good, and no I/O was ever requested, or an exact multiple of the
      range of an unsigned int of them. */
  lemma VerdictsSound(s: State)
    requires CoreInv(s) && CountAgrees(s) && SoftAgrees(s) && s.current.None? && ReadyList(s) == []
    ensures var r := Dispatch(s);
            && r == s.(mode := r.mode) && AllBlocked(r)
            && (r.mode == Halted <==> forall t: Tid :: Live(s.st.tcb, t) ==> t == SSI)
            && (r.mode == Deadlocked <==> (exists t: Tid :: Live(s.st.tcb, t) && t != SSI) && s.ios % UINT_RANGE == 0)
            && (r.mode == Deadlocked && s.ios < UINT_RANGE ==> s.slot.None?)
  {
    hide CoreInv, CountAgrees;
    NobodyReady(s);
    CountOne(s);
    hide Live;
    assert s.ios < UINT_RANGE && s.ios % UINT_RANGE == 0 ==> s.ios == 0;
  }

  // ----- A verdict is final -----

  /** Nobody runs or is ready, and no terminal interrupt can make anybody ready. */
  ghost predicate Stuck(s: State) {
    && CoreInv(s) && s.current.None? && ReadyList(s) == []
    && (s.slot.Some? ==> !Live(s.st.tcb, s.slot.value))
  }

  /** A run of the hardware that goes on regardless of the verdict. */
  ghost predicate AbleRun(s: State, es: seq<Step>)
    decreases |es|
  {
    es == [] || (Able(s, es[0]) && AbleRun(Next(s, es[0]), es[1..]))
  }

  ghost function AbleAfter(s: State, es: seq<Step>): State
    requires AbleRun(s, es)
    decreases |es|
  {
    if es == [] then s else AbleAfter(Next(s, es[0]), es[1..])
  }

  lemma StuckStep(s: State, e: Step)
    requires Stuck(s) && Able(s, e)
    ensures (e == Tick || e == Terminal) && Next(s, e) == s.(mode := Next(s, e).mode) && Stuck(Next(s, e))
  {
    hide StoreInv, SchedAgree, NoLostWakeup;
  }

  /** Once stuck, no thread ever runs, sends, receives or is woken again, in whatever the hardware does next. */
  lemma {:induction false} StuckForever(s: State, es: seq<Step>)
    requires Stuck(s) && AbleRun(s, es)
    ensures var r := AbleAfter(s, es); Stuck(r) && r == s.(mode := r.mode) && AllBlocked(r)
    decreases |es|
  {
    hide CoreInv, Next, Able, AllBlocked;
    if es == [] {
      NobodyReady(s);
    } else {
      StuckStep(s, es[0]);
      StuckForever(Next(s, es[0]), es[1..]);
    }
  }

  /** The shutdown verdict is final. The deadlock verdict is wrong exactly when the terminal still owes an answer to
      a live thread and the count of I/O requests has wrapped to 0. */
  lemma VerdictIsFinal(s: State)
    requires CoreInv(s) && CountAgrees(s) && SoftAgrees(s) && s.current.None? && ReadyList(s) == []
    ensures Dispatch(s).mode == Halted ==> Stuck(Dispatch(s))
    ensures Dispatch(s).mode == Deadlocked && !Stuck(Dispatch(s))
            <==> s.slot.Some? && Live(s.st.tcb, s.slot.value) && s.ios % 0x1_0000_0000 == 0
  {
    hide StoreInv, SchedAgree, NoLostWakeup, CountAgrees;
    VerdictsSound(s);
  }

  /** A timer tick fails the assertion of the idle handler exactly when the processor waits for I/O. */
  lemma TickWhileWaiting(s: State)
    requires Inv(s) && Enabled(s, Tick)
    ensures Next(s, Tick).mode == Failed <==> s.mode == Waiting
  {
    hide CoreInv, NoEmpty;
    if s.current.Some? { PreemptReady(s); }
  }

  lemma PreemptReady(s: State)
    requires s.current.Some?
    ensures ReadyList(Preempt(s)) != []
  {
    assert TSched(s.current.value) in ReadyList(Preempt(s));
  }
}
