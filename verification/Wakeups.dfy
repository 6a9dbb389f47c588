/** In which order a termination wakes the threads that waited for its victims. */
module Wakeups {
  import opened Types
  import opened Seqs
  import opened Links
  import opened Store
  import opened Kernel
  import opened Invariant
  import opened Preserve
  import opened Termination
  import opened Reap
  import opened Subtree
  import opened Endings

  /** The threads waiting for the members of `vs`, group by group. */
  ghost function Waiters(q: Lists, vs: seq<Tid>): seq<Node> {
    if vs == [] then [] else Q(q, TWait4me(vs[0])) + Waiters(q, vs[1..])
  }

  lemma {:induction false} WaitersAppend(q: Lists, a: seq<Tid>, b: seq<Tid>)
    ensures Waiters(q, a + b) == Waiters(q, a) + Waiters(q, b)
  {
    if a == [] {
      assert a + b == b;
    } else {
      assert (a + b)[0] == a[0] && (a + b)[1..] == a[1..] + b;
      WaitersAppend(q, a[1..], b);
    }
  }

  /** The threads `vs`, and no others, are gone. The ready queue is the old one with the threads that waited for them
      behind it, in that order, less those that are gone themselves. */
  ghost predicate Woke(st: Store, r: Store, vs: seq<Tid>) {
    && Q(r.q, ReadyQ) == KeepLive(Q(st.q, ReadyQ) + Waiters(st.q, vs), r.tcb)
    && (forall u: Tid {:trigger Q(r.q, TWait4me(u))} ::
          u !in vs ==> Q(r.q, TWait4me(u)) == KeepLive(Q(st.q, TWait4me(u)), r.tcb))
    && (forall u: Tid {:trigger Live(r.tcb, u)} :: Live(r.tcb, u) <==> Live(st.tcb, u) && u !in vs)
    && (forall u: Tid {:trigger u in vs} :: u in vs ==> Live(st.tcb, u))
  }

  /** The groups of later victims have only lost threads that are gone. */
  lemma {:induction false} WaitersKept(a: Store, b: Store, first: seq<Tid>, vs: seq<Tid>)
    requires Woke(a, b, first) && forall u: Tid :: u in vs ==> u !in first
    ensures Waiters(b.q, vs) == KeepLive(Waiters(a.q, vs), b.tcb)
  {
    if vs != [] {
      assert vs[0] in vs && forall u: Tid :: u in vs[1..] ==> u in vs;
      WaitersKept(a, b, first, vs[1..]);
      KeepLiveAppend(Q(a.q, TWait4me(vs[0])), Waiters(a.q, vs[1..]), b.tcb);
    }
  }

  lemma WokeTrans(a: Store, b: Store, c: Store, first: seq<Tid>, second: seq<Tid>)
    requires Woke(a, b, first) && Woke(b, c, second)
    ensures Woke(a, c, first + second)
  {
    LiveTrans(a, b, c, first, second);
    ReadyTrans(a, b, c, first, second);
    forall u: Tid | u !in first + second ensures Q(c.q, TWait4me(u)) == KeepLive(Q(a.q, TWait4me(u)), c.tcb) {
      WaitTrans(a, b, c, first, second, u);
    }
    hide Live, KeepLive, Waiters, Q;
  }

  lemma LiveTrans(a: Store, b: Store, c: Store, first: seq<Tid>, second: seq<Tid>)
    requires Woke(a, b, first) && Woke(b, c, second)
    ensures forall u: Tid {:trigger Live(c.tcb, u)} :: Live(c.tcb, u) <==> Live(a.tcb, u) && u !in first + second
    ensures forall u: Tid :: u in first + second ==> Live(a.tcb, u)
    ensures forall u: Tid :: u in second ==> u !in first
    ensures forall u: Tid :: Live(c.tcb, u) ==> Live(b.tcb, u)
  {
    hide Live, KeepLive, Waiters, Q;
    forall u: Tid | u in second ensures Live(b.tcb, u) && Live(a.tcb, u) && u !in first {}
  }

  lemma ReadyTrans(a: Store, b: Store, c: Store, first: seq<Tid>, second: seq<Tid>)
    requires Woke(a, b, first) && Woke(b, c, second)
    ensures Q(c.q, ReadyQ) == KeepLive(Q(a.q, ReadyQ) + Waiters(a.q, first + second), c.tcb)
  {
    LiveTrans(a, b, c, first, second);
    WaitersKept(a, b, first, second);
    WaitersAppend(a.q, first, second);
    hide Live, KeepLive, Waiters, Q;
    Associates(Q(a.q, ReadyQ), Waiters(a.q, first), Waiters(a.q, second));
    var x := Q(a.q, ReadyQ) + Waiters(a.q, first);
    assert Q(b.q, ReadyQ) == KeepLive(x, b.tcb);
    FilterTwice(x, Waiters(a.q, second), b.tcb, c.tcb);
  }

  lemma Associates(a: seq<Node>, b: seq<Node>, c: seq<Node>)
    ensures a + (b + c) == (a + b) + c
  {
  }

  lemma FilterTwice(x: seq<Node>, y: seq<Node>, b: seq<Tcb>, c: seq<Tcb>)
    requires forall u: Tid :: Live(c, u) ==> Live(b, u)
    ensures KeepLive(KeepLive(x, b) + KeepLive(y, b), c) == KeepLive(x + y, c)
  {
    KeepLiveAppend(x, y, b);
    KeepLiveTwice(x + y, b, c);
  }

  lemma WaitTrans(a: Store, b: Store, c: Store, first: seq<Tid>, second: seq<Tid>, u: Tid)
    requires Woke(a, b, first) && Woke(b, c, second) && u !in first + second
    ensures Q(c.q, TWait4me(u)) == KeepLive(Q(a.q, TWait4me(u)), c.tcb)
  {
    LiveTrans(a, b, c, first, second);
    KeepLiveTwice(Q(a.q, TWait4me(u)), b.tcb, c.tcb);
    hide Live, KeepLive, Waiters, Q;
    assert Q(b.q, TWait4me(u)) == KeepLive(Q(a.q, TWait4me(u)), b.tcb);
  }

  /** Scheduling lists and threads are the same. */
  ghost predicate SameSched(st: Store, r: Store) {
    && r.tcb == st.tcb && Q(r.q, ReadyQ) == Q(st.q, ReadyQ)
    && forall u: Tid {:trigger Q(r.q, TWait4me(u))} :: Q(r.q, TWait4me(u)) == Q(st.q, TWait4me(u))
  }

  /** Members of a scheduling list are live threads. */
  lemma ListedLive(s: State, h: Node)
    requires CoreInv(s) && (h == ReadyQ || h.TWait4me?)
    ensures forall n :: n in Q(s.st.q, h) ==> n == TSched(TidOf(n)) && Live(s.st.tcb, TidOf(n))
  {
    hide NoLostWakeup, Sep, ThreadsAgree, ThreadsClean, ProcsAgree, Tree, Owned, MsgsAgree;
    forall n | n in Q(s.st.q, h) ensures n == TSched(TidOf(n)) && Live(s.st.tcb, TidOf(n)) {
      assert Fits(h, n, |s.st.pcb|, |s.st.tcb|, |s.st.msg|);
      assert TSched(TidOf(n)) in Q(s.st.q, h);
    }
  }

  lemma WokeNobody(s: State, r: Store)
    requires CoreInv(s) && SameSched(s.st, r)
    ensures Woke(s.st, r, [])
  {
    hide CoreInv, Live;
    ListedLive(s, ReadyQ);
    assert Q(s.st.q, ReadyQ) + [] == Q(s.st.q, ReadyQ);
    KeepLiveAll(Q(s.st.q, ReadyQ), r.tcb);
    forall u: Tid ensures KeepLive(Q(s.st.q, TWait4me(u)), r.tcb) == Q(s.st.q, TWait4me(u)) {
      ListedLive(s, TWait4me(u));
      KeepLiveAll(Q(s.st.q, TWait4me(u)), r.tcb);
    }
  }

  lemma KillWakes(s: State, t: Tid)
    requires CoreInv(s) && 1 <= t && Live(s.st.tcb, t) && s.current != Some(t)
    ensures Woke(s.st, KillThread(s, t).st, [t])
  {
    hide CoreInv, KillThread, Without, Reaped, KeepLive, Killed;
    KillReaps(s, t);
    var r := KillThread(s, t).st;
    KilledReadyQ(s, t);
    forall u: Tid | u !in [t] ensures Q(r.q, TWait4me(u)) == KeepLive(Q(s.st.q, TWait4me(u)), r.tcb) {
      KilledWaitQ(s, t, u);
    }
    hide Q, Waiters, Live;
  }

  lemma KilledReadyQ(s: State, t: Tid)
    requires CoreInv(s) && 1 <= t && Live(s.st.tcb, t) && s.current != Some(t)
    ensures var r := KillThread(s, t).st;
            Q(r.q, ReadyQ) == KeepLive(Q(s.st.q, ReadyQ) + Waiters(s.st.q, [t]), r.tcb)
  {
    hide CoreInv, KillThread, Without, KilledThreads, Reaped;
    KillKeeps(s, t);
    KillReaps(s, t);
    ListedLive(s, ReadyQ);
    ListedLive(s, TWait4me(t));
    assert Waiters(s.st.q, [t]) == Q(s.st.q, TWait4me(t)) by { assert Waiters(s.st.q, [t][1..]) == []; }
    hide Live, Q;
    KeepLiveButOne(Q(s.st.q, ReadyQ) + Q(s.st.q, TWait4me(t)), KillThread(s, t).st.tcb, t);
  }

  lemma KilledWaitQ(s: State, t: Tid, u: Tid)
    requires CoreInv(s) && 1 <= t && Live(s.st.tcb, t) && s.current != Some(t) && u != t
    ensures var r := KillThread(s, t).st; Q(r.q, TWait4me(u)) == KeepLive(Q(s.st.q, TWait4me(u)), r.tcb)
  {
    hide CoreInv, KillThread, Without, KilledThreads, Reaped;
    KillKeeps(s, t);
    KillReaps(s, t);
    ListedLive(s, TWait4me(u));
    hide Live, Q;
    KeepLiveButOne(Q(s.st.q, TWait4me(u)), KillThread(s, t).st.tcb, t);
  }

  lemma CleanSameSched(s: State, t: Tid)
    requires CoreInv(s)
    ensures SameSched(s.st, CleanSysMsg(s.st, t)) && CoreInv(s.(st := CleanSysMsg(s.st, t)))
  {
    hide CoreInv, CleanSysMsg;
    CleanFacts(s, t);
  }

  lemma VictimWakes(s: State, t: Tid, applicant: Option<Tid>)
    requires CoreInv(s) && 1 <= t && Live(s.st.tcb, t) && s.current != Some(t)
    ensures Woke(s.st, KillVictim(s, t, applicant).st, [t])
  {
    hide CoreInv, KillThread, CleanSysMsg, Woke;
    if applicant != Some(t) && T(s.st.tcb, t).status == W4Msg {
      var s1 := s.(st := CleanSysMsg(s.st, t));
      CleanSameSched(s, t);
      WokeNobody(s, s1.st);
      KillWakes(s1, t);
      WokeTrans(s.st, s1.st, KillThread(s1, t).st, [], [t]);
      assert [] + [t] == [t];
    } else {
      KillWakes(s, t);
    }
  }

  function Tids(ts: seq<Node>): seq<Tid> { if ts == [] then [] else [TidOf(ts[0])] + Tids(ts[1..]) }

  /** The victims of the first loop are the threads of the process, in the order of its list. */
  lemma {:induction false} KillThreadsWake(s: State, p: Pid, applicant: Option<Tid>)
    requires CoreInv(s) && Service(s.current)
    ensures Woke(s.st, KillThreads(s, Q(s.st.q, PThreads(p)), applicant).st, Tids(Q(s.st.q, PThreads(p))))
    decreases |Q(s.st.q, PThreads(p))|
  {
    hide SchedAgree, NoLostWakeup, StoreInv, Reaped, KillVictim, Woke;
    var ts := Q(s.st.q, PThreads(p));
    if ts == [] {
      WokeNobody(s, s.st);
    } else {
      var t := TidOf(ts[0]);
      HeadOfThreads(s.st, p);
      VictimReaps(s, t, applicant);
      VictimWakes(s, t, applicant);
      var s1 := KillVictim(s, t, applicant);
      assert s1.current == s.current by { ReapedFrame(s, s1); }
      assert Q(s1.st.q, PThreads(p)) == ts[1..];
      KillThreadsWake(s1, p, applicant);
      assert KillThreads(s1, ts[1..], applicant) == KillThreads(s, ts, applicant);
      WokeTrans(s.st, s1.st, KillThreads(s1, ts[1..], applicant).st, [t], Tids(ts[1..]));
    }
  }

  lemma DeleteWakes(s: State, p: Pid)
    requires CoreInv(s)
    ensures Woke(s.st, ProcDelete(s.st, p).0, [])
  {
    hide CoreInv, Shaped, Move;
    if ProcDelete(s.st, p).1 {
      ShapeOf(s);
      DeleteElsewhere(s.st, p, ReadyQ);
      forall u: Tid ensures Q(ProcDelete(s.st, p).0.q, TWait4me(u)) == Q(s.st.q, TWait4me(u)) {
        DeleteElsewhere(s.st, p, TWait4me(u));
      }
    }
    WokeNobody(s, ProcDelete(s.st, p).0);
  }

  /** The victims in the order in which they go: the threads of the process, then its subtrees one after the other. */
  ghost function Victims(s: State, p: Pid, applicant: Option<Tid>, h: seq<nat>): seq<Tid>
    requires p < |h|
    decreases h[p], 1, 0
  {
    var s1 := KillThreads(s, Q(s.st.q, PThreads(p)), applicant);
    Tids(Q(s.st.q, PThreads(p))) + KidVictims(s1, Q(s1.st.q, PChildren(p)), h, h[p])
  }

  ghost function KidVictims(s: State, cs: seq<Node>, h: seq<nat>, bound: nat): seq<Tid>
    decreases bound, 0, |cs|
  {
    if cs == [] then []
    else
      var c := PidOf(cs[0]);
      if c < |h| && h[c] < bound then Victims(s, c, None, h) + KidVictims(KillTree(s, c, None, h), cs[1..], h, bound)
      else []
  }

  lemma {:induction false} KillTreeWakes(s: State, p: Pid, applicant: Option<Tid>, h: seq<nat>)
    requires CoreInv(s) && Service(s.current) && Allocated(s.st.pcb, p) && Heights(s.st.pcb, h) && p < |h|
    ensures Woke(s.st, KillTree(s, p, applicant, h).st, Victims(s, p, applicant, h))
    decreases h[p], 1, 0
  {
    hide CoreInv, Reaped, KillThreads, Heights, Under, ProcDelete, Woke;
    var ts := Q(s.st.q, PThreads(p));
    var s1 := KillThreads(s, ts, applicant);
    KillThreadsKeeps(s, p, applicant);
    KillThreadsWake(s, p, applicant);
    ReapedFrame(s, s1);
    KillKidsKeeps(s1, p, h);
    KillKidsWake(s1, p, h);
    var kids := KidVictims(s1, Q(s1.st.q, PChildren(p)), h, h[p]);
    var s2 := KillKids(s1, Q(s1.st.q, PChildren(p)), h, h[p]);
    var r := ProcDelete(s2.st, p).0;
    DeleteWakes(s2, p);
    WokeTrans(s1.st, s2.st, r, kids, []);
    assert kids + [] == kids;
    WokeTrans(s.st, s1.st, r, Tids(ts), kids);
  }

  lemma {:induction false} KillKidsWake(s: State, p: Pid, h: seq<nat>)
    requires CoreInv(s) && Service(s.current) && Heights(s.st.pcb, h) && p < |h| && Q(s.st.q, PThreads(p)) == []
    ensures var cs := Q(s.st.q, PChildren(p));
            Woke(s.st, KillKids(s, cs, h, h[p]).st, KidVictims(s, cs, h, h[p]))
    decreases h[p], 0, |Q(s.st.q, PChildren(p))|
  {
    hide StoreInv, SchedAgree, NoLostWakeup, Reaped, KillTree, Heights, Under, Within, Woke;
    var cs := Q(s.st.q, PChildren(p));
    if cs == [] {
      WokeNobody(s, s.st);
    } else {
      var c := PidOf(cs[0]);
      FirstChild(s.st, p, h);
      var s1 := KillTree(s, c, None, h);
      KillTreeKeeps(s, c, None, h);
      KillTreeWakes(s, c, None, h);
      FirstChildGone(s, s1, p, h);
      StillNoThreads(s, s1, p);
      ReapedFrame(s, s1);
      HeightsMono(s.st.pcb, s1.st.pcb, h);
      KillKidsWake(s1, p, h);
      var r := KillKids(s1, cs[1..], h, h[p]);
      assert r == KillKids(s, cs, h, h[p]);
      WokeTrans(s.st, s1.st, r.st, Victims(s, c, None, h), KidVictims(s1, cs[1..], h, h[p]));
    }
  }

  /** The ready queue after the termination of a process: the old one, then those who waited for the first victim, for
      the second, and so on, each group in the order in which it waited, less whoever is gone. */
  lemma EndProcessOrder(s: State, a: Tid, p: Pid)
    requires CoreInv(s) && Service(s.current) && ProcOf(s, a) == Some(p)
    ensures p < |HeightsOf(s.st.pcb)|
    ensures var r := TerminateProcess(s, a); var vs := Victims(s, p, Some(a), HeightsOf(s.st.pcb));
            && Tids(Q(s.st.q, PThreads(p))) <= vs
            && (forall u: Tid :: u in vs <==> Live(s.st.tcb, u) && !Live(r.st.tcb, u))
            && Q(r.st.q, ReadyQ) == KeepLive(Q(s.st.q, ReadyQ) + Waiters(s.st.q, vs), r.st.tcb)
  {
    hide Shape, Sep, ThreadsAgree, ProcsAgree, Tree, MsgsAgree, SchedAgree, NoLostWakeup, KillTree;
    assert Allocated(s.st.pcb, p);
    HeightsExist(s, p);
    KillTreeWakes(s, p, Some(a), HeightsOf(s.st.pcb));
  }
}
