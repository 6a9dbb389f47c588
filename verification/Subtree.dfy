/** Terminating a process removes exactly its subtree (src/SSI/services/terminate_process.c). */
module Subtree {
  import opened Types
  import opened Seqs
  import opened Links
  import opened Store
  import opened Kernel
  import opened Invariant
  import opened Preserve
  import opened Lifecycle
  import opened Termination
  import opened Mail
  import opened Reap

  // ----- One victim -----

  /** Removing a stale request touches nothing but the messages of `t`. */
  ghost predicate Uncluttered(st: Store, r: Store, t: Tid) {
    && r == st.(q := r.q, msg := r.msg) && |r.msg| == |st.msg|
    && (forall k: Node {:trigger Q(r.q, k)} :: !k.TMsgq? && !k.FreeMsgs? ==> Q(r.q, k) == Q(st.q, k))
    && (forall x: Tid, d: Tid {:trigger Pending(r, x, d)} :: x != t ==> Pending(r, x, d) == Pending(st, x, d))
  }

  lemma CleanFacts(s: State, t: Tid)
    requires CoreInv(s)
    ensures Uncluttered(s.st, CleanSysMsg(s.st, t), t) && CoreInv(s.(st := CleanSysMsg(s.st, t)))
  {
    hide SchedAgree, NoLostWakeup, ThreadsAgree, ThreadsClean, ProcsAgree, Tree, Owned, Shaped, Sep, MsgsAgree, Pending,
      MsgFree, CleanedBox;
    var st, box := s.st, CleanedBox(s.st, t);
    MsgGetKeeps(s, Some(t), box);
    if box.Some? {
      var f := FirstFrom(Q(st.q, TMsgq(box.value)), st.msg, Some(t));
      FirstFromIn(Q(st.q, TMsgq(box.value)), st.msg, Some(t));
      var r := CleanSysMsg(st, t);
      if f.Some? {
        assert r == MsgFree(st, f.value);
        forall k: Node | !k.TMsgq? && !k.FreeMsgs? ensures Q(r.q, k) == Q(st.q, k) { MsgFreeElsewhere(st, f.value, k); }
        MsgFreeRest(st, f.value);
      }
      forall x: Tid, d: Tid | x != t ensures Pending(r, x, d) == Pending(st, x, d) {
        MsgGetPending(st, Some(t), box.value, x, d);
        assert [] + Pending(r, x, d) == Pending(r, x, d);
      }
    }
  }

  lemma MsgFreeRest(st: Store, m: Mid)
    ensures var r := MsgFree(st, m); r == st.(q := r.q, msg := r.msg) && |r.msg| == |st.msg|
  {
  }

  lemma KilledReady(s: State, r: State, t: Tid)
    requires CoreInv(s) && Killed(s, r, t) && s.current != Some(t)
    ensures ReadyReaped(s.st.q, r.st.q, r.st.tcb)
  {
    hide Sep, ThreadsAgree, ThreadsClean, ProcsAgree, Tree, Owned, MsgsAgree, NoLostWakeup;
    var a, b := Q(s.st.q, ReadyQ), Q(s.st.q, TWait4me(t));
    forall n | n in a ensures n == TSched(TidOf(n)) && (Live(r.st.tcb, TidOf(n)) <==> TidOf(n) != t) {
      assert Fits(ReadyQ, n, |s.st.pcb|, |s.st.tcb|, |s.st.msg|);
      assert TSched(TidOf(n)) in Q(s.st.q, ReadyQ);
      assert T(s.st.tcb, TidOf(n)).status == Ready;
      assert T(r.st.tcb, TidOf(n)) == T(r.st.tcb, TidOf(n));
    }
    KeepLiveButOne(a, r.st.tcb, t);
    WithoutAppend(a, b, TSched(t));
  }

  lemma KilledThreadsReap(q: Lists, tcb: seq<Tcb>, tcb': seq<Tcb>, current: Option<Tid>, t: Tid)
    requires SchedAgree(q, tcb, current) && KilledThreads(q, tcb, tcb', t) && Live(tcb, t)
    ensures ThreadsReaped(tcb, tcb') && (forall u: Tid :: u != t ==> (Live(tcb', u) <==> Live(tcb, u)))
  {
    forall u: Tid | u != t ensures Live(tcb', u) <==> Live(tcb, u) {
      assert T(tcb', u) == T(tcb', u);
      assert TSched(u) in Q(q, TWait4me(t)) ==> T(tcb, u).status == W4Msg;
    }
    forall u: Tid | Live(tcb', u) ensures Live(tcb, u) && T(tcb', u) == Survived(T(tcb, u), tcb, tcb') {
      var w := T(tcb, u).wait;
      assert TSched(u) in Q(q, TWait4me(t)) <==> T(tcb, u).status == W4Msg && w == Some(t);
    }
  }

  lemma KidsSame(q: Lists, r: Lists, pcb: seq<Pcb>, np: nat, nt: nat, nm: nat)
    requires ProcsAgree(q, pcb) && Shaped(q, np, nt, nm)
    requires forall p: Pid {:trigger Q(r, PChildren(p))} :: Q(r, PChildren(p)) == Q(q, PChildren(p))
    ensures KidsReaped(q, r, pcb)
  {
    forall p: Pid ensures Q(r, PChildren(p)) == KeepKids(Q(q, PChildren(p)), pcb) {
      forall n | n in Q(q, PChildren(p)) ensures P(pcb, PidOf(n)).parent.Some? {
        assert Fits(PChildren(p), n, np, nt, nm);
        assert PSiblings(PidOf(n)) in Q(q, PChildren(p));
      }
      KeepKidsAll(Q(q, PChildren(p)), pcb);
    }
  }

  lemma KilledMail(s: State, r: State, t: Tid, x: Tid, d: Tid)
    requires Sep(s.st.q) && Shape(s.st) && Killed(s, r, t) && d != t
    ensures Pending(r.st, x, d) == Pending(s.st, x, d)
  {
    hide Shaped, KilledThreads;
    var box := Q(s.st.q, TMsgq(d));
    BoxFits(s.st, d);
    assert Q(r.st.q, TMsgq(d)) == box;
    forall n | n in box ensures M(r.st.msg, MidOf(n)) == M(s.st.msg, MidOf(n)) {
      assert n == MNext(MidOf(n));
      assert n !in Q(s.st.q, TMsgq(t));
    }
    hide KilledLists, Sep;
    FromFrame(box, s.st.msg, r.st.msg, x);
  }

  /** The effect of killing one victim on the rest. */
  ghost predicate OneDown(s: State, r: State, t: Tid) {
    && r.st.pcb == s.st.pcb
    && !Live(r.st.tcb, t) && (forall u: Tid :: u != t ==> (Live(r.st.tcb, u) <==> Live(s.st.tcb, u)))
    && (forall p: Pid {:trigger Q(r.st.q, PThreads(p))} :: Q(r.st.q, PThreads(p)) == Without(Q(s.st.q, PThreads(p)), TNext(t)))
    && (forall p: Pid {:trigger Q(r.st.q, PChildren(p))} :: Q(r.st.q, PChildren(p)) == Q(s.st.q, PChildren(p)))
  }

  lemma KillReaps(s: State, t: Tid)
    requires CoreInv(s) && 1 <= t && Live(s.st.tcb, t) && s.current != Some(t)
    ensures var r := KillThread(s, t); CoreInv(r) && Reaped(s, r) && OneDown(s, r, t)
  {
    hide KillThread, Drain, Wake, ThreadFree, Shaped, Sep, ThreadsAgree, ThreadsClean, ProcsAgree, Tree, Owned,
      MsgsAgree, SchedAgree, NoLostWakeup, Pending, ReadyReaped, KidsReaped, ThreadsReaped;
    KillKeeps(s, t);
    var r := KillThread(s, t);
    KilledReady(s, r, t);
    KilledThreadsReap(s.st.q, s.st.tcb, r.st.tcb, s.current, t);
    KilledCells(s, t);
    hide CellsReaped;
    KidsSame(s.st.q, r.st.q, s.st.pcb, |s.st.pcb|, |s.st.tcb|, |s.st.msg|);
    forall x: Tid, d: Tid | Live(r.st.tcb, x) && Live(r.st.tcb, d) ensures Pending(r.st, x, d) == Pending(s.st, x, d) {
      KilledMail(s, r, t, x, d);
    }
    hide KilledThreads;
  }

  lemma KilledCells(s: State, t: Tid)
    requires CoreInv(s) && 1 <= t && Live(s.st.tcb, t) && s.current != Some(t)
    ensures CellsReaped(s.st.tcb, KillThread(s, t).st.tcb, s.mem, KillThread(s, t).mem)
  {
    hide CoreInv, Drain, Wake, KilledLists, KilledThreads, CellsReaped;
    var d, r := s.(st := Drain(s.st, t)), KillThread(s, t);
    KillKeeps(s, t);
    DrainKeeps(s, t);
    WakeCells(d, t);
    assert Q(d.st.q, TWait4me(t)) == Q(s.st.q, TWait4me(t)) && d.st.tcb == s.st.tcb;
    assert SchedAgree(s.st.q, s.st.tcb, s.current) && Shape(s.st) by { ShapeOf(s); SchedOf(s); }
    ClearedOrphans(s, r.st.tcb, r.mem, t);
  }

  lemma SchedOf(s: State)
    requires CoreInv(s)
    ensures SchedAgree(s.st.q, s.st.tcb, s.current)
  {
  }

  lemma ClearedOrphans(s: State, tcb': seq<Tcb>, mem': map<nat, Value>, t: Tid)
    requires Shape(s.st) && SchedAgree(s.st.q, s.st.tcb, s.current) && Live(s.st.tcb, t)
    requires KilledThreads(s.st.q, s.st.tcb, tcb', t) && CellsCleared(Q(s.st.q, TWait4me(t)), s.st.tcb, s.mem, mem')
    ensures CellsReaped(s.st.tcb, tcb', s.mem, mem')
  {
    var q, tcb, ws := s.st.q, s.st.tcb, Q(s.st.q, TWait4me(t));
    forall u: Tid ensures Orphan(tcb, tcb', u) <==> TSched(u) in ws {
      KilledThreadsReap(q, tcb, tcb', s.current, t);
      assert TSched(u) in ws <==> T(tcb, u).status == W4Msg && T(tcb, u).wait == Some(t);
    }
    forall n | n in ws ensures n == TSched(TidOf(n)) {
      assert Fits(TWait4me(t), n, |s.st.pcb|, |tcb|, |s.st.msg|);
    }
    hide KilledThreads, SchedAgree, Orphan, Shape;
    forall a: nat ensures SameCell(s.mem, mem', a) || (Nulled(mem', a) && OrphanCell(tcb, tcb', a)) {
      if !SameCell(s.mem, mem', a) {
        assert a in mem';
        var n :| n in ws && T(tcb, TidOf(n)).regs.a3 == a;
        assert Orphan(tcb, tcb', TidOf(n));
      }
    }
    forall u: Tid | Orphan(tcb, tcb', u) ensures Nulled(mem', T(tcb, u).regs.a3) {
      assert TSched(u) in ws;
      assert TidOf(TSched(u)) == u;
    }
  }

  lemma VictimReaps(s: State, t: Tid, applicant: Option<Tid>)
    requires CoreInv(s) && 1 <= t && Live(s.st.tcb, t) && s.current != Some(t)
    ensures var r := KillVictim(s, t, applicant); CoreInv(r) && Reaped(s, r) && OneDown(s, r, t)
  {
    hide CoreInv, KillThread, Pending, CleanSysMsg, ThreadsReaped, Q, Without;
    CleanFacts(s, t);
    var s1 := s.(st := CleanSysMsg(s.st, t));
    KillReaps(s, t);
    KillReaps(s1, t);
    var r := KillThread(s1, t);
    assert Q(s1.st.q, ReadyQ) == Q(s.st.q, ReadyQ) && Q(s1.st.q, FreeThreads) == Q(s.st.q, FreeThreads);
    forall p: Pid ensures Q(s1.st.q, PChildren(p)) == Q(s.st.q, PChildren(p)) {}
    forall p: Pid ensures Q(r.st.q, PThreads(p)) == Without(Q(s.st.q, PThreads(p)), TNext(t)) {
      assert Q(s1.st.q, PThreads(p)) == Q(s.st.q, PThreads(p));
    }
    forall x: Tid, d: Tid | Live(r.st.tcb, x) && Live(r.st.tcb, d) ensures Pending(r.st, x, d) == Pending(s.st, x, d) {
      assert Pending(s1.st, x, d) == Pending(s.st, x, d);
    }
    forall p: Pid ensures Q(r.st.q, PChildren(p)) == KeepKids(Q(s.st.q, PChildren(p)), r.st.pcb) {
      assert Q(s1.st.q, PChildren(p)) == Q(s.st.q, PChildren(p));
    }
    forall p: Pid ensures Q(r.st.q, PChildren(p)) == Q(s.st.q, PChildren(p)) {
      assert Q(s1.st.q, PChildren(p)) == Q(s.st.q, PChildren(p));
    }
  }

  // ----- Ancestors -----

  /** The ancestor `k` levels above `x`. */
  ghost function Up(pcb: seq<Pcb>, x: Pid, k: nat): Option<Pid>
    decreases k
  {
    if k == 0 then Some(x)
    else if P(pcb, x).parent.None? then None
    else Up(pcb, P(pcb, x).parent.value, k - 1)
  }

  /** `x` is `p` or one of its descendants. */
  ghost predicate Under(pcb: seq<Pcb>, x: Pid, p: Pid) { exists k: nat :: Up(pcb, x, k) == Some(p) }

  lemma {:induction false} UpMono(pcb: seq<Pcb>, pcb': seq<Pcb>, x: Pid, k: nat)
    requires ProcsReaped(pcb, pcb') && Up(pcb', x, k).Some?
    ensures Up(pcb, x, k) == Up(pcb', x, k)
    decreases k
  {
    if k > 0 {
      assert P(pcb', x) == P(pcb, x);
      UpMono(pcb, pcb', P(pcb, x).parent.value, k - 1);
    }
  }

  lemma UnderMono(pcb: seq<Pcb>, pcb': seq<Pcb>, x: Pid, p: Pid)
    requires ProcsReaped(pcb, pcb') && Under(pcb', x, p)
    ensures Under(pcb, x, p)
  {
    var k: nat :| Up(pcb', x, k) == Some(p);
    UpMono(pcb, pcb', x, k);
  }

  lemma {:induction false} UpNext(pcb: seq<Pcb>, x: Pid, k: nat, c: Pid)
    requires Up(pcb, x, k) == Some(c)
    ensures Up(pcb, x, k + 1) == P(pcb, c).parent
    decreases k
  {
    if k > 0 { UpNext(pcb, P(pcb, x).parent.value, k - 1, c); }
  }

  lemma UnderParent(pcb: seq<Pcb>, x: Pid, c: Pid, p: Pid)
    requires Under(pcb, x, c) && P(pcb, c).parent == Some(p)
    ensures Under(pcb, x, p)
  {
    var k: nat :| Up(pcb, x, k) == Some(c);
    UpNext(pcb, x, k, c);
  }

  lemma {:induction false} UpHigher(pcb: seq<Pcb>, h: seq<nat>, x: Pid, k: nat)
    requires Heights(pcb, h) && Up(pcb, x, k).Some? && x < |h|
    ensures Up(pcb, x, k).value < |h| && h[x] <= h[Up(pcb, x, k).value]
    ensures k > 0 ==> h[x] < h[Up(pcb, x, k).value]
    decreases k
  {
    if k > 0 {
      assert pcb[x].parent == P(pcb, x).parent;
      UpHigher(pcb, h, P(pcb, x).parent.value, k - 1);
    }
  }

  /** Neither a sibling nor the parent of `c` is under `c`. */
  lemma SiblingNotUnder(pcb: seq<Pcb>, h: seq<nat>, c: Pid, p: Pid, x: Pid)
    requires Heights(pcb, h) && P(pcb, c).parent == Some(p)
    requires x == p || (x != c && P(pcb, x).parent == Some(p))
    ensures !Under(pcb, x, c)
  {
    assert pcb[c].parent == Some(p);
    if Under(pcb, x, c) {
      var k: nat :| Up(pcb, x, k) == Some(c);
      if x == p {
        UpHigher(pcb, h, p, k);
      } else {
        assert k > 0;
        UpHigher(pcb, h, p, k - 1);
      }
    }
  }

  // ----- The whole process -----

  /** Whatever disappears belongs to the subtree of `p`. */
  ghost predicate Within(s: State, r: State, p: Pid) {
    && (forall x: Pid {:trigger P(r.st.pcb, x)} ::
          P(s.st.pcb, x).parent.Some? && P(r.st.pcb, x).parent.None? ==> Under(s.st.pcb, x, p))
    && (forall t: Tid {:trigger T(r.st.tcb, t)} :: Live(s.st.tcb, t) && !Live(r.st.tcb, t) ==>
          T(s.st.tcb, t).pcb.Some? && Under(s.st.pcb, T(s.st.tcb, t).pcb.value, p))
  }

  /** Only the SSI runs services, and it belongs to no process. */
  ghost predicate Service(current: Option<Tid>) { current == None || current == Some(SSI) }

  lemma HeadOfThreads(st: Store, p: Pid)
    requires StoreInv(st) && Q(st.q, PThreads(p)) != []
    ensures var n := Q(st.q, PThreads(p))[0]; var t := TidOf(n);
            && n == TNext(t) && 1 <= t && Live(st.tcb, t) && T(st.tcb, t).pcb == Some(p)
            && Without(Q(st.q, PThreads(p)), n) == Q(st.q, PThreads(p))[1..]
  {
    hide ProcsAgree, Tree, Owned, MsgsAgree;
    var n := Q(st.q, PThreads(p))[0];
    assert n in Q(st.q, PThreads(p));
    assert Fits(PThreads(p), n, |st.pcb|, |st.tcb|, |st.msg|);
    assert TNext(n.t) in Q(st.q, PThreads(p));
    WithoutAt(Q(st.q, PThreads(p)), 0);
  }

  /** After the first loop no thread of `p` is left, and no other thread is gone. */
  ghost predicate ThreadsGone(s: State, r: State, p: Pid) {
    && CoreInv(r) && Reaped(s, r) && r.st.pcb == s.st.pcb
    && Q(r.st.q, PThreads(p)) == []
    && (forall c: Pid {:trigger Q(r.st.q, PChildren(c))} :: Q(r.st.q, PChildren(c)) == Q(s.st.q, PChildren(c)))
    && (forall t: Tid {:trigger T(r.st.tcb, t)} :: Live(s.st.tcb, t) && !Live(r.st.tcb, t) ==> T(s.st.tcb, t).pcb == Some(p))
  }

  lemma {:induction false} KillThreadsKeeps(s: State, p: Pid, applicant: Option<Tid>)
    requires CoreInv(s) && Service(s.current)
    ensures ThreadsGone(s, KillThreads(s, Q(s.st.q, PThreads(p)), applicant), p)
    decreases |Q(s.st.q, PThreads(p))|
  {
    hide SchedAgree, NoLostWakeup, StoreInv, Reaped, KillVictim;
    var ts := Q(s.st.q, PThreads(p));
    if ts == [] {
      ReapedSelf(s);
    } else {
      var t := TidOf(ts[0]);
      HeadOfThreads(s.st, p);
      VictimReaps(s, t, applicant);
      var s1 := KillVictim(s, t, applicant);
      assert s1.current == s.current by { ReapedFrame(s, s1); }
      assert Q(s1.st.q, PThreads(p)) == ts[1..];
      KillThreadsKeeps(s1, p, applicant);
      var r := KillThreads(s1, ts[1..], applicant);
      assert r == KillThreads(s, ts, applicant);
      ReapedTrans(s, s1, r);
      forall u: Tid | Live(s.st.tcb, u) && !Live(r.st.tcb, u) ensures T(s.st.tcb, u).pcb == Some(p) {
        if u != t { SameProcess(s, s1, u); }
      }
      forall c: Pid ensures Q(r.st.q, PChildren(c)) == Q(s.st.q, PChildren(c)) {
        assert Q(s1.st.q, PChildren(c)) == Q(s.st.q, PChildren(c));
      }
    }
  }

  lemma ReapedFrame(s: State, r: State)
    requires Reaped(s, r)
    ensures r.current == s.current && ProcsReaped(s.st.pcb, r.st.pcb)
  {
  }

  lemma SameProcess(s: State, r: State, t: Tid)
    requires Reaped(s, r) && Live(r.st.tcb, t)
    ensures Live(s.st.tcb, t) && T(r.st.tcb, t).pcb == T(s.st.tcb, t).pcb
  {
    assert T(r.st.tcb, t) == Survived(T(s.st.tcb, t), s.st.tcb, r.st.tcb);
  }

  lemma ReapedSelf(s: State)
    requires CoreInv(s)
    ensures Reaped(s, s)
  {
    hide Sep, ThreadsAgree, Tree, Owned, MsgsAgree, NoLostWakeup, Pending, ThreadsClean;
    forall n | n in Q(s.st.q, ReadyQ) ensures Live(s.st.tcb, TidOf(n)) {
      assert Fits(ReadyQ, n, |s.st.pcb|, |s.st.tcb|, |s.st.msg|);
      assert TSched(TidOf(n)) in Q(s.st.q, ReadyQ);
    }
    KeepLiveAll(Q(s.st.q, ReadyQ), s.st.tcb);
    KidsSame(s.st.q, s.st.q, s.st.pcb, |s.st.pcb|, |s.st.tcb|, |s.st.msg|);
  }

  lemma Joins(s: State, r: State, p: Pid, n: Node)
    requires CoreInv(s) && CoreInv(r) && Reaped(s, r) && n in Q(r.st.q, PThreads(p))
    ensures TNext(TidOf(n)) in Q(s.st.q, PThreads(p))
  {
    hide Sep, ProcsAgree, Tree, Owned, MsgsAgree, NoLostWakeup, SchedAgree, Pending, KidsReaped, ReadyReaped;
    assert Fits(PThreads(p), n, |r.st.pcb|, |r.st.tcb|, |r.st.msg|);
    assert TNext(n.t) in Q(r.st.q, PThreads(p));
    assert T(r.st.tcb, n.t).pcb == Some(p) && Live(r.st.tcb, n.t);
    SameProcess(s, r, n.t);
  }

  /** No thread joins a process while others are terminated. */
  lemma StillNoThreads(s: State, r: State, p: Pid)
    requires CoreInv(s) && CoreInv(r) && Reaped(s, r) && Q(s.st.q, PThreads(p)) == []
    ensures Q(r.st.q, PThreads(p)) == []
  {
    hide CoreInv, Reaped;
    forall n ensures n in Q(r.st.q, PThreads(p)) ==> TNext(TidOf(n)) in Q(s.st.q, PThreads(p)) {
      if n in Q(r.st.q, PThreads(p)) { Joins(s, r, p, n); }
    }
    HeadIn(Q(r.st.q, PThreads(p)));
  }

  // ----- Deleting a process -----

  lemma DeleteAt(st: Store, p: Pid, k: Node)
    requires Shape(st) && ProcDelete(st, p).1
    ensures Q(ProcDelete(st, p).0.q, k)
            == Without(Q(st.q, k), PSiblings(p)) + (if k == FREE_PROCS then [PSiblings(p)] else [])
  {
    assert IsHead(FREE_PROCS, |st.pcb|, |st.tcb|);
    MoveAt(st.q, PSiblings(p), FREE_PROCS, k);
  }

  lemma DeleteElsewhere(st: Store, p: Pid, k: Node)
    requires Shape(st) && ProcDelete(st, p).1 && !k.PChildren? && !k.PSiblings?
    ensures Q(ProcDelete(st, p).0.q, k) == Q(st.q, k)
  {
    DeleteAt(st, p, k);
    OtherKind(st.q, k, PSiblings(p), |st.pcb|, |st.tcb|, |st.msg|);
  }

  lemma DeleteKids(st: Store, p: Pid)
    requires Shape(st) && ProcsAgree(st.q, st.pcb) && ProcDelete(st, p).1
    ensures KidsReaped(st.q, ProcDelete(st, p).0.q, ProcDelete(st, p).0.pcb)
  {
    hide Shaped;
    var r := ProcDelete(st, p).0;
    PutP(st.pcb, p, Pcb(None, None, None, None));
    forall c: Pid ensures Q(r.q, PChildren(c)) == KeepKids(Q(st.q, PChildren(c)), r.pcb) {
      DeleteAt(st, p, PChildren(c));
      KidsFit(st, c);
      KeepKidsButOne(Q(st.q, PChildren(c)), r.pcb, p);
    }
  }

  lemma KidsFit(st: Store, c: Pid)
    requires Shape(st) && ProcsAgree(st.q, st.pcb)
    ensures forall n :: n in Q(st.q, PChildren(c)) ==>
              n == PSiblings(PidOf(n)) && 1 <= PidOf(n) && P(st.pcb, PidOf(n)).parent == Some(c)
  {
    forall n | n in Q(st.q, PChildren(c))
      ensures n == PSiblings(PidOf(n)) && 1 <= PidOf(n) && P(st.pcb, PidOf(n)).parent == Some(c)
    {
      assert Fits(PChildren(c), n, |st.pcb|, |st.tcb|, |st.msg|);
      assert PSiblings(PidOf(n)) in Q(st.q, PChildren(c));
    }
  }

  lemma DeleteReaps(s: State, p: Pid)
    requires CoreInv(s) && ProcDelete(s.st, p).1
    ensures var r := s.(st := ProcDelete(s.st, p).0);
            CoreInv(r) && Reaped(s, r) && r.st.tcb == s.st.tcb
            && Q(r.st.q, PThreads(p)) == [] && Q(r.st.q, PChildren(p)) == []
  {
    hide Sep, ThreadsAgree, ThreadsClean, Tree, Owned, MsgsAgree, SchedAgree, NoLostWakeup, ProcsAgree, Shaped, Move;
    var r := s.(st := ProcDelete(s.st, p).0);
    ProcDeleteKeeps(s, p);
    ReapedSelf(s);
    DeleteKids(s.st, p);
    DeleteElsewhere(s.st, p, ReadyQ);
    DeleteElsewhere(s.st, p, FreeThreads);
    DeleteElsewhere(s.st, p, PThreads(p));
    forall x: Tid, d: Tid ensures Pending(r.st, x, d) == Pending(s.st, x, d) { DeleteElsewhere(s.st, p, TMsgq(d)); }
    PutP(s.st.pcb, p, Pcb(None, None, None, None));
    assert Q(r.st.q, PChildren(p)) == KeepKids(Q(s.st.q, PChildren(p)), r.st.pcb);
    hide KidsReaped, Pending, Q;
  }

  // ----- The recursion -----

  ghost predicate KidsGone(s: State, r: State, p: Pid) {
    && CoreInv(r) && Reaped(s, r) && Within(s, r, p)
    && Q(r.st.q, PThreads(p)) == [] && Q(r.st.q, PChildren(p)) == []
    && P(r.st.pcb, p) == P(s.st.pcb, p)
  }

  ghost predicate TreeGone(s: State, r: State, p: Pid) {
    && CoreInv(r) && Reaped(s, r) && Within(s, r, p)
    && Q(r.st.q, PThreads(p)) == [] && Q(r.st.q, PChildren(p)) == []
    && P(r.st.pcb, p).parent.None?
  }

  lemma WithinTrans(a: State, b: State, c: State, p: Pid)
    requires Reaped(a, b) && Reaped(b, c) && Within(a, b, p) && Within(b, c, p)
    ensures Within(a, c, p)
  {
    ReapedFrame(a, b);
    forall x: Pid | P(a.st.pcb, x).parent.Some? && P(c.st.pcb, x).parent.None? ensures Under(a.st.pcb, x, p) {
      if P(b.st.pcb, x).parent.Some? { UnderMono(a.st.pcb, b.st.pcb, x, p); }
    }
    forall t: Tid | Live(a.st.tcb, t) && !Live(c.st.tcb, t)
      ensures T(a.st.tcb, t).pcb.Some? && Under(a.st.pcb, T(a.st.tcb, t).pcb.value, p)
    {
      if Live(b.st.tcb, t) {
        SameProcess(a, b, t);
        UnderMono(a.st.pcb, b.st.pcb, T(a.st.tcb, t).pcb.value, p);
      }
    }
  }

  lemma WithinChild(s: State, r: State, c: Pid, p: Pid)
    requires Within(s, r, c) && P(s.st.pcb, c).parent == Some(p)
    ensures Within(s, r, p)
  {
    hide Under;
    forall x: Pid | P(s.st.pcb, x).parent.Some? && P(r.st.pcb, x).parent.None? ensures Under(s.st.pcb, x, p) {
      UnderParent(s.st.pcb, x, c, p);
    }
    forall t: Tid | Live(s.st.tcb, t) && !Live(r.st.tcb, t)
      ensures T(s.st.tcb, t).pcb.Some? && Under(s.st.pcb, T(s.st.tcb, t).pcb.value, p)
    {
      assert T(r.st.tcb, t) == T(r.st.tcb, t);
      UnderParent(s.st.pcb, T(s.st.tcb, t).pcb.value, c, p);
    }
  }

  lemma HeightsMono(pcb: seq<Pcb>, pcb': seq<Pcb>, h: seq<nat>)
    requires Heights(pcb, h) && ProcsReaped(pcb, pcb')
    ensures Heights(pcb', h)
  {
    forall c | 0 <= c < |pcb'| && pcb'[c].parent.Some?
      ensures pcb'[c].parent.value < |h| && h[c] < h[pcb'[c].parent.value]
    {
      assert P(pcb', c) == P(pcb, c);
      assert pcb[c] == pcb'[c];
    }
  }

  /** Once the subtree of the first child is gone, the other children of `p` are left, in order. */
  lemma FirstChildGone(s: State, r: State, p: Pid, h: seq<nat>)
    requires CoreInv(s) && Heights(s.st.pcb, h) && Q(s.st.q, PChildren(p)) != []
    requires Reaped(s, r) && Within(s, r, PidOf(Q(s.st.q, PChildren(p))[0]))
    requires P(r.st.pcb, PidOf(Q(s.st.q, PChildren(p))[0])).parent.None?
    ensures Q(r.st.q, PChildren(p)) == Q(s.st.q, PChildren(p))[1..]
    ensures P(r.st.pcb, p) == P(s.st.pcb, p)
  {
    hide ThreadsAgree, ThreadsClean, Tree, Owned, MsgsAgree, SchedAgree, NoLostWakeup, Under, Heights, Pending;
    var cs := Q(s.st.q, PChildren(p));
    var c := PidOf(cs[0]);
    KidsFit(s.st, p);
    assert cs[0] in cs;
    ReapedFrame(s, r);
    forall n | n in cs ensures P(r.st.pcb, PidOf(n)).parent.Some? <==> PidOf(n) != c {
      if PidOf(n) != c { SiblingNotUnder(s.st.pcb, h, c, p, PidOf(n)); }
    }
    SiblingNotUnder(s.st.pcb, h, c, p, p);
    assert Q(r.st.q, PChildren(p)) == KeepKids(cs, r.st.pcb);
    KeepKidsButOne(cs, r.st.pcb, c);
    assert NoDup(cs);
    WithoutAt(cs, 0);
  }

  // ----- The induction -----

  lemma {:induction false} KillTreeKeeps(s: State, p: Pid, applicant: Option<Tid>, h: seq<nat>)
    requires CoreInv(s) && Service(s.current) && Allocated(s.st.pcb, p) && Heights(s.st.pcb, h) && p < |h|
    ensures TreeGone(s, KillTree(s, p, applicant, h), p)
    decreases h[p], 1, 0
  {
    hide CoreInv, Reaped, KillThreads, Heights, Under, ProcDelete;
    var s1 := KillThreads(s, Q(s.st.q, PThreads(p)), applicant);
    KillThreadsKeeps(s, p, applicant);
    ReapedFrame(s, s1);
    KillKidsKeeps(s1, p, h);
    var s2 := KillKids(s1, Q(s1.st.q, PChildren(p)), h, h[p]);
    ReapedTrans(s, s1, s2);
    SelfUnder(s.st.pcb, p);
    ThreadsWithin(s, s1, p);
    WithinTrans(s, s1, s2, p);
    DeleteLast(s, s2, p);
  }

  lemma SelfUnder(pcb: seq<Pcb>, p: Pid)
    ensures Under(pcb, p, p)
  {
    assert Up(pcb, p, 0) == Some(p);
  }

  lemma ThreadsWithin(s: State, r: State, p: Pid)
    requires ThreadsGone(s, r, p) && Under(s.st.pcb, p, p)
    ensures Within(s, r, p)
  {
    hide CoreInv, Reaped, Under, Q;
    forall t: Tid | Live(s.st.tcb, t) && !Live(r.st.tcb, t)
      ensures T(s.st.tcb, t).pcb.Some? && Under(s.st.pcb, T(s.st.tcb, t).pcb.value, p)
    {
      assert T(r.st.tcb, t) == T(r.st.tcb, t);
      assert T(s.st.tcb, t).pcb == Some(p);
    }
  }

  /** Everything below `p` is gone; `p` itself follows, unless it is the root. */
  lemma DeleteLast(s: State, s2: State, p: Pid)
    requires KidsGone(s, s2, p) && Under(s.st.pcb, p, p)
    ensures TreeGone(s, s2.(st := ProcDelete(s2.st, p).0), p)
  {
    hide CoreInv, Reaped, Under;
    if P(s2.st.pcb, p).parent.Some? {
      var r := s2.(st := ProcDelete(s2.st, p).0);
      DeleteReaps(s2, p);
      DeletedWithin(s, s2, r, p);
      ReapedTrans(s, s2, r);
    }
  }

  lemma DeletedWithin(s: State, s2: State, r: State, p: Pid)
    requires Within(s, s2, p) && Under(s.st.pcb, p, p) && ProcDelete(s2.st, p).1 && r.st == ProcDelete(s2.st, p).0
    ensures Within(s, r, p) && P(r.st.pcb, p).parent.None?
  {
    hide Under, Move;
    PutP(s2.st.pcb, p, Pcb(None, None, None, None));
    forall x: Pid | P(s.st.pcb, x).parent.Some? && P(r.st.pcb, x).parent.None? ensures Under(s.st.pcb, x, p) {
      assert x != p ==> P(s2.st.pcb, x) == P(r.st.pcb, x);
    }
    assert r.st.tcb == s2.st.tcb;
    forall t: Tid | Live(s.st.tcb, t) && !Live(r.st.tcb, t)
      ensures T(s.st.tcb, t).pcb.Some? && Under(s.st.pcb, T(s.st.tcb, t).pcb.value, p)
    {
      assert T(s2.st.tcb, t) == T(r.st.tcb, t);
    }
  }

  lemma {:induction false} KillKidsKeeps(s: State, p: Pid, h: seq<nat>)
    requires CoreInv(s) && Service(s.current) && Heights(s.st.pcb, h) && p < |h|
    requires Q(s.st.q, PThreads(p)) == []
    ensures KidsGone(s, KillKids(s, Q(s.st.q, PChildren(p)), h, h[p]), p)
    decreases h[p], 0, |Q(s.st.q, PChildren(p))|
  {
    hide StoreInv, SchedAgree, NoLostWakeup, Reaped, KillTree, Heights, Under, Within;
    var cs := Q(s.st.q, PChildren(p));
    if cs == [] {
      ReapedSelf(s);
      WithinSelf(s, p);
    } else {
      var c := PidOf(cs[0]);
      FirstChild(s.st, p, h);
      var s1 := KillTree(s, c, None, h);
      KillTreeKeeps(s, c, None, h);
      FirstChildGone(s, s1, p, h);
      StillNoThreads(s, s1, p);
      ReapedFrame(s, s1);
      HeightsMono(s.st.pcb, s1.st.pcb, h);
      KillKidsKeeps(s1, p, h);
      var r := KillKids(s1, cs[1..], h, h[p]);
      assert r == KillKids(s, cs, h, h[p]);
      ReapedTrans(s, s1, r);
      WithinChild(s, s1, c, p);
      WithinTrans(s, s1, r, p);
    }
  }

  lemma WithinSelf(s: State, p: Pid)
    ensures Within(s, s, p)
  {
  }

  lemma FirstChild(st: Store, p: Pid, h: seq<nat>)
    requires StoreInv(st) && Heights(st.pcb, h) && Q(st.q, PChildren(p)) != []
    ensures var c := PidOf(Q(st.q, PChildren(p))[0]);
            P(st.pcb, c).parent == Some(p) && c < |h| && p < |h| && h[c] < h[p] && Allocated(st.pcb, c)
  {
    hide ThreadsAgree, ThreadsClean, Tree, Owned, MsgsAgree, Sep;
    var cs := Q(st.q, PChildren(p));
    assert cs[0] in cs;
    KidsFit(st, p);
    assert st.pcb[PidOf(cs[0])].parent == Some(p);
  }

  // ----- Exactly the subtree -----

  /** What is left: the processes not under `p` (and the root), and the threads of none of the others. */
  ghost predicate ExactlySubtree(s: State, r: State, p: Pid) {
    && (forall x: Pid {:trigger Allocated(r.st.pcb, x)} ::
          Allocated(r.st.pcb, x) <==> Allocated(s.st.pcb, x) && (x == ROOT || !Under(s.st.pcb, x, p)))
    && (forall t: Tid {:trigger Live(r.st.tcb, t)} ::
          Live(r.st.tcb, t)
          <==> Live(s.st.tcb, t) && !(T(s.st.tcb, t).pcb.Some? && Under(s.st.pcb, T(s.st.tcb, t).pcb.value, p)))
  }

  lemma RootTop(pcb: seq<Pcb>, k: nat)
    requires P(pcb, ROOT).parent.None?
    ensures Up(pcb, ROOT, k) == if k == 0 then Some(ROOT) else None
  {
  }

  lemma {:induction false} DescendantGone(s: State, r: State, p: Pid, x: Pid, k: nat)
    requires Tree(s.st.pcb) && Tree(r.st.pcb) && ProcsReaped(s.st.pcb, r.st.pcb) && ProcsAgree(r.st.q, r.st.pcb)
    requires Q(r.st.q, PChildren(p)) == [] && P(r.st.pcb, p).parent.None?
    requires Up(s.st.pcb, x, k) == Some(p) && x != ROOT
    ensures !Allocated(r.st.pcb, x)
    decreases k
  {
    if k > 0 {
      assert P(r.st.pcb, x) == P(r.st.pcb, x);
      if P(r.st.pcb, x).parent.Some? {
        var y := P(s.st.pcb, x).parent.value;
        assert P(r.st.pcb, x).parent == Some(y);
        assert Allocated(r.st.pcb, y);
        Childless(r.st.q, r.st.pcb, p);
        assert y != p;
        RootTop(s.st.pcb, k - 1);
        DescendantGone(s, r, p, y, k - 1);
      }
    }
  }

  lemma TreeGoneExact(s: State, r: State, p: Pid)
    requires CoreInv(s) && TreeGone(s, r, p) && Allocated(s.st.pcb, p)
    ensures ExactlySubtree(s, r, p)
  {
    hide SchedAgree, NoLostWakeup, Shaped, Sep, MsgsAgree, Reaped, Under, Tree, ProcsAgree, ThreadsAgree;
    ReapedFrame(s, r);
    forall x: Pid
      ensures Allocated(r.st.pcb, x) <==> Allocated(s.st.pcb, x) && (x == ROOT || !Under(s.st.pcb, x, p))
    {
      if x != ROOT && Under(s.st.pcb, x, p) { UnderGone(s, r, p, x); }
      assert P(r.st.pcb, x) == P(r.st.pcb, x);
    }
    forall t: Tid
      ensures Live(r.st.tcb, t)
              <==> Live(s.st.tcb, t) && !(T(s.st.tcb, t).pcb.Some? && Under(s.st.pcb, T(s.st.tcb, t).pcb.value, p))
    {
      assert T(r.st.tcb, t) == T(r.st.tcb, t);
      if Live(r.st.tcb, t) { SurvivorOutside(s, r, p, t); }
    }
  }

  lemma UnderGone(s: State, r: State, p: Pid, x: Pid)
    requires CoreInv(s) && TreeGone(s, r, p) && x != ROOT && Under(s.st.pcb, x, p)
    ensures !Allocated(r.st.pcb, x)
  {
    hide SchedAgree, NoLostWakeup, Shaped, Sep, MsgsAgree, Reaped, Tree, ProcsAgree, ThreadsAgree, Within;
    ReapedFrame(s, r);
    var k: nat :| Up(s.st.pcb, x, k) == Some(p);
    DescendantGone(s, r, p, x, k);
  }

  lemma SurvivorOutside(s: State, r: State, p: Pid, t: Tid)
    requires CoreInv(s) && TreeGone(s, r, p) && Live(r.st.tcb, t)
    ensures Live(s.st.tcb, t) && !(T(s.st.tcb, t).pcb.Some? && Under(s.st.pcb, T(s.st.tcb, t).pcb.value, p))
  {
    hide SchedAgree, NoLostWakeup, Shaped, Sep, MsgsAgree, Reaped, ProcsAgree, Within, Heights;
    SameProcess(s, r, t);
    var o := T(s.st.tcb, t).pcb;
    if o.Some? {
      assert T(r.st.tcb, t).pcb == o;
      assert Allocated(r.st.pcb, o.value);
      assert TNext(t) in Q(r.st.q, PThreads(o.value));
      assert o.value != p;
      if o.value != ROOT {
        if Under(s.st.pcb, o.value, p) { UnderGone(s, r, p, o.value); }
      } else {
        forall k: nat ensures Up(s.st.pcb, ROOT, k) != Some(p) { RootTop(s.st.pcb, k); }
      }
    }
  }
}
