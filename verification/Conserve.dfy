/** Nothing is ever lost from a pool: every record is on exactly one list, and the list lengths add up. */
module Conserve {
  import opened Types
  import opened Seqs
  import opened Links
  import opened Store
  import opened Kernel
  import opened Invariant
  import opened Machine

  // ----- Exactly one list -----

  /** `n` is on a list, and on one only. */
  ghost predicate Homed(q: Lists, n: Node) {
    Linked(q, n) && forall h, k {:trigger n in Q(q, h), n in Q(q, k)} :: n in Q(q, h) && n in Q(q, k) ==> h == k
  }

  /** Every message, descriptor and process record is on exactly one of its lists; a thread is on a scheduling
      list exactly when it is live and not running. */
  lemma EveryRecordHomed(s: State)
    requires CoreInv(s)
    ensures forall m: Mid :: m < |s.st.msg| ==> Homed(s.st.q, MNext(m))
    ensures forall t: Tid :: 1 <= t < |s.st.tcb| ==> Homed(s.st.q, TNext(t))
    ensures forall c: Pid :: 1 <= c < |s.st.pcb| ==> Homed(s.st.q, PSiblings(c))
    ensures forall t: Tid :: if Live(s.st.tcb, t) && s.current != Some(t) then Homed(s.st.q, TSched(t))
                             else !Linked(s.st.q, TSched(t))
  {
    var q := s.st.q;
    forall m: Mid | m < |s.st.msg| ensures Homed(q, MNext(m)) { MsgHomed(s, m); }
    forall t: Tid | 1 <= t < |s.st.tcb| ensures Homed(q, TNext(t)) { ThreadHomed(s, t); }
    forall c: Pid | 1 <= c < |s.st.pcb| ensures Homed(q, PSiblings(c)) { ProcHomed(s, c); }
    forall t: Tid
      ensures if Live(s.st.tcb, t) && s.current != Some(t) then Homed(q, TSched(t)) else !Linked(q, TSched(t))
    {
      SchedHomed(s, t);
    }
  }

  lemma MsgHomed(s: State, m: Mid)
    requires CoreInv(s) && m < |s.st.msg|
    ensures Homed(s.st.q, MNext(m))
  {
    hide SchedAgree, NoLostWakeup, ThreadsAgree, ThreadsClean, ProcsAgree, Tree, Owned, Shaped;
    if M(s.st.msg, m).sender.None? {
      assert MNext(m) in Q(s.st.q, FreeMsgs);
    } else {
      assert Boxed(s.st.q, m);
    }
  }

  lemma ThreadHomed(s: State, t: Tid)
    requires CoreInv(s) && 1 <= t < |s.st.tcb|
    ensures Homed(s.st.q, TNext(t))
  {
    hide SchedAgree, NoLostWakeup, MsgsAgree, ThreadsClean, ProcsAgree, Tree, Owned, Shaped;
    if T(s.st.tcb, t).pcb.None? {
      assert TNext(t) in Q(s.st.q, FreeThreads);
    } else {
      assert TNext(t) in Q(s.st.q, PThreads(T(s.st.tcb, t).pcb.value));
    }
  }

  lemma ProcHomed(s: State, c: Pid)
    requires CoreInv(s) && 1 <= c < |s.st.pcb|
    ensures Homed(s.st.q, PSiblings(c))
  {
    hide SchedAgree, NoLostWakeup, MsgsAgree, ThreadsClean, ThreadsAgree, Tree, Owned, Shaped;
    if P(s.st.pcb, c).parent.None? {
      assert PSiblings(c) in Q(s.st.q, FREE_PROCS);
    } else {
      assert PSiblings(c) in Q(s.st.q, PChildren(P(s.st.pcb, c).parent.value));
    }
  }

  lemma SchedHomed(s: State, t: Tid)
    requires CoreInv(s)
    ensures if Live(s.st.tcb, t) && s.current != Some(t) then Homed(s.st.q, TSched(t))
            else !Linked(s.st.q, TSched(t))
  {
    hide NoLostWakeup, MsgsAgree, ThreadsAgree, ProcsAgree, Tree, Owned;
    var q, tc, n := s.st.q, T(s.st.tcb, t), TSched(t);
    if tc.status == Ready && s.current != Some(t) {
      assert n in Q(q, ReadyQ);
    } else if tc.status == W4Msg {
      assert if tc.wait.Some? then n in Q(q, TWait4me(tc.wait.value)) else n in Q(q, BlockedQ);
    } else {
      forall h ensures n !in Q(q, h) {
        assert n in Q(q, h) ==> h in q && Fits(h, n, |s.st.pcb|, |s.st.tcb|, |s.st.msg|);
      }
    }
  }

  // ----- The lengths add up -----

  /** The summed lengths of the lists at `head(0)`, ..., `head(n - 1)`. */
  ghost function Total(q: Lists, head: nat -> Node, n: nat): nat {
    if n == 0 then 0 else Total(q, head, n - 1) + |Q(q, head(n - 1))|
  }

  ghost function Members(q: Lists, head: nat -> Node, n: nat): set<Node> {
    if n == 0 then {} else Members(q, head, n - 1) + Elements(Q(q, head(n - 1)))
  }

  ghost function Elements(l: seq<Node>): set<Node> { set x | x in l }

  ghost function Range(mk: nat -> Node, lo: nat, hi: nat): set<Node>
    decreases hi
  {
    if hi <= lo then {} else Range(mk, lo, hi - 1) + {mk(hi - 1)}
  }

  ghost predicate OneToOne(f: nat -> Node) { forall i: nat, j: nat :: f(i) == f(j) ==> i == j }

  lemma {:induction false} ElementsCount(l: seq<Node>)
    requires NoDup(l)
    ensures |Elements(l)| == |l|
  {
    if l == [] {
      assert Elements(l) == {};
    } else {
      ElementsCount(l[1..]);
      assert l == [l[0]] + l[1..];
      assert Elements(l) == Elements(l[1..]) + {l[0]};
      assert l[0] !in l[1..];
    }
  }

  /** `x` is on one of the lists at `head(0)`, ..., `head(n - 1)`. */
  ghost predicate OnOne(q: Lists, head: nat -> Node, n: nat, x: Node) { exists i: nat :: i < n && x in Q(q, head(i)) }

  /** `x` is one of `mk(lo)`, ..., `mk(hi - 1)`. */
  ghost predicate Made(mk: nat -> Node, lo: nat, hi: nat, x: Node) { exists i: nat :: lo <= i < hi && mk(i) == x }

  lemma {:induction false} MembersIn(q: Lists, head: nat -> Node, n: nat, x: Node)
    ensures x in Members(q, head, n) <==> OnOne(q, head, n, x)
  {
    if n > 0 { MembersIn(q, head, n - 1, x); }
  }

  lemma NotTwice(q: Lists, head: nat -> Node, n: nat, x: Node)
    requires Sep(q) && OneToOne(head) && OnOne(q, head, n, x)
    ensures x !in Q(q, head(n))
  {
    var i: nat :| i < n && x in Q(q, head(i));
    assert head(i) != head(n);
  }

  lemma ListCount(q: Lists, h: Node)
    requires Sep(q)
    ensures |Elements(Q(q, h))| == |Q(q, h)|
  {
    assert NoDup(Q(q, h));
    ElementsCount(Q(q, h));
  }

  lemma DisjointCount(a: set<Node>, b: set<Node>)
    requires forall x :: x in a ==> x !in b
    ensures |a + b| == |a| + |b|
  {
    assert a * b == {};
  }

  lemma {:induction false} MembersCount(q: Lists, head: nat -> Node, n: nat)
    requires Sep(q) && OneToOne(head)
    ensures |Members(q, head, n)| == Total(q, head, n)
  {
    hide Sep, OneToOne, OnOne, Elements, Q;
    if n > 0 {
      MembersCount(q, head, n - 1);
      var a, b := Members(q, head, n - 1), Elements(Q(q, head(n - 1)));
      ListCount(q, head(n - 1));
      forall x | x in a ensures x !in b {
        MembersIn(q, head, n - 1, x);
        NotTwice(q, head, n - 1, x);
        ElementsOf(Q(q, head(n - 1)), x);
      }
      DisjointCount(a, b);
    }
  }

  lemma ElementsOf(l: seq<Node>, x: Node)
    ensures x in Elements(l) <==> x in l
  {
  }

  lemma {:induction false} RangeIn(mk: nat -> Node, lo: nat, hi: nat, x: Node)
    ensures x in Range(mk, lo, hi) <==> Made(mk, lo, hi, x)
    decreases hi
  {
    if lo < hi { RangeIn(mk, lo, hi - 1, x); }
  }

  lemma {:induction false} RangeCount(mk: nat -> Node, lo: nat, hi: nat)
    requires OneToOne(mk) && lo <= hi
    ensures |Range(mk, lo, hi)| == hi - lo
    decreases hi
  {
    if lo < hi {
      RangeCount(mk, lo, hi - 1);
      RangeIn(mk, lo, hi - 1, mk(hi - 1));
    }
  }

  lemma NotFreeToo(q: Lists, free: Node, head: nat -> Node, n: nat, x: Node)
    requires Sep(q) && (forall i: nat :: head(i) != free) && OnOne(q, head, n, x)
    ensures x !in Q(q, free)
  {
    var j: nat :| j < n && x in Q(q, head(j));
  }

  /** A pool whose records are each on the free list or on one of the lists `head(i)` adds up. */
  lemma PoolAddsUp(q: Lists, free: Node, head: nat -> Node, n: nat, mk: nat -> Node, lo: nat, hi: nat)
    requires Sep(q) && OneToOne(head) && OneToOne(mk) && lo <= hi && forall i: nat :: head(i) != free
    requires forall x :: Made(mk, lo, hi, x) <==> x in Q(q, free) || OnOne(q, head, n, x)
    ensures |Q(q, free)| + Total(q, head, n) == hi - lo
  {
    var f, u, all := Elements(Q(q, free)), Members(q, head, n), Range(mk, lo, hi);
    assert NoDup(Q(q, free));
    ElementsCount(Q(q, free));
    MembersCount(q, head, n);
    RangeCount(mk, lo, hi);
    forall x ensures (x in all <==> x in f || x in u) && !(x in f && x in u) {
      MembersIn(q, head, n, x);
      RangeIn(mk, lo, hi, x);
      if x in u { NotFreeToo(q, free, head, n, x); }
    }
    hide Sep, OneToOne, Made, OnOne;
    assert all == f + u;
    assert f * u == {};
  }

  /** Free slots and queued messages add up to the message pool. */
  lemma MessagesConserved(s: State)
    requires CoreInv(s)
    ensures |Q(s.st.q, FreeMsgs)| + Total(s.st.q, (d: nat) => TMsgq(d), |s.st.tcb|) == |s.st.msg|
  {
    hide SchedAgree, NoLostWakeup, ThreadsAgree, ThreadsClean, ProcsAgree, Tree, Owned, Sep, Shaped, MsgsAgree, Made, OnOne;
    forall x
      ensures Made((m: nat) => MNext(m), 0, |s.st.msg|, x)
              <==> x in Q(s.st.q, FreeMsgs) || OnOne(s.st.q, (d: nat) => TMsgq(d), |s.st.tcb|, x)
    {
      MsgSomewhere(s, x);
    }
    PoolAddsUp(s.st.q, FreeMsgs, (d: nat) => TMsgq(d), |s.st.tcb|, (m: nat) => MNext(m), 0, |s.st.msg|);
  }

  lemma MsgSomewhere(s: State, x: Node)
    requires CoreInv(s)
    ensures Made((m: nat) => MNext(m), 0, |s.st.msg|, x)
            <==> x in Q(s.st.q, FreeMsgs) || OnOne(s.st.q, (d: nat) => TMsgq(d), |s.st.tcb|, x)
  {
    hide SchedAgree, NoLostWakeup, ThreadsAgree, ThreadsClean, ProcsAgree, Tree, Owned, Sep;
    var q, head, mk := s.st.q, (d: nat) => TMsgq(d), (m: nat) => MNext(m);
    var np, nt, nm := |s.st.pcb|, |s.st.tcb|, |s.st.msg|;
    if Made(mk, 0, nm, x) {
      var m: nat :| 0 <= m < nm && mk(m) == x;
      if M(s.st.msg, m).sender.Some? {
        assert Boxed(q, m);
        var d: Tid :| MNext(m) in Q(q, TMsgq(d));
        assert TMsgq(d) in q && IsHead(TMsgq(d), np, nt);
        assert x in Q(q, head(d));
      } else {
        assert MNext(m) in Q(q, FreeMsgs);
      }
    }
    if x in Q(q, FreeMsgs) {
      assert Fits(FreeMsgs, x, np, nt, nm);
      assert mk(x.m) == x;
    }
    if OnOne(q, head, nt, x) {
      var d: nat :| d < nt && x in Q(q, head(d));
      assert Fits(TMsgq(d), x, np, nt, nm);
      assert mk(x.m) == x;
    }
  }

  /** Free and owned descriptors add up to the thread pool. */
  lemma ThreadsConserved(s: State)
    requires CoreInv(s)
    ensures |Q(s.st.q, FreeThreads)| + Total(s.st.q, (p: nat) => PThreads(p), |s.st.pcb|) == |s.st.tcb| - 1
  {
    forall x
      ensures Made((t: nat) => TNext(t), 1, |s.st.tcb|, x)
              <==> x in Q(s.st.q, FreeThreads) || OnOne(s.st.q, (p: nat) => PThreads(p), |s.st.pcb|, x)
    {
      ThreadSomewhere(s, x);
    }
    hide SchedAgree, NoLostWakeup, MsgsAgree, ProcsAgree, Tree, Sep, ThreadsAgree, Owned, Made, OnOne;
    PoolAddsUp(s.st.q, FreeThreads, (p: nat) => PThreads(p), |s.st.pcb|, (t: nat) => TNext(t), 1, |s.st.tcb|);
  }

  lemma ThreadSomewhere(s: State, x: Node)
    requires CoreInv(s)
    ensures Made((t: nat) => TNext(t), 1, |s.st.tcb|, x)
            <==> x in Q(s.st.q, FreeThreads) || OnOne(s.st.q, (p: nat) => PThreads(p), |s.st.pcb|, x)
  {
    hide SchedAgree, NoLostWakeup, MsgsAgree, ThreadsClean, ProcsAgree, Tree, Sep;
    var q, head, mk := s.st.q, (p: nat) => PThreads(p), (t: nat) => TNext(t);
    var np, nt, nm := |s.st.pcb|, |s.st.tcb|, |s.st.msg|;
    if Made(mk, 1, nt, x) {
      var t: nat :| 1 <= t < nt && mk(t) == x;
      if T(s.st.tcb, t).pcb.Some? {
        var p := T(s.st.tcb, t).pcb.value;
        assert Allocated(s.st.pcb, p);
        assert TNext(t) in Q(q, PThreads(p));
        assert x in Q(q, head(p));
      } else {
        assert TNext(t) in Q(q, FreeThreads);
      }
    }
    if x in Q(q, FreeThreads) {
      assert Fits(FreeThreads, x, np, nt, nm);
      assert mk(x.t) == x;
    }
    if OnOne(q, head, np, x) {
      var p: nat :| p < np && x in Q(q, head(p));
      assert Fits(PThreads(p), x, np, nt, nm);
      assert mk(x.t) == x;
    }
  }

  /** Free and allocated processes add up to the process pool, the root aside. */
  lemma ProcessesConserved(s: State)
    requires CoreInv(s)
    ensures |Q(s.st.q, FREE_PROCS)| + Total(s.st.q, (p: nat) => PChildren(p), |s.st.pcb|) == |s.st.pcb| - 1
  {
    forall x
      ensures Made((c: nat) => PSiblings(c), 1, |s.st.pcb|, x)
              <==> x in Q(s.st.q, FREE_PROCS) || OnOne(s.st.q, (p: nat) => PChildren(p), |s.st.pcb|, x)
    {
      ProcSomewhere(s, x);
    }
    hide SchedAgree, NoLostWakeup, MsgsAgree, ProcsAgree, Tree, Sep, ThreadsAgree, Owned, Made, OnOne;
    PoolAddsUp(s.st.q, FREE_PROCS, (p: nat) => PChildren(p), |s.st.pcb|, (c: nat) => PSiblings(c), 1, |s.st.pcb|);
  }

  lemma ProcSomewhere(s: State, x: Node)
    requires CoreInv(s)
    ensures Made((c: nat) => PSiblings(c), 1, |s.st.pcb|, x)
            <==> x in Q(s.st.q, FREE_PROCS) || OnOne(s.st.q, (p: nat) => PChildren(p), |s.st.pcb|, x)
  {
    hide SchedAgree, NoLostWakeup, MsgsAgree, ThreadsClean, ThreadsAgree, Owned, Sep;
    var q, head, mk := s.st.q, (p: nat) => PChildren(p), (c: nat) => PSiblings(c);
    var np, nt, nm := |s.st.pcb|, |s.st.tcb|, |s.st.msg|;
    if Made(mk, 1, np, x) {
      var c: nat :| 1 <= c < np && mk(c) == x;
      if P(s.st.pcb, c).parent.Some? {
        var p := P(s.st.pcb, c).parent.value;
        assert Allocated(s.st.pcb, p);
        assert PSiblings(c) in Q(q, PChildren(p));
        assert x in Q(q, head(p));
      } else {
        assert PSiblings(c) in Q(q, FREE_PROCS);
      }
    }
    if x in Q(q, FREE_PROCS) {
      assert Fits(FREE_PROCS, x, np, nt, nm);
      assert mk(x.p) == x;
    }
    if OnOne(q, head, np, x) {
      var p: nat :| p < np && x in Q(q, head(p));
      assert Fits(PChildren(p), x, np, nt, nm);
      assert mk(x.p) == x;
    }
  }

  // ----- thread_count -----

  /** The descriptors in use, as their links. */
  ghost function InUse(tcb: seq<Tcb>): set<Node> { set t: Tid | 1 <= t < |tcb| && Live(tcb, t) :: TNext(t) }

  lemma UsedOrFree(s: State, x: Node)
    requires CoreInv(s)
    ensures Made((t: nat) => TNext(t), 1, |s.st.tcb|, x) <==> x in Q(s.st.q, FreeThreads) || x in InUse(s.st.tcb)
    ensures !(x in Q(s.st.q, FreeThreads) && x in InUse(s.st.tcb))
  {
    hide SchedAgree, NoLostWakeup, MsgsAgree, ProcsAgree, Tree, Owned, Sep;
    var q, mk, nt := s.st.q, (t: nat) => TNext(t), |s.st.tcb|;
    if Made(mk, 1, nt, x) {
      var t: nat :| 1 <= t < nt && mk(t) == x;
      assert TNext(t) in Q(q, FreeThreads) <==> T(s.st.tcb, t).pcb == None;
    }
    if x in Q(q, FreeThreads) {
      assert Fits(FreeThreads, x, |s.st.pcb|, nt, |s.st.msg|);
      assert TNext(x.t) in Q(q, FreeThreads);
      assert mk(x.t) == x;
    }
    if x in InUse(s.st.tcb) { assert mk(x.t) == x; }
  }

  /** `thread_count` is one (the SSI) more than the number of descriptors in use. */
  lemma CountIsLive(s: State)
    requires CoreInv(s) && CountAgrees(s)
    ensures s.count == 1 + |InUse(s.st.tcb)|
  {
    hide ThreadsAgree, ThreadsClean, SchedAgree, NoLostWakeup, MsgsAgree, ProcsAgree, Tree, Owned, Made, InUse;
    var mk := (t: nat) => TNext(t);
    var free, used, all := Elements(Q(s.st.q, FreeThreads)), InUse(s.st.tcb), Range(mk, 1, |s.st.tcb|);
    assert NoDup(Q(s.st.q, FreeThreads));
    ElementsCount(Q(s.st.q, FreeThreads));
    RangeCount(mk, 1, |s.st.tcb|);
    forall x ensures (x in all <==> x in free || x in used) && !(x in free && x in used) {
      UsedOrFree(s, x);
      RangeIn(mk, 1, |s.st.tcb|, x);
    }
    hide Sep, Shaped;
    assert all == free + used;
    assert free * used == {};
  }

  /** `thread_count` is 1 exactly when no thread but the SSI is live. */
  lemma CountOne(s: State)
    requires CoreInv(s) && CountAgrees(s)
    ensures s.count == 1 <==> forall t: Tid :: Live(s.st.tcb, t) ==> t == SSI
  {
    hide CoreInv;
    CountIsLive(s);
    var used := InUse(s.st.tcb);
    if used == {} {
      forall t: Tid | Live(s.st.tcb, t) ensures t == SSI { assert TNext(t) !in used; }
    } else {
      var x :| x in used;
      assert Live(s.st.tcb, x.t) && x.t != SSI;
    }
  }
}
