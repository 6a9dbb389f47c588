/** What a series of terminations may change: it only removes, and it wakes whoever waited. */
module Reap {
  import opened Types
  import opened Seqs
  import opened Links
  import opened Store
  import opened Kernel
  import opened Invariant
  import opened Termination
  import opened Mail

  // ----- Filters -----

  ghost function KeepLive(s: seq<Node>, tcb: seq<Tcb>): seq<Node> {
    if s == [] then []
    else if Live(tcb, TidOf(s[0])) then [s[0]] + KeepLive(s[1..], tcb)
    else KeepLive(s[1..], tcb)
  }

  ghost function KeepKids(s: seq<Node>, pcb: seq<Pcb>): seq<Node> {
    if s == [] then []
    else if P(pcb, PidOf(s[0])).parent.Some? then [s[0]] + KeepKids(s[1..], pcb)
    else KeepKids(s[1..], pcb)
  }

  lemma {:induction false} KeepLiveAppend(a: seq<Node>, b: seq<Node>, tcb: seq<Tcb>)
    ensures KeepLive(a + b, tcb) == KeepLive(a, tcb) + KeepLive(b, tcb)
  {
    if a == [] {
      assert a + b == b;
    } else {
      assert (a + b)[1..] == a[1..] + b && (a + b)[0] == a[0];
      KeepLiveAppend(a[1..], b, tcb);
    }
  }

  lemma {:induction false} KeepLiveTwice(s: seq<Node>, tcb: seq<Tcb>, tcb': seq<Tcb>)
    requires forall t: Tid :: Live(tcb', t) ==> Live(tcb, t)
    ensures KeepLive(KeepLive(s, tcb), tcb') == KeepLive(s, tcb')
  {
    if s != [] {
      KeepLiveTwice(s[1..], tcb, tcb');
      if Live(tcb, TidOf(s[0])) {
        assert KeepLive(s, tcb) == [s[0]] + KeepLive(s[1..], tcb);
        assert ([s[0]] + KeepLive(s[1..], tcb))[1..] == KeepLive(s[1..], tcb);
      }
    }
  }

  /** When `t` is the only member that is not live, the filter takes out `t`. */
  lemma {:induction false} KeepLiveButOne(s: seq<Node>, tcb: seq<Tcb>, t: Tid)
    requires forall n :: n in s ==> n == TSched(TidOf(n)) && (Live(tcb, TidOf(n)) <==> TidOf(n) != t)
    ensures KeepLive(s, tcb) == Without(s, TSched(t))
  {
    if s != [] {
      assert s[0] in s;
      assert forall n :: n in s[1..] ==> n in s;
      KeepLiveButOne(s[1..], tcb, t);
    }
  }

  lemma {:induction false} KeepLiveAll(s: seq<Node>, tcb: seq<Tcb>)
    requires forall n :: n in s ==> Live(tcb, TidOf(n))
    ensures KeepLive(s, tcb) == s
  {
    if s != [] {
      assert s[0] in s;
      assert forall n :: n in s[1..] ==> n in s;
      KeepLiveAll(s[1..], tcb);
    }
  }

  lemma {:induction false} KeepKidsTwice(s: seq<Node>, pcb: seq<Pcb>, pcb': seq<Pcb>)
    requires forall c: Pid :: P(pcb', c).parent.Some? ==> P(pcb, c).parent.Some?
    ensures KeepKids(KeepKids(s, pcb), pcb') == KeepKids(s, pcb')
  {
    if s != [] {
      KeepKidsTwice(s[1..], pcb, pcb');
      if P(pcb, PidOf(s[0])).parent.Some? {
        assert KeepKids(s, pcb) == [s[0]] + KeepKids(s[1..], pcb);
        assert ([s[0]] + KeepKids(s[1..], pcb))[1..] == KeepKids(s[1..], pcb);
      }
    }
  }

  /** When `p` is the only member that is free, the filter takes out `p`. */
  lemma {:induction false} KeepKidsButOne(s: seq<Node>, pcb: seq<Pcb>, p: Pid)
    requires forall n :: n in s ==> n == PSiblings(PidOf(n)) && (P(pcb, PidOf(n)).parent.Some? <==> PidOf(n) != p)
    ensures KeepKids(s, pcb) == Without(s, PSiblings(p))
  {
    if s != [] {
      assert s[0] in s;
      assert forall n :: n in s[1..] ==> n in s;
      KeepKidsButOne(s[1..], pcb, p);
    }
  }

  lemma {:induction false} KeepKidsAll(s: seq<Node>, pcb: seq<Pcb>)
    requires forall n :: n in s ==> P(pcb, PidOf(n)).parent.Some?
    ensures KeepKids(s, pcb) == s
  {
    if s != [] {
      assert s[0] in s;
      assert forall n :: n in s[1..] ==> n in s;
      KeepKidsAll(s[1..], pcb);
    }
  }

  // ----- The relation -----

  /** Processes are unchanged or freed. */
  ghost predicate ProcsReaped(pcb: seq<Pcb>, pcb': seq<Pcb>) {
    && |pcb'| == |pcb|
    && forall x: Pid {:trigger P(pcb', x)} ::
      P(pcb', x) == P(pcb, x) || (P(pcb, x).parent.Some? && P(pcb', x) == Pcb(None, None, None, None))
  }

  /** What becomes of a thread that survives: woken if the thread it waited for has gone. */
  function Survived(tc: Tcb, tcb: seq<Tcb>, tcb': seq<Tcb>): Tcb {
    if tc.wait.Some? && Live(tcb, tc.wait.value) && !Live(tcb', tc.wait.value) then Woken(tc) else tc
  }

  ghost predicate ThreadsReaped(tcb: seq<Tcb>, tcb': seq<Tcb>) {
    && |tcb'| == |tcb|
    && forall t: Tid {:trigger T(tcb', t)} :: Live(tcb', t) ==> Live(tcb, t) && T(tcb', t) == Survived(T(tcb, t), tcb, tcb')
  }

  /** The ready threads that survive keep their order; the woken ones stand behind them. */
  ghost predicate ReadyReaped(q: Lists, r: Lists, tcb': seq<Tcb>) {
    KeepLive(Q(q, ReadyQ), tcb') <= Q(r, ReadyQ)
  }

  ghost predicate KidsReaped(q: Lists, r: Lists, pcb': seq<Pcb>) {
    forall p: Pid {:trigger Q(r, PChildren(p))} :: Q(r, PChildren(p)) == KeepKids(Q(q, PChildren(p)), pcb')
  }

  /** Between survivors no message is lost. */
  ghost predicate MailReaped(st: Store, rt: Store) {
    forall x: Tid, d: Tid {:trigger Pending(rt, x, d)} ::
      Live(rt.tcb, x) && Live(rt.tcb, d) ==> Pending(rt, x, d) == Pending(st, x, d)
  }

  predicate SameCell(mem: map<nat, Value>, mem': map<nat, Value>, a: nat) {
    (a in mem <==> a in mem') && (a in mem ==> mem[a] == mem'[a])
  }

  predicate Nulled(mem: map<nat, Value>, a: nat) { a != NULL_ADDR ==> a in mem && mem[a] == 0 }

  /** `t` waited for a thread that is gone. */
  predicate Orphan(tcb: seq<Tcb>, tcb': seq<Tcb>, t: Tid) {
    T(tcb, t).wait.Some? && Live(tcb, T(tcb, t).wait.value) && !Live(tcb', T(tcb, t).wait.value)
  }

  ghost predicate OrphanCell(tcb: seq<Tcb>, tcb': seq<Tcb>, a: nat) {
    a != NULL_ADDR && exists t: Tid :: Orphan(tcb, tcb', t) && T(tcb, t).regs.a3 == a
  }

  /** The cells of those woken are cleared, and no other cell is written. */
  ghost predicate CellsReaped(tcb: seq<Tcb>, tcb': seq<Tcb>, mem: map<nat, Value>, mem': map<nat, Value>) {
    && (forall a: nat :: SameCell(mem, mem', a) || (Nulled(mem', a) && OrphanCell(tcb, tcb', a)))
    && (forall t: Tid {:trigger Orphan(tcb, tcb', t)} ::
          Orphan(tcb, tcb', t) && Live(tcb', t) ==> Nulled(mem', T(tcb, t).regs.a3))
  }

  ghost predicate Reaped(s: State, r: State) {
    && r == s.(st := r.st, mem := r.mem, count := r.count)
    && CellsReaped(s.st.tcb, r.st.tcb, s.mem, r.mem)
    && |r.st.msg| == |s.st.msg|
    && ProcsReaped(s.st.pcb, r.st.pcb)
    && ThreadsReaped(s.st.tcb, r.st.tcb)
    && ReadyReaped(s.st.q, r.st.q, r.st.tcb)
    && KidsReaped(s.st.q, r.st.q, r.st.pcb)
    && MailReaped(s.st, r.st)
    && r.count + |Q(r.st.q, FreeThreads)| == s.count + |Q(s.st.q, FreeThreads)|
  }

  lemma ReadyTrans(a: Lists, b: Lists, c: Lists, tcb: seq<Tcb>, tcb': seq<Tcb>)
    requires ReadyReaped(a, b, tcb) && ReadyReaped(b, c, tcb')
    requires forall t: Tid :: Live(tcb', t) ==> Live(tcb, t)
    ensures ReadyReaped(a, c, tcb')
  {
    var k := KeepLive(Q(a, ReadyQ), tcb);
    var w := Q(b, ReadyQ)[|k|..];
    assert Q(b, ReadyQ) == k + w;
    KeepLiveAppend(k, w, tcb');
    KeepLiveTwice(Q(a, ReadyQ), tcb, tcb');
  }

  lemma KidsTrans(a: Lists, b: Lists, c: Lists, pcb: seq<Pcb>, pcb': seq<Pcb>)
    requires KidsReaped(a, b, pcb) && KidsReaped(b, c, pcb') && ProcsReaped(pcb, pcb')
    ensures KidsReaped(a, c, pcb')
  {
    forall p: Pid ensures Q(c, PChildren(p)) == KeepKids(Q(a, PChildren(p)), pcb') {
      assert Q(b, PChildren(p)) == KeepKids(Q(a, PChildren(p)), pcb);
      KeepKidsTwice(Q(a, PChildren(p)), pcb, pcb');
    }
  }

  lemma ThreadsTrans(a: seq<Tcb>, b: seq<Tcb>, c: seq<Tcb>)
    requires ThreadsReaped(a, b) && ThreadsReaped(b, c)
    ensures ThreadsReaped(a, c) && (forall t: Tid :: Live(c, t) ==> Live(b, t))
  {
    forall t: Tid | Live(c, t) ensures Live(b, t) && Live(a, t) && T(c, t) == Survived(T(a, t), a, c) {
      assert T(c, t) == Survived(T(b, t), b, c) && T(b, t) == Survived(T(a, t), a, b);
      var w := T(a, t).wait;
      if w.Some? { assert T(c, w.value) == T(c, w.value); assert T(b, w.value) == T(b, w.value); }
    }
  }

  lemma ProcsTrans(a: seq<Pcb>, b: seq<Pcb>, c: seq<Pcb>)
    requires ProcsReaped(a, b) && ProcsReaped(b, c)
    ensures ProcsReaped(a, c)
  {
    forall x: Pid ensures P(c, x) == P(a, x) || (P(a, x).parent.Some? && P(c, x) == Pcb(None, None, None, None)) {
      assert P(b, x) == P(b, x);
    }
  }

  /** A thread that dies or is woken later is as it was before. */
  lemma OrphanTrans(a: seq<Tcb>, b: seq<Tcb>, c: seq<Tcb>, t: Tid)
    requires ThreadsReaped(a, b) && (forall u: Tid :: Live(c, u) ==> Live(b, u))
    requires Orphan(b, c, t) && Live(b, t)
    ensures Orphan(a, c, t) && T(a, t).regs.a3 == T(b, t).regs.a3
  {
    assert T(b, t) == Survived(T(a, t), a, b);
  }

  lemma CellsTrans(a: seq<Tcb>, b: seq<Tcb>, c: seq<Tcb>, m: map<nat, Value>, m': map<nat, Value>, m'': map<nat, Value>)
    requires CellsReaped(a, b, m, m') && CellsReaped(b, c, m', m'') && ThreadsReaped(a, b) && ThreadsReaped(b, c)
    requires forall t: Tid :: T(b, t).wait.Some? ==> Live(b, t)
    ensures CellsReaped(a, c, m, m'')
  {
    ThreadsTrans(a, b, c);
    forall x: nat ensures SameCell(m, m'', x) || (Nulled(m'', x) && OrphanCell(a, c, x)) {
      assert SameCell(m, m', x) || (Nulled(m', x) && OrphanCell(a, b, x));
      if !SameCell(m', m'', x) {
        var t: Tid :| Orphan(b, c, t) && T(b, t).regs.a3 == x;
        OrphanTrans(a, b, c, t);
      } else if !SameCell(m, m', x) {
        var t: Tid :| Orphan(a, b, t) && T(a, t).regs.a3 == x;
        assert Orphan(a, c, t);
      }
    }
    forall t: Tid | Orphan(a, c, t) && Live(c, t) ensures Nulled(m'', T(a, t).regs.a3) {
      var x := T(a, t).regs.a3;
      assert T(b, t) == Survived(T(a, t), a, b);
      if Orphan(a, b, t) {
        assert Nulled(m', x);
        assert SameCell(m', m'', x) || Nulled(m'', x);
      } else {
        assert Orphan(b, c, t);
      }
    }
  }

  lemma WaitersLive(s: State)
    requires CoreInv(s)
    ensures forall t: Tid :: T(s.st.tcb, t).wait.Some? ==> Live(s.st.tcb, t)
  {
    hide StoreInv, NoLostWakeup;
  }

  lemma ReapedTrans(a: State, b: State, c: State)
    requires Reaped(a, b) && Reaped(b, c) && CoreInv(b)
    ensures Reaped(a, c)
  {
    WaitersLive(b);
    CellsTrans(a.st.tcb, b.st.tcb, c.st.tcb, a.mem, b.mem, c.mem);
    hide ReadyReaped, KidsReaped, CellsReaped, CoreInv;
    ThreadsTrans(a.st.tcb, b.st.tcb, c.st.tcb);
    hide ThreadsReaped;
    ReadyTrans(a.st.q, b.st.q, c.st.q, b.st.tcb, c.st.tcb);
    KidsTrans(a.st.q, b.st.q, c.st.q, b.st.pcb, c.st.pcb);
    hide Pending, Q;
    ProcsTrans(a.st.pcb, b.st.pcb, c.st.pcb);
    forall x: Tid, d: Tid | Live(c.st.tcb, x) && Live(c.st.tcb, d) ensures Pending(c.st, x, d) == Pending(a.st, x, d) {
      assert Pending(b.st, x, d) == Pending(a.st, x, d);
    }
  }
}
