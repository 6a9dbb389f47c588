/** The lists and records right after the initialisation routines, and why they satisfy the invariant. */
module Boot {
  import opened Types
  import opened Links
  import opened Store

  function ProcRow(n: nat): seq<Node> { seq(if n == 0 then 0 else n - 1, i requires 0 <= i => PSiblings(i + 1)) }

  function ThreadRow(n: nat): seq<Node> { seq(if n == 0 then 0 else n - 1, i requires 0 <= i => TNext(i + 1)) }

  /** Messages are put at the front of the free list, so they stand in reverse order. */
  function MsgRow(n: nat): seq<Node> { seq(n, i requires 0 <= i < n => MNext(n - 1 - i)) }

  lemma Rows(n: nat)
    ensures n > 0 ==> ProcRow(n + 1) == ProcRow(n) + [PSiblings(n)] && ThreadRow(n + 1) == ThreadRow(n) + [TNext(n)]
    ensures MsgRow(n + 1) == [MNext(n)] + MsgRow(n)
  {
  }

  lemma RowMembers(n: nat)
    ensures forall c: Pid :: PSiblings(c) in ProcRow(n) <==> 1 <= c < n
    ensures forall t: Tid :: TNext(t) in ThreadRow(n) <==> 1 <= t < n
    ensures forall m: Mid :: MNext(m) in MsgRow(n) <==> m < n
    ensures forall x :: x in ProcRow(n) ==> x.PSiblings?
    ensures forall x :: x in ThreadRow(n) ==> x.TNext?
    ensures forall x :: x in MsgRow(n) ==> x.MNext?
  {
    forall c: Pid | 1 <= c < n ensures PSiblings(c) in ProcRow(n) { assert ProcRow(n)[c - 1] == PSiblings(c); }
    forall t: Tid | 1 <= t < n ensures TNext(t) in ThreadRow(n) { assert ThreadRow(n)[t - 1] == TNext(t); }
    forall m: Mid | m < n ensures MNext(m) in MsgRow(n) { assert MsgRow(n)[n - 1 - m] == MNext(m); }
  }

  /** The contents of list `h` when processes 1..a-1, threads 1..b-1 and messages 0..c-1 have been linked. */
  function Linking(h: Node, a: nat, b: nat, c: nat): seq<Node> {
    if h == FREE_PROCS then ProcRow(a)
    else if h == FreeThreads then ThreadRow(b)
    else if h == FreeMsgs then MsgRow(c)
    else []
  }

  /** How far the initialisation loops have come. */
  ghost predicate Progress(q: Lists, a: nat, b: nat, c: nat) {
    && (forall h {:trigger Q(q, h)} :: Q(q, h) == Linking(h, a, b, c))
    && (forall h {:trigger h in q} :: h in q <==> IsHead(h, a, b))
  }

  const BLANK_PCB: Pcb := Pcb(None, None, None, None)
  const BLANK_TCB: Tcb := Tcb(None, Regs(Code(0), NULL_ADDR), Unused, 0, None)

  /** The pools before any thread exists. */
  ghost predicate Fresh(st: Store) {
    && Progress(st.q, |st.pcb|, |st.tcb|, |st.msg|) && 1 <= |st.pcb| && 1 <= |st.tcb|
    && (forall c :: 0 <= c < |st.pcb| ==> st.pcb[c] == BLANK_PCB)
    && (forall t :: 0 <= t < |st.tcb| ==> st.tcb[t] == BLANK_TCB)
    && (forall m :: 0 <= m < |st.msg| ==> st.msg[m].sender == None)
  }

  lemma FreshShape(st: Store)
    requires Fresh(st)
    ensures Shape(st)
  {
    RowMembers(|st.pcb|);
    RowMembers(|st.tcb|);
    RowMembers(|st.msg|);
    forall h, n | n in Q(st.q, h) ensures Fits(h, n, |st.pcb|, |st.tcb|, |st.msg|) {
      assert n in Linking(h, |st.pcb|, |st.tcb|, |st.msg|);
    }
  }

  /** After initialisation processes and threads are free in the order of their arrays, messages in the opposite
      order. */
  lemma FreshOrder(st: Store)
    requires Fresh(st)
    ensures |Q(st.q, FREE_PROCS)| == |st.pcb| - 1 && |Q(st.q, FreeThreads)| == |st.tcb| - 1
    ensures |Q(st.q, FreeMsgs)| == |st.msg|
    ensures forall i :: 0 <= i < |st.pcb| - 1 ==> Q(st.q, FREE_PROCS)[i] == PSiblings(i + 1)
    ensures forall i :: 0 <= i < |st.tcb| - 1 ==> Q(st.q, FreeThreads)[i] == TNext(i + 1)
    ensures forall i :: 0 <= i < |st.msg| ==> Q(st.q, FreeMsgs)[i] == MNext(|st.msg| - 1 - i)
  {
    assert Q(st.q, FREE_PROCS) == ProcRow(|st.pcb|);
    assert Q(st.q, FreeThreads) == ThreadRow(|st.tcb|);
    assert Q(st.q, FreeMsgs) == MsgRow(|st.msg|);
  }

  /** Only the empty lists of `heads` exist. */
  ghost predicate OnlyEmpty(q: Lists, heads: set<Node>) {
    && (forall h {:trigger Q(q, h)} :: Q(q, h) == [])
    && q.Keys == heads
  }

  lemma OneMoreEmpty(q: Lists, heads: set<Node>, h: Node)
    requires OnlyEmpty(q, heads)
    ensures OnlyEmpty(q[h := []], heads + {h}) && !Linked(q, h)
  {
    var r := q[h := []];
    forall k ensures Q(r, k) == [] { assert Q(q, k) == []; }
    assert r.Keys == heads + {h};
    forall k ensures h !in Q(q, k) { assert Q(q, k) == []; }
  }

  /** The sentinels that exist before the loops run. */
  const STATIC_HEADS: set<Node> := {ReadyQ, BlockedQ, FreeThreads, FreeMsgs, TMsgq(SSI), TWait4me(SSI)}
  const ROOT_HEADS: set<Node> := STATIC_HEADS + {PThreads(ROOT)} + {PChildren(ROOT)} + {FREE_PROCS}

  lemma StaticProgress(q: Lists)
    requires OnlyEmpty(q, ROOT_HEADS)
    ensures Progress(q, 1, 1, 0)
  {
    assert ProcRow(1) == [] && ThreadRow(1) == [] && MsgRow(0) == [];
    forall h ensures Q(q, h) == Linking(h, 1, 1, 0) {
      assert Q(q, h) == [];
      assert |Linking(h, 1, 1, 0)| == 0;
    }
    forall h ensures h in q <==> IsHead(h, 1, 1) {
      assert h in q <==> h in ROOT_HEADS;
      assert h in ROOT_HEADS <==> h in STATIC_HEADS || h == PThreads(0) || h == PChildren(0) || h == PSiblings(0);
      assert h in STATIC_HEADS <==>
        h.ReadyQ? || h.BlockedQ? || h.FreeThreads? || h.FreeMsgs? || h == TMsgq(0) || h == TWait4me(0);
    }
  }

  /** `n` is neither a sentinel nor on a list. */
  ghost predicate Loose(q: Lists, n: Node) { n !in q && !Linked(q, n) }

  lemma LooseAppend(q: Lists, h: Node, n: Node, x: Node)
    requires Loose(q, x) && x != n && h in q
    ensures Loose(Append(q, h, n), x)
  {
    forall k ensures x !in Q(Append(q, h, n), k) { assert x !in Q(q, k); }
  }

  lemma LooseInit(q: Lists, h: Node, x: Node)
    requires Loose(q, x) && x != h
    ensures Loose(q[h := []], x)
  {
    var r := q[h := []];
    forall k ensures x !in Q(r, k) { assert x !in Q(q, k); }
  }

  lemma NotLinkedYet(q: Lists, a: nat, b: nat, c: nat, n: Node)
    requires Progress(q, a, b, c)
    requires match n
             case PSiblings(p) => p >= a && p > 0
             case TNext(t) => t >= b
             case MNext(m) => m >= c
             case _ => !IsHead(n, a, b)
    ensures Loose(q, n)
  {
    RowMembers(a);
    RowMembers(b);
    RowMembers(c);
    forall h ensures n !in Q(q, h) { assert Q(q, h) == Linking(h, a, b, c); }
  }

  lemma LinkProc(q: Lists, q1: Lists, q2: Lists, q3: Lists, a: nat, b: nat, c: nat)
    requires Progress(q, a, b, c) && 0 < a
    requires q1 == Append(q, FREE_PROCS, PSiblings(a)) && q2 == q1[PThreads(a) := []] && q3 == q2[PChildren(a) := []]
    ensures Progress(q3, a + 1, b, c)
  {
    Rows(a);
    forall h ensures Q(q3, h) == Linking(h, a + 1, b, c) {
      assert Q(q, h) == Linking(h, a, b, c);
    }
    forall h ensures h in q3 <==> IsHead(h, a + 1, b) {
      assert h in q <==> IsHead(h, a, b);
    }
  }

  lemma LinkThread(q: Lists, q1: Lists, q2: Lists, q3: Lists, a: nat, b: nat, c: nat)
    requires Progress(q, a, b, c) && 0 < b
    requires q1 == Append(q, FreeThreads, TNext(b)) && q2 == q1[TMsgq(b) := []] && q3 == q2[TWait4me(b) := []]
    ensures Progress(q3, a, b + 1, c)
  {
    Rows(b);
    forall h ensures Q(q3, h) == Linking(h, a, b + 1, c) {
      assert Q(q, h) == Linking(h, a, b, c);
    }
    forall h ensures h in q3 <==> IsHead(h, a, b + 1) {
      assert h in q <==> IsHead(h, a, b);
    }
  }

  lemma LinkMsg(q: Lists, r: Lists, a: nat, b: nat, c: nat)
    requires Progress(q, a, b, c) && r == Prepend(q, FreeMsgs, MNext(c))
    ensures Progress(r, a, b, c + 1)
  {
    Rows(c);
    forall h ensures Q(r, h) == Linking(h, a, b, c + 1) {
      assert Q(q, h) == Linking(h, a, b, c);
    }
    forall h ensures h in r <==> IsHead(h, a, b) {
      assert h in q <==> IsHead(h, a, b);
    }
  }
}
