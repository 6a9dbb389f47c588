/** Circular doubly linked lists threaded through shared memory (src/listx.h). */
module Links {
  import opened Types
  import opened Seqs

  /** Abstract contents: for each initialised sentinel, the members in list order. */
  type Lists = map<Node, seq<Node>>

  ghost function Q(q: Lists, h: Node): seq<Node> { if h in q then q[h] else [] }

  ghost predicate Linked(q: Lists, n: Node) { exists h :: n in Q(q, h) }

  /** `list_del`: the list that contains `n` loses it, the others stay. */
  ghost function Unlink(q: Lists, n: Node): (r: Lists)
    ensures r.Keys == q.Keys
    ensures forall k {:trigger Q(r, k)} :: Q(r, k) == Without(Q(q, k), n)
  {
    map h | h in q :: Without(q[h], n)
  }

  /** `list_add_tail` */
  ghost function Append(q: Lists, h: Node, n: Node): Lists { q[h := Q(q, h) + [n]] }

  /** `list_add` */
  ghost function Prepend(q: Lists, h: Node, n: Node): Lists { q[h := [n] + Q(q, h)] }

  /** `list_del` followed by `list_add_tail`, the way every kernel operation moves a record. */
  ghost function Move(q: Lists, n: Node, h: Node): Lists { Append(Unlink(q, n), h, n) }

  /** No node is on two lists, none occurs twice on a list, and sentinels are never members. */
  ghost predicate Sep(q: Lists) {
    && (forall h, k, n {:trigger n in Q(q, h), n in Q(q, k)} :: n in Q(q, h) && n in Q(q, k) ==> h == k)
    && (forall h :: NoDup(Q(q, h)))
    && (forall h, n {:trigger n in Q(q, h)} :: n in Q(q, h) ==> n !in q)
  }

  lemma SepUnlink(q: Lists, n: Node)
    requires Sep(q)
    ensures Sep(Unlink(q, n))
  {
    var r := Unlink(q, n);
    forall h ensures NoDup(Q(r, h)) { NoDupWithout(Q(q, h), n); }
    forall h, k, x | x in Q(r, h) && x in Q(r, k) ensures h == k {
      assert x in Q(q, h) && x in Q(q, k);
    }
  }

  lemma SepInsert(q: Lists, h: Node, k: nat, n: Node)
    requires Sep(q) && h in q && n !in q && !Linked(q, n) && k <= |Q(q, h)|
    ensures Sep(q[h := Q(q, h)[..k] + [n] + Q(q, h)[k..]])
  {
    var s := Q(q, h);
    var s' := s[..k] + [n] + s[k..];
    var r := q[h := s'];
    assert n !in s;
    NoDupInsert(s, k, n);
    forall g ensures NoDup(Q(r, g)) {
      if g != h { assert Q(r, g) == Q(q, g); }
    }
    forall g, x | x in Q(r, g) ensures x !in r && (x == n ==> g == h) && (x != n ==> x in Q(q, g)) {
      assert r.Keys == q.Keys;
      assert g != h ==> Q(r, g) == Q(q, g);
      assert x in s ==> x in Q(q, h);
    }
    forall g, l, x | x in Q(r, g) && x in Q(r, l) ensures g == l {
      assert x != n ==> x in Q(q, g) && x in Q(q, l);
      assert g != h ==> x in Q(q, g);
      assert l != h ==> x in Q(q, l);
    }
  }

  lemma SepAppend(q: Lists, h: Node, n: Node)
    requires Sep(q) && h in q && n !in q && !Linked(q, n)
    ensures Sep(Append(q, h, n))
  {
    SepInsert(q, h, |Q(q, h)|, n);
    assert Q(q, h)[..|Q(q, h)|] + [n] + Q(q, h)[|Q(q, h)|..] == Q(q, h) + [n];
  }

  /** `r` is `q` with `n` on the list of `h` and nowhere else. */
  ghost predicate Moved(q: Lists, r: Lists, n: Node, h: Node) {
    && r.Keys == q.Keys
    && forall k, x {:trigger x in Q(r, k)} :: x in Q(r, k) <==> if x == n then k == h else x in Q(q, k)
  }

  /** `r` is `q` with `n` on no list. */
  ghost predicate Gone(q: Lists, r: Lists, n: Node) {
    && r.Keys == q.Keys
    && forall k, x {:trigger x in Q(r, k)} :: x in Q(r, k) <==> x != n && x in Q(q, k)
  }

  lemma UnlinkFacts(q: Lists, n: Node)
    ensures Gone(q, Unlink(q, n), n)
    ensures Sep(q) ==> Sep(Unlink(q, n))
  {
    if Sep(q) { SepUnlink(q, n); }
  }

  lemma AppendFacts(q: Lists, h: Node, n: Node)
    requires h in q && !Linked(q, n)
    ensures Moved(q, Append(q, h, n), n, h)
    ensures Sep(q) && n !in q ==> Sep(Append(q, h, n))
  {
    var r := Append(q, h, n);
    forall k, x ensures x in Q(r, k) <==> if x == n then k == h else x in Q(q, k) {
      assert n !in Q(q, k);
      assert k != h ==> Q(r, k) == Q(q, k);
      assert k == h ==> Q(r, k) == Q(q, k) + [n];
    }
    if Sep(q) && n !in q { SepAppend(q, h, n); }
  }

  lemma MoveFacts(q: Lists, n: Node, h: Node)
    requires h in q
    ensures Moved(q, Move(q, n, h), n, h)
    ensures Sep(q) && n !in q ==> Sep(Move(q, n, h))
  {
    UnlinkFacts(q, n);
    AppendFacts(Unlink(q, n), h, n);
  }

  lemma MoveAt(q: Lists, n: Node, h: Node, k: Node)
    requires h in q
    ensures Q(Move(q, n, h), k) == Without(Q(q, k), n) + (if k == h then [n] else [])
  {
    assert Q(Unlink(q, n), k) == Without(Q(q, k), n);
  }

  /** Taking out one occurrence agrees with `Unlink`. */
  lemma UnlinkAt(q: Lists, h: Node, k: nat)
    requires Sep(q) && k < |Q(q, h)|
    ensures Unlink(q, Q(q, h)[k]) == q[h := Q(q, h)[..k] + Q(q, h)[k + 1..]]
  {
    var n := Q(q, h)[k];
    WithoutAt(Q(q, h), k);
    assert n in Q(q, h);
    forall g | g in q && g != h ensures Unlink(q, n)[g] == q[g] {
      assert Q(q, g) == q[g];
      assert n !in Q(q, g);
    }
    assert h in q;
    assert Q(Unlink(q, n), h) == Without(Q(q, h), n);
  }

  // ----- The ring formed by the pointers -----

  /** The nodes met from sentinel `h` round to `h` again. */
  ghost function Ring(h: Node, s: seq<Node>): seq<Node> { [h] + s + [h] }

  ghost predicate Joined(next: map<Node, Node>, prev: map<Node, Node>, a: Node, b: Node) {
    a in next && next[a] == b && b in prev && prev[b] == a
  }

  ghost predicate Chain(next: map<Node, Node>, prev: map<Node, Node>, c: seq<Node>) {
    forall i, j :: 0 <= i < j < |c| && j == i + 1 ==> Joined(next, prev, c[i], c[j])
  }

  ghost predicate Linkage(next: map<Node, Node>, prev: map<Node, Node>, h: Node, s: seq<Node>) {
    Chain(next, prev, Ring(h, s))
  }

  /** Every initialised list is a ring of mirrored pointers through exactly its members. */
  ghost predicate Represents(next: map<Node, Node>, prev: map<Node, Node>, q: Lists) {
    && Sep(q)
    && (forall h :: h in q ==> Linkage(next, prev, h, q[h]))
  }

  /** A node between positions of one ring lies on no other ring. */
  lemma RingsDisjoint(q: Lists, h: Node, g: Node, x: Node)
    requires Sep(q) && h in q && g in q && h != g
    requires x in Ring(h, q[h])
    ensures x !in Ring(g, q[g])
  {
    assert x == h || x in Q(q, h);
    assert x in Ring(g, q[g]) ==> x == g || x in Q(q, g);
  }

  /** The four stores of `__list_add` put `n` at position `k` of the list at `h` and touch no other list. */
  lemma InsertKeepsRings(next: map<Node, Node>, prev: map<Node, Node>, q: Lists, h: Node, k: nat, n: Node)
    requires Represents(next, prev, q)
    requires h in q && n !in q && !Linked(q, n) && k <= |q[h]|
    ensures var c := Ring(h, q[h]);
            Represents(next[n := c[k + 1]][c[k] := n], prev[c[k + 1] := n][n := c[k]],
                       q[h := q[h][..k] + [n] + q[h][k..]])
  {
    var s := q[h];
    assert s == Q(q, h);
    var c := Ring(h, s);
    var s' := s[..k] + [n] + s[k..];
    var next', prev', q' := next[n := c[k + 1]][c[k] := n], prev[c[k + 1] := n][n := c[k]], q[h := s'];
    SepInsert(q, h, k, n);
    assert n !in s;
    RingInsert(next, prev, h, s, k, n);
    forall g | g in q' ensures Linkage(next', prev', g, q'[g]) {
      if g != h {
        assert n !in Ring(g, q[g]) by { assert n !in Q(q, g); }
        assert c[k] in c && c[k + 1] in c;
        RingsDisjoint(q, h, g, c[k]);
        RingsDisjoint(q, h, g, c[k + 1]);
        var d := Ring(g, q[g]);
        assert forall i :: 0 <= i < |d| ==> d[i] in d;
      }
    }
  }

  lemma RingInsert(next: map<Node, Node>, prev: map<Node, Node>, h: Node, s: seq<Node>, k: nat, n: Node)
    requires Linkage(next, prev, h, s) && NoDup(s) && h !in s && n != h && n !in s && k <= |s|
    ensures var c := Ring(h, s);
            Linkage(next[n := c[k + 1]][c[k] := n], prev[c[k + 1] := n][n := c[k]], h, s[..k] + [n] + s[k..])
  {
    var c := Ring(h, s);
    var next', prev' := next[n := c[k + 1]][c[k] := n], prev[c[k + 1] := n][n := c[k]];
    var c' := Ring(h, s[..k] + [n] + s[k..]);
    RingEnds(h, s);
    assert forall i :: 0 <= i < |c'| ==> c'[i] == if i <= k then c[i] else if i == k + 1 then n else c[i - 1];
    forall i, j | 0 <= i < j < |c'| && j == i + 1 ensures Joined(next', prev', c'[i], c'[j]) {
      if i < k {
        assert Joined(next, prev, c[i], c[i + 1]) && c[i] != c[k] && c[i + 1] != c[k + 1];
      } else if i > k + 1 {
        assert Joined(next, prev, c[i - 1], c[i]) && c[i - 1] != c[k] && c[i] != c[k + 1];
      }
    }
  }

  /** Going round a ring, only the sentinel is met twice. */
  lemma RingEnds(h: Node, s: seq<Node>)
    requires NoDup(s) && h !in s
    ensures var c := Ring(h, s);
            && (forall i, j :: 0 <= i < |c| - 1 && 0 <= j < |c| - 1 && c[i] == c[j] ==> i == j)
            && (forall i, j :: 1 <= i < |c| && 1 <= j < |c| && c[i] == c[j] ==> i == j)
            && (forall i :: 0 <= i < |c| ==> c[i] == h || c[i] in s)
  {
    var c := Ring(h, s);
    assert forall i :: 0 <= i < |c| ==> c[i] == if 1 <= i <= |s| then s[i - 1] else h;
    assert forall i :: 0 <= i < |s| ==> s[i] in s;
  }

  /** The two stores of `__list_del` drop position `k` of the list at `h` and touch no other list. */
  lemma DeleteKeepsRings(next: map<Node, Node>, prev: map<Node, Node>, q: Lists, h: Node, k: nat)
    requires Represents(next, prev, q)
    requires h in q && k < |q[h]|
    ensures var c := Ring(h, q[h]);
            && q[h][k] in prev && prev[q[h][k]] == c[k] && q[h][k] in next && next[q[h][k]] == c[k + 2]
            && Represents(next[c[k] := c[k + 2]], prev[c[k + 2] := c[k]], Unlink(q, q[h][k]))
  {
    var s := q[h];
    assert s == Q(q, h);
    var c := Ring(h, s);
    var n := s[k];
    assert c[k + 1] == n;
    var next', prev', q' := next[c[k] := c[k + 2]], prev[c[k + 2] := c[k]], Unlink(q, n);
    SepUnlink(q, n);
    UnlinkAt(q, h, k);
    RingDelete(next, prev, h, s, k);
    forall g | g in q' ensures Linkage(next', prev', g, q'[g]) {
      if g != h {
        assert c[k] in c && c[k + 2] in c;
        RingsDisjoint(q, h, g, c[k]);
        RingsDisjoint(q, h, g, c[k + 2]);
        var d := Ring(g, q[g]);
        assert forall i :: 0 <= i < |d| ==> d[i] in d;
      }
    }
  }

  lemma RingDelete(next: map<Node, Node>, prev: map<Node, Node>, h: Node, s: seq<Node>, k: nat)
    requires Linkage(next, prev, h, s) && NoDup(s) && h !in s && k < |s|
    ensures var c := Ring(h, s);
            && s[k] in prev && prev[s[k]] == c[k] && s[k] in next && next[s[k]] == c[k + 2]
            && Linkage(next[c[k] := c[k + 2]], prev[c[k + 2] := c[k]], h, s[..k] + s[k + 1..])
  {
    var c := Ring(h, s);
    var next', prev' := next[c[k] := c[k + 2]], prev[c[k + 2] := c[k]];
    var c' := Ring(h, s[..k] + s[k + 1..]);
    RingEnds(h, s);
    assert c[k + 1] == s[k];
    assert Joined(next, prev, c[k], c[k + 1]) && Joined(next, prev, c[k + 1], c[k + 2]);
    assert forall i :: 0 <= i < |c'| ==> c'[i] == if i <= k then c[i] else c[i + 1];
    forall i, j | 0 <= i < j < |c'| && j == i + 1 ensures Joined(next', prev', c'[i], c'[j]) {
      if i < k {
        assert Joined(next, prev, c[i], c[i + 1]) && c[i] != c[k] && c[i + 1] != c[k + 2];
      } else if i > k {
        assert Joined(next, prev, c[i + 1], c[i + 2]) && c[i + 1] != c[k] && c[i + 2] != c[k + 2];
      }
    }
  }

  /** The memory that holds every `next` and `prev` pointer; a node not yet written reads as NULL. */
  class LinkHeap {
    var next: map<Node, Node>
    var prev: map<Node, Node>
    ghost var q: Lists

    ghost predicate Valid()
      reads this
    {
      Represents(next, prev, q)
    }

    constructor ()
      ensures Valid() && q == map[]
    {
      next, prev, q := map[], map[], map[];
    }

    /** `INIT_LIST_HEAD` on memory that holds no list yet. */
    method InitListHead(h: Node)
      requires Valid() && h !in q && !Linked(q, h)
      modifies this
      ensures Valid() && q == old(q)[h := []]
    {
      next := next[h := h];
      prev := prev[h := h];
      ghost var was := q;
      q := q[h := []];
      assert Sep(q) by {
        assert forall g :: Q(q, g) == Q(was, g);
        assert forall g :: h !in Q(was, g);
      }
      forall g | g in q ensures Linkage(next, prev, g, q[g]) {
        if g != h {
          assert h !in Ring(g, q[g]) by { assert h !in Q(was, g); }
          var d := Ring(g, q[g]);
          assert forall i :: 0 <= i < |d| ==> d[i] in d;
        }
      }
    }

    /** `__list_add` between two consecutive nodes, at position `k` of the list at `h`. */
    method ListInsert(n: Node, before: Node, after: Node, ghost h: Node, ghost k: nat)
      requires Valid() && h in q && n !in q && !Linked(q, n)
      requires k <= |q[h]| && before == Ring(h, q[h])[k] && after == Ring(h, q[h])[k + 1]
      modifies this
      ensures Valid() && q == old(q)[h := old(q)[h][..k] + [n] + old(q)[h][k..]]
    {
      InsertKeepsRings(next, prev, q, h, k, n);
      prev := prev[after := n];
      next := next[n := after];
      prev := prev[n := before];
      next := next[before := n];
      q := q[h := q[h][..k] + [n] + q[h][k..]];
    }

    method ListAdd(n: Node, h: Node)
      requires Valid() && h in q && n !in q && !Linked(q, n)
      modifies this
      ensures Valid() && q == Prepend(old(q), h, n)
    {
      ghost var s := q[h];
      ghost var c := Ring(h, s);
      assert Linkage(next, prev, h, s);
      assert Joined(next, prev, c[0], c[1]);
      ListInsert(n, h, next[h], h, 0);
      assert s[..0] + [n] + s[0..] == [n] + s;
    }

    method ListAddTail(n: Node, h: Node)
      requires Valid() && h in q && n !in q && !Linked(q, n)
      modifies this
      ensures Valid() && q == Append(old(q), h, n)
    {
      ghost var s := q[h];
      ghost var c := Ring(h, s);
      assert Linkage(next, prev, h, s);
      assert Joined(next, prev, c[|s|], c[|s| + 1]);
      ListInsert(n, prev[h], h, h, |s|);
      assert s[..|s|] + [n] + s[|s|..] == s + [n];
    }

    method ListDel(n: Node)
      requires Valid() && Linked(q, n)
      modifies this
      ensures Valid() && q == Unlink(old(q), n)
    {
      ghost var h :| n in Q(q, h);
      ghost var k :| 0 <= k < |Q(q, h)| && Q(q, h)[k] == n;
      DeleteKeepsRings(next, prev, q, h, k);
      var before, after := prev[n], next[n];
      prev := prev[after := before];
      next := next[before := after];
      q := Unlink(q, n);
    }

    method ListEmpty(h: Node) returns (empty: bool)
      requires Valid() && h in q
      ensures empty <==> q[h] == []
    {
      ghost var c := Ring(h, q[h]);
      assert Linkage(next, prev, h, q[h]);
      assert Joined(next, prev, c[0], c[1]);
      assert q[h] != [] ==> c[1] in Q(q, h);
      empty := next[h] == h;
    }

    /** `list_is_only`, called on a node of the list at `h`. */
    method ListIsOnly(n: Node, h: Node) returns (only: bool)
      requires Valid() && h in q && n in q[h]
      ensures only <==> q[h] == [n]
    {
      ghost var s := q[h];
      ghost var c := Ring(h, s);
      assert Q(q, h) == s;
      assert Linkage(next, prev, h, s);
      ghost var k :| 0 <= k < |s| && s[k] == n;
      assert c[k + 1] == n;
      assert Joined(next, prev, c[k], c[k + 1]) && Joined(next, prev, c[k + 1], c[k + 2]);
      assert k > 0 ==> c[k] in s;
      assert k + 1 < |s| ==> c[k + 2] in s;
      only := next[n] == h && prev[n] == h;
    }

    method ListNext(h: Node) returns (first: Option<Node>)
      requires Valid() && h in q
      ensures first == if q[h] == [] then None else Some(q[h][0])
    {
      var empty := ListEmpty(h);
      assert Linkage(next, prev, h, q[h]);
      assert Ring(h, q[h])[0] == h;
      if empty {
        first := None;
      } else {
        assert Ring(h, q[h])[1] == q[h][0];
        first := Some(next[h]);
      }
    }
  }
}
