/** Sequences without repetitions and removal of an element. */
module Seqs {

  predicate NoDup<X(==)>(s: seq<X>) {
    forall i, j :: 0 <= i < j < |s| ==> s[i] != s[j]
  }

  /** `s` with every occurrence of `x` taken out, the rest in order. */
  function Without<X(==,!new)>(s: seq<X>, x: X): (r: seq<X>)
    ensures forall y :: y in r <==> y in s && y != x
    ensures |r| <= |s|
    ensures x !in s ==> r == s
    ensures x in s ==> |r| < |s|
  {
    if s == [] then []
    else if s[0] == x then Without(s[1..], x)
    else [s[0]] + Without(s[1..], x)
  }

  lemma WithoutAppend<X(!new)>(a: seq<X>, b: seq<X>, x: X)
    ensures Without(a + b, x) == Without(a, x) + Without(b, x)
  {
    if a == [] {
      assert a + b == b;
    } else {
      assert (a + b)[1..] == a[1..] + b;
      WithoutAppend(a[1..], b, x);
    }
  }

  /** On a sequence without repetitions, removal drops exactly one position. */
  lemma {:induction false} WithoutAt<X(!new)>(s: seq<X>, k: nat)
    requires NoDup(s) && k < |s|
    ensures Without(s, s[k]) == s[..k] + s[k + 1..]
  {
    var x := s[k];
    assert s == s[..k] + ([x] + s[k + 1..]);
    WithoutAppend(s[..k], [x] + s[k + 1..], x);
    assert x !in s[..k] && x !in s[k + 1..];
    assert ([x] + s[k + 1..])[1..] == s[k + 1..];
  }

  lemma {:induction false} NoDupWithout<X(!new)>(s: seq<X>, x: X)
    requires NoDup(s)
    ensures NoDup(Without(s, x))
  {
    if s != [] {
      NoDupWithout(s[1..], x);
      assert s[0] !in s[1..];
    }
  }

  lemma NoDupInsert<X(!new)>(s: seq<X>, k: nat, x: X)
    requires NoDup(s) && x !in s && k <= |s|
    ensures NoDup(s[..k] + [x] + s[k..])
    ensures forall y :: y in s[..k] + [x] + s[k..] <==> y == x || y in s
  {
    var r := s[..k] + [x] + s[k..];
    assert s == s[..k] + s[k..];
    forall i, j | 0 <= i < j < |r| ensures r[i] != r[j] {
      assert i != k ==> r[i] == s[if i < k then i else i - 1];
      assert j != k ==> r[j] == s[if j < k then j else j - 1];
    }
  }
}
