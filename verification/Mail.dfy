/** The payloads that one thread has pending in the mailbox of another. */
module Mail {
  import opened Types
  import opened Seqs
  import opened Links
  import opened Store
  import opened Invariant
  import opened Preserve

  /** The payloads from `x`, in mailbox order. */
  function From(box: seq<Node>, msg: seq<Msg>, x: Tid): seq<Value> {
    if box == [] then []
    else
      Payload(M(msg, MidOf(box[0])), x) + From(box[1..], msg, x)
  }

  /** The payload of a message, if `x` sent it. */
  function Payload(m: Msg, x: Tid): seq<Value> { if m.sender == Some(x) then [m.value] else [] }

  ghost function Pending(st: Store, x: Tid, d: Tid): seq<Value> { From(Q(st.q, TMsgq(d)), st.msg, x) }

  lemma {:induction false} FromAppend(a: seq<Node>, b: seq<Node>, msg: seq<Msg>, x: Tid)
    ensures From(a + b, msg, x) == From(a, msg, x) + From(b, msg, x)
  {
    if a == [] {
      assert a + b == b;
    } else {
      var c := a + b;
      assert c[1..] == a[1..] + b && c[0] == a[0];
      FromAppend(a[1..], b, msg, x);
      hide Payload;
    }
  }

  /** Only the messages of the mailbox itself matter. */
  lemma {:induction false} FromFrame(box: seq<Node>, msg: seq<Msg>, msg': seq<Msg>, x: Tid)
    requires forall n :: n in box ==> M(msg', MidOf(n)) == M(msg, MidOf(n))
    ensures From(box, msg', x) == From(box, msg, x)
  {
    if box != [] {
      assert box[0] in box;
      forall n | n in box[1..] ensures n in box {}
      FromFrame(box[1..], msg, msg', x);
    }
  }

  /** Taking out a message of another sender is not noticed. */
  lemma {:induction false} FromWithoutOther(box: seq<Node>, msg: seq<Msg>, n: Node, x: Tid)
    requires M(msg, MidOf(n)).sender != Some(x)
    ensures From(Without(box, n), msg, x) == From(box, msg, x)
  {
    if box != [] {
      FromWithoutOther(box[1..], msg, n, x);
      if box[0] != n {
        assert Without(box, n) == [box[0]] + Without(box[1..], n);
        assert ([box[0]] + Without(box[1..], n))[1..] == Without(box[1..], n);
      }
    }
  }

  lemma FromSkip(box: seq<Node>, msg: seq<Msg>, n: Node, x: Tid)
    requires box != [] && box[0] != n && M(msg, MidOf(box[0])).sender != Some(x)
    ensures From(box, msg, x) == From(box[1..], msg, x)
    ensures From(Without(box, n), msg, x) == From(Without(box[1..], n), msg, x)
  {
    var rest := Without(box[1..], n);
    assert Without(box, n) == [box[0]] + rest;
    assert ([box[0]] + rest)[1..] == rest;
  }

  /** Taking out the first message that a receive from `from` accepts takes the first payload of its sender. */
  lemma {:induction false} FromWithoutFirst(box: seq<Node>, msg: seq<Msg>, from: Option<Tid>, x: Tid)
    requires NoDup(box) && (forall n :: n in box ==> n == MNext(MidOf(n)))
    requires FirstFrom(box, msg, from).Some? && M(msg, FirstFrom(box, msg, from).value).sender == Some(x)
    ensures var m := FirstFrom(box, msg, from).value;
            From(box, msg, x) == [M(msg, m).value] + From(Without(box, MNext(m)), msg, x)
  {
    var m := FirstFrom(box, msg, from).value;
    assert box[0] in box;
    if Matches(M(msg, MidOf(box[0])), from) {
      WithoutAt(box, 0);
      assert Without(box, box[0]) == box[1..];
    } else {
      assert forall n :: n in box[1..] ==> n in box;
      FromWithoutFirst(box[1..], msg, from, x);
      FirstFromIn(box[1..], msg, from);
      FromSkip(box, msg, MNext(m), x);
    }
  }

  lemma BoxFits(st: Store, d: Tid)
    requires Shape(st) && Sep(st.q)
    ensures NoDup(Q(st.q, TMsgq(d)))
    ensures forall n :: n in Q(st.q, TMsgq(d)) ==> n == MNext(MidOf(n)) && MidOf(n) < |st.msg|
  {
    forall n | n in Q(st.q, TMsgq(d)) ensures n == MNext(MidOf(n)) && MidOf(n) < |st.msg| {
      assert Fits(TMsgq(d), n, |st.pcb|, |st.tcb|, |st.msg|);
    }
  }

  /** What taking message `m` out of a mailbox leaves in the mailboxes. */
  lemma MsgFreeBox(st: Store, m: Mid, d: Tid)
    requires Shape(st)
    ensures Q(MsgFree(st, m).q, TMsgq(d)) == Without(Q(st.q, TMsgq(d)), MNext(m))
  {
    assert IsHead(FreeMsgs, |st.pcb|, |st.tcb|);
    MoveAt(st.q, MNext(m), FreeMsgs, TMsgq(d));
  }

  lemma MsgFreeElsewhere(st: Store, m: Mid, k: Node)
    requires Shape(st) && !k.TMsgq? && !k.FreeMsgs?
    ensures Q(MsgFree(st, m).q, k) == Q(st.q, k)
  {
    assert IsHead(FreeMsgs, |st.pcb|, |st.tcb|);
    MoveAt(st.q, MNext(m), FreeMsgs, k);
    assert MNext(m) in Q(st.q, k) ==> Fits(k, MNext(m), |st.pcb|, |st.tcb|, |st.msg|);
  }

  /** After `msgq_get` the receiver misses the first payload of the sender it got, nobody misses anything else. */
  lemma MsgGetPending(st: Store, from: Option<Tid>, d: Tid, x: Tid, e: Tid)
    requires Shape(st) && Sep(st.q) && MsgsAgree(st.q, st.msg, st.tcb)
    ensures var g := MsgGet(st, from, Some(d));
            Pending(st, x, e)
            == (if g.1.Some? && e == d && g.1.value.sender == Some(x) then [g.1.value.value] else [])
               + Pending(g.0, x, e)
  {
    hide Sep, Shaped, MsgFree, Without, Pending, MsgsAgree;
    var box := Q(st.q, TMsgq(d));
    var f := FirstFrom(box, st.msg, from);
    if f.Some? {
      MsgFreePending(st, from, d, x, e);
    }
  }

  lemma MsgFreePending(st: Store, from: Option<Tid>, d: Tid, x: Tid, e: Tid)
    requires Shape(st) && Sep(st.q) && FirstFrom(Q(st.q, TMsgq(d)), st.msg, from).Some?
    ensures var m := FirstFrom(Q(st.q, TMsgq(d)), st.msg, from).value;
            Pending(st, x, e)
            == (if e == d && M(st.msg, m).sender == Some(x) then [M(st.msg, m).value] else [])
               + Pending(MsgFree(st, m), x, e)
  {
    hide Shaped;
    var box, mine := Q(st.q, TMsgq(d)), Q(st.q, TMsgq(e));
    var m := FirstFrom(box, st.msg, from).value;
    BoxFits(st, d);
    BoxFits(st, e);
    FirstFromIn(box, st.msg, from);
    assert MNext(m) in box;
    MsgFreeBox(st, m, e);
    var left, msg' := Without(mine, MNext(m)), MsgFree(st, m).msg;
    PutM(st.msg, m, M(st.msg, m).(sender := None));
    assert MNext(m) in mine ==> e == d;
    hide Sep, MsgFree;
    FromFrame(left, st.msg, msg', x);
    if e == d {
      if M(st.msg, m).sender == Some(x) {
        FromWithoutFirst(box, st.msg, from, x);
      } else {
        FromWithoutOther(box, st.msg, MNext(m), x);
      }
    }
  }
}
