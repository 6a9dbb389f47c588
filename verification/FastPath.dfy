/** Handing a message straight to a blocked receiver refines queueing it and receiving it (src/handlers/syscall.c). */
module FastPath {
  import opened Types
  import opened Seqs
  import opened Links
  import opened Store
  import opened Kernel
  import opened Invariant
  import opened Preserve
  import opened Termination
  import opened Mail
  import opened Fifo
  import opened Machine

  /** The slow way: queue the message, let `d` run `msgq_get` for the sender it awaits, and make it ready
      with the sender in a1 and the payload in the cell that a3 points to. */
  ghost function QueueThenReceive(s: State, d: Tid, snd: Tid, v: Value): State {
    var tc := T(s.st.tcb, d);
    var g := MsgGet(MsgAdd(s.st, Some(snd), Some(d), v).0, tc.wait, Some(d));
    var got := if g.1.Some? then g.1.value else Msg(None, 0);
    s.(st := g.0.(q := Move(g.0.q, TSched(d), ReadyQ),
                  tcb := Put(g.0.tcb, d, tc.(regs := tc.regs.(a1 := Ptr(got.sender)), status := Ready, wait := None))),
       mem := StoreAt(s.mem, tc.regs.a3, got.value))
  }

  /** Equal up to the order and the contents of the free message slots. */
  ghost predicate SameButPool(a: State, b: State) {
    && a == b.(st := b.st.(q := a.st.q, msg := a.st.msg))
    && (forall k {:trigger Q(a.st.q, k)} :: k != FreeMsgs ==> Q(a.st.q, k) == Q(b.st.q, k))
    && multiset(Q(a.st.q, FreeMsgs)) == multiset(Q(b.st.q, FreeMsgs))
    && (forall m: Mid {:trigger M(a.st.msg, m)} :: MNext(m) !in Q(b.st.q, FreeMsgs) ==> M(a.st.msg, m) == M(b.st.msg, m))
  }

  /** What `msgq_add` followed by `msgq_get` does for a thread that awaits the sender. */
  lemma AddThenGet(s: State, d: Tid, snd: Tid, v: Value)
    requires CoreInv(s) && Awaits(T(s.st.tcb, d), snd) && Q(s.st.q, FreeMsgs) != []
    ensures var a := MsgAdd(s.st, Some(snd), Some(d), v).0; var m := MidOf(Q(s.st.q, FreeMsgs)[0]);
            && FirstFrom(Q(a.q, TMsgq(d)), a.msg, T(s.st.tcb, d).wait) == Some(m) && M(a.msg, m) == Msg(Some(snd), v)
            && Shape(a) && Sep(a.q) && d < |s.st.tcb|
            && Q(a.q, TMsgq(d)) == Q(s.st.q, TMsgq(d)) + [MNext(m)]
            && Q(a.q, FreeMsgs) == Q(s.st.q, FreeMsgs)[1..] && MNext(m) == Q(s.st.q, FreeMsgs)[0]
            && (forall k {:trigger Q(a.q, k)} :: k != FreeMsgs && k != TMsgq(d) ==> Q(a.q, k) == Q(s.st.q, k))
            && (forall x: Mid {:trigger M(a.msg, x)} :: x != m ==> M(a.msg, x) == M(s.st.msg, x))
            && a == s.st.(q := a.q, msg := a.msg) && |a.msg| == |s.st.msg| && m < |s.st.msg|
  {
    hide SchedAgree, ThreadsAgree, ThreadsClean, ProcsAgree, Tree, Owned, Move, Shaped;
    var st := s.st;
    FreeSlot(st);
    hide MsgsAgree;
    var n := Q(st.q, FreeMsgs)[0];
    var m := MidOf(n);
    var a := MsgAdd(st, Some(snd), Some(d), v).0;
    BoxHead(st, d);
    MoveHead(st.q, FreeMsgs, TMsgq(d));
    PutM(st.msg, m, Msg(Some(snd), v));
    MoveFacts(st.q, n, TMsgq(d));
    AddShape(st, n, d);
    var box, wait := Q(st.q, TMsgq(d)), T(st.tcb, d).wait;
    BoxFits(st, d);
    forall x | x in box ensures !Matches(M(a.msg, MidOf(x)), wait) { assert x != n; }
    hide NoLostWakeup, Sep;
    OnlyMatch(box, n, a.msg, wait);
  }

  lemma AddShape(st: Store, n: Node, d: Tid)
    requires Shape(st) && n.MNext? && n.m < |st.msg| && d < |st.tcb|
    ensures Shape(st.(q := Move(st.q, n, TMsgq(d)))) && n !in st.q
  {
    var np, nt, nm := |st.pcb|, |st.tcb|, |st.msg|;
    assert IsHead(TMsgq(d), np, nt) && Fits(TMsgq(d), n, np, nt, nm);
    FitsNotHead(st.q, TMsgq(d), n, np, nt, nm);
    hide Move;
    MoveFacts(st.q, n, TMsgq(d));
    ShapedMoved(st.q, Move(st.q, n, TMsgq(d)), n, TMsgq(d), np, nt, nm);
  }

  lemma {:induction false} OnlyMatch(box: seq<Node>, n: Node, msg: seq<Msg>, from: Option<Tid>)
    requires forall x :: x in box ==> !Matches(M(msg, MidOf(x)), from)
    requires Matches(M(msg, MidOf(n)), from)
    ensures FirstFrom(box + [n], msg, from) == Some(MidOf(n))
  {
    if box != [] {
      assert box[0] in box;
      assert forall x :: x in box[1..] ==> x in box;
      assert (box + [n])[0] == box[0] && (box + [n])[1..] == box[1..] + [n];
      OnlyMatch(box[1..], n, msg, from);
    }
  }

  /** The lists and records after the message went through the mailbox and back to the pool. */
  lemma ThroughTheBox(s: State, d: Tid, snd: Tid, v: Value)
    requires CoreInv(s) && Awaits(T(s.st.tcb, d), snd) && Q(s.st.q, FreeMsgs) != []
    ensures var g := MsgGet(MsgAdd(s.st, Some(snd), Some(d), v).0, T(s.st.tcb, d).wait, Some(d));
            && g.1 == Some(Msg(Some(snd), v)) && g.0 == s.st.(q := g.0.q, msg := g.0.msg)
            && (forall k {:trigger Q(g.0.q, k)} :: k != FreeMsgs ==> Q(g.0.q, k) == Q(s.st.q, k))
            && Q(g.0.q, FreeMsgs) == Q(s.st.q, FreeMsgs)[1..] + [Q(s.st.q, FreeMsgs)[0]]
            && (forall x: Mid {:trigger M(g.0.msg, x)} :: MNext(x) !in Q(s.st.q, FreeMsgs) ==> M(g.0.msg, x) == M(s.st.msg, x))
            && |g.0.msg| == |s.st.msg| && Shape(g.0)
  {
    hide CoreInv, MsgAdd, Sep;
    var a := MsgAdd(s.st, Some(snd), Some(d), v).0;
    AddThenGet(s, d, snd, v);
    var n := Q(s.st.q, FreeMsgs)[0];
    var m := MidOf(n);
    assert n in Q(s.st.q, FreeMsgs);
    var r := MsgFree(a, m);
    PutM(a.msg, m, M(a.msg, m).(sender := None));
    forall k: Node ensures Q(r.q, k)
      == if k == FreeMsgs then Q(a.q, k) + [n] else if k == TMsgq(d) then Q(s.st.q, k) else Q(a.q, k)
    {
      FreeLast(a, d, n, k, Q(s.st.q, TMsgq(d)));
    }
    FreeShape(a, m);
    hide MsgFree, Shaped;
  }

  lemma FreeShape(a: Store, m: Mid)
    requires Shape(a) && m < |a.msg|
    ensures Shape(MsgFree(a, m))
  {
    var np, nt, nm := |a.pcb|, |a.tcb|, |a.msg|;
    assert IsHead(FreeMsgs, np, nt) && Fits(FreeMsgs, MNext(m), np, nt, nm);
    hide Move;
    MoveFacts(a.q, MNext(m), FreeMsgs);
    ShapedMoved(a.q, MsgFree(a, m).q, MNext(m), FreeMsgs, np, nt, nm);
  }

  lemma FreeLast(a: Store, d: Tid, n: Node, k: Node, box: seq<Node>)
    requires Shape(a) && Sep(a.q) && n == MNext(MidOf(n)) && Q(a.q, TMsgq(d)) == box + [n]
    ensures Q(MsgFree(a, MidOf(n)).q, k)
            == if k == FreeMsgs then Q(a.q, k) + [n] else if k == TMsgq(d) then box else Q(a.q, k)
  {
    hide Move, Shaped;
    Heads(a);
    MoveAt(a.q, n, FreeMsgs, k);
    assert (box + [n])[|box|] == n;
    assert n in Q(a.q, TMsgq(d));
    if k == TMsgq(d) {
      assert NoDup(box + [n]);
      WithoutAt(box + [n], |box|);
      assert (box + [n])[..|box|] + (box + [n])[|box| + 1..] == box;
    } else {
      assert n !in Q(a.q, k);
    }
  }

  /** The fast path gives the receiver the same result and leaves the same mailboxes as the slow path. */
  lemma FastRefinesSlow(s: State, d: Tid, snd: Tid, v: Value)
    requires CoreInv(s) && Awaits(T(s.st.tcb, d), snd) && Q(s.st.q, FreeMsgs) != []
    ensures Send(s, d, snd, v).1 && SameButPool(QueueThenReceive(s, d, snd, v), Send(s, d, snd, v).0)
  {
    hide SchedAgree, ThreadsAgree, ThreadsClean, ProcsAgree, Tree, Owned, MsgsAgree, NoLostWakeup, Sep, Move, Shaped,
      MsgGet, MsgAdd, Without;
    ThroughTheBox(s, d, snd, v);
    var g := MsgGet(MsgAdd(s.st, Some(snd), Some(d), v).0, T(s.st.tcb, d).wait, Some(d));
    Heads(s.st);
    Heads(g.0);
    var a, b := QueueThenReceive(s, d, snd, v), Send(s, d, snd, v).0;
    forall k ensures k != FreeMsgs ==> Q(a.st.q, k) == Q(b.st.q, k) {
      MoveAt(g.0.q, TSched(d), ReadyQ, k);
      MoveAt(s.st.q, TSched(d), ReadyQ, k);
    }
    MoveAt(g.0.q, TSched(d), ReadyQ, FreeMsgs);
    MoveAt(s.st.q, TSched(d), ReadyQ, FreeMsgs);
    OtherKind(g.0.q, FreeMsgs, TSched(d), |s.st.pcb|, |s.st.tcb|, |s.st.msg|);
    OtherKind(s.st.q, FreeMsgs, TSched(d), |s.st.pcb|, |s.st.tcb|, |s.st.msg|);
    var f := Q(s.st.q, FreeMsgs);
    assert f == [f[0]] + f[1..];
    assert multiset(f[1..] + [f[0]]) == multiset(f);
  }

  /** The fast path needs no message slot: it succeeds even when the pool is exhausted, where queueing fails. */
  lemma FastNeedsNoSlot(s: State, d: Tid, snd: Tid, v: Value)
    requires CoreInv(s) && Live(s.st.tcb, d)
    ensures Send(s, d, snd, v).1 <==> Awaits(T(s.st.tcb, d), snd) || Q(s.st.q, FreeMsgs) != []
    ensures !Send(s, d, snd, v).1 ==> Send(s, d, snd, v).0 == s
  {
    hide CoreInv, Resume;
  }

  /** What a woken receiver finds: the sender in a1, the payload in its cell, and it is at the tail of the ready queue. */
  lemma DirectDelivery(s: State, d: Tid, snd: Tid, v: Value)
    requires CoreInv(s) && Awaits(T(s.st.tcb, d), snd)
    ensures var r := Send(s, d, snd, v).0; var tc := T(r.st.tcb, d);
            && tc.status == Ready && tc.wait == None && tc.regs.a1 == Ptr(Some(snd))
            && tc.regs.a3 == T(s.st.tcb, d).regs.a3
            && (tc.regs.a3 != NULL_ADDR ==> tc.regs.a3 in r.mem && r.mem[tc.regs.a3] == v)
            && (forall a :: a != tc.regs.a3 || a == NULL_ADDR ==> (a in r.mem <==> a in s.mem) && (a in r.mem ==> r.mem[a] == s.mem[a]))
            && ReadyList(r) == ReadyList(s) + [TSched(d)]
            && (forall u: Tid :: u != d ==> T(r.st.tcb, u) == T(s.st.tcb, u))
  {
    hide ThreadsAgree, ThreadsClean, ProcsAgree, Tree, Owned, MsgsAgree, NoLostWakeup, Sep, Move;
    PutT(s.st.tcb, d, Resumed(T(s.st.tcb, d), Some(snd)));
    Heads(s.st);
    MoveAt(s.st.q, TSched(d), ReadyQ, ReadyQ);
    assert TSched(d) !in Q(s.st.q, ReadyQ);
  }

  // ----- Selective receive -----

  /** `m` is the first message of the mailbox that a receive from `from` accepts. */
  ghost predicate IsFirst(box: seq<Node>, msg: seq<Msg>, from: Option<Tid>, k: nat) {
    && k < |box| && Matches(M(msg, MidOf(box[k])), from)
    && forall i :: 0 <= i < k ==> !Matches(M(msg, MidOf(box[i])), from)
  }

  lemma {:induction false} FirstFromPosition(box: seq<Node>, msg: seq<Msg>, from: Option<Tid>) returns (k: nat)
    requires FirstFrom(box, msg, from).Some?
    ensures IsFirst(box, msg, from, k) && FirstFrom(box, msg, from) == Some(MidOf(box[k]))
  {
    if Matches(M(msg, MidOf(box[0])), from) {
      k := 0;
    } else {
      var j := FirstFromPosition(box[1..], msg, from);
      k := j + 1;
      assert forall i :: 0 < i <= j ==> box[i] == box[1..][i - 1];
    }
  }

  /** The lists after message `k` of a mailbox has been freed. */
  lemma TakenFrom(st: Store, d: Tid, k: nat, h: Node)
    requires Shape(st) && Sep(st.q) && k < |Q(st.q, TMsgq(d))|
    ensures var box := Q(st.q, TMsgq(d));
            Q(MsgFree(st, MidOf(box[k])).q, h)
            == if h == TMsgq(d) then box[..k] + box[k + 1..]
               else if h == FreeMsgs then Q(st.q, h) + [box[k]] else Q(st.q, h)
  {
    hide Shaped, Move, Without;
    var box := Q(st.q, TMsgq(d));
    BoxFits(st, d);
    Heads(st);
    assert box[k] in box;
    WithoutAt(box, k);
    MoveAt(st.q, box[k], FreeMsgs, h);
    assert h != TMsgq(d) ==> box[k] !in Q(st.q, h);
  }

  lemma MessageTaken(st: Store, from: Option<Tid>, d: Tid, k: nat)
    requires Shape(st) && Sep(st.q) && k < |Q(st.q, TMsgq(d))|
    requires FirstFrom(Q(st.q, TMsgq(d)), st.msg, from) == Some(MidOf(Q(st.q, TMsgq(d))[k]))
    ensures var g := MsgGet(st, from, Some(d)); var box := Q(st.q, TMsgq(d));
            && g.1 == Some(M(st.msg, MidOf(box[k])))
            && Q(g.0.q, TMsgq(d)) == box[..k] + box[k + 1..]
            && Q(g.0.q, FreeMsgs) == Q(st.q, FreeMsgs) + [box[k]]
            && g.0.tcb == st.tcb && g.0.pcb == st.pcb
            && forall h {:trigger Q(g.0.q, h)} :: h != TMsgq(d) && h != FreeMsgs ==> Q(g.0.q, h) == Q(st.q, h)
  {
    hide FirstFrom, MsgFree, Shape, Sep, Q;
    var m := MidOf(Q(st.q, TMsgq(d))[k]);
    FreedRecords(st, m);
    TakenFrom(st, d, k, TMsgq(d));
    TakenFrom(st, d, k, FreeMsgs);
    forall h: Node | h != TMsgq(d) && h != FreeMsgs ensures Q(MsgFree(st, m).q, h) == Q(st.q, h) {
      TakenFrom(st, d, k, h);
    }
  }

  lemma FreedRecords(st: Store, m: Mid)
    ensures MsgFree(st, m).tcb == st.tcb && MsgFree(st, m).pcb == st.pcb
  {
  }

  /** `msgq_get` takes out exactly the first matching message and keeps the order of the rest; it fails,
      changing nothing, exactly when no message matches. */
  lemma SelectiveReceive(st: Store, from: Option<Tid>, d: Tid) returns (k: nat)
    requires Shape(st) && Sep(st.q)
    ensures var g := MsgGet(st, from, Some(d)); var box := Q(st.q, TMsgq(d));
            if forall i :: 0 <= i < |box| ==> !Matches(M(st.msg, MidOf(box[i])), from)
            then g == (st, None)
            else
              && IsFirst(box, st.msg, from, k) && g.1 == Some(M(st.msg, MidOf(box[k])))
              && Q(g.0.q, TMsgq(d)) == box[..k] + box[k + 1..]
              && Q(g.0.q, FreeMsgs) == Q(st.q, FreeMsgs) + [box[k]]
              && g.0.tcb == st.tcb && g.0.pcb == st.pcb
              && forall h {:trigger Q(g.0.q, h)} :: h != TMsgq(d) && h != FreeMsgs ==> Q(g.0.q, h) == Q(st.q, h)
  {
    hide MsgGet, Shape, Sep, Q, Matches;
    var box := Q(st.q, TMsgq(d));
    k := 0;
    FirstFromNone(box, st.msg, from);
    if FirstFrom(box, st.msg, from).Some? {
      k := FirstFromPosition(box, st.msg, from);
      MessageTaken(st, from, d, k);
    } else {
      NothingTaken(st, from, d);
      assert forall i :: 0 <= i < |box| ==> box[i] in box;
    }
  }

  lemma NothingTaken(st: Store, from: Option<Tid>, d: Tid)
    requires FirstFrom(Q(st.q, TMsgq(d)), st.msg, from).None?
    ensures MsgGet(st, from, Some(d)) == (st, None)
  {
  }
}
