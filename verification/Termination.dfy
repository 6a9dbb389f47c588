/** What terminating one thread does (src/SSI/services/terminate_thread.c). */
module Termination {
  import opened Types
  import opened Seqs
  import opened Links
  import opened Store
  import opened Kernel
  import opened Invariant
  import opened Preserve
  import opened Lifecycle

  // ----- Moving the head of a list -----

  /** The head of list `from` goes to the tail of list `h`; nothing else changes. */
  lemma MoveHead(q: Lists, from: Node, h: Node)
    requires Sep(q) && h in q && h != from && Q(q, from) != []
    ensures var n := Q(q, from)[0]; var r := Move(q, n, h);
            && Q(r, from) == Q(q, from)[1..] && Q(r, h) == Q(q, h) + [n]
            && (forall k {:trigger Q(r, k)} :: k != from && k != h ==> Q(r, k) == Q(q, k))
  {
    var n := Q(q, from)[0];
    var r := Move(q, n, h);
    assert n in Q(q, from);
    forall k {:trigger Q(r, k)}
      ensures Q(r, k) == if k == from then Q(q, from)[1..] else if k == h then Q(q, h) + [n] else Q(q, k)
    {
      MoveAt(q, n, h, k);
      if k == from {
        WithoutAt(Q(q, k), 0);
      } else {
        assert n !in Q(q, k);
      }
    }
  }

  // ----- Draining the mailbox -----

  /** The mailbox of `t` is emptied into the free list, in order; nothing else changes. */
  ghost predicate Drained(st: Store, r: Store, t: Tid) {
    && r.tcb == st.tcb && r.pcb == st.pcb && |r.msg| == |st.msg|
    && Q(r.q, TMsgq(t)) == []
    && Q(r.q, FreeMsgs) == Q(st.q, FreeMsgs) + Q(st.q, TMsgq(t))
    && (forall k {:trigger Q(r.q, k)} :: k != TMsgq(t) && k != FreeMsgs ==> Q(r.q, k) == Q(st.q, k))
    && (forall m: Mid {:trigger M(r.msg, m)} :: MNext(m) !in Q(st.q, TMsgq(t)) ==> M(r.msg, m) == M(st.msg, m))
  }

  lemma HeadMsg(st: Store, t: Tid)
    requires Shape(st) && Q(st.q, TMsgq(t)) != []
    ensures var n := Q(st.q, TMsgq(t))[0]; n == MNext(MidOf(n)) && MidOf(n) < |st.msg| && FreeMsgs in st.q
  {
    var n := Q(st.q, TMsgq(t))[0];
    assert n in Q(st.q, TMsgq(t));
    assert Fits(TMsgq(t), n, |st.pcb|, |st.tcb|, |st.msg|);
    assert IsHead(FreeMsgs, |st.pcb|, |st.tcb|);
  }

  /** One round of the draining loop. */
  lemma DrainStep(st: Store, t: Tid)
    requires Shape(st) && Sep(st.q) && Q(st.q, TMsgq(t)) != []
    ensures var n := Q(st.q, TMsgq(t))[0]; var r := MsgFree(st, MidOf(n));
            && n == MNext(MidOf(n)) && MidOf(n) < |st.msg| && r.tcb == st.tcb && r.pcb == st.pcb && |r.msg| == |st.msg|
            && Q(r.q, TMsgq(t)) == Q(st.q, TMsgq(t))[1..]
            && Q(r.q, FreeMsgs) == Q(st.q, FreeMsgs) + [n]
            && (forall k {:trigger Q(r.q, k)} :: k != TMsgq(t) && k != FreeMsgs ==> Q(r.q, k) == Q(st.q, k))
            && (forall m: Mid {:trigger M(r.msg, m)} :: m != MidOf(n) ==> M(r.msg, m) == M(st.msg, m))
  {
    HeadMsg(st, t);
    hide Move, Sep;
    MoveHead(st.q, TMsgq(t), FreeMsgs);
    PutM(st.msg, MidOf(Q(st.q, TMsgq(t))[0]), M(st.msg, MidOf(Q(st.q, TMsgq(t))[0])).(sender := None));
  }

  lemma {:induction false} DrainKeeps(s: State, t: Tid)
    requires CoreInv(s)
    ensures CoreInv(s.(st := Drain(s.st, t))) && Drained(s.st, Drain(s.st, t), t)
    decreases |Q(s.st.q, TMsgq(t))|
  {
    hide Shape, Sep, ThreadsAgree, ThreadsClean, ProcsAgree, Tree, Owned, MsgsAgree, SchedAgree, NoLostWakeup, MsgFree;
    var st := s.st;
    if Q(st.q, TMsgq(t)) != [] {
      DrainStep(st, t);
      var m := MidOf(Q(st.q, TMsgq(t))[0]);
      var st1 := MsgFree(st, m);
      MsgFreeKeeps(s, m);
      DrainKeeps(s.(st := st1), t);
      var r := Drain(st1, t);
      assert Drain(st, t) == r;
      assert Q(st.q, TMsgq(t)) == [MNext(m)] + Q(st.q, TMsgq(t))[1..];
      forall x: Mid | MNext(x) !in Q(st.q, TMsgq(t)) ensures M(r.msg, x) == M(st.msg, x) {
        assert MNext(x) !in Q(st1.q, TMsgq(t));
        assert M(st1.msg, x) == M(st.msg, x);
      }
      forall k | k != TMsgq(t) && k != FreeMsgs ensures Q(r.q, k) == Q(st.q, k) {
        assert Q(st1.q, k) == Q(st.q, k);
      }
    }
  }

  // ----- Waking the waiters -----

  function Woken(tc: Tcb): Tcb { Resumed(tc.(errno := 1), None) }

  /** Those who wait for `t` are ready behind the others, with errno 1 and no sender; nothing else changes. */
  ghost predicate AllWoken(s: State, r: State, t: Tid) {
    && r == s.(st := s.st.(q := r.st.q, tcb := r.st.tcb), mem := r.mem)
    && |r.st.tcb| == |s.st.tcb|
    && Q(r.st.q, TWait4me(t)) == []
    && Q(r.st.q, ReadyQ) == Q(s.st.q, ReadyQ) + Q(s.st.q, TWait4me(t))
    && (forall k {:trigger Q(r.st.q, k)} :: k != TWait4me(t) && k != ReadyQ ==> Q(r.st.q, k) == Q(s.st.q, k))
    && (forall u: Tid {:trigger T(r.st.tcb, u)} ::
          T(r.st.tcb, u) == if TSched(u) in Q(s.st.q, TWait4me(t)) then Woken(T(s.st.tcb, u)) else T(s.st.tcb, u))
  }

  lemma HeadWaiter(s: State, t: Tid)
    requires CoreInv(s) && Q(s.st.q, TWait4me(t)) != []
    ensures var n := Q(s.st.q, TWait4me(t))[0];
            && n in Q(s.st.q, TWait4me(t)) && n == TSched(TidOf(n)) && TidOf(n) < |s.st.tcb| && ReadyQ in s.st.q
            && T(s.st.tcb, TidOf(n)).status == W4Msg
  {
    hide ThreadsAgree, ThreadsClean, ProcsAgree, Tree, Owned, MsgsAgree, NoLostWakeup, Sep;
    var n := Q(s.st.q, TWait4me(t))[0];
    assert n in Q(s.st.q, TWait4me(t));
    assert Fits(TWait4me(t), n, |s.st.pcb|, |s.st.tcb|, |s.st.msg|);
    assert IsHead(ReadyQ, |s.st.pcb|, |s.st.tcb|);
  }

  ghost function SetErrno(s: State, u: Tid): State {
    s.(st := s.st.(tcb := Put(s.st.tcb, u, T(s.st.tcb, u).(errno := 1))))
  }

  lemma SetErrnoKeeps(s: State, u: Tid)
    requires CoreInv(s) && T(s.st.tcb, u).status == W4Msg
    ensures CoreInv(SetErrno(s, u))
  {
    hide Shape, Sep, ThreadsAgree, ProcsAgree, Tree, Owned, MsgsAgree, SchedAgree;
    var tcb' := SetErrno(s, u).st.tcb;
    PutT(s.st.tcb, u, T(s.st.tcb, u).(errno := 1));
    LifeKeeps(s.st.q, s.st.pcb, s.st.msg, s.st.tcb, tcb');
    ErrnoSched(s.st.q, s.st.tcb, s.current, u);
    assert |tcb'| == |s.st.tcb|;
    ShapeSame(s.st, tcb');
  }

  lemma ShapeSame(st: Store, tcb': seq<Tcb>)
    requires Shape(st) && |tcb'| == |st.tcb|
    ensures Shape(st.(tcb := tcb'))
  {
  }

  lemma ErrnoSched(q: Lists, tcb: seq<Tcb>, current: Option<Tid>, u: Tid)
    requires SchedAgree(q, tcb, current)
    ensures SchedAgree(q, Put(tcb, u, T(tcb, u).(errno := 1)), current)
  {
    PutT(tcb, u, T(tcb, u).(errno := 1));
  }

  ghost function WakeHead(s: State, t: Tid): State
    requires Q(s.st.q, TWait4me(t)) != []
  {
    var u := TidOf(Q(s.st.q, TWait4me(t))[0]);
    Resume(SetErrno(s, u), u, None, 0)
  }

  /** One round of the waking loop. */
  lemma WakeStep(s: State, t: Tid)
    requires CoreInv(s) && Q(s.st.q, TWait4me(t)) != []
    ensures var n := Q(s.st.q, TWait4me(t))[0]; var u := TidOf(n); var r := WakeHead(s, t);
            && CoreInv(r) && n == TSched(u)
            && r == s.(st := s.st.(q := r.st.q, tcb := r.st.tcb), mem := r.mem) && |r.st.tcb| == |s.st.tcb|
            && Q(r.st.q, TWait4me(t)) == Q(s.st.q, TWait4me(t))[1..]
            && Q(r.st.q, ReadyQ) == Q(s.st.q, ReadyQ) + [n]
            && (forall k {:trigger Q(r.st.q, k)} :: k != TWait4me(t) && k != ReadyQ ==> Q(r.st.q, k) == Q(s.st.q, k))
            && (forall x: Tid {:trigger T(r.st.tcb, x)} ::
                  T(r.st.tcb, x) == if x == u then Woken(T(s.st.tcb, u)) else T(s.st.tcb, x))
  {
    HeadWaiter(s, t);
    hide Shape, Sep, ThreadsAgree, ThreadsClean, ProcsAgree, Tree, Owned, MsgsAgree, SchedAgree, NoLostWakeup, Move;
    var u := TidOf(Q(s.st.q, TWait4me(t))[0]);
    var s1 := SetErrno(s, u);
    SetErrnoKeeps(s, u);
    PutT(s.st.tcb, u, T(s.st.tcb, u).(errno := 1));
    PutT(s1.st.tcb, u, Resumed(T(s1.st.tcb, u), None));
    ResumeKeeps(s1, u, None, 0);
    MoveHead(s.st.q, TWait4me(t), ReadyQ);
  }

  lemma {:induction false} WakeKeeps(s: State, t: Tid)
    requires CoreInv(s)
    ensures CoreInv(Wake(s, t)) && AllWoken(s, Wake(s, t), t)
    decreases |Q(s.st.q, TWait4me(t))|
  {
    hide CoreInv, Resume;
    if Q(s.st.q, TWait4me(t)) == [] {
      assert forall u: Tid :: TSched(u) !in Q(s.st.q, TWait4me(t));
    } else {
      WakeStep(s, t);
      var s1, n := WakeHead(s, t), Q(s.st.q, TWait4me(t))[0];
      WakeKeeps(s1, t);
      var r := Wake(s1, t);
      assert Wake(s, t) == r;
      assert Q(s.st.q, TWait4me(t)) == [n] + Q(s.st.q, TWait4me(t))[1..];
      WokenOnce(s, t);
      forall k | k != TWait4me(t) && k != ReadyQ ensures Q(r.st.q, k) == Q(s.st.q, k) {
        assert Q(s1.st.q, k) == Q(s.st.q, k);
      }
      forall x: Tid
        ensures T(r.st.tcb, x) == if TSched(x) in Q(s.st.q, TWait4me(t)) then Woken(T(s.st.tcb, x)) else T(s.st.tcb, x)
      {
        assert T(s1.st.tcb, x) == if x == TidOf(n) then Woken(T(s.st.tcb, x)) else T(s.st.tcb, x);
        assert TSched(x) in Q(s.st.q, TWait4me(t)) <==> x == TidOf(n) || TSched(x) in Q(s1.st.q, TWait4me(t));
      }
    }
  }

  /** After the loop, the cells of those in `ws` are cleared, and no other cell was written. */
  ghost predicate CellsCleared(ws: seq<Node>, tcb: seq<Tcb>, mem: map<nat, Value>, mem': map<nat, Value>) {
    && (forall a: nat {:trigger a in mem'} ::
          ((a in mem <==> a in mem') && (a in mem ==> mem[a] == mem'[a]))
          || (a != NULL_ADDR && a in mem' && mem'[a] == 0 && exists n :: n in ws && T(tcb, TidOf(n)).regs.a3 == a))
    && (forall n {:trigger n in ws} :: n in ws && T(tcb, TidOf(n)).regs.a3 != NULL_ADDR ==>
          T(tcb, TidOf(n)).regs.a3 in mem' && mem'[T(tcb, TidOf(n)).regs.a3] == 0)
  }

  lemma {:induction false} WakeCells(s: State, t: Tid)
    requires CoreInv(s)
    ensures CellsCleared(Q(s.st.q, TWait4me(t)), s.st.tcb, s.mem, Wake(s, t).mem)
    decreases |Q(s.st.q, TWait4me(t))|
  {
    hide CoreInv, CellsCleared, Resume;
    var ws := Q(s.st.q, TWait4me(t));
    if ws == [] {
      NothingCleared(s.st.tcb, s.mem);
    } else {
      WakeStep(s, t);
      var s1, u := WakeHead(s, t), TidOf(ws[0]);
      assert s1.mem == StoreAt(s.mem, T(s.st.tcb, u).regs.a3, 0) by { WokenCell(s, u); }
      WakeCells(s1, t);
      assert Wake(s, t) == Wake(s1, t);
      assert forall n :: T(s1.st.tcb, TidOf(n)).regs.a3 == T(s.st.tcb, TidOf(n)).regs.a3;
      ClearedMore(ws, s.st.tcb, s1.st.tcb, s.mem, s1.mem, Wake(s1, t).mem);
    }
  }

  lemma NothingCleared(tcb: seq<Tcb>, mem: map<nat, Value>)
    ensures CellsCleared([], tcb, mem, mem)
  {
  }

  lemma WokenCell(s: State, u: Tid)
    ensures Resume(SetErrno(s, u), u, None, 0).mem == StoreAt(s.mem, T(s.st.tcb, u).regs.a3, 0)
  {
  }

  lemma ClearedMore(ws: seq<Node>, tcb: seq<Tcb>, tcb': seq<Tcb>, m: map<nat, Value>, m': map<nat, Value>,
                    m'': map<nat, Value>)
    requires ws != [] && m' == StoreAt(m, T(tcb, TidOf(ws[0])).regs.a3, 0) && CellsCleared(ws[1..], tcb', m', m'')
    requires forall n {:trigger T(tcb', TidOf(n))} :: T(tcb', TidOf(n)).regs.a3 == T(tcb, TidOf(n)).regs.a3
    ensures CellsCleared(ws, tcb, m, m'')
  {
    var a0 := T(tcb, TidOf(ws[0])).regs.a3;
    assert ws[0] in ws && forall n :: n in ws <==> n == ws[0] || n in ws[1..];
    forall a: nat | !((a in m <==> a in m'') && (a in m ==> m[a] == m''[a]))
      ensures a != NULL_ADDR && a in m'' && m''[a] == 0 && exists n :: n in ws && T(tcb, TidOf(n)).regs.a3 == a
    {
      if a == a0 && (a in m' <==> a in m'') && (a in m' ==> m'[a] == m''[a]) {
        assert T(tcb, TidOf(ws[0])).regs.a3 == a;
      } else {
        var n :| n in ws[1..] && T(tcb', TidOf(n)).regs.a3 == a;
        assert n in ws;
      }
    }
  }

  lemma WokenOnce(s: State, t: Tid)
    requires CoreInv(s) && Q(s.st.q, TWait4me(t)) != []
    ensures Q(s.st.q, TWait4me(t))[0] !in Q(s.st.q, TWait4me(t))[1..]
  {
    hide Shape, ThreadsAgree, ThreadsClean, ProcsAgree, Tree, Owned, MsgsAgree, SchedAgree, NoLostWakeup;
    assert NoDup(Q(s.st.q, TWait4me(t)));
  }

  // ----- Killing a thread -----

  /** Where each list stands once `t` is gone. */
  ghost predicate KilledLists(q: Lists, r: Lists, t: Tid) {
    && Q(r, FreeThreads) == Q(q, FreeThreads) + [TNext(t)]
    && Q(r, FreeMsgs) == Q(q, FreeMsgs) + Q(q, TMsgq(t))
    && Q(r, ReadyQ) == Without(Q(q, ReadyQ) + Q(q, TWait4me(t)), TSched(t))
    && Q(r, BlockedQ) == Without(Q(q, BlockedQ), TSched(t))
    && (forall p: Pid {:trigger Q(r, PThreads(p))} :: Q(r, PThreads(p)) == Without(Q(q, PThreads(p)), TNext(t)))
    && (forall p: Pid {:trigger Q(r, PChildren(p))} :: Q(r, PChildren(p)) == Q(q, PChildren(p)))
    && Q(r, FREE_PROCS) == Q(q, FREE_PROCS)
    && (forall d: Tid {:trigger Q(r, TMsgq(d))} :: Q(r, TMsgq(d)) == if d == t then [] else Q(q, TMsgq(d)))
    && (forall u: Tid {:trigger Q(r, TWait4me(u))} ::
          Q(r, TWait4me(u)) == if u == t then [] else Without(Q(q, TWait4me(u)), TSched(t)))
  }

  /** `t` is unused and clean, whoever waited for it is woken, everybody else is untouched. */
  ghost predicate KilledThreads(q: Lists, tcb: seq<Tcb>, tcb': seq<Tcb>, t: Tid) {
    && |tcb'| == |tcb|
    && T(tcb', t) == Cleaned(T(tcb', t))
    && (forall u: Tid {:trigger T(tcb', u)} :: u != t ==>
          T(tcb', u) == if TSched(u) in Q(q, TWait4me(t)) then Woken(T(tcb, u)) else T(tcb, u))
  }

  ghost predicate Killed(s: State, r: State, t: Tid) {
    && r == s.(st := r.st, mem := r.mem, count := s.count - 1)
    && r.st.pcb == s.st.pcb && |r.st.msg| == |s.st.msg|
    && KilledLists(s.st.q, r.st.q, t)
    && KilledThreads(s.st.q, s.st.tcb, r.st.tcb, t)
    && (forall m: Mid {:trigger M(r.st.msg, m)} :: MNext(m) !in Q(s.st.q, TMsgq(t)) ==> M(r.st.msg, m) == M(s.st.msg, m))
  }

  /** A list whose members are not of the kind of `n` does not change when `n` is taken out. */
  lemma OtherKind(q: Lists, k: Node, n: Node, np: nat, nt: nat, nm: nat)
    requires Shaped(q, np, nt, nm) && !Fits(k, n, np, nt, nm)
    ensures Without(Q(q, k), n) == Q(q, k)
  {
    assert n in Q(q, k) ==> Fits(k, n, np, nt, nm);
  }

  lemma FreeAt(st: Store, t: Tid, k: Node)
    requires Shape(st) && ThreadFree(st, t).1 == 0
    ensures Q(ThreadFree(st, t).0.q, k)
            == var rest := Without(Without(Q(st.q, k), TSched(t)), TNext(t));
               if k == FreeThreads then rest + [TNext(t)] else rest
  {
    hide Move;
    assert IsHead(FreeThreads, |st.pcb|, |st.tcb|);
    MoveAt(Unlink(st.q, TSched(t)), TNext(t), FreeThreads, k);
    assert Q(Unlink(st.q, TSched(t)), k) == Without(Q(st.q, k), TSched(t));
  }

  /** `thread_free` moves `t_next` to the free list and takes `t_sched` off its list. */
  ghost predicate FreedLists(q: Lists, r: Lists, t: Tid) {
    && Q(r, FreeThreads) == Q(q, FreeThreads) + [TNext(t)] && Q(r, FreeMsgs) == Q(q, FreeMsgs)
    && Q(r, ReadyQ) == Without(Q(q, ReadyQ), TSched(t))
    && Q(r, BlockedQ) == Without(Q(q, BlockedQ), TSched(t))
    && Q(r, FREE_PROCS) == Q(q, FREE_PROCS)
    && (forall p: Pid {:trigger Q(r, PThreads(p))} :: Q(r, PThreads(p)) == Without(Q(q, PThreads(p)), TNext(t)))
    && (forall p: Pid {:trigger Q(r, PChildren(p))} :: Q(r, PChildren(p)) == Q(q, PChildren(p)))
    && (forall d: Tid {:trigger Q(r, TMsgq(d))} :: Q(r, TMsgq(d)) == Q(q, TMsgq(d)))
    && (forall u: Tid {:trigger Q(r, TWait4me(u))} :: Q(r, TWait4me(u)) == Without(Q(q, TWait4me(u)), TSched(t)))
  }

  lemma FreeSched(st: Store, t: Tid, k: Node)
    requires Shape(st) && ThreadFree(st, t).1 == 0 && t < |st.tcb| && (k.ReadyQ? || k.BlockedQ? || k.TWait4me?)
    ensures Q(ThreadFree(st, t).0.q, k) == Without(Q(st.q, k), TSched(t))
  {
    hide Without, Shaped, Q;
    FreeAt(st, t, k);
    OtherKindAfter(st.q, k, TSched(t), TNext(t), |st.pcb|, |st.tcb|, |st.msg|);
    hide *;
  }

  lemma FreeNext(st: Store, t: Tid, k: Node)
    requires Shape(st) && ThreadFree(st, t).1 == 0 && (k.PThreads? || k.FreeThreads?)
    ensures Q(ThreadFree(st, t).0.q, k)
            == var rest := Without(Q(st.q, k), TNext(t)); if k == FreeThreads then rest + [TNext(t)] else rest
  {
    FreeAt(st, t, k);
    hide ThreadFree;
    OtherKind(st.q, k, TSched(t), |st.pcb|, |st.tcb|, |st.msg|);
  }

  lemma FreeOther(st: Store, t: Tid, k: Node)
    requires Shape(st) && ThreadFree(st, t).1 == 0
    requires k.PChildren? || k.PSiblings? || k.TMsgq? || k.FreeMsgs?
    ensures Q(ThreadFree(st, t).0.q, k) == Q(st.q, k)
  {
    FreeAt(st, t, k);
    hide ThreadFree;
    OtherKind(st.q, k, TSched(t), |st.pcb|, |st.tcb|, |st.msg|);
    OtherKind(st.q, k, TNext(t), |st.pcb|, |st.tcb|, |st.msg|);
  }

  lemma FreeLists(st: Store, t: Tid)
    requires Shape(st) && ThreadFree(st, t).1 == 0 && TNext(t) !in Q(st.q, FreeThreads) && t < |st.tcb|
    ensures FreedLists(st.q, ThreadFree(st, t).0.q, t)
  {
    hide Shape, ThreadFree, Without;
    var q, r := st.q, ThreadFree(st, t).0.q;
    FreeNext(st, t, FreeThreads);
    FreeOther(st, t, FreeMsgs);
    FreeOther(st, t, FREE_PROCS);
    FreeSched(st, t, ReadyQ);
    FreeSched(st, t, BlockedQ);
    forall p: Pid ensures Q(r, PThreads(p)) == Without(Q(q, PThreads(p)), TNext(t)) { FreeNext(st, t, PThreads(p)); }
    forall p: Pid ensures Q(r, PChildren(p)) == Q(q, PChildren(p)) { FreeOther(st, t, PChildren(p)); }
    forall d: Tid ensures Q(r, TMsgq(d)) == Q(q, TMsgq(d)) { FreeOther(st, t, TMsgq(d)); }
    forall u: Tid ensures Q(r, TWait4me(u)) == Without(Q(q, TWait4me(u)), TSched(t)) { FreeSched(st, t, TWait4me(u)); }
  }

  lemma OtherKindAfter(q: Lists, k: Node, a: Node, n: Node, np: nat, nt: nat, nm: nat)
    requires Shaped(q, np, nt, nm) && !Fits(k, n, np, nt, nm)
    ensures Without(Without(Q(q, k), a), n) == Without(Q(q, k), a)
  {
    assert n in Q(q, k) ==> Fits(k, n, np, nt, nm);
  }

  lemma NotFree(st: Store, t: Tid)
    requires StoreInv(st) && 1 <= t && Live(st.tcb, t)
    ensures TNext(t) !in Q(st.q, FreeThreads) && t < |st.tcb|
  {
    hide Shape, ProcsAgree, Tree, Owned, MsgsAgree;
  }

  lemma KillLists(s: State, d: State, w: State, r: Lists, t: Tid)
    requires Drained(s.st, d.st, t) && AllWoken(d, w, t) && FreedLists(w.st.q, r, t)
    ensures KilledLists(s.st.q, r, t)
  {
    hide Without, Q;
    forall p: Pid ensures Q(r, PThreads(p)) == Without(Q(s.st.q, PThreads(p)), TNext(t)) {
      assert Q(w.st.q, PThreads(p)) == Q(d.st.q, PThreads(p)) == Q(s.st.q, PThreads(p));
    }
    forall p: Pid ensures Q(r, PChildren(p)) == Q(s.st.q, PChildren(p)) {
      assert Q(w.st.q, PChildren(p)) == Q(d.st.q, PChildren(p)) == Q(s.st.q, PChildren(p));
    }
    forall u: Tid ensures Q(r, TMsgq(u)) == if u == t then [] else Q(s.st.q, TMsgq(u)) {
      assert Q(w.st.q, TMsgq(u)) == Q(d.st.q, TMsgq(u));
    }
    forall u: Tid ensures Q(r, TWait4me(u)) == if u == t then [] else Without(Q(s.st.q, TWait4me(u)), TSched(t)) {
      assert u != t ==> Q(w.st.q, TWait4me(u)) == Q(d.st.q, TWait4me(u)) == Q(s.st.q, TWait4me(u));
      assert Without([], TSched(t)) == [] by { WithoutNil(TSched(t)); }
    }
    assert Q(d.st.q, TWait4me(t)) == Q(s.st.q, TWait4me(t)) && Q(d.st.q, ReadyQ) == Q(s.st.q, ReadyQ);
    assert Q(w.st.q, FreeThreads) == Q(d.st.q, FreeThreads) == Q(s.st.q, FreeThreads);
    assert Q(w.st.q, BlockedQ) == Q(d.st.q, BlockedQ) == Q(s.st.q, BlockedQ);
    assert Q(w.st.q, FREE_PROCS) == Q(d.st.q, FREE_PROCS) == Q(s.st.q, FREE_PROCS);
  }

  lemma WithoutNil(n: Node)
    ensures Without<Node>([], n) == []
  {
  }

  lemma FreeSucceeds(w: State, t: Tid)
    requires CoreInv(w) && 1 <= t && Live(w.st.tcb, t) && w.current != Some(t)
    requires Q(w.st.q, TMsgq(t)) == [] && Q(w.st.q, TWait4me(t)) == []
    ensures var f := ThreadFree(w.st, t);
            && f.1 == 0 && CoreInv(w.(st := f.0)) && FreedLists(w.st.q, f.0.q, t) && t < |w.st.tcb|
            && f.0 == w.st.(q := f.0.q, tcb := Put(w.st.tcb, t, Cleaned(T(w.st.tcb, t))))
  {
    hide Shape, Sep, ThreadsAgree, ThreadsClean, ProcsAgree, Tree, Owned, MsgsAgree, SchedAgree, NoLostWakeup,
      FreedLists, Move, Unlink;
    NotFree(w.st, t);
    ThreadFreeKeeps(w, t);
    FreeLists(w.st, t);
  }

  lemma CountIrrelevant(s: State, n: int)
    requires CoreInv(s)
    ensures CoreInv(s.(count := n))
  {
    hide StoreInv, SchedAgree, NoLostWakeup;
  }

  lemma KillTcbs(s: State, d: State, w: State, t: Tid)
    requires Drained(s.st, d.st, t) && AllWoken(d, w, t) && t < |s.st.tcb|
    ensures KilledThreads(s.st.q, s.st.tcb, Put(w.st.tcb, t, Cleaned(T(w.st.tcb, t))), t)
  {
    hide Q;
    PutT(w.st.tcb, t, Cleaned(T(w.st.tcb, t)));
    assert Q(d.st.q, TWait4me(t)) == Q(s.st.q, TWait4me(t));
  }

  /** Terminating a live thread of the pool always completes: `thread_free` returns 0. */
  lemma KillKeeps(s: State, t: Tid)
    requires CoreInv(s) && 1 <= t && Live(s.st.tcb, t) && s.current != Some(t)
    ensures CoreInv(KillThread(s, t)) && Killed(s, KillThread(s, t), t)
    ensures ThreadFree(Wake(s.(st := Drain(s.st, t)), t).st, t).1 == 0
  {
    hide CoreInv, Drain, Wake, ThreadFree, KilledLists, FreedLists, KilledThreads;
    var d := s.(st := Drain(s.st, t));
    DrainKeeps(s, t);
    WakeKeeps(d, t);
    var w := Wake(d, t);
    assert Live(w.st.tcb, t) by { assert T(d.st.tcb, t) == T(s.st.tcb, t); }
    assert Q(w.st.q, TMsgq(t)) == Q(d.st.q, TMsgq(t)) == [];
    FreeSucceeds(w, t);
    var f := ThreadFree(w.st, t).0;
    CountIrrelevant(w.(st := f), s.count - 1);
    KillLists(s, d, w, f.q, t);
    KillTcbs(s, d, w, t);
    assert KillThread(s, t) == w.(st := f, count := s.count - 1);
  }
}
