/** Creating processes and threads is all-or-nothing (src/SSI/services/create_process.c). */
module Creation {
  import opened Types
  import opened Seqs
  import opened Links
  import opened Store
  import opened Kernel
  import opened Invariant
  import opened Lifecycle
  import opened Termination
  import opened Subtree

  /** One clean, ready thread `t` of process `p` more, taken from the head of the free list. */
  ghost predicate ThreadAdded(s: State, r: State, t: Tid, p: Pid, init: Regs) {
    && r == s.(st := s.st.(q := r.st.q, tcb := r.st.tcb), count := s.count + 1)
    && 1 <= t < |s.st.tcb| && !Live(s.st.tcb, t)
    && r.st.tcb == s.st.tcb[t := Born(p, init)]
    && Q(s.st.q, FreeThreads) == [TNext(t)] + Q(r.st.q, FreeThreads)
    && Q(r.st.q, PThreads(p)) == Q(s.st.q, PThreads(p)) + [TNext(t)]
    && Q(r.st.q, ReadyQ) == Q(s.st.q, ReadyQ) + [TSched(t)]
    && (forall k {:trigger Q(r.st.q, k)} ::
          k != FreeThreads && k != PThreads(p) && k != ReadyQ ==> Q(r.st.q, k) == Q(s.st.q, k))
  }

  lemma CreateThreadEffect(s: State, init: Regs, p: Pid)
    requires CoreInv(s) && p < |s.st.pcb|
    ensures var r := CreateThreadIn(s, init, Some(p));
            if Q(s.st.q, FreeThreads) == [] then r == (s, None)
            else r.1.Some? && ThreadAdded(s, r.0, r.1.value, p, init)
  {
    hide SchedAgree, NoLostWakeup, Sep, ProcsAgree, Tree, Owned, MsgsAgree, Shaped, ThreadsAgree, ThreadsClean, Move,
      Append;
    var st := s.st;
    if Q(st.q, FreeThreads) != [] {
      FreeThread(st);
      var n := Q(st.q, FreeThreads)[0];
      var t := TidOf(n);
      DeadThread(st, t);
      Headed(st, p);
      MoveHead(st.q, FreeThreads, PThreads(p));
      var q1 := Move(st.q, n, PThreads(p));
      var q2 := Append(q1, ReadyQ, TSched(t));
      AppendAt(q1, ReadyQ, TSched(t));
      var r := CreateThreadIn(s, init, Some(p));
      assert r.0.st.q == q2;
      assert r.0.st.tcb == st.tcb[t := Born(p, init)];
      assert Q(st.q, FreeThreads) == [n] + Q(st.q, FreeThreads)[1..];
      forall k | k != FreeThreads && k != PThreads(p) && k != ReadyQ ensures Q(q2, k) == Q(st.q, k) {
        assert Q(q1, k) == Q(st.q, k);
      }
      assert Q(q1, ReadyQ) == Q(st.q, ReadyQ);
    }
  }

  lemma Headed(st: Store, p: Pid)
    requires Shape(st) && p < |st.pcb|
    ensures PThreads(p) in st.q && PChildren(p) in st.q && ReadyQ in st.q && FREE_PROCS in st.q
  {
    assert IsHead(PThreads(p), |st.pcb|, |st.tcb|) && IsHead(PChildren(p), |st.pcb|, |st.tcb|);
    assert IsHead(ReadyQ, |st.pcb|, |st.tcb|) && IsHead(FREE_PROCS, |st.pcb|, |st.tcb|);
  }

  lemma AppendAt(q: Lists, h: Node, n: Node)
    ensures Q(Append(q, h, n), h) == Q(q, h) + [n]
    ensures forall k {:trigger Q(Append(q, h, n), k)} :: k != h ==> Q(Append(q, h, n), k) == Q(q, k)
  {
  }

  /** One process `c` more, a child of `p`, without managers. */
  ghost predicate ProcessAdded(s: State, r: State, c: Pid, p: Pid) {
    && r == s.(st := s.st.(q := r.st.q, pcb := r.st.pcb))
    && 1 <= c < |s.st.pcb| && !Allocated(s.st.pcb, c)
    && r.st.pcb == s.st.pcb[c := Pcb(Some(p), None, None, None)]
    && Q(s.st.q, FREE_PROCS) == [PSiblings(c)] + Q(r.st.q, FREE_PROCS)
    && Q(r.st.q, PChildren(p)) == Q(s.st.q, PChildren(p)) + [PSiblings(c)]
    && (forall k {:trigger Q(r.st.q, k)} :: k != FREE_PROCS && k != PChildren(p) ==> Q(r.st.q, k) == Q(s.st.q, k))
  }

  lemma ProcAllocEffect(s: State, p: Pid)
    requires CoreInv(s) && Allocated(s.st.pcb, p)
    ensures var r := ProcAlloc(s.st, Some(p));
            if Q(s.st.q, FREE_PROCS) == [] then r == (s.st, None)
            else r.1.Some? && ProcessAdded(s, s.(st := r.0), r.1.value, p)
  {
    hide SchedAgree, NoLostWakeup, Sep, Owned, MsgsAgree, Shaped, ThreadsAgree, ThreadsClean, Move;
    var st := s.st;
    if Q(st.q, FREE_PROCS) != [] {
      HeadProc(st);
      var n := Q(st.q, FREE_PROCS)[0];
      Headed(st, p);
      MoveHead(st.q, FREE_PROCS, PChildren(p));
      assert P(st.pcb, n.p).parent == None;
      assert !Allocated(st.pcb, n.p);
      assert Q(st.q, FREE_PROCS) == [n] + Q(st.q, FREE_PROCS)[1..];
      hide Tree, ProcsAgree;
    }
  }

  /** Nothing changed, except that the head of the free list of processes may have gone to its tail. */
  ghost predicate Untouched(s: State, r: State) {
    && r == s.(st := s.st.(q := r.st.q))
    && (forall k {:trigger Q(r.st.q, k)} :: k != FREE_PROCS ==> Q(r.st.q, k) == Q(s.st.q, k))
    && var f := Q(s.st.q, FREE_PROCS);
       (Q(r.st.q, FREE_PROCS) == f || (f != [] && Q(r.st.q, FREE_PROCS) == f[1..] + [f[0]]))
  }

  /** Exactly one process with exactly one thread, both fresh. */
  ghost predicate Founded(s: State, r: State, t: Tid, p: Pid, init: Regs) {
    exists m: State, c: Pid :: ProcessAdded(s, m, c, p) && ThreadAdded(m, r, t, c, init) && Q(m.st.q, PThreads(c)) == []
  }

  /** The new process has neither threads nor children. */
  lemma NewIsEmpty(s: State, c: Pid)
    requires CoreInv(s) && !Allocated(s.st.pcb, c)
    ensures Q(s.st.q, PThreads(c)) == [] && Q(s.st.q, PChildren(c)) == []
  {
    hide SchedAgree, NoLostWakeup, Sep, MsgsAgree, ThreadsClean;
    forall n ensures n !in Q(s.st.q, PThreads(c)) {
      assert n in Q(s.st.q, PThreads(c)) ==> Fits(PThreads(c), n, |s.st.pcb|, |s.st.tcb|, |s.st.msg|);
      assert TNext(TidOf(n)) !in Q(s.st.q, PThreads(c));
    }
    forall n ensures n !in Q(s.st.q, PChildren(c)) {
      assert n in Q(s.st.q, PChildren(c)) ==> Fits(PChildren(c), n, |s.st.pcb|, |s.st.tcb|, |s.st.msg|);
      assert PSiblings(PidOf(n)) !in Q(s.st.q, PChildren(c));
    }
    HeadIn(Q(s.st.q, PThreads(c)));
    HeadIn(Q(s.st.q, PChildren(c)));
  }

  /** The rollback: deleting the process that was just allocated always succeeds and restores everything. */
  lemma RollbackEffect(s: State, m: State, c: Pid, p: Pid)
    requires CoreInv(s) && CoreInv(m) && ProcessAdded(s, m, c, p)
    ensures ProcDelete(m.st, c).1 && Untouched(s, m.(st := ProcDelete(m.st, c).0))
  {
    hide SchedAgree, NoLostWakeup, Owned, MsgsAgree, ThreadsAgree, ThreadsClean, Move, Tree, ProcsAgree, Without;
    assert P(s.st.pcb, c) == Pcb(None, None, None, None) by { FreeIsBlank(s.st.pcb, c); }
    NewIsEmpty(s, c);
    assert c != p || Q(m.st.q, PChildren(p)) != [];
    CannotParentItself(m.st.pcb, c, p);
    assert Q(m.st.q, PChildren(c)) == [] && Q(m.st.q, PThreads(c)) == [];
    var r := ProcDelete(m.st, c).0;
    assert r.pcb == s.st.pcb;
    hide Shaped;
    forall k ensures Q(r.q, k) == if k == FREE_PROCS then Q(m.st.q, k) + [PSiblings(c)] else Q(s.st.q, k) {
      DeleteAt(m.st, c, k);
      WithoutLast(s, m, c, p, k);
    }
  }

  lemma FreeIsBlank(pcb: seq<Pcb>, c: Pid)
    requires Tree(pcb) && !Allocated(pcb, c)
    ensures P(pcb, c) == Pcb(None, None, None, None)
  {
  }

  lemma CannotParentItself(pcb: seq<Pcb>, c: Pid, p: Pid)
    requires Tree(pcb) && P(pcb, c).parent == Some(p)
    ensures c != p
  {
    var h :| Heights(pcb, h);
    assert pcb[c].parent == Some(p);
  }

  lemma WithoutLast(s: State, m: State, c: Pid, p: Pid, k: Node)
    requires CoreInv(s) && ProcessAdded(s, m, c, p)
    ensures Without(Q(m.st.q, k), PSiblings(c)) == if k == FREE_PROCS then Q(m.st.q, k) else Q(s.st.q, k)
  {
    hide SchedAgree, NoLostWakeup, Owned, MsgsAgree, ThreadsAgree, ThreadsClean, Tree, ProcsAgree, Shaped;
    var n := PSiblings(c);
    assert n in Q(s.st.q, FREE_PROCS) by { assert Q(s.st.q, FREE_PROCS)[0] == n; }
    assert k != FREE_PROCS ==> n !in Q(s.st.q, k);
    if k == FREE_PROCS {
      assert NoDup(Q(s.st.q, k));
      forall i | 0 <= i < |Q(m.st.q, k)| ensures Q(m.st.q, k)[i] != n {
        assert Q(s.st.q, k)[0] != Q(s.st.q, k)[i + 1] == Q(m.st.q, k)[i];
      }
    } else if k == PChildren(p) {
      WithoutAppend(Q(s.st.q, k), [n], n);
    } else {
      assert Q(m.st.q, k) == Q(s.st.q, k);
    }
  }

  /** Creating a process either founds one process with one thread, or leaves everything as it was. */
  lemma CreateProcessEffect(s: State, init: Regs, a: Tid, p: Pid)
    requires CoreInv(s) && ProcOf(s, a) == Some(p)
    ensures var r := CreateProcess(s, init, a);
            && CoreInv(r.0)
            && (r.1.None? <==> Q(s.st.q, FREE_PROCS) == [] || Q(s.st.q, FreeThreads) == [])
            && if r.1.None? then Untouched(s, r.0) else Founded(s, r.0, r.1.value, p, init)
  {
    hide SchedAgree, NoLostWakeup, Sep, MsgsAgree, Shaped, ThreadsAgree, ThreadsClean, ProcAlloc, ProcDelete,
      CreateThreadIn, Tree, ProcsAgree;
    assert Allocated(s.st.pcb, p);
    hide Owned;
    ProcAllocEffect(s, p);
    ProcAllocKeeps(s, Some(p));
    var a1 := ProcAlloc(s.st, Some(p));
    if a1.1.Some? {
      var m, c := s.(st := a1.0), a1.1.value;
      assert Allocated(m.st.pcb, c);
      CreateThreadEffect(m, init, c);
      CreateKeeps(m, init, Some(c));
      assert Q(m.st.q, FreeThreads) == Q(s.st.q, FreeThreads);
      NewIsEmpty(s, c);
      assert Q(m.st.q, PThreads(c)) == [];
      if Q(s.st.q, FreeThreads) == [] {
        RollbackEffect(s, m, c, p);
        ProcDeleteKeeps(m, c);
      } else {
        assert Founded(s, CreateProcess(s, init, a).0, CreateProcess(s, init, a).1.value, p, init);
      }
    }
  }
}
