/** Creating and freeing processes and threads keeps the invariant. */
module Lifecycle {
  import opened Types
  import opened Links
  import opened Store
  import opened Kernel
  import opened Invariant
  import opened Preserve

  // ----- Processes -----

  lemma HeadProc(st: Store)
    requires Shape(st) && Q(st.q, FREE_PROCS) != []
    ensures var n := Q(st.q, FREE_PROCS)[0];
            n in Q(st.q, FREE_PROCS) && n == PSiblings(PidOf(n)) && 1 <= PidOf(n) < |st.pcb|
  {
    var n := Q(st.q, FREE_PROCS)[0];
    assert n in Q(st.q, FREE_PROCS);
    assert Fits(FREE_PROCS, n, |st.pcb|, |st.tcb|, |st.msg|);
  }

  lemma MovedProcs(q: Lists, r: Lists, pcb: seq<Pcb>, c: Pid, x: Pcb)
    requires ProcsAgree(q, pcb) && 1 <= c < |pcb|
    requires Moved(q, r, PSiblings(c), if x.parent.Some? then PChildren(x.parent.value) else FREE_PROCS)
    ensures ProcsAgree(r, Put(pcb, c, x))
  {
    PutP(pcb, c, x);
  }

  /** A new leaf gets height 0, everybody else one more than before. */
  lemma AllocTree(pcb: seq<Pcb>, c: Pid, p: Pid)
    requires Tree(pcb) && 1 <= c < |pcb| && P(pcb, c).parent.None? && Allocated(pcb, p)
    ensures Tree(Put(pcb, c, P(pcb, c).(parent := Some(p))))
  {
    var pcb' := Put(pcb, c, P(pcb, c).(parent := Some(p)));
    PutP(pcb, c, P(pcb, c).(parent := Some(p)));
    assert !Allocated(pcb, c);
    var h :| Heights(pcb, h);
    var h' := seq(|h|, i requires 0 <= i < |h| => if i == c then 0 else h[i] + 1);
    forall i: Pid, u: Pid | P(pcb', i).parent == Some(u) ensures Allocated(pcb', u) && u != c {
      assert i != c ==> P(pcb, i).parent == Some(u);
      assert Allocated(pcb, u);
    }
    assert Heights(pcb', h') by {
      forall i | 0 <= i < |pcb'| && pcb'[i].parent.Some?
        ensures pcb'[i].parent.value < |h'| && h'[i] < h'[pcb'[i].parent.value]
      {
        assert P(pcb', i) == pcb'[i];
        var u := pcb'[i].parent.value;
        assert Allocated(pcb', u) && u != c;
        assert i != c ==> pcb[i].parent == Some(u);
      }
    }
    forall i: Pid | !Allocated(pcb', i) ensures P(pcb', i) == Pcb(None, None, None, None) {
      assert !Allocated(pcb, i);
    }
  }

  lemma DeleteTree(pcb: seq<Pcb>, p: Pid)
    requires Tree(pcb) && p != ROOT && forall c: Pid :: P(pcb, c).parent != Some(p)
    ensures Tree(Put(pcb, p, Pcb(None, None, None, None)))
  {
    var none := Pcb(None, None, None, None);
    var pcb' := Put(pcb, p, none);
    PutP(pcb, p, none);
    var h :| Heights(pcb, h);
    assert Heights(pcb', h);
    forall i: Pid, u: Pid | P(pcb', i).parent == Some(u) ensures Allocated(pcb', u) {
      assert P(pcb, i).parent == Some(u);
      assert Allocated(pcb, u) && u != p;
    }
    forall i: Pid | !Allocated(pcb', i) ensures P(pcb', i) == none {
      assert i != p ==> !Allocated(pcb, i);
    }
  }

  lemma AllocOwned(pcb: seq<Pcb>, tcb: seq<Tcb>, c: Pid, x: Pcb)
    requires Owned(pcb, tcb) && x.parent.Some?
    ensures Owned(Put(pcb, c, x), tcb)
  {
    PutP(pcb, c, x);
    forall t: Tid, p: Pid | T(tcb, t).pcb == Some(p) ensures Allocated(Put(pcb, c, x), p) {
      assert Allocated(pcb, p);
    }
  }

  lemma DeleteOwned(q: Lists, pcb: seq<Pcb>, tcb: seq<Tcb>, p: Pid)
    requires Owned(pcb, tcb) && ThreadsAgree(q, tcb) && ThreadsClean(tcb) && Q(q, PThreads(p)) == []
    ensures Owned(Put(pcb, p, Pcb(None, None, None, None)), tcb)
  {
    var none := Pcb(None, None, None, None);
    PutP(pcb, p, none);
    forall t: Tid, u: Pid | T(tcb, t).pcb == Some(u) ensures Allocated(Put(pcb, p, none), u) {
      assert Allocated(pcb, u);
      assert TNext(t) in Q(q, PThreads(u));
    }
  }

  lemma ProcAllocKeeps(s: State, p: Option<Pid>)
    requires CoreInv(s) && (p.Some? ==> Allocated(s.st.pcb, p.value))
    ensures CoreInv(s.(st := ProcAlloc(s.st, p).0))
  {
    hide Move, ThreadsAgree, SchedAgree, MsgsAgree, Tree, Owned, Sep, ThreadsClean, NoLostWakeup;
    var st := s.st;
    if p.Some? && Q(st.q, FREE_PROCS) != [] {
      HeadProc(st);
      var q, r, n, h := st.q, ProcAlloc(st, p).0.q, Q(st.q, FREE_PROCS)[0], PChildren(p.value);
      assert P(st.pcb, n.p).parent.None?;
      hide ProcsAgree;
      var np, nt, nm := |st.pcb|, |st.tcb|, |st.msg|;
      assert IsHead(h, np, nt) && Fits(h, n, np, nt, nm);
      FitsNotHead(q, h, n, np, nt, nm);
      MoveFacts(q, n, h);
      ShapedMoved(q, r, n, h, np, nt, nm);
      FrameThreads(q, r, n, st.tcb);
      FrameSched(q, r, n, st.tcb, s.current);
      FrameMsgs(q, r, n, st.msg, st.tcb);
      FrameWakeup(q, r, n, st.tcb, st.msg, np, nm);
      MovedProcs(q, r, st.pcb, n.p, P(st.pcb, n.p).(parent := p));
      AllocTree(st.pcb, n.p, p.value);
      AllocOwned(st.pcb, st.tcb, n.p, P(st.pcb, n.p).(parent := p));
    }
  }

  lemma Childless(q: Lists, pcb: seq<Pcb>, p: Pid)
    requires ProcsAgree(q, pcb) && Tree(pcb) && Q(q, PChildren(p)) == []
    ensures forall c: Pid :: P(pcb, c).parent != Some(p)
  {
    forall c: Pid ensures P(pcb, c).parent != Some(p) {
      assert PSiblings(c) !in Q(q, PChildren(p));
    }
  }

  lemma ProcDeleteKeeps(s: State, p: Pid)
    requires CoreInv(s)
    ensures CoreInv(s.(st := ProcDelete(s.st, p).0))
  {
    hide Move, SchedAgree, MsgsAgree, Owned, Sep, NoLostWakeup, ThreadsAgree, ProcsAgree, ThreadsClean;
    var st := s.st;
    if ProcDelete(st, p).1 {
      assert p != ROOT && p < |st.pcb|;
      hide Tree;
      var q, r, n := st.q, ProcDelete(st, p).0.q, PSiblings(p);
      var np, nt, nm := |st.pcb|, |st.tcb|, |st.msg|;
      assert IsHead(FREE_PROCS, np, nt) && Fits(FREE_PROCS, n, np, nt, nm);
      FitsNotHead(q, FREE_PROCS, n, np, nt, nm);
      MoveFacts(q, n, FREE_PROCS);
      ShapedMoved(q, r, n, FREE_PROCS, np, nt, nm);
      FrameThreads(q, r, n, st.tcb);
      FrameSched(q, r, n, st.tcb, s.current);
      FrameMsgs(q, r, n, st.msg, st.tcb);
      FrameWakeup(q, r, n, st.tcb, st.msg, np, nm);
      MovedProcs(q, r, st.pcb, p, Pcb(None, None, None, None));
      Childless(q, st.pcb, p);
      DeleteTree(st.pcb, p);
      DeleteOwned(q, st.pcb, st.tcb, p);
    }
  }

  // ----- Threads -----

  lemma FreeThread(st: Store)
    requires Shape(st) && ThreadsAgree(st.q, st.tcb) && ThreadsClean(st.tcb) && Q(st.q, FreeThreads) != []
    ensures var n := Q(st.q, FreeThreads)[0];
            && n in Q(st.q, FreeThreads) && n == TNext(TidOf(n)) && 1 <= TidOf(n) < |st.tcb|
            && T(st.tcb, TidOf(n)) == Cleaned(T(st.tcb, TidOf(n)))
  {
    var n := Q(st.q, FreeThreads)[0];
    assert n in Q(st.q, FreeThreads);
    assert Fits(FreeThreads, n, |st.pcb|, |st.tcb|, |st.msg|);
  }

  function Born(p: Pid, init: Regs): Tcb { Tcb(Some(p), init, Ready, 0, None) }

  lemma BornThreads(q: Lists, r: Lists, tcb: seq<Tcb>, t: Tid, p: Pid, init: Regs)
    requires ThreadsAgree(q, tcb) && ThreadsClean(tcb) && 1 <= t < |tcb| && Moved(q, r, TNext(t), PThreads(p))
    ensures ThreadsAgree(r, Put(tcb, t, Born(p, init))) && ThreadsClean(Put(tcb, t, Born(p, init)))
  {
    PutT(tcb, t, Born(p, init));
  }

  lemma BornOthers(q: Lists, pcb: seq<Pcb>, tcb: seq<Tcb>, msg: seq<Msg>, t: Tid, p: Pid, init: Regs)
    requires Owned(pcb, tcb) && MsgsAgree(q, msg, tcb) && NoLostWakeup(q, tcb, msg) && Allocated(pcb, p)
    ensures Owned(pcb, Put(tcb, t, Born(p, init))) && MsgsAgree(q, msg, Put(tcb, t, Born(p, init)))
    ensures NoLostWakeup(q, Put(tcb, t, Born(p, init)), msg)
  {
    PutT(tcb, t, Born(p, init));
  }

  lemma BornSched(q: Lists, r: Lists, tcb: seq<Tcb>, current: Option<Tid>, t: Tid, p: Pid, init: Regs)
    requires SchedAgree(q, tcb, current) && Moved(q, r, TSched(t), ReadyQ) && !Live(tcb, t) && t < |tcb|
    ensures SchedAgree(r, Put(tcb, t, Born(p, init)), current)
  {
    PutT(tcb, t, Born(p, init));
  }

  lemma SchedHead(s: State, h: Node, t: Tid)
    requires CoreInv(s) && TSched(t) in Q(s.st.q, h)
    ensures (h == ReadyQ || h == BlockedQ || h.TWait4me?) && Live(s.st.tcb, t)
  {
    hide ThreadsAgree, ProcsAgree, MsgsAgree, Tree, Owned, Sep, NoLostWakeup, ThreadsClean;
    MemberFits(s, h, TSched(t));
  }

  /** A dead thread is on no scheduling list. */
  lemma DeadUnlinked(s: State, t: Tid)
    requires CoreInv(s) && !Live(s.st.tcb, t)
    ensures !Linked(s.st.q, TSched(t))
  {
    hide ThreadsAgree, ProcsAgree, MsgsAgree, Tree, Owned, Sep, NoLostWakeup, ThreadsClean;
    var n := TSched(t);
    forall h ensures n !in Q(s.st.q, h) {
      if n in Q(s.st.q, h) { SchedHead(s, h, t); }
    }
  }

  lemma CreateKeeps(s: State, init: Regs, p: Option<Pid>)
    requires CoreInv(s) && (p.Some? ==> Allocated(s.st.pcb, p.value))
    ensures CoreInv(CreateThreadIn(s, init, p).0)
  {
    hide Move, Append, ProcsAgree, ThreadsAgree, SchedAgree, MsgsAgree, Tree, Owned, Sep, ThreadsClean, NoLostWakeup,
      Linked;
    var st := s.st;
    if p.Some? && Q(st.q, FreeThreads) != [] {
      FreeThread(st);
      var t, k, h := TidOf(Q(st.q, FreeThreads)[0]), PThreads(p.value), ReadyQ;
      DeadThread(st, t);
      DeadUnlinked(s, t);
      var q1 := Move(st.q, TNext(t), k);
      var r := Append(q1, h, TSched(t));
      var tcb' := Put(st.tcb, t, Born(p.value, init));
      var np, nt, nm := |st.pcb|, |st.tcb|, |st.msg|;
      assert CreateThreadIn(s, init, p).0.st == Store(r, st.pcb, tcb', st.msg) by {
        var a := ThreadAlloc(st, p).0;
        assert Put(a.tcb, t, T(a.tcb, t).(regs := init)) == tcb';
      }
      assert IsHead(k, np, nt) && Fits(k, TNext(t), np, nt, nm) && Fits(h, TSched(t), np, nt, nm);
      FitsNotHead(st.q, k, TNext(t), np, nt, nm);
      FitsNotHead(st.q, h, TSched(t), np, nt, nm);
      MoveFacts(st.q, TNext(t), k);
      ShapedMoved(st.q, q1, TNext(t), k, np, nt, nm);
      StillUnlinked(st.q, q1, TNext(t), TSched(t));
      AppendFacts(q1, h, TSched(t));
      ShapedMoved(q1, r, TSched(t), h, np, nt, nm);
      FrameProcs(st.q, q1, TNext(t), st.pcb);
      FrameProcs(q1, r, TSched(t), st.pcb);
      FrameMsgs(st.q, q1, TNext(t), st.msg, st.tcb);
      FrameMsgs(q1, r, TSched(t), st.msg, st.tcb);
      FrameWakeup(st.q, q1, TNext(t), st.tcb, st.msg, np, nm);
      FrameWakeup(q1, r, TSched(t), st.tcb, st.msg, np, nm);
      BornOthers(r, st.pcb, st.tcb, st.msg, t, p.value, init);
      BornThreads(st.q, q1, st.tcb, t, p.value, init);
      FrameThreads(q1, r, TSched(t), tcb');
      FrameSched(st.q, q1, TNext(t), st.tcb, s.current);
      BornSched(q1, r, st.tcb, s.current, t, p.value, init);
    }
  }

  lemma DeadThread(st: Store, t: Tid)
    requires ThreadsAgree(st.q, st.tcb) && ThreadsClean(st.tcb) && TNext(t) in Q(st.q, FreeThreads)
    ensures !Live(st.tcb, t)
  {
  }

  lemma StillUnlinked(q: Lists, r: Lists, n: Node, x: Node)
    requires SameBut(q, r, n) && !Linked(q, x) && x != n
    ensures !Linked(r, x)
  {
    forall h ensures x !in Q(r, h) {}
  }

  lemma FreedThreads(q: Lists, r: Lists, tcb: seq<Tcb>, t: Tid)
    requires ThreadsAgree(q, tcb) && ThreadsClean(tcb) && 1 <= t < |tcb| && Moved(q, r, TNext(t), FreeThreads)
    ensures ThreadsAgree(r, Put(tcb, t, Cleaned(T(tcb, t)))) && ThreadsClean(Put(tcb, t, Cleaned(T(tcb, t))))
  {
    PutT(tcb, t, Cleaned(T(tcb, t)));
  }

  lemma FreedOthers(q: Lists, pcb: seq<Pcb>, tcb: seq<Tcb>, msg: seq<Msg>, t: Tid)
    requires Owned(pcb, tcb) && MsgsAgree(q, msg, tcb) && NoLostWakeup(q, tcb, msg) && Q(q, TMsgq(t)) == []
    ensures var tcb' := Put(tcb, t, Cleaned(T(tcb, t)));
            Owned(pcb, tcb') && MsgsAgree(q, msg, tcb') && NoLostWakeup(q, tcb', msg)
  {
    PutT(tcb, t, Cleaned(T(tcb, t)));
  }

  lemma FreedSched(q: Lists, r: Lists, tcb: seq<Tcb>, current: Option<Tid>, t: Tid)
    requires SchedAgree(q, tcb, current) && Gone(q, r, TSched(t)) && current != Some(t)
    requires Q(q, TWait4me(t)) == []
    ensures SchedAgree(r, Put(tcb, t, Cleaned(T(tcb, t))), current)
  {
    PutT(tcb, t, Cleaned(T(tcb, t)));
  }

  lemma ThreadFreeKeeps(s: State, t: Tid)
    requires CoreInv(s) && 1 <= t < |s.st.tcb| && s.current != Some(t)
    ensures CoreInv(s.(st := ThreadFree(s.st, t).0))
  {
    hide Move, Unlink, ProcsAgree, ThreadsAgree, SchedAgree, MsgsAgree, Tree, Owned, Sep, ThreadsClean, NoLostWakeup;
    var st := s.st;
    if ThreadFree(st, t).1 == 0 {
      var q1 := Unlink(st.q, TSched(t));
      var h := FreeThreads;
      var r := Move(q1, TNext(t), h);
      var np, nt, nm := |st.pcb|, |st.tcb|, |st.msg|;
      UnlinkFacts(st.q, TSched(t));
      ShapedGone(st.q, q1, TSched(t), np, nt, nm);
      assert IsHead(h, np, nt) && Fits(h, TNext(t), np, nt, nm);
      FitsNotHead(q1, h, TNext(t), np, nt, nm);
      MoveFacts(q1, TNext(t), h);
      ShapedMoved(q1, r, TNext(t), h, np, nt, nm);
      FrameProcs(st.q, q1, TSched(t), st.pcb);
      FrameProcs(q1, r, TNext(t), st.pcb);
      FrameMsgs(st.q, q1, TSched(t), st.msg, st.tcb);
      FrameMsgs(q1, r, TNext(t), st.msg, st.tcb);
      FrameWakeup(st.q, q1, TSched(t), st.tcb, st.msg, np, nm);
      FrameWakeup(q1, r, TNext(t), st.tcb, st.msg, np, nm);
      EmptyStays(q1, r, TNext(t), TMsgq(t)) by {
        EmptyStays(st.q, q1, TSched(t), TMsgq(t));
      }
      FreedOthers(r, st.pcb, st.tcb, st.msg, t);
      FrameThreads(st.q, q1, TSched(t), st.tcb);
      FreedThreads(q1, r, st.tcb, t);
      FreedSched(st.q, q1, st.tcb, s.current, t);
      FrameSched(q1, r, TNext(t), Put(st.tcb, t, Cleaned(T(st.tcb, t))), s.current);
    }
  }

  lemma EmptyStays(q: Lists, r: Lists, n: Node, h: Node)
    requires SameBut(q, r, n) && Q(q, h) == [] && n !in Q(r, h)
    ensures Q(r, h) == []
  {
    HeadIn(Q(r, h));
  }

  lemma HeadIn(s: seq<Node>)
    ensures s != [] ==> s[0] in s
  {
  }
}
