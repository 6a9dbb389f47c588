/** The two termination services (src/SSI/services/terminate_process.c, terminate_thread.c). */
module Endings {
  import opened Types
  import opened Seqs
  import opened Links
  import opened Store
  import opened Kernel
  import opened Invariant
  import opened Reap
  import opened Subtree

  /** `t` survives although the thread it waited for does not. */
  ghost predicate Bereaved(s: State, r: State, t: Tid) {
    var tc := T(s.st.tcb, t);
    && Live(r.st.tcb, t) && tc.status == W4Msg && tc.wait.Some?
    && Live(s.st.tcb, tc.wait.value) && !Live(r.st.tcb, tc.wait.value)
  }

  /** The surviving ready threads, then exactly the bereaved ones: ready, with errno 1 and a NULL sender.
      Every other survivor is as it was. */
  ghost predicate WaitersWoken(s: State, r: State) {
    var kept := KeepLive(Q(s.st.q, ReadyQ), r.st.tcb);
    && kept <= Q(r.st.q, ReadyQ)
    && (forall t: Tid {:trigger Bereaved(s, r, t)} :: TSched(t) in Q(r.st.q, ReadyQ)[|kept|..] <==> Bereaved(s, r, t))
    && (forall t: Tid {:trigger T(r.st.tcb, t)} :: Live(r.st.tcb, t) ==>
          var tc := T(s.st.tcb, t);
          T(r.st.tcb, t)
          == if Bereaved(s, r, t) then Tcb(tc.pcb, Regs(Ptr(None), tc.regs.a3), Ready, 1, None) else tc)
  }

  lemma {:induction false} KeepLiveMember(s: seq<Node>, tcb: seq<Tcb>, n: Node)
    ensures n in KeepLive(s, tcb) <==> n in s && Live(tcb, TidOf(n))
  {
    if s != [] {
      assert s == [s[0]] + s[1..];
      KeepLiveMember(s[1..], tcb, n);
    }
  }

  lemma SplitMember(s: seq<Node>, k: nat, n: Node)
    requires NoDup(s) && k <= |s|
    ensures n in s[k..] <==> n in s && n !in s[..k]
  {
    assert s == s[..k] + s[k..];
    forall i, j | 0 <= i < k <= j < |s| ensures s[i] != s[j] {}
  }

  lemma ReapedWakes(s: State, r: State)
    requires CoreInv(s) && CoreInv(r) && Reaped(s, r)
    ensures WaitersWoken(s, r)
  {
    hide ThreadsAgree, ProcsAgree, Tree, Owned, MsgsAgree, NoLostWakeup, Shaped, MailReaped, KidsReaped, ProcsReaped;
    var kept := KeepLive(Q(s.st.q, ReadyQ), r.st.tcb);
    assert NoDup(Q(r.st.q, ReadyQ));
    hide Sep;
    forall t: Tid | Live(r.st.tcb, t)
      ensures var tc := T(s.st.tcb, t);
              T(r.st.tcb, t)
              == if Bereaved(s, r, t) then Tcb(tc.pcb, Regs(Ptr(None), tc.regs.a3), Ready, 1, None) else tc
    {
      assert T(r.st.tcb, t) == Survived(T(s.st.tcb, t), s.st.tcb, r.st.tcb);
    }
    forall t: Tid ensures TSched(t) in Q(r.st.q, ReadyQ)[|kept|..] <==> Bereaved(s, r, t) {
      SplitMember(Q(r.st.q, ReadyQ), |kept|, TSched(t));
      assert Q(r.st.q, ReadyQ)[..|kept|] == kept;
      KeepLiveMember(Q(s.st.q, ReadyQ), r.st.tcb, TSched(t));
      assert TSched(t) in Q(r.st.q, ReadyQ) <==> T(r.st.tcb, t).status == Ready && r.current != Some(t);
      assert TSched(t) in Q(s.st.q, ReadyQ) <==> T(s.st.tcb, t).status == Ready && s.current != Some(t);
    }
  }

  lemma HeightsExist(s: State, p: Pid)
    requires CoreInv(s) && Allocated(s.st.pcb, p)
    ensures Heights(s.st.pcb, HeightsOf(s.st.pcb)) && p < |HeightsOf(s.st.pcb)|
  {
  }

  /** Terminating a process removes exactly its subtree, wakes whoever waited for a victim, and loses no
      message between survivors. */
  lemma EndProcessExact(s: State, a: Tid, p: Pid)
    requires CoreInv(s) && Service(s.current) && ProcOf(s, a) == Some(p)
    ensures var r := TerminateProcess(s, a);
            && CoreInv(r) && TreeGone(s, r, p) && ExactlySubtree(s, r, p) && WaitersWoken(s, r)
            && MailReaped(s.st, r.st) && CellsReaped(s.st.tcb, r.st.tcb, s.mem, r.mem)
  {
    hide SchedAgree, NoLostWakeup, Shaped, Sep, ThreadsAgree, ThreadsClean, ProcsAgree, Tree, MsgsAgree, KillTree,
      Within, WaitersWoken, ExactlySubtree, MailReaped, ReadyReaped, KidsReaped, ThreadsReaped, ProcsReaped;
    assert Allocated(s.st.pcb, p);
    HeightsExist(s, p);
    var h := HeightsOf(s.st.pcb);
    KillTreeKeeps(s, p, Some(a), h);
    TreeGoneExact(s, KillTree(s, p, Some(a), h), p);
    ReapedWakes(s, KillTree(s, p, Some(a), h));
  }

  // ----- No process is left without threads -----

  ghost predicate NoEmpty(q: Lists, pcb: seq<Pcb>) {
    forall p: Pid {:trigger Q(q, PThreads(p))} :: Allocated(pcb, p) && p != ROOT ==> Q(q, PThreads(p)) != []
  }

  lemma EndProcessNoEmpty(s: State, r: State, p: Pid)
    requires CoreInv(s) && CoreInv(r) && Reaped(s, r) && ExactlySubtree(s, r, p) && NoEmpty(s.st.q, s.st.pcb)
    ensures NoEmpty(r.st.q, r.st.pcb)
  {
    hide SchedAgree, NoLostWakeup, Sep, ProcsAgree, Tree, Owned, MsgsAgree, Under, MailReaped, KidsReaped, ReadyReaped;
    forall x: Pid | Allocated(r.st.pcb, x) && x != ROOT ensures Q(r.st.q, PThreads(x)) != [] {
      assert Allocated(s.st.pcb, x) && !Under(s.st.pcb, x, p);
      assert Q(s.st.q, PThreads(x)) != [];
      HeadOfThreads(s.st, x);
      var t := TidOf(Q(s.st.q, PThreads(x))[0]);
      assert Live(r.st.tcb, t);
      SameProcess(s, r, t);
      assert TNext(t) in Q(r.st.q, PThreads(x));
    }
  }

  lemma OneDownNoEmpty(s: State, r: State, t: Tid, p: Pid)
    requires CoreInv(s) && OneDown(s, r, t) && NoEmpty(s.st.q, s.st.pcb) && T(s.st.tcb, t).pcb == Some(p)
    requires Q(s.st.q, PThreads(p)) != [TNext(t)]
    ensures NoEmpty(r.st.q, r.st.pcb)
  {
    hide SchedAgree, NoLostWakeup, Shaped, ProcsAgree, Tree, Owned, MsgsAgree, ThreadsClean;
    forall x: Pid | Allocated(r.st.pcb, x) && x != ROOT ensures Q(r.st.q, PThreads(x)) != [] {
      var l := Q(s.st.q, PThreads(x));
      assert Q(r.st.q, PThreads(x)) == Without(l, TNext(t));
      assert l != [];
      assert NoDup(l);
      if l[0] != TNext(t) {
        assert l[0] in l;
        assert l[0] in Without(l, TNext(t));
      } else {
        assert TNext(t) in Q(s.st.q, PThreads(x));
        assert x == p && |l| > 1;
        assert l[1] in l;
        assert l[1] in Without(l, TNext(t));
      }
    }
  }

  /** Ending a thread ends its process when it was the last thread there, and only the thread otherwise. */
  lemma EndThreadExact(s: State, t: Tid, p: Pid)
    requires CoreInv(s) && Service(s.current) && ProcOf(s, t) == Some(p)
    ensures var r := TerminateThread(s, t);
            && CoreInv(r) && Reaped(s, r) && !Live(r.st.tcb, t) && WaitersWoken(s, r)
            && if forall u: Tid :: ProcOf(s, u) == Some(p) <==> u == t
               then ExactlySubtree(s, r, p)
               else OneDown(s, r, t)
    ensures NoEmpty(s.st.q, s.st.pcb) ==> NoEmpty(TerminateThread(s, t).st.q, TerminateThread(s, t).st.pcb)
  {
    hide SchedAgree, NoLostWakeup, Owned, MsgsAgree, TerminateProcess, KillThread, Reaped, WaitersWoken, Tree,
      ProcsAgree, NoEmpty, Under, MailReaped, Within, ThreadsClean, ThreadsAgree, Sep, Shaped;
    var r := TerminateThread(s, t);
    OnlyThread(s, t, p);
    if Q(s.st.q, PThreads(p)) == [TNext(t)] {
      EndProcessExact(s, t, p);
      SelfUnder(s.st.pcb, p);
      assert !Live(r.st.tcb, t);
      if NoEmpty(s.st.q, s.st.pcb) { EndProcessNoEmpty(s, r, p); }
    } else {
      KillReaps(s, t);
      ReapedWakes(s, r);
      if NoEmpty(s.st.q, s.st.pcb) { OneDownNoEmpty(s, r, t, p); }
    }
  }

  /** `list_is_only` on the thread list says that nobody else belongs to the process. */
  lemma OnlyThread(s: State, t: Tid, p: Pid)
    requires CoreInv(s) && Service(s.current) && ProcOf(s, t) == Some(p)
    ensures 1 <= t && Live(s.st.tcb, t) && s.current != Some(t)
    ensures Q(s.st.q, PThreads(p)) == [TNext(t)] <==> forall u: Tid :: ProcOf(s, u) == Some(p) <==> u == t
  {
    hide SchedAgree, NoLostWakeup, Owned, MsgsAgree, Tree, ProcsAgree;
    var l := Q(s.st.q, PThreads(p));
    assert T(s.st.tcb, t).pcb == Some(p) && t != SSI;
    assert TNext(t) in l;
    forall u: Tid ensures ProcOf(s, u) == Some(p) <==> TNext(u) in l {
      assert u == SSI ==> T(s.st.tcb, u).pcb == None;
    }
    if forall u: Tid :: ProcOf(s, u) == Some(p) <==> u == t {
      assert forall n :: n in l ==> n == TNext(t) by {
        forall n | n in l ensures n == TNext(t) { assert Fits(PThreads(p), n, |s.st.pcb|, |s.st.tcb|, |s.st.msg|); }
      }
      assert NoDup(l);
      OnlyMember(l, TNext(t));
    }
  }

  lemma OnlyMember(l: seq<Node>, n: Node)
    requires NoDup(l) && n in l && forall x :: x in l ==> x == n
    ensures l == [n]
  {
    var last := |l| - 1;
    assert l[0] in l && l[last] in l;
  }
}
