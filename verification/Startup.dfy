/** The first state of the machine satisfies every invariant, and small facts the kernel routines rely on. */
module Startup {
  import opened Types
  import opened Links
  import opened Store
  import opened Kernel
  import opened Invariant
  import opened Preserve
  import opened Lifecycle
  import opened Endings
  import opened Creation
  import opened Machine
  import opened Safety
  import opened Boot
  import opened Fifo
  import opened Ssi
  import opened Conserve
  import opened Fair

  lemma SchedLinked(s: State, t: Tid)
    requires CoreInv(s) && T(s.st.tcb, t).status == W4Msg
    ensures Linked(s.st.q, TSched(t)) && t < |s.st.tcb|
  {
    hide ThreadsAgree, ThreadsClean, ProcsAgree, Tree, Owned, MsgsAgree, NoLostWakeup, Sep, Shaped;
    var w := T(s.st.tcb, t).wait;
    assert if w.Some? then TSched(t) in Q(s.st.q, TWait4me(w.value)) else TSched(t) in Q(s.st.q, BlockedQ);
  }

  lemma NothingGot(st: Store, src: Option<Tid>, d: Option<Tid>)
    ensures MsgGet(st, src, d).1.None? ==> MsgGet(st, src, d).0 == st
  {
  }

  lemma ReadyInPool(s: State)
    requires Shape(s.st)
    ensures ReadyList(s) != [] ==> TidOf(ReadyList(s)[0]) < |s.st.tcb|
  {
    if ReadyList(s) != [] { HeadThread(s); }
  }

  /** The descriptor that `thread_alloc` will take is on no scheduling list, before and after. */
  lemma NewUnlinked(s: State, p: Option<Pid>)
    requires CoreInv(s) && (p.Some? ==> Allocated(s.st.pcb, p.value))
    ensures var a := ThreadAlloc(s.st, p); a.1.Some? ==> !Linked(a.0.q, TSched(a.1.value)) && a.1.value < |s.st.tcb|
  {
    hide ProcsAgree, Tree, Owned, MsgsAgree, NoLostWakeup, SchedAgree, Sep, Move, Linked;
    if p.Some? && Q(s.st.q, FreeThreads) != [] {
      FreeThread(s.st);
      var t := TidOf(Q(s.st.q, FreeThreads)[0]);
      DeadThread(s.st, t);
      DeadUnlinked(s, t);
      Headed(s.st, p.value);
      MoveFacts(s.st.q, TNext(t), PThreads(p.value));
      StillUnlinked(s.st.q, Move(s.st.q, TNext(t), PThreads(p.value)), TNext(t), TSched(t));
    }
  }

  lemma AllocBounds(st: Store, p: Option<Pid>)
    ensures |ThreadAlloc(st, p).0.tcb| == |st.tcb|
  {
  }

  lemma OwnerAllocated(s: State, a: Tid)
    requires CoreInv(s)
    ensures ProcOf(s, a).Some? ==> Allocated(s.st.pcb, ProcOf(s, a).value)
  {
    hide Shape, Sep, ThreadsAgree, ThreadsClean, ProcsAgree, Tree, MsgsAgree, SchedAgree, NoLostWakeup;
    if ProcOf(s, a).Some? { assert Allocated(s.st.pcb, ProcOf(s, a).value); }
  }

  lemma NewAllocated(s: State, m: State, c: Pid, p: Pid)
    requires ProcessAdded(s, m, c, p)
    ensures Allocated(m.st.pcb, c)
  {
  }

  lemma NotStarted(m: State, init: Regs, c: Pid)
    ensures CreateThreadIn(m, init, Some(c)).1.None? ==> CreateThreadIn(m, init, Some(c)).0 == m
  {
  }

  lemma Deletable(s: State, p: Pid)
    requires CoreInv(s) && p < |s.st.pcb|
    ensures P(s.st.pcb, p).parent.Some? ==> p != ROOT && Linked(s.st.q, PSiblings(p))
  {
    hide Shape, Sep, ThreadsAgree, ThreadsClean, Owned, MsgsAgree, SchedAgree, NoLostWakeup;
    if P(s.st.pcb, p).parent.Some? {
      assert PSiblings(p) in Q(s.st.q, PChildren(P(s.st.pcb, p).parent.value));
    }
  }

  // ----- From the pools to the first state -----

  /** The state when the SSI is the only thread, ready to run. */
  ghost function SsiAlone(st: Store, regs: Regs, cpu: Regs, mem: map<nat, Value>): State {
    State(st.(q := Append(st.q, ReadyQ, TSched(SSI)), tcb := Put(st.tcb, SSI, Tcb(None, regs, Ready, 0, None))),
          None, cpu, mem, 1, 0, 0, None, Running, Receiving)
  }

  lemma FreshLists(st: Store)
    requires Fresh(st)
    ensures forall h {:trigger Q(st.q, h)} :: Q(st.q, h) == Linking(h, |st.pcb|, |st.tcb|, |st.msg|)
    ensures forall c: Pid :: P(st.pcb, c) == BLANK_PCB
    ensures forall t: Tid :: T(st.tcb, t).pcb == None && T(st.tcb, t).status == Unused
    ensures forall t: Tid :: T(st.tcb, t).wait == None && T(st.tcb, t).errno == 0
    ensures forall m: Mid :: M(st.msg, m).sender == None
  {
  }

  /** Every list but the ready queue is as the initialisation loops left it. */
  ghost predicate AsLinked(q: Lists, np: nat, nt: nat, nm: nat) {
    forall h {:trigger Q(q, h)} :: h != ReadyQ ==> Q(q, h) == Linking(h, np, nt, nm)
  }

  lemma AloneLists(st: Store)
    requires Fresh(st)
    ensures var q := Append(st.q, ReadyQ, TSched(SSI));
            AsLinked(q, |st.pcb|, |st.tcb|, |st.msg|) && Q(q, ReadyQ) == [TSched(SSI)]
  {
    AppendAt(st.q, ReadyQ, TSched(SSI));
    assert Q(st.q, ReadyQ) == Linking(ReadyQ, |st.pcb|, |st.tcb|, |st.msg|) == [];
    hide Append;
  }

  /** Only the SSI is in use. */
  ghost predicate OnlySsi(tcb: seq<Tcb>) {
    && 1 <= |tcb|
    && (forall t: Tid {:trigger T(tcb, t)} :: T(tcb, t).pcb == None && T(tcb, t).wait == None && T(tcb, t).errno == 0)
    && (forall t: Tid {:trigger T(tcb, t)} :: T(tcb, t).status == if t == SSI then Ready else Unused)
  }

  lemma AloneTcbs(st: Store, regs: Regs)
    requires Fresh(st)
    ensures OnlySsi(Put(st.tcb, SSI, Tcb(None, regs, Ready, 0, None)))
  {
    FreshLists(st);
    PutT(st.tcb, SSI, Tcb(None, regs, Ready, 0, None));
  }

  lemma AloneThreads(q: Lists, tcb: seq<Tcb>, pcb: seq<Pcb>, nm: nat)
    requires AsLinked(q, |pcb|, |tcb|, nm) && OnlySsi(tcb)
    ensures ThreadsAgree(q, tcb) && ThreadsClean(tcb) && Owned(pcb, tcb)
  {
    RowMembers(|tcb|);
  }

  lemma AloneProcs(q: Lists, pcb: seq<Pcb>, nt: nat, nm: nat)
    requires AsLinked(q, |pcb|, nt, nm) && 1 <= |pcb| && forall c: Pid :: P(pcb, c) == BLANK_PCB
    ensures ProcsAgree(q, pcb) && Tree(pcb)
  {
    RowMembers(|pcb|);
    var h := seq(|pcb|, _ => 0);
    assert Heights(pcb, h) by {
      forall c | 0 <= c < |pcb| ensures pcb[c].parent == None { assert P(pcb, c) == pcb[c]; }
    }
  }

  lemma AloneMsgs(q: Lists, msg: seq<Msg>, tcb: seq<Tcb>, np: nat)
    requires AsLinked(q, np, |tcb|, |msg|) && forall m: Mid :: M(msg, m).sender == None
    ensures MsgsAgree(q, msg, tcb) && NoLostWakeup(q, tcb, msg)
  {
    RowMembers(|msg|);
    assert Q(q, FreeMsgs) == MsgRow(|msg|);
    forall t: Tid ensures Q(q, TMsgq(t)) == [] { assert |Linking(TMsgq(t), np, |tcb|, |msg|)| == 0; }
    hide AsLinked, MsgRow;
  }

  lemma AloneSched(q: Lists, tcb: seq<Tcb>, np: nat, nm: nat)
    requires AsLinked(q, np, |tcb|, nm) && OnlySsi(tcb) && Q(q, ReadyQ) == [TSched(SSI)]
    ensures SchedAgree(q, tcb, None)
  {
  }

  lemma SsiInPool(st: Store)
    requires Fresh(st)
    ensures SSI < |st.tcb|
  {
  }

  lemma RootAllocated(s: State)
    requires CoreInv(s)
    ensures Allocated(s.st.pcb, ROOT) && ROOT < |s.st.pcb|
  {
  }

  lemma SsiNotListed(st: Store)
    requires Fresh(st)
    ensures !Linked(st.q, TSched(SSI))
  {
    RowMembers(|st.pcb|);
    RowMembers(|st.tcb|);
    RowMembers(|st.msg|);
    FreshLists(st);
    forall h ensures TSched(SSI) !in Q(st.q, h) {}
  }

  lemma AloneCore(st: Store, regs: Regs, cpu: Regs, mem: map<nat, Value>)
    requires Fresh(st) && Sep(st.q)
    ensures CoreInv(SsiAlone(st, regs, cpu, mem))
  {
    hide Fresh, ThreadsAgree, ProcsAgree, MsgsAgree, SchedAgree, NoLostWakeup, Append, Owned, Linked, Tree,
      ThreadsClean,
      OnlySsi, AsLinked;
    var s := SsiAlone(st, regs, cpu, mem);
    FreshLists(st);
    FreshShape(st);
    AloneLists(st);
    AloneTcbs(st, regs);
    AloneThreads(s.st.q, s.st.tcb, s.st.pcb, |st.msg|);
    AloneProcs(s.st.q, s.st.pcb, |st.tcb|, |st.msg|);
    AloneMsgs(s.st.q, s.st.msg, s.st.tcb, |st.pcb|);
    AloneSched(s.st.q, s.st.tcb, |st.pcb|, |st.msg|);
    SsiNotListed(st);
    Heads(st);
    assert TSched(SSI) !in st.q by { assert !IsHead(TSched(SSI), |st.pcb|, |st.tcb|); }
    AppendFacts(st.q, ReadyQ, TSched(SSI));
    ShapedMoved(st.q, s.st.q, TSched(SSI), ReadyQ, |st.pcb|, |st.tcb|, |st.msg|);
  }

  /** The SSI is ready, nobody else exists, no message was ever sent. */
  ghost predicate JustSsi(s: State) {
    && CoreInv(s) && CountAgrees(s) && NoEmpty(s.st.q, s.st.pcb) && SoftAgrees(s) && T(s.st.tcb, SSI).wait.None?
    && ReadyList(s) == [TSched(SSI)] && s.current.None? && s.count == 1 && s.mode == Running && s.ssi == Receiving
    && s.slot.None? && s.ios == 0 && Q(s.st.q, FreeThreads) != []
    && (forall d: Tid :: Q(s.st.q, TMsgq(d)) == []) && forall m: Mid :: M(s.st.msg, m).sender == None
  }

  lemma AloneJust(st: Store, regs: Regs, cpu: Regs, mem: map<nat, Value>)
    requires Fresh(st) && Sep(st.q) && |st.tcb| > 1
    ensures JustSsi(SsiAlone(st, regs, cpu, mem))
  {
    AloneCore(st, regs, cpu, mem);
    AloneLists(st);
    AloneTcbs(st, regs);
    FreshLists(st);
    hide CoreInv, Fresh, Append, Sep;
    var q := SsiAlone(st, regs, cpu, mem).st.q;
    assert Q(q, FreeThreads) == ThreadRow(|st.tcb|);
    assert |ThreadRow(|st.tcb|)| == |st.tcb| - 1;
  }

  /** Once the first thread of the root is loaded and the scheduler has run, every invariant holds. */
  lemma FirstState(s: State, r: State, t: Tid, init: Regs)
    requires JustSsi(s) && CoreInv(r) && ThreadAdded(s, r, t, ROOT, init)
    ensures var f := Dispatch(r); Inv(f) && SsiInv(f) && Opening(f, t) && UserThreads(f) == {t}
    ensures var f := Dispatch(r);
            f.cpu == T(s.st.tcb, SSI).regs && T(f.st.tcb, t) == Tcb(Some(ROOT), init, Ready, 0, None)
  {
    hide CoreInv, CountAgrees, NoEmpty, SoftAgrees, Dispatch;
    assert forall x: Pid {:trigger Q(s.st.q, PThreads(x))} ::
             Allocated(s.st.pcb, x) && x != ROOT ==> Q(s.st.q, PThreads(x)) != [] by { NoEmptyFacts(s); }
    AddedThreadInv(s, r, t, ROOT, init);
    assert r.(current := None) == r;
    assert ReadyList(r) == [TSched(SSI), TSched(t)];
    DispatchRests(r);
    var f := Dispatch(r);
    StructureKeeps(r, f);
    assert t != SSI && T(r.st.tcb, SSI) == T(s.st.tcb, SSI) && f.cpu == T(r.st.tcb, SSI).regs by { HeadTaken(r); }
    assert f.current == Some(SSI) && f.ssi == Receiving && f.slot == None && f.st.tcb == r.st.tcb
      && f.st.msg == r.st.msg by { HeadTaken(r); }
    DispatchMail(r);
    assert Opening(f, t) by {
      forall d: Tid ensures Q(f.st.q, TMsgq(d)) == [] {
        assert Q(f.st.q, TMsgq(d)) == Q(r.st.q, TMsgq(d)) == Q(s.st.q, TMsgq(d)) == [];
      }
      DispatchReady(r);
      assert [TSched(SSI), TSched(t)][1..] == [TSched(t)];
    }
    hide SameMail, SameStructure, Q;
    CurrentUnlinked(f);
    OnlyUser(s, r, t, init);
  }

  /** The state in which the machine starts: the SSI runs, the first thread `c` is ready, and nothing was sent. */
  ghost predicate Opening(s: State, c: Tid) {
    && s.current == Some(SSI) && s.ssi == Receiving && s.mode == Running && c != SSI && ReadyList(s) == [TSched(c)]
    && s.slot.None? && s.ios == 0 && s.count == 2
    && (forall d: Tid :: Q(s.st.q, TMsgq(d)) == [])
  }

  lemma NoEmptyFacts(s: State)
    requires NoEmpty(s.st.q, s.st.pcb)
    ensures forall x: Pid {:trigger Q(s.st.q, PThreads(x))} ::
              Allocated(s.st.pcb, x) && x != ROOT ==> Q(s.st.q, PThreads(x)) != []
  {
  }

  lemma HeadTaken(r: State)
    requires ReadyList(r) != [] && ReadyList(r)[0] == TSched(SSI)
    ensures var f := Dispatch(r);
            && f.current == Some(SSI) && f.cpu == T(r.st.tcb, SSI).regs && f.ssi == r.ssi && f.slot == r.slot
            && f.st.tcb == r.st.tcb && f.st.msg == r.st.msg
  {
  }

  ghost function UserThreads(s: State): set<Tid> { set t: Tid | 1 <= t < |s.st.tcb| && Live(s.st.tcb, t) }

  lemma OnlyUser(s: State, r: State, t: Tid, init: Regs)
    requires CountAgrees(s) && s.count == 1 && CoreInv(s) && ThreadAdded(s, r, t, ROOT, init)
    ensures UserThreads(r) == {t}
  {
    CountOne(s);
    hide CoreInv;
    forall x: Tid ensures x in UserThreads(r) <==> x == t {
      assert T(r.st.tcb, x) == if x == t then Born(ROOT, init) else T(s.st.tcb, x);
      assert Live(s.st.tcb, x) ==> x == SSI;
    }
  }
}
