/** What holds of the kernel whenever a routine of the kernel starts or returns. */
module Invariant {
  import opened Types
  import opened Links
  import opened Store
  import opened Kernel

  /** `t_next` is on the list of the owning process, or on the free list. */
  ghost predicate ThreadsAgree(q: Lists, tcb: seq<Tcb>) {
    && (forall t: Tid, p: Pid {:trigger TNext(t) in Q(q, PThreads(p))} ::
          TNext(t) in Q(q, PThreads(p)) <==> 1 <= t < |tcb| && T(tcb, t).pcb == Some(p))
    && (forall t: Tid {:trigger TNext(t) in Q(q, FreeThreads)} ::
          TNext(t) in Q(q, FreeThreads) <==> 1 <= t < |tcb| && T(tcb, t).pcb == None)
  }

  /** Unused descriptors are clean, and exactly the pool threads without process are unused. */
  ghost predicate ThreadsClean(tcb: seq<Tcb>) {
    && (forall t: Tid :: 1 <= t < |tcb| ==> (T(tcb, t).status == Unused <==> T(tcb, t).pcb == None))
    && (forall t: Tid :: T(tcb, t).status == Unused ==> T(tcb, t).wait == None && T(tcb, t).errno == 0)
    && 1 <= |tcb| && T(tcb, SSI).pcb == None && T(tcb, SSI).status != Unused
  }

  /** `p_siblings` is on the children list of the parent, or on the free list. */
  ghost predicate ProcsAgree(q: Lists, pcb: seq<Pcb>) {
    && (forall c: Pid, p: Pid {:trigger PSiblings(c) in Q(q, PChildren(p))} ::
          PSiblings(c) in Q(q, PChildren(p)) <==> 1 <= c < |pcb| && P(pcb, c).parent == Some(p))
    && (forall c: Pid {:trigger PSiblings(c) in Q(q, FREE_PROCS)} ::
          PSiblings(c) in Q(q, FREE_PROCS) <==> 1 <= c < |pcb| && P(pcb, c).parent == None)
  }

  /** The allocated processes form a tree below the root, and free ones have no managers. */
  ghost predicate Tree(pcb: seq<Pcb>) {
    && 1 <= |pcb| && P(pcb, ROOT).parent == None
    && (forall c: Pid, p: Pid {:trigger P(pcb, c), Allocated(pcb, p)} ::
          P(pcb, c).parent == Some(p) ==> Allocated(pcb, p))
    && (exists h :: Heights(pcb, h))
    && (forall c: Pid :: !Allocated(pcb, c) ==> P(pcb, c) == Pcb(None, None, None, None))
  }

  /** A thread belongs to an allocated process. */
  ghost predicate Owned(pcb: seq<Pcb>, tcb: seq<Tcb>) {
    forall t: Tid, p: Pid {:trigger T(tcb, t), Allocated(pcb, p)} :: T(tcb, t).pcb == Some(p) ==> Allocated(pcb, p)
  }

  /** A message is free, or has a sender and is in one mailbox of a live thread. */
  ghost predicate MsgsAgree(q: Lists, msg: seq<Msg>, tcb: seq<Tcb>) {
    && (forall m: Mid {:trigger MNext(m) in Q(q, FreeMsgs)} ::
          MNext(m) in Q(q, FreeMsgs) <==> m < |msg| && M(msg, m).sender == None)
    && (forall t: Tid, m: Mid {:trigger MNext(m) in Q(q, TMsgq(t))} ::
          MNext(m) in Q(q, TMsgq(t)) ==> M(msg, m).sender.Some? && Live(tcb, t))
    && (forall m: Mid {:trigger Boxed(q, m)} :: M(msg, m).sender.Some? ==> Boxed(q, m))
  }

  ghost predicate Boxed(q: Lists, m: Mid) {
    exists t: Tid {:trigger MNext(m) in Q(q, TMsgq(t))} :: MNext(m) in Q(q, TMsgq(t))
  }

  /** Status, awaited sender and scheduling list say the same thing. */
  ghost predicate SchedAgree(q: Lists, tcb: seq<Tcb>, current: Option<Tid>) {
    && (forall t: Tid {:trigger TSched(t) in Q(q, ReadyQ)} ::
          TSched(t) in Q(q, ReadyQ) <==> T(tcb, t).status == Ready && current != Some(t))
    && (forall t: Tid {:trigger TSched(t) in Q(q, BlockedQ)} ::
          TSched(t) in Q(q, BlockedQ) <==> T(tcb, t).status == W4Msg && T(tcb, t).wait == None)
    && (forall t: Tid, u: Tid {:trigger TSched(t) in Q(q, TWait4me(u))} ::
          TSched(t) in Q(q, TWait4me(u)) <==> T(tcb, t).status == W4Msg && T(tcb, t).wait == Some(u))
    && (forall t: Tid :: T(tcb, t).status != W4Msg ==> T(tcb, t).wait == None)
    && (current.Some? ==> T(tcb, current.value).status == Ready)
  }

  /** A blocked thread has no message that its receive would accept. */
  ghost predicate NoLostWakeup(q: Lists, tcb: seq<Tcb>, msg: seq<Msg>) {
    forall t: Tid, n {:trigger n in Q(q, TMsgq(t))} ::
      T(tcb, t).status == W4Msg && n in Q(q, TMsgq(t)) ==> !Matches(M(msg, MidOf(n)), T(tcb, t).wait)
  }

  ghost predicate StoreInv(st: Store) {
    && Shape(st) && Sep(st.q)
    && ThreadsAgree(st.q, st.tcb) && ThreadsClean(st.tcb)
    && ProcsAgree(st.q, st.pcb) && Tree(st.pcb) && Owned(st.pcb, st.tcb)
    && MsgsAgree(st.q, st.msg, st.tcb)
  }

  ghost predicate CoreInv(s: State) {
    && StoreInv(s.st)
    && SchedAgree(s.st.q, s.st.tcb, s.current)
    && NoLostWakeup(s.st.q, s.st.tcb, s.st.msg)
  }
}
