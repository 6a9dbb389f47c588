/** The three record pools and every list of the kernel, as values (src/mikabooq.c).

    Each function says what the routine of the same name leaves behind, on sequences instead of
    pointers; class `Pools.PoolHeap` runs the routines on the pointers and is proved equal to them. */
module Store {
  import opened Types
  import opened Links

  datatype Store = Store(q: Lists, pcb: seq<Pcb>, tcb: seq<Tcb>, msg: seq<Msg>)

  // ----- Processes -----

  ghost function ProcAlloc(st: Store, parent: Option<Pid>): (Store, Option<Pid>) {
    var free := Q(st.q, FREE_PROCS);
    if free == [] || parent.None? then (st, None) else
      var c := PidOf(free[0]);
      (st.(q := Move(st.q, PSiblings(c), PChildren(parent.value)),
           pcb := Put(st.pcb, c, P(st.pcb, c).(parent := parent))),
       Some(c))
  }

  ghost function ProcDelete(st: Store, p: Pid): (Store, bool) {
    if P(st.pcb, p).parent.None? || Q(st.q, PChildren(p)) != [] || Q(st.q, PThreads(p)) != [] then (st, false)
    else
      (st.(q := Move(st.q, PSiblings(p), FREE_PROCS), pcb := Put(st.pcb, p, Pcb(None, None, None, None))), true)
  }

  // ----- Threads -----

  ghost function ThreadAlloc(st: Store, process: Option<Pid>): (Store, Option<Tid>) {
    var free := Q(st.q, FreeThreads);
    if process.None? || free == [] then (st, None) else
      var t := TidOf(free[0]);
      (st.(q := Move(st.q, TNext(t), PThreads(process.value)),
           tcb := Put(st.tcb, t, T(st.tcb, t).(pcb := process, status := Ready))),
       Some(t))
  }

  /** 0 when the thread was freed, -1 when messages are left, -2 when threads wait for it. */
  ghost function ThreadFree(st: Store, t: Tid): (Store, int) {
    if Q(st.q, TMsgq(t)) != [] then (st, -1)
    else if Q(st.q, TWait4me(t)) != [] then (st, -2)
    else
      (st.(q := Move(Unlink(st.q, TSched(t)), TNext(t), FreeThreads),
           tcb := Put(st.tcb, t, Cleaned(T(st.tcb, t)))),
       0)
  }

  // ----- Messages -----

  ghost function MsgAdd(st: Store, sender: Option<Tid>, dest: Option<Tid>, v: Value): (Store, bool) {
    var free := Q(st.q, FreeMsgs);
    if free == [] || sender.None? || dest.None? then (st, false) else
      var m := MidOf(free[0]);
      (st.(q := Move(st.q, MNext(m), TMsgq(dest.value)), msg := Put(st.msg, m, Msg(sender, v))), true)
  }

  ghost function MsgFree(st: Store, m: Mid): Store {
    st.(q := Move(st.q, MNext(m), FreeMsgs), msg := Put(st.msg, m, M(st.msg, m).(sender := None)))
  }

  predicate Matches(m: Msg, from: Option<Tid>) { from.None? || m.sender == from }

  /** The first message of a mailbox that a receive from `from` accepts. */
  function FirstFrom(box: seq<Node>, msg: seq<Msg>, from: Option<Tid>): Option<Mid> {
    if box == [] then None
    else if Matches(M(msg, MidOf(box[0])), from) then Some(MidOf(box[0]))
    else FirstFrom(box[1..], msg, from)
  }

  ghost function MsgGet(st: Store, from: Option<Tid>, dest: Option<Tid>): (Store, Option<Msg>) {
    if dest.None? then (st, None) else
      var m := FirstFrom(Q(st.q, TMsgq(dest.value)), st.msg, from);
      if m.None? then (st, None) else (MsgFree(st, m.value), Some(M(st.msg, m.value)))
  }

  // ----- Well-formedness -----

  predicate IsHead(h: Node, np: nat, nt: nat) {
    match h
    case PThreads(p) => p < np
    case PChildren(p) => p < np
    case PSiblings(p) => p == ROOT
    case TMsgq(t) => t < nt
    case TWait4me(t) => t < nt
    case TNext(_) => false
    case TSched(_) => false
    case MNext(_) => false
    case _ => true
  }

  /** Which link of which record may stand on which list. */
  predicate Fits(h: Node, n: Node, np: nat, nt: nat, nm: nat) {
    match h
    case ReadyQ => n.TSched? && n.t < nt
    case BlockedQ => n.TSched? && n.t < nt
    case TWait4me(_) => n.TSched? && n.t < nt
    case FreeThreads => n.TNext? && 1 <= n.t < nt
    case PThreads(_) => n.TNext? && 1 <= n.t < nt
    case PChildren(_) => n.PSiblings? && 1 <= n.p < np
    case PSiblings(_) => n.PSiblings? && 1 <= n.p < np
    case FreeMsgs => n.MNext? && n.m < nm
    case TMsgq(_) => n.MNext? && n.m < nm
    case _ => false
  }

  ghost predicate Shaped(q: Lists, np: nat, nt: nat, nm: nat) {
    && 1 <= np && 1 <= nt
    && (forall h :: h in q <==> IsHead(h, np, nt))
    && (forall h, n {:trigger n in Q(q, h)} :: n in Q(q, h) ==> Fits(h, n, np, nt, nm))
  }

  ghost predicate Shape(st: Store) { Shaped(st.q, |st.pcb|, |st.tcb|, |st.msg|) }

  lemma ShapedGone(q: Lists, r: Lists, n: Node, np: nat, nt: nat, nm: nat)
    requires Shaped(q, np, nt, nm) && Gone(q, r, n)
    ensures Shaped(r, np, nt, nm)
  {
  }

  lemma ShapedMoved(q: Lists, r: Lists, n: Node, h: Node, np: nat, nt: nat, nm: nat)
    requires Shaped(q, np, nt, nm) && Moved(q, r, n, h) && Fits(h, n, np, nt, nm)
    ensures Shaped(r, np, nt, nm)
  {
  }

  /** Record links are never sentinels. */
  lemma FitsNotHead(q: Lists, h: Node, n: Node, np: nat, nt: nat, nm: nat)
    requires Shaped(q, np, nt, nm) && Fits(h, n, np, nt, nm)
    ensures n !in q
  {
    assert !IsHead(n, np, nt);
  }
}
