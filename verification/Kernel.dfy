/** The kernel state and its operations, as values: message passing (src/handlers/syscall.c),
    dispatch (src/scheduler.c, src/handlers/interrupts.c) and the SSI services (src/SSI). */
module Kernel {
  import opened Types
  import opened Links
  import opened Seqs
  import opened Store

  /** What the processor is doing. `Waiting` is the idle wait for I/O, `Failed` a PANIC after a failed
      assertion or a request the SSI does not know. */
  datatype Mode = Running | Waiting | Halted | Deadlocked | Failed

  /** Where the SSI stands in its loop: about to receive, or holding a request it has to serve. */
  datatype SsiPc = Receiving | Serving

  datatype State = State(
    st: Store,
    current: Option<Tid>,
    cpu: Regs,                 // registers of the running thread, or the old area of its exception
    mem: map<nat, Value>,      // the payload cells
    count: int,                // thread_count
    soft: nat,                 // soft_block_count, an unsigned int
    ios: nat,                  // how often the count was incremented
    slot: Option<Tid>,         // soft_blocked_thread[TERMINAL_REQUESTER_INDEX]
    mode: Mode,
    ssi: SsiPc)

  function StoreAt(mem: map<nat, Value>, a: nat, v: Value): map<nat, Value> {
    if a != NULL_ADDR then mem[a := v] else mem
  }

  // ----- Message passing -----

  function Resumed(tc: Tcb, rval: Option<Tid>): Tcb {
    tc.(regs := tc.regs.(a1 := Ptr(rval)), status := Ready, wait := None)
  }

  ghost function Resume(s: State, t: Tid, rval: Option<Tid>, v: Value): State {
    var tc := T(s.st.tcb, t);
    s.(st := s.st.(q := Move(s.st.q, TSched(t), ReadyQ), tcb := Put(s.st.tcb, t, Resumed(tc, rval))),
       mem := StoreAt(s.mem, tc.regs.a3, v))
  }

  /** `d` is blocked in a receive that accepts a message from `snd`. */
  predicate Awaits(tc: Tcb, snd: Tid) { tc.status == W4Msg && (tc.wait == Some(snd) || tc.wait.None?) }

  ghost function Send(s: State, d: Tid, snd: Tid, v: Value): (State, bool) {
    var tc := T(s.st.tcb, d);
    if tc.status == Unused then (s, false)
    else if Awaits(tc, snd) then (Resume(s, d, Some(snd), v), true)
    else var r := MsgAdd(s.st, Some(snd), Some(d), v); (s.(st := r.0), r.1)
  }

  function SendCode(ok: bool): Word { Code(if ok then 0 else UINT_RANGE - 1) }

  /** The send system call of the running thread. */
  ghost function SysSend(s: State, d: Tid, v: Value): (State, bool)
    requires s.current.Some?
  {
    var r := Send(s, d, s.current.value, v);
    (r.0.(cpu := r.0.cpu.(a1 := SendCode(r.1))), r.1)
  }

  function WaitQueue(src: Option<Tid>): Node { if src.Some? then TWait4me(src.value) else BlockedQ }

  ghost function Block(s: State, src: Option<Tid>): State
    requires s.current.Some?
  {
    var t := s.current.value;
    var tc := T(s.st.tcb, t);
    s.(st := s.st.(q := Append(s.st.q, WaitQueue(src), TSched(t)),
                   tcb := Put(s.st.tcb, t, tc.(regs := s.cpu, status := W4Msg, wait := src))))
  }

  const SYS_RECV := 2

  /** The receive system call of the running thread; it ends in the caller or in the scheduler. */
  ghost function SysRecv(s: State, src: Option<Tid>, pmsg: nat): State
    requires s.current.Some?
  {
    var g := MsgGet(s.st, src, s.current);
    if g.1.Some? then
      s.(st := g.0, cpu := Regs(Ptr(g.1.value.sender), pmsg), mem := StoreAt(s.mem, pmsg, g.1.value.value))
    else Dispatch(Block(s.(cpu := Regs(Code(SYS_RECV), pmsg)), src))
  }

  // ----- Dispatch -----

  ghost function ReadyList(s: State): seq<Node> { Q(s.st.q, ReadyQ) }

  function EmptyVerdict(s: State): Mode {
    if s.count == 1 then Halted
    else if s.soft == 0 then Deadlocked
    else if s.mode == Waiting then Failed
    else Waiting
  }

  ghost function Dispatch(s: State): State {
    var ready := ReadyList(s);
    if ready == [] then s.(current := None, mode := EmptyVerdict(s))
    else
      var t := TidOf(ready[0]);
      s.(st := s.st.(q := Unlink(s.st.q, ready[0])), current := Some(t), cpu := T(s.st.tcb, t).regs)
  }

  ghost function Preempt(s: State): State {
    if s.current.None? then s
    else
      var t := s.current.value;
      s.(st := s.st.(q := Append(s.st.q, ReadyQ, TSched(t)),
                     tcb := Put(s.st.tcb, t, T(s.st.tcb, t).(regs := s.cpu))))
  }

  ghost function Timer(s: State): State { Dispatch(Preempt(s)) }

  /** A terminal interrupt: the thread in the I/O slot gets the message the SSI owes it. */
  ghost function IoDone(s: State): State {
    if s.slot.None? then s.(mode := Failed)
    else
      var r := Send(s, s.slot.value, SSI, 0);
      if !r.1 then r.0.(mode := Failed)
      else
        var s1 := r.0.(slot := None);
        if s.mode == Waiting then Dispatch(s1.(mode := Running)) else s1
  }

  // ----- Creation -----

  ghost function CreateThreadIn(s: State, init: Regs, p: Option<Pid>): (State, Option<Tid>) {
    var r := ThreadAlloc(s.st, p);
    if r.1.None? then (s, None) else
      var t := r.1.value;
      (s.(st := r.0.(q := Append(r.0.q, ReadyQ, TSched(t)),
                     tcb := Put(r.0.tcb, t, T(r.0.tcb, t).(regs := init))),
          count := s.count + 1),
       Some(t))
  }

  function ProcOf(s: State, t: Tid): Option<Pid> { T(s.st.tcb, t).pcb }

  ghost function CreateThread(s: State, init: Regs, a: Tid): (State, Option<Tid>) {
    CreateThreadIn(s, init, ProcOf(s, a))
  }

  ghost function CreateProcess(s: State, init: Regs, a: Tid): (State, Option<Tid>) {
    var r := ProcAlloc(s.st, ProcOf(s, a));
    if r.1.None? then (s, None) else
      var c := CreateThreadIn(s.(st := r.0), init, r.1);
      if c.1.None? then (c.0.(st := ProcDelete(c.0.st, r.1.value).0), None) else c
  }

  // ----- Termination -----

  ghost function Drain(st: Store, t: Tid): Store
    decreases |Q(st.q, TMsgq(t))|
  {
    var box := Q(st.q, TMsgq(t));
    if box == [] then st
    else if MNext(MidOf(box[0])) != box[0] then st
    else
      assert Q(MsgFree(st, MidOf(box[0])).q, TMsgq(t)) == Without(box, box[0]) by {
        var u := Unlink(st.q, box[0]);
        assert Q(u, TMsgq(t)) == Without(box, box[0]);
      }
      Drain(MsgFree(st, MidOf(box[0])), t)
  }

  /** Everybody who waits for `t` becomes ready with errno 1 and a NULL sender. */
  ghost function Wake(s: State, t: Tid): State
    decreases |Q(s.st.q, TWait4me(t))|
  {
    var waiting := Q(s.st.q, TWait4me(t));
    if waiting == [] then s
    else if TSched(TidOf(waiting[0])) != waiting[0] then s
    else
      var u := TidOf(waiting[0]);
      var s1 := s.(st := s.st.(tcb := Put(s.st.tcb, u, T(s.st.tcb, u).(errno := 1))));
      assert Q(Resume(s1, u, None, 0).st.q, TWait4me(t)) == Without(waiting, waiting[0]) by {
        assert Q(Unlink(s.st.q, waiting[0]), TWait4me(t)) == Without(waiting, waiting[0]);
      }
      Wake(Resume(s1, u, None, 0), t)
  }

  ghost function KillThread(s: State, t: Tid): State {
    var s1 := Wake(s.(st := Drain(s.st, t)), t);
    s1.(st := ThreadFree(s1.st, t).0, count := s1.count - 1)
  }

  /** The mailbox that `clean_sys_msg` searches for a request of the blocked thread `t`. */
  function CleanedBox(st: Store, t: Tid): Option<Tid> {
    var wait := T(st.tcb, t).wait;
    var p := T(st.tcb, t).pcb;
    var proc := if p.Some? then P(st.pcb, p.value) else P([], 0);
    if wait == Some(SSI) then Some(SSI)
    else if wait == proc.sysMgr || wait == proc.pgmMgr then proc.sysMgr
    else None
  }

  ghost function CleanSysMsg(st: Store, t: Tid): Store { MsgGet(st, Some(t), CleanedBox(st, t)).0 }

  ghost function KillVictim(s: State, t: Tid, applicant: Option<Tid>): State {
    if applicant != Some(t) && T(s.st.tcb, t).status == W4Msg
    then KillThread(s.(st := CleanSysMsg(s.st, t)), t)
    else KillThread(s, t)
  }

  ghost function KillThreads(s: State, ts: seq<Node>, applicant: Option<Tid>): State
    decreases |ts|
  {
    if ts == [] then s else KillThreads(KillVictim(s, TidOf(ts[0]), applicant), ts[1..], applicant)
  }

  /** A height for every process, larger at a parent than at its children. */
  ghost predicate Heights(pcb: seq<Pcb>, h: seq<nat>) {
    && |h| == |pcb|
    && forall c :: 0 <= c < |pcb| && pcb[c].parent.Some? ==>
         pcb[c].parent.value < |h| && h[c] < h[pcb[c].parent.value]
  }

  /** `__terminate_process_s`: the threads, then each subtree, then the process itself. The heights
      bound the recursion; a child list that contradicts them is not followed. */
  ghost function KillTree(s: State, p: Pid, applicant: Option<Tid>, h: seq<nat>): State
    requires p < |h|
    decreases h[p], 1, 0
  {
    var s1 := KillThreads(s, Q(s.st.q, PThreads(p)), applicant);
    var s2 := KillKids(s1, Q(s1.st.q, PChildren(p)), h, h[p]);
    s2.(st := ProcDelete(s2.st, p).0)
  }

  ghost function KillKids(s: State, cs: seq<Node>, h: seq<nat>, bound: nat): State
    decreases bound, 0, |cs|
  {
    if cs == [] then s
    else
      var c := PidOf(cs[0]);
      if c < |h| && h[c] < bound then KillKids(KillTree(s, c, None, h), cs[1..], h, bound) else s
  }

  /** Some heights of the process tree. */
  ghost function HeightsOf(pcb: seq<Pcb>): seq<nat>
    ensures (exists h :: Heights(pcb, h)) ==> Heights(pcb, HeightsOf(pcb))
  {
    if h :| Heights(pcb, h) then h else []
  }

  ghost function TerminateProcess(s: State, a: Tid): State {
    var p := ProcOf(s, a);
    var h := HeightsOf(s.st.pcb);
    if p.Some? && p.value < |h| then KillTree(s, p.value, Some(a), h) else s
  }

  ghost function TerminateThread(s: State, t: Tid): State {
    var p := ProcOf(s, t);
    if p.Some? && Q(s.st.q, PThreads(p.value)) == [TNext(t)] then TerminateProcess(s, t) else KillThread(s, t)
  }

  // ----- Managers and I/O -----

  datatype Mgr = PgmMgr | TlbMgr | SysMgr

  function MgrOf(p: Pcb, k: Mgr): Option<Tid> {
    match k
    case PgmMgr => p.pgmMgr
    case TlbMgr => p.tlbMgr
    case SysMgr => p.sysMgr
  }

  function WithMgr(p: Pcb, k: Mgr, m: Option<Tid>): Pcb {
    match k
    case PgmMgr => p.(pgmMgr := m)
    case TlbMgr => p.(tlbMgr := m)
    case SysMgr => p.(sysMgr := m)
  }

  /** New state, reply, and whether the reply is sent back. */
  ghost function SetMgr(s: State, k: Mgr, m: Option<Tid>, a: Tid): (State, Option<Tid>, bool) {
    var p := ProcOf(s, a);
    if m.None? then (s, None, true)
    else if p.None? then (s, None, true)
    else if MgrOf(P(s.st.pcb, p.value), k).Some? then (TerminateProcess(s, a), None, false)
    else
      (s.(st := s.st.(pcb := Put(s.st.pcb, p.value, WithMgr(P(s.st.pcb, p.value), k, m)))), m, true)
  }

  ghost function DoIo(s: State, terminal: bool, a: Tid): State {
    if !terminal then s.(mode := Failed)
    else
      var s1 := s.(soft := (s.soft + 1) % UINT_RANGE, ios := s.ios + 1);
      if s.slot.Some? then s1.(mode := Failed) else s1.(slot := Some(a))
  }

  // ----- The SSI loop -----

  /** The requests of src/nucleus.h. A query only computes its reply; the clock service is not modelled. */
  datatype Request =
    | MakeProcess(init: Regs)
    | MakeThread(init: Regs)
    | EndProcess
    | EndThread
    | SetManager(kind: Mgr, mgr: Option<Tid>)
    | Io(terminal: bool)
    | Query(reply: Value)
    | Unknown

  ghost function Reply(s: State, a: Tid, v: Value): State
    requires s.current.Some?
  {
    SysSend(s, a, v).0
  }

  ghost function ReplyIf(s: State, back: bool, a: Tid, v: Value): State {
    if back && s.current.Some? then Reply(s, a, v) else s
  }

  ghost function Serve(s: State, req: Request, a: Tid): State {
    match req
    case MakeProcess(init) => var r := CreateProcess(s, init, a); ReplyIf(r.0, true, a, AddrOf(r.1))
    case MakeThread(init) => var r := CreateThread(s, init, a); ReplyIf(r.0, true, a, AddrOf(r.1))
    case EndProcess => TerminateProcess(s, a)
    case EndThread => TerminateThread(s, a)
    case SetManager(k, m) => var r := SetMgr(s, k, m, a); ReplyIf(r.0, r.2, a, AddrOf(r.1))
    case Io(terminal) => DoIo(s, terminal, a)
    case Query(v) => ReplyIf(s, true, a, v)
    case Unknown => s.(mode := Failed)
  }
}
