/** The records of the kernel and the addresses of the list heads embedded in them.

    A thread is named by its position: 0 is the statically allocated SSI thread, and i + 1 is
    `thread[i]`. Process i is `process[i]`, message i is `message[i]`. A NULL pointer is `None`. */
module Types {

  datatype Option<+T> = None | Some(value: T)

  type Tid = nat
  type Pid = nat
  type Mid = nat
  type Value = int

  const SSI: Tid := 0
  const ROOT: Pid := 0
  const NULL_ADDR: nat := 0
  const UINT_RANGE: nat := 0x1_0000_0000

  /** The address of a `struct list_head`: a static sentinel, or a member of a record. */
  datatype Node =
    | ReadyQ
    | BlockedQ
    | FreeThreads
    | FreeMsgs
    | PThreads(p: Pid)
    | PChildren(p: Pid)
    | PSiblings(p: Pid)
    | TNext(t: Tid)
    | TSched(t: Tid)
    | TMsgq(t: Tid)
    | TWait4me(t: Tid)
    | MNext(m: Mid)

  /** The sentinel of the free list of processes is the sibling link of the root process. */
  const FREE_PROCS: Node := PSiblings(ROOT)

  /** `container_of`: from a link back to the record that embeds it. */
  function PidOf(n: Node): Pid { if n.PSiblings? then n.p else 0 }

  function TidOf(n: Node): Tid { if n.TSched? || n.TNext? then n.t else 0 }

  function MidOf(n: Node): Mid { if n.MNext? then n.m else 0 }

  /** What register a1 may hold: a status code, or the address of a thread. */
  datatype Word = Code(code: int) | Ptr(thread: Option<Tid>)

  /** The two registers the kernel reads or writes: a1 carries results, a3 the payload address. */
  datatype Regs = Regs(a1: Word, a3: nat)

  datatype Status = Unused | Ready | W4Msg

  datatype Pcb = Pcb(parent: Option<Pid>, pgmMgr: Option<Tid>, tlbMgr: Option<Tid>, sysMgr: Option<Tid>)

  datatype Tcb = Tcb(pcb: Option<Pid>, regs: Regs, status: Status, errno: int, wait: Option<Tid>)

  datatype Msg = Msg(sender: Option<Tid>, value: Value)

  /** The payload that carries the address of a thread. */
  function AddrOf(t: Option<Tid>): Value { if t.None? then 0 else t.value + 1 }

  // Record pools are read and written by index; an index outside the pool reads as an unused record.

  function P(pcb: seq<Pcb>, p: Pid): Pcb { if p < |pcb| then pcb[p] else Pcb(None, None, None, None) }

  function T(tcb: seq<Tcb>, t: Tid): Tcb {
    if t < |tcb| then tcb[t] else Tcb(None, Regs(Code(0), NULL_ADDR), Unused, 0, None)
  }

  function M(msg: seq<Msg>, m: Mid): Msg { if m < |msg| then msg[m] else Msg(None, 0) }

  function Put<X>(s: seq<X>, i: nat, x: X): seq<X> { if i < |s| then s[i := x] else s }

  lemma PutT(tcb: seq<Tcb>, t: Tid, x: Tcb)
    ensures forall u: Tid {:trigger T(Put(tcb, t, x), u)} ::
              T(Put(tcb, t, x), u) == if u == t && t < |tcb| then x else T(tcb, u)
  {
  }

  lemma PutP(pcb: seq<Pcb>, p: Pid, x: Pcb)
    ensures forall c: Pid {:trigger P(Put(pcb, p, x), c)} ::
              P(Put(pcb, p, x), c) == if c == p && p < |pcb| then x else P(pcb, c)
  {
  }

  lemma PutM(msg: seq<Msg>, m: Mid, x: Msg)
    ensures forall k: Mid {:trigger M(Put(msg, m, x), k)} ::
              M(Put(msg, m, x), k) == if k == m && m < |msg| then x else M(msg, k)
  {
  }

  /** What `clean_thread_data` leaves: the saved registers survive. */
  function Cleaned(t: Tcb): Tcb { Tcb(None, t.regs, Unused, 0, None) }

  predicate Live(tcb: seq<Tcb>, t: Tid) { T(tcb, t).status != Unused }

  predicate Allocated(pcb: seq<Pcb>, p: Pid) { p < |pcb| && (p == ROOT || P(pcb, p).parent.Some?) }
}
