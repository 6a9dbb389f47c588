/** What counts as received is what the receiver finds: the sender in a1 and the payload in its cell. */
module Delivery {
  import opened Types
  import opened Links
  import opened Store
  import opened Kernel
  import opened Invariant
  import opened Endings
  import opened Machine
  import opened FastPath
  import opened Fifo
  import opened Fair

  /** Thread `d` finds the message `v` of `x` in its registers and, if it gave an address, in memory. */
  ghost predicate Finds(s: State, d: Tid, x: Tid, v: Value) {
    FindsSender(s, d, x) && var a := RegsOf(s, d).a3; a != NULL_ADDR ==> a in s.mem && s.mem[a] == v
  }

  predicate FindsSender(s: State, d: Tid, x: Tid) { RegsOf(s, d).a1 == Ptr(Some(x)) }

  lemma AwaitsNotRunning(s: State, d: Tid, snd: Tid)
    requires CoreInv(s) && Awaits(T(s.st.tcb, d), snd)
    ensures s.current != Some(d)
  {
    hide StoreInv, NoLostWakeup;
  }

  lemma SendFinds(s: State, d: Tid, snd: Tid, v: Value)
    requires CoreInv(s) && Awaits(T(s.st.tcb, d), snd)
    ensures var r := Send(s, d, snd, v).0; Finds(r, d, snd, v) && r.current == s.current && s.current != Some(d)
  {
    hide CoreInv, Resume;
    AwaitsNotRunning(s, d, snd);
    DirectDelivery(s, d, snd, v);
    SendFrame(s, d, snd, v);
  }

  /** The scheduler moves registers between the descriptor and the processor, and leaves memory alone. */
  lemma DispatchFinds(s: State, d: Tid, x: Tid, v: Value)
    requires s.current != Some(d) && Finds(s, d, x, v)
    ensures Finds(Dispatch(s), d, x, v)
  {
  }

  lemma ReplyFinds(s: State, a: Tid, v: Value)
    requires CoreInv(s) && s.current.Some? && Awaits(T(s.st.tcb, a), s.current.value)
    ensures Finds(SysSend(s, a, v).0, a, s.current.value, v)
  {
    hide CoreInv, Send;
    SendFinds(s, a, s.current.value, v);
  }

  lemma RecvFinds(s: State, src: Option<Tid>, pmsg: nat, x: Tid, d: Tid)
    requires s.current.Some? && RecvIn(s, src, x, d) != []
    ensures RecvIn(s, src, x, d) == [RecvIn(s, src, x, d)[0]]
    ensures Finds(SysRecv(s, src, pmsg), d, x, RecvIn(s, src, x, d)[0])
  {
    hide MsgGet;
  }

  /** The receive of another thread leaves what `d` finds, unless it stores another value into the same cell. */
  lemma RecvLeaves(s: State, src: Option<Tid>, pmsg: nat, x: Tid, d: Tid, v: Value)
    requires s.current.Some? && s.current != Some(d) && Finds(s, d, x, v)
    ensures FindsSender(SysRecv(s, src, pmsg), d, x)
    ensures Finds(SysRecv(s, src, pmsg), d, x, v) <==> !Overwrites(s, src, pmsg, d, v)
  {
    hide Unlink, Append;
    PutT(s.st.tcb, s.current.value,
         T(s.st.tcb, s.current.value).(regs := Regs(Code(SYS_RECV), pmsg), status := W4Msg, wait := src));
  }

  /** The receive stores something else than `v` into the cell of `d`. */
  ghost predicate Overwrites(s: State, src: Option<Tid>, pmsg: nat, d: Tid, v: Value) {
    var g := MsgGet(s.st, src, s.current);
    g.1.Some? && pmsg != NULL_ADDR && pmsg == RegsOf(s, d).a3 && g.1.value.value != v
  }

  lemma TerminalFinds(s: State, x: Tid, d: Tid)
    requires Inv(s) && Able(s, Terminal) && SendIn(s, s.slot.value, SSI, 0, x, d) != []
    ensures x == SSI && Finds(IoDone(s), d, SSI, 0)
  {
    hide CoreInv, NoEmpty, CountAgrees, SoftAgrees, Send, Dispatch;
    SendFinds(s, d, SSI, 0);
    AlwaysAccepted(s, d);
    var m := Send(s, d, SSI, 0).0;
    if s.mode == Waiting { DispatchFinds(m.(slot := None, mode := Running), d, SSI, 0); }
  }

  lemma AlwaysAccepted(s: State, d: Tid)
    requires Awaits(T(s.st.tcb, d), SSI)
    ensures Send(s, d, SSI, 0).1
  {
  }

  /** The one way to lose a payload: a request hands its message to the waiting SSI, and the receive of the same
      step stores a queued reply into the cell that the SSI gave. */
  ghost predicate Clobbers(s: State, e: Step)
    requires Able(s, e)
  {
    e.URequest? && Overwrites(Asked(s, e.v), Some(SSI), e.pmsg, SSI, e.v)
  }

  /** A step delivers at most one message from `x` to `d`; then `d` finds `x` in a1, and exactly if the cell was not
      overwritten in the same step, the payload. */
  lemma GotIsFound(s: State, e: Step, x: Tid, d: Tid)
    requires Inv(s) && Enabled(s, e) && Got(s, e, x, d) != []
    ensures |Got(s, e, x, d)| == 1
    ensures FindsSender(Next(s, e), d, x)
    ensures Finds(Next(s, e), d, x, Got(s, e, x, d)[0]) <==> !(d == SSI && Clobbers(s, e))
  {
    hide CoreInv, NoEmpty, CountAgrees, SoftAgrees, Rests, SysRecv, Serve, IoDone, SysSend, RecvIn, ReplyState, Finds,
      FindsSender;
    match e {
      case USend(d', v) => ReplyFinds(s, d', v);
      case URecv(src, pmsg) => RecvFinds(s, src, pmsg, x, d);
      case URequest(v, pmsg) => RequestFinds(s, v, pmsg, x, d);
      case Terminal => TerminalFinds(s, x, d);
      case SsiReceive(pmsg) => RecvFinds(s, None, pmsg, x, d); PcFinds(SysRecv(s, None, pmsg), d, x);
      case SsiServe(req) => ServeFinds(s, req, x, d);
      case _ =>
    }
    if !e.URequest? { FoundSender(Next(s, e), d, x, Got(s, e, x, d)[0]); }
  }

  lemma FoundSender(r: State, d: Tid, x: Tid, v: Value)
    requires Finds(r, d, x, v)
    ensures FindsSender(r, d, x)
  {
  }

  lemma PcFinds(s: State, d: Tid, x: Tid)
    ensures forall pc, v :: Finds(s, d, x, v) ==> Finds(s.(ssi := pc), d, x, v)
  {
  }

  lemma RequestFinds(s: State, v: Value, pmsg: nat, x: Tid, d: Tid)
    requires Inv(s) && UserRuns(s) && Got(s, URequest(v, pmsg), x, d) != []
    ensures var e := URequest(v, pmsg);
            && |Got(s, e, x, d)| == 1 && FindsSender(Next(s, e), d, x)
            && (Finds(Next(s, e), d, x, Got(s, e, x, d)[0]) <==> !(d == SSI && Clobbers(s, e)))
  {
    hide CoreInv, NoEmpty, CountAgrees, SoftAgrees, Rests, SysRecv, MsgGet, Finds, FindsSender, Send, Overwrites;
    var m := Asked(s, v);
    if d == SSI {
      ReplyFinds(s, SSI, v);
      RecvLeaves(m, Some(SSI), pmsg, x, d, v);
    } else {
      RecvFinds(m, Some(SSI), pmsg, x, d);
      FoundSender(Next(s, URequest(v, pmsg)), d, x, RecvIn(m, Some(SSI), x, d)[0]);
    }
  }

  lemma ServeFinds(s: State, req: Request, x: Tid, d: Tid)
    requires Inv(s) && Able(s, SsiServe(req)) && On(s) && Got(s, SsiServe(req), x, d) != []
    ensures var e := SsiServe(req); |Got(s, e, x, d)| == 1 && Finds(Next(s, e), d, x, Got(s, e, x, d)[0])
  {
    hide CoreInv, NoEmpty, CountAgrees, SoftAgrees, Rests, Serve, SysSend, ReplyState, Finds;
    var a := Applicant(s).value;
    var p := ReplyState(s, req, a);
    ServiceRuns(s, req);
    ReplyKeeps(s, req, a);
    ReplyFinds(p.0, a, p.1.value);
    PcFinds(Serve(s, req, a), d, x);
  }
}
