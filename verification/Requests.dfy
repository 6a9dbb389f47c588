/** The requests waiting in the SSI mailbox, and how termination cleans them up
    (src/SSI/services/terminate_process.c). */
module Requests {
  import opened Types
  import opened Seqs
  import opened Links
  import opened Store
  import opened Kernel
  import opened Invariant
  import opened Preserve
  import opened Termination
  import opened Mail
  import opened Reap
  import opened Subtree

  /** `x` is a client blocked until the SSI answers. */
  predicate Waits(tcb: seq<Tcb>, x: Tid) {
    x != SSI && T(tcb, x).status == W4Msg && T(tcb, x).wait == Some(SSI)
  }

  function Sender(msg: seq<Msg>, n: Node): Option<Tid> { M(msg, MidOf(n)).sender }

  /** Each request in the mailbox comes from a different blocked client, and none from `but`. */
  ghost predicate Clients(box: seq<Node>, msg: seq<Msg>, tcb: seq<Tcb>, but: Option<Tid>) {
    && (forall n {:trigger n in box} :: n in box ==>
          Sender(msg, n).Some? && Sender(msg, n) != but && Waits(tcb, Sender(msg, n).value))
    && (forall i, j :: 0 <= i < j < |box| ==> Sender(msg, box[i]) != Sender(msg, box[j]))
  }

  ghost predicate MailOk(st: Store, but: Option<Tid>) { Clients(Q(st.q, TMsgq(SSI)), st.msg, st.tcb, but) }

  lemma DropOne(box: seq<Node>, msg: seq<Msg>, tcb: seq<Tcb>, but: Option<Tid>, k: nat)
    requires Clients(box, msg, tcb, but) && k < |box|
    ensures var rest := box[..k] + box[k + 1..];
            Clients(rest, msg, tcb, but) && Clients(rest, msg, tcb, Sender(msg, box[k]))
  {
    var rest := box[..k] + box[k + 1..];
    assert forall i :: 0 <= i < |rest| ==> rest[i] == box[if i < k then i else i + 1];
    forall x | x in rest ensures x in box && Sender(msg, x) != Sender(msg, box[k]) {
      var i :| 0 <= i < |rest| && rest[i] == x;
      assert x == box[if i < k then i else i + 1];
    }
  }

  /** Without its first message from `t`, the mailbox has none. */
  lemma FirstWasOnly(box: seq<Node>, msg: seq<Msg>, tcb: seq<Tcb>, but: Option<Tid>, t: Tid)
    requires Clients(box, msg, tcb, but) && NoDup(box) && (forall n :: n in box ==> n == MNext(MidOf(n)))
    ensures var f := FirstFrom(box, msg, Some(t));
            var rest := if f.Some? then Without(box, MNext(f.value)) else box;
            Clients(rest, msg, tcb, Some(t)) && Clients(rest, msg, tcb, but)
  {
    hide Without;
    var f := FirstFrom(box, msg, Some(t));
    if f.Some? {
      FirstFromIn(box, msg, Some(t));
      var n := MNext(f.value);
      assert n in box;
      var k :| 0 <= k < |box| && box[k] == n;
      hide Clients;
      WithoutAt(box, k);
      DropOne(box, msg, tcb, but, k);
    } else {
      FirstFromNone(box, msg, Some(t));
    }
  }

  /** Removing the stale request of a victim that waits for the SSI leaves none of its requests. */
  lemma CleanRequests(s: State, t: Tid, but: Option<Tid>)
    requires CoreInv(s) && MailOk(s.st, but)
    ensures MailOk(CleanSysMsg(s.st, t), Some(t)) && MailOk(CleanSysMsg(s.st, t), but)
  {
    hide CoreInv, Clients, Shaped, Sep;
    var st, box, b := s.st, Q(s.st.q, TMsgq(SSI)), CleanedBox(s.st, t);
    ShapeOf(s);
    if T(st.tcb, t).wait == Some(SSI) {
      BoxFits(st, SSI);
      FirstWasOnly(box, st.msg, st.tcb, but, t);
      if FirstFrom(box, st.msg, Some(t)).Some? { TakenRequests(s, SSI, t, but); }
    } else {
      NoneFrom(box, st.msg, st.tcb, but, t) by { NotWaiting(st.tcb, t); }
      if b.Some? && FirstFrom(Q(st.q, TMsgq(b.value)), st.msg, Some(t)).Some? {
        TakenElsewhere(s, b.value, t);
        TakenRequests(s, b.value, t, but);
      }
    }
  }

  lemma NotWaiting(tcb: seq<Tcb>, t: Tid)
    ensures T(tcb, t).wait != Some(SSI) ==> !Waits(tcb, t)
  {
  }

  /** If the SSI holds nothing from `t`, a message from `t` is not in its mailbox. */
  lemma TakenElsewhere(s: State, d: Tid, t: Tid)
    requires CoreInv(s) && FirstFrom(Q(s.st.q, TMsgq(SSI)), s.st.msg, Some(t)).None?
    requires FirstFrom(Q(s.st.q, TMsgq(d)), s.st.msg, Some(t)).Some?
    ensures var m := FirstFrom(Q(s.st.q, TMsgq(d)), s.st.msg, Some(t)).value;
            Without(Q(s.st.q, TMsgq(SSI)), MNext(m)) == Q(s.st.q, TMsgq(SSI))
  {
    hide CoreInv;
    FirstFromNone(Q(s.st.q, TMsgq(SSI)), s.st.msg, Some(t));
    FirstFromIn(Q(s.st.q, TMsgq(d)), s.st.msg, Some(t));
  }

  lemma TakenRequests(s: State, d: Tid, t: Tid, but: Option<Tid>)
    requires CoreInv(s) && FirstFrom(Q(s.st.q, TMsgq(d)), s.st.msg, Some(t)).Some?
    requires var m := FirstFrom(Q(s.st.q, TMsgq(d)), s.st.msg, Some(t)).value;
             var rest := Without(Q(s.st.q, TMsgq(SSI)), MNext(m));
             Clients(rest, s.st.msg, s.st.tcb, Some(t)) && Clients(rest, s.st.msg, s.st.tcb, but)
    ensures var r := MsgGet(s.st, Some(t), Some(d)).0; MailOk(r, Some(t)) && MailOk(r, but)
  {
    hide CoreInv, Clients, Shaped, Sep;
    ShapeOf(s);
    var st := s.st;
    var m := FirstFrom(Q(st.q, TMsgq(d)), st.msg, Some(t)).value;
    var rest := Without(Q(st.q, TMsgq(SSI)), MNext(m));
    var r := MsgFree(st, m);
    BoxFits(st, SSI);
    MsgFreeBox(st, m, SSI);
    PutM(st.msg, m, M(st.msg, m).(sender := None));
    ClientsFrame(rest, st.msg, r.msg, st.tcb, but);
    ClientsFrame(rest, st.msg, r.msg, st.tcb, Some(t));
  }

  lemma NoneFrom(box: seq<Node>, msg: seq<Msg>, tcb: seq<Tcb>, but: Option<Tid>, t: Tid)
    requires Clients(box, msg, tcb, but) && (Some(t) == but || !Waits(tcb, t))
    ensures Clients(box, msg, tcb, Some(t)) && FirstFrom(box, msg, Some(t)).None?
  {
    FirstFromNone(box, msg, Some(t));
    forall n | n in box ensures Sender(msg, n) != Some(t) {}
  }

  lemma ClientsFrame(box: seq<Node>, msg: seq<Msg>, msg': seq<Msg>, tcb: seq<Tcb>, but: Option<Tid>)
    requires Clients(box, msg, tcb, but) && forall n :: n in box ==> M(msg', MidOf(n)) == M(msg, MidOf(n))
    ensures Clients(box, msg', tcb, but)
  {
    forall i, j | 0 <= i < j < |box| ensures Sender(msg', box[i]) != Sender(msg', box[j]) {
      assert box[i] in box && box[j] in box;
    }
  }

  lemma KilledWaits(q: Lists, tcb: seq<Tcb>, tcb': seq<Tcb>, current: Option<Tid>, t: Tid, x: Tid)
    requires SchedAgree(q, tcb, current) && KilledThreads(q, tcb, tcb', t) && t != SSI && x != t && Waits(tcb, x)
    ensures Waits(tcb', x)
  {
    assert TSched(x) in Q(q, TWait4me(t)) <==> T(tcb, x).status == W4Msg && T(tcb, x).wait == Some(t);
    assert T(tcb', x) == T(tcb', x);
  }

  /** Killing `t`, whose requests are gone, leaves the other requests in order. */
  lemma KillRequests(s: State, t: Tid, but: Option<Tid>)
    requires CoreInv(s) && 1 <= t && Live(s.st.tcb, t) && s.current != Some(t)
    requires MailOk(s.st, but) && MailOk(s.st, Some(t))
    ensures MailOk(KillThread(s, t).st, but)
  {
    hide KillThread, StoreInv, SchedAgree, NoLostWakeup, KilledThreads, Shaped, Waits;
    KillKeeps(s, t);
    ShapeOf(s);
    var r := KillThread(s, t);
    var box := Q(s.st.q, TMsgq(SSI));
    assert Q(r.st.q, TMsgq(SSI)) == box;
    BoxFits(s.st, SSI);
    forall n | n in box ensures M(r.st.msg, MidOf(n)) == M(s.st.msg, MidOf(n)) {
      assert n == MNext(MidOf(n)) && n !in Q(s.st.q, TMsgq(t));
    }
    hide Sep, KilledLists;
    ClientsFrame(box, s.st.msg, r.st.msg, s.st.tcb, but);
    ClientsFrame(box, s.st.msg, r.st.msg, s.st.tcb, Some(t));
    assert SchedAgree(s.st.q, s.st.tcb, s.current);
    ClientsStay(box, r.st.msg, s.st.q, s.st.tcb, r.st.tcb, s.current, but, t);
  }

  lemma ClientsStay(box: seq<Node>, msg: seq<Msg>, q: Lists, tcb: seq<Tcb>, tcb': seq<Tcb>, current: Option<Tid>,
                    but: Option<Tid>, t: Tid)
    requires SchedAgree(q, tcb, current) && KilledThreads(q, tcb, tcb', t) && t != SSI
    requires Clients(box, msg, tcb, but) && Clients(box, msg, tcb, Some(t))
    ensures Clients(box, msg, tcb', but)
  {
    hide SchedAgree, KilledThreads, Waits;
    forall n | n in box ensures Waits(tcb', Sender(msg, n).value) {
      KilledWaits(q, tcb, tcb', current, t, Sender(msg, n).value);
    }
  }

  lemma VictimRequests(s: State, t: Tid, applicant: Option<Tid>)
    requires CoreInv(s) && 1 <= t && Live(s.st.tcb, t) && s.current != Some(t) && MailOk(s.st, applicant)
    ensures MailOk(KillVictim(s, t, applicant).st, applicant)
  {
    hide CoreInv, KillThread, CleanSysMsg, Clients;
    if applicant != Some(t) && T(s.st.tcb, t).status == W4Msg {
      CleanRequests(s, t, applicant);
      CleanFacts(s, t);
      KillRequests(s.(st := CleanSysMsg(s.st, t)), t, applicant);
    } else {
      NoneFrom(Q(s.st.q, TMsgq(SSI)), s.st.msg, s.st.tcb, applicant, t);
      KillRequests(s, t, applicant);
    }
  }

  lemma ForgetBut(st: Store, but: Option<Tid>)
    requires MailOk(st, but)
    ensures MailOk(st, None)
  {
  }

  // ----- Along the recursion -----

  lemma {:induction false} KillThreadsRequests(s: State, p: Pid, applicant: Option<Tid>)
    requires CoreInv(s) && Service(s.current) && MailOk(s.st, applicant)
    ensures MailOk(KillThreads(s, Q(s.st.q, PThreads(p)), applicant).st, applicant)
    decreases |Q(s.st.q, PThreads(p))|
  {
    hide SchedAgree, NoLostWakeup, StoreInv, Reaped, KillVictim, MailOk;
    var ts := Q(s.st.q, PThreads(p));
    if ts != [] {
      var t := TidOf(ts[0]);
      HeadOfThreads(s.st, p);
      VictimReaps(s, t, applicant);
      VictimRequests(s, t, applicant);
      var s1 := KillVictim(s, t, applicant);
      assert s1.current == s.current by { ReapedFrame(s, s1); }
      assert Q(s1.st.q, PThreads(p)) == ts[1..];
      KillThreadsRequests(s1, p, applicant);
      assert KillThreads(s1, ts[1..], applicant) == KillThreads(s, ts, applicant);
    }
  }

  lemma DeleteRequests(s: State, p: Pid)
    requires CoreInv(s) && MailOk(s.st, None)
    ensures MailOk(ProcDelete(s.st, p).0, None)
  {
    hide CoreInv, Clients, Shaped, Move;
    if ProcDelete(s.st, p).1 {
      ShapeOf(s);
      DeleteElsewhere(s.st, p, TMsgq(SSI));
    }
  }

  /** No request of a victim survives the termination of its process. */
  lemma {:induction false} KillTreeRequests(s: State, p: Pid, applicant: Option<Tid>, h: seq<nat>)
    requires CoreInv(s) && Service(s.current) && Allocated(s.st.pcb, p) && Heights(s.st.pcb, h) && p < |h|
    requires MailOk(s.st, applicant)
    ensures MailOk(KillTree(s, p, applicant, h).st, None)
    decreases h[p], 1, 0
  {
    hide CoreInv, Reaped, KillThreads, Heights, Under, ProcDelete, MailOk;
    var s1 := KillThreads(s, Q(s.st.q, PThreads(p)), applicant);
    KillThreadsKeeps(s, p, applicant);
    KillThreadsRequests(s, p, applicant);
    ForgetBut(s1.st, applicant);
    ReapedFrame(s, s1);
    KillKidsKeeps(s1, p, h);
    KillKidsRequests(s1, p, h);
    DeleteRequests(KillKids(s1, Q(s1.st.q, PChildren(p)), h, h[p]), p);
  }

  lemma {:induction false} KillKidsRequests(s: State, p: Pid, h: seq<nat>)
    requires CoreInv(s) && Service(s.current) && Heights(s.st.pcb, h) && p < |h|
    requires Q(s.st.q, PThreads(p)) == [] && MailOk(s.st, None)
    ensures MailOk(KillKids(s, Q(s.st.q, PChildren(p)), h, h[p]).st, None)
    decreases h[p], 0, |Q(s.st.q, PChildren(p))|
  {
    hide StoreInv, SchedAgree, NoLostWakeup, Reaped, KillTree, Heights, Under, Within, MailOk;
    var cs := Q(s.st.q, PChildren(p));
    if cs != [] {
      var c := PidOf(cs[0]);
      FirstChild(s.st, p, h);
      var s1 := KillTree(s, c, None, h);
      KillTreeKeeps(s, c, None, h);
      KillTreeRequests(s, c, None, h);
      FirstChildGone(s, s1, p, h);
      StillNoThreads(s, s1, p);
      ReapedFrame(s, s1);
      HeightsMono(s.st.pcb, s1.st.pcb, h);
      KillKidsRequests(s1, p, h);
      assert KillKids(s1, cs[1..], h, h[p]) == KillKids(s, cs, h, h[p]);
    }
  }
}
