/** The SSI answers in order: requests of all clients are taken up in the order in which they arrived, each after at most
    one receive of the SSI more than there were requests in front of it. */
module Response {
  import opened Types
  import opened Seqs
  import opened Links
  import opened Store
  import opened Kernel
  import opened Invariant
  import opened Preserve
  import opened Termination
  import opened Mail
  import opened Reap
  import opened Subtree
  import opened Endings
  import opened Machine
  import opened Safety
  import opened Requests
  import opened Fifo
  import opened Fair
  import opened Moves
  import opened Ssi
  import opened Protocol
  import opened Promises

  // ----- Filters -----

  /** The members of `a` that are in `b`, in the order of `a`. */
  function Sift(a: seq<Node>, b: seq<Node>): (r: seq<Node>)
    ensures forall n :: n in r <==> n in a && n in b
  {
    if a == [] then [] else if a[0] in b then [a[0]] + Sift(a[1..], b) else Sift(a[1..], b)
  }

  lemma {:induction false} SiftAll(a: seq<Node>, b: seq<Node>)
    requires forall n :: n in a ==> n in b
    ensures Sift(a, b) == a
  {
    if a != [] {
      assert a[0] in a && forall n :: n in a[1..] ==> n in a;
      SiftAll(a[1..], b);
    }
  }

  lemma {:induction false} SiftTwice(a: seq<Node>, b: seq<Node>, c: seq<Node>)
    requires forall n :: n in c ==> n in b
    ensures Sift(Sift(a, b), c) == Sift(a, c)
  {
    if a != [] {
      SiftTwice(a[1..], b, c);
      assert a[0] in c ==> a[0] in b;
      if a[0] in b {
        var rest := Sift(a[1..], b);
        assert Sift(a, b) == [a[0]] + rest;
        assert ([a[0]] + rest)[1..] == rest;
      }
    }
  }

  lemma {:induction false} SiftBut(a: seq<Node>, b: seq<Node>, n: Node)
    requires forall x :: x in a ==> (x in b <==> x != n)
    ensures Sift(a, b) == Without(a, n)
  {
    if a != [] {
      assert a[0] in a && forall x :: x in a[1..] ==> x in a;
      SiftBut(a[1..], b, n);
    }
  }

  /** Of two members that stay, the first stays in front of the second, and neither moves back. */
  lemma {:induction false} SiftOrder(a: seq<Node>, b: seq<Node>, i: nat, k: nat) returns (x: nat, y: nat)
    requires i <= k < |a| && a[i] in b && a[k] in b
    ensures x <= i && y <= k && y < |Sift(a, b)| && x <= y && (i < k ==> x < y)
    ensures Sift(a, b)[x] == a[i] && Sift(a, b)[y] == a[k]
  {
    if i == 0 {
      x := 0;
      if k == 0 {
        y := 0;
      } else {
        var _, w := SiftOrder(a[1..], b, k - 1, k - 1);
        y := w + 1;
      }
    } else {
      var v, w := SiftOrder(a[1..], b, i - 1, k - 1);
      x, y := if a[0] in b then v + 1 else v, if a[0] in b then w + 1 else w;
    }
  }

  // ----- The mailbox of the SSI -----

  ghost function SsiBox(st: Store): seq<Node> { Q(st.q, TMsgq(SSI)) }

  /** The mailbox of the SSI and its messages are the same. */
  ghost predicate SameBox(st: Store, r: Store) {
    && SsiBox(r) == SsiBox(st)
    && forall n {:trigger n in SsiBox(st)} :: n in SsiBox(st) ==> M(r.msg, MidOf(n)) == M(st.msg, MidOf(n))
  }

  lemma SameBoxTrans(a: Store, b: Store, c: Store)
    requires SameBox(a, b) && SameBox(b, c)
    ensures SameBox(a, c)
  {
  }

  lemma SameMailBox(s: State, r: State)
    requires SameMail(s, r)
    ensures SameBox(s.st, r.st)
  {
  }

  lemma SendElsewhere(s: State, d: Tid, snd: Tid, v: Value)
    requires CoreInv(s) && d != SSI
    ensures SameBox(s.st, Send(s, d, snd, v).0.st)
  {
    hide CoreInv, Resume, SameMail, MsgAdd;
    var tc := T(s.st.tcb, d);
    if Awaits(tc, snd) {
      ResumeMail(s, d, Some(snd), v);
      SameMailBox(s, Send(s, d, snd, v).0);
    } else if tc.status != Unused {
      AddElsewhere(s, d, snd, v);
    }
  }

  lemma AddElsewhere(s: State, d: Tid, snd: Tid, v: Value)
    requires CoreInv(s) && d != SSI && Live(s.st.tcb, d)
    ensures SameBox(s.st, MsgAdd(s.st, Some(snd), Some(d), v).0)
  {
    hide SchedAgree, NoLostWakeup, ThreadsAgree, ThreadsClean, ProcsAgree, Tree, Owned, Move, Shaped;
    var st := s.st;
    if Q(st.q, FreeMsgs) != [] {
      FreeSlot(st);
      hide MsgsAgree;
      var n := Q(st.q, FreeMsgs)[0];
      BoxHead(st, d);
      MoveHead(st.q, FreeMsgs, TMsgq(d));
      PutM(st.msg, n.m, Msg(Some(snd), v));
      BoxFits(st, SSI);
      assert n !in Q(st.q, TMsgq(SSI));
    }
  }

  /** Taking a message out of any mailbox takes at most that message out of the mailbox of the SSI. */
  lemma GetFromBox(s: State, from: Option<Tid>, d: Option<Tid>) returns (n: Node)
    requires CoreInv(s)
    ensures var g := MsgGet(s.st, from, d).0;
            && g.tcb == s.st.tcb && SsiBox(g) == Without(SsiBox(s.st), n)
            && (forall k {:trigger k in SsiBox(g)} :: k in SsiBox(g) ==> M(g.msg, MidOf(k)) == M(s.st.msg, MidOf(k)))
            && (n in SsiBox(s.st) ==> d == Some(SSI) && Matches(M(s.st.msg, MidOf(n)), from))
  {
    hide SchedAgree, NoLostWakeup, ThreadsAgree, ThreadsClean, ProcsAgree, Tree, Owned, MsgsAgree, Move, Shaped,
      Without;
    n := ReadyQ;
    BoxFits(s.st, SSI);
    NotListed(s.st);
    if d.Some? {
      var box := Q(s.st.q, TMsgq(d.value));
      var f := FirstFrom(box, s.st.msg, from);
      if f.Some? {
        FirstFromIn(box, s.st.msg, from);
        BoxFits(s.st, d.value);
        n := MNext(f.value);
        MsgFreeBox(s.st, f.value, SSI);
        PutM(s.st.msg, f.value, M(s.st.msg, f.value).(sender := None));
        assert n in box;
        assert n in SsiBox(s.st) ==> TMsgq(d.value) == TMsgq(SSI);
        WithoutMembers(SsiBox(s.st), n);
      }
    }
  }

  lemma WithoutMembers(a: seq<Node>, n: Node)
    ensures forall k :: k in Without(a, n) <==> k in a && k != n
  {
  }

  lemma NotListed(st: Store)
    requires Shape(st) && Sep(st.q)
    ensures Without(SsiBox(st), ReadyQ) == SsiBox(st)
  {
    BoxFits(st, SSI);
    assert ReadyQ !in SsiBox(st);
  }

  // ----- Terminations -----

  /** Only requests of threads that are gone have been taken out of the mailbox of the SSI. */
  ghost predicate Sifted(st: Store, r: Store) {
    var a, b := SsiBox(st), SsiBox(r);
    && b == Sift(a, b)
    && (forall n {:trigger n in b} :: n in b ==> M(r.msg, MidOf(n)) == M(st.msg, MidOf(n)))
    && (forall n {:trigger n in a} :: n in a ==>
          n in b || (Sender(st.msg, n).Some? && !Live(r.tcb, Sender(st.msg, n).value)))
    && (forall t: Tid {:trigger Live(r.tcb, t)} :: Live(r.tcb, t) ==> Live(st.tcb, t))
  }

  lemma SiftedTrans(a: Store, b: Store, c: Store)
    requires Sifted(a, b) && Sifted(b, c)
    ensures Sifted(a, c)
  {
    hide Live, SsiBox;
    var x, y, z := SsiBox(a), SsiBox(b), SsiBox(c);
    SiftTwice(x, y, z);
    forall n | n in x ensures n in z || (Sender(a.msg, n).Some? && !Live(c.tcb, Sender(a.msg, n).value)) {
      if n in y && n !in z { assert M(b.msg, MidOf(n)) == M(a.msg, MidOf(n)); }
    }
    forall n | n in z ensures M(c.msg, MidOf(n)) == M(a.msg, MidOf(n)) { assert n in y; }
  }

  lemma SiftedSame(st: Store, r: Store)
    requires SameBox(st, r) && forall t: Tid :: Live(r.tcb, t) ==> Live(st.tcb, t)
    ensures Sifted(st, r)
  {
    hide Live, SsiBox;
    SiftAll(SsiBox(st), SsiBox(st));
  }

  lemma KillSameBox(s: State, t: Tid)
    requires CoreInv(s) && 1 <= t && Live(s.st.tcb, t) && s.current != Some(t)
    ensures SameBox(s.st, KillThread(s, t).st)
  {
    hide CoreInv, KillThread, Killed, SameBox;
    KillKeeps(s, t);
    ShapeOf(s);
    BoxAfterKill(s, KillThread(s, t), t);
  }

  lemma BoxAfterKill(s: State, r: State, t: Tid)
    requires Shape(s.st) && Sep(s.st.q) && Killed(s, r, t) && t != SSI
    ensures SameBox(s.st, r.st)
  {
    hide Shape, KilledThreads;
    BoxFits(s.st, SSI);
    assert SsiBox(r.st) == SsiBox(s.st);
    hide KilledLists;
    forall n | n in SsiBox(s.st) ensures M(r.st.msg, MidOf(n)) == M(s.st.msg, MidOf(n)) {
      assert n == MNext(MidOf(n)) && n !in Q(s.st.q, TMsgq(t));
    }
  }

  lemma VictimSifts(s: State, t: Tid, applicant: Option<Tid>)
    requires CoreInv(s) && 1 <= t && Live(s.st.tcb, t) && s.current != Some(t)
    ensures Sifted(s.st, KillVictim(s, t, applicant).st)
  {
    hide CoreInv, KillThread, MsgGet, CleanedBox, Reaped, SsiBox;
    var r := KillVictim(s, t, applicant);
    VictimReaps(s, t, applicant);
    if applicant != Some(t) && T(s.st.tcb, t).status == W4Msg {
      var s1 := s.(st := CleanSysMsg(s.st, t));
      CleanFacts(s, t);
      var n := GetFromBox(s, Some(t), CleanedBox(s.st, t));
      KillSameBox(s1, t);
      assert r == KillThread(s1, t);
      SiftBut(SsiBox(s.st), SsiBox(r.st), n);
    } else {
      KillSameBox(s, t);
      assert r == KillThread(s, t);
      SiftedSame(s.st, r.st);
    }
  }

  lemma {:induction false} KillThreadsSift(s: State, p: Pid, applicant: Option<Tid>)
    requires CoreInv(s) && Service(s.current)
    ensures Sifted(s.st, KillThreads(s, Q(s.st.q, PThreads(p)), applicant).st)
    decreases |Q(s.st.q, PThreads(p))|
  {
    hide SchedAgree, NoLostWakeup, StoreInv, Reaped, KillVictim, Sifted;
    var ts := Q(s.st.q, PThreads(p));
    if ts == [] {
      SiftedSame(s.st, s.st);
    } else {
      var t := TidOf(ts[0]);
      HeadOfThreads(s.st, p);
      VictimReaps(s, t, applicant);
      VictimSifts(s, t, applicant);
      var s1 := KillVictim(s, t, applicant);
      assert s1.current == s.current by { ReapedFrame(s, s1); }
      assert Q(s1.st.q, PThreads(p)) == ts[1..];
      KillThreadsSift(s1, p, applicant);
      assert KillThreads(s1, ts[1..], applicant) == KillThreads(s, ts, applicant);
      SiftedTrans(s.st, s1.st, KillThreads(s1, ts[1..], applicant).st);
    }
  }

  lemma DeleteSifts(s: State, p: Pid)
    requires CoreInv(s)
    ensures Sifted(s.st, ProcDelete(s.st, p).0)
  {
    hide CoreInv, Shaped, Move, Sifted;
    if ProcDelete(s.st, p).1 {
      ShapeOf(s);
      DeleteElsewhere(s.st, p, TMsgq(SSI));
    }
    SiftedSame(s.st, ProcDelete(s.st, p).0);
  }

  lemma {:induction false} KillTreeSifts(s: State, p: Pid, applicant: Option<Tid>, h: seq<nat>)
    requires CoreInv(s) && Service(s.current) && Allocated(s.st.pcb, p) && Heights(s.st.pcb, h) && p < |h|
    ensures Sifted(s.st, KillTree(s, p, applicant, h).st)
    decreases h[p], 1, 0
  {
    hide CoreInv, Reaped, KillThreads, Heights, Under, ProcDelete, Sifted;
    var s1 := KillThreads(s, Q(s.st.q, PThreads(p)), applicant);
    KillThreadsKeeps(s, p, applicant);
    KillThreadsSift(s, p, applicant);
    ReapedFrame(s, s1);
    KillKidsKeeps(s1, p, h);
    KillKidsSift(s1, p, h);
    var s2 := KillKids(s1, Q(s1.st.q, PChildren(p)), h, h[p]);
    DeleteSifts(s2, p);
    SiftedTrans(s1.st, s2.st, ProcDelete(s2.st, p).0);
    SiftedTrans(s.st, s1.st, ProcDelete(s2.st, p).0);
  }

  lemma {:induction false} KillKidsSift(s: State, p: Pid, h: seq<nat>)
    requires CoreInv(s) && Service(s.current) && Heights(s.st.pcb, h) && p < |h| && Q(s.st.q, PThreads(p)) == []
    ensures Sifted(s.st, KillKids(s, Q(s.st.q, PChildren(p)), h, h[p]).st)
    decreases h[p], 0, |Q(s.st.q, PChildren(p))|
  {
    hide StoreInv, SchedAgree, NoLostWakeup, Reaped, KillTree, Heights, Under, Within, Sifted;
    var cs := Q(s.st.q, PChildren(p));
    if cs == [] {
      SiftedSame(s.st, s.st);
    } else {
      var c := PidOf(cs[0]);
      FirstChild(s.st, p, h);
      var s1 := KillTree(s, c, None, h);
      KillTreeKeeps(s, c, None, h);
      KillTreeSifts(s, c, None, h);
      FirstChildGone(s, s1, p, h);
      StillNoThreads(s, s1, p);
      ReapedFrame(s, s1);
      HeightsMono(s.st.pcb, s1.st.pcb, h);
      KillKidsSift(s1, p, h);
      var r := KillKids(s1, cs[1..], h, h[p]);
      assert r == KillKids(s, cs, h, h[p]);
      SiftedTrans(s.st, s1.st, r.st);
    }
  }

  lemma EndProcessSifts(s: State, a: Tid, p: Pid)
    requires CoreInv(s) && Service(s.current) && ProcOf(s, a) == Some(p)
    ensures Sifted(s.st, TerminateProcess(s, a).st)
  {
    hide Shape, Sep, ThreadsAgree, ProcsAgree, Tree, MsgsAgree, SchedAgree, NoLostWakeup, KillTree, Sifted;
    assert Allocated(s.st.pcb, p);
    HeightsExist(s, p);
    KillTreeSifts(s, p, Some(a), HeightsOf(s.st.pcb));
  }

  lemma EndThreadSifts(s: State, t: Tid, p: Pid)
    requires CoreInv(s) && Service(s.current) && ProcOf(s, t) == Some(p)
    ensures Sifted(s.st, TerminateThread(s, t).st)
  {
    hide CoreInv, TerminateProcess, KillThread, Sifted;
    OnlyThread(s, t, p);
    if Q(s.st.q, PThreads(p)) == [TNext(t)] {
      EndProcessSifts(s, t, p);
    } else {
      KillReaps(s, t);
      KillSameBox(s, t);
      ThreadGoneLives(s, KillThread(s, t), t);
      SiftedSame(s.st, KillThread(s, t).st);
    }
  }

  lemma ThreadGoneLives(s: State, r: State, t: Tid)
    requires OneDown(s, r, t)
    ensures forall u: Tid :: Live(r.st.tcb, u) ==> Live(s.st.tcb, u)
  {
  }

  // ----- One step -----

  /** What stays of the requests `was`: they stand in front, in order; only those of threads that are gone are
      missing. */
  ghost predicate Kept(was: seq<Node>, msg: seq<Msg>, r: Store) {
    && Sift(was, SsiBox(r)) <= SsiBox(r)
    && (forall n {:trigger n in was} :: n in was && n in SsiBox(r) ==> M(r.msg, MidOf(n)) == M(msg, MidOf(n)))
    && (forall n {:trigger n in was} :: n in was ==>
          n in SsiBox(r) || (Sender(msg, n).Some? && !Live(r.tcb, Sender(msg, n).value)))
  }

  /** A receive takes the first request out. */
  ghost function Was(s: State, e: Step): seq<Node> {
    if e.SsiReceive? && SsiBox(s.st) != [] then SsiBox(s.st)[1..] else SsiBox(s.st)
  }

  lemma KeptSame(st: Store, r: Store)
    requires SameBox(st, r)
    ensures Kept(SsiBox(st), st.msg, r)
  {
    hide SsiBox;
    SiftAll(SsiBox(st), SsiBox(st));
  }

  lemma KeptSifted(st: Store, r: Store)
    requires Sifted(st, r)
    ensures Kept(SsiBox(st), st.msg, r)
  {
    hide SsiBox;
  }

  /** The reply of the SSI changes nothing in its own mailbox. */
  lemma KeptThen(was: seq<Node>, msg: seq<Msg>, m: Store, r: Store)
    requires Kept(was, msg, m) && SameBox(m, r) && forall t: Tid :: Live(r.tcb, t) ==> Live(m.tcb, t)
    ensures Kept(was, msg, r)
  {
    hide SsiBox, Live;
  }

  lemma ServiceKept(s: State, req: Request, a: Tid)
    requires Inv(s) && s.current == Some(SSI) && a != SSI && Live(s.st.tcb, a)
    ensures Kept(SsiBox(s.st), s.st.msg, ReplyState(s, req, a).0.st)
  {
    hide Shape, Sep, ThreadsAgree, ProcsAgree, Tree, Owned, MsgsAgree, SchedAgree, NoLostWakeup, NoEmpty, CountAgrees,
      SoftAgrees, Rests, CreateProcess, CreateThread, TerminateProcess, TerminateThread, Kept, Sifted, SameMail,
      SameBox;
    assert ProcOf(s, a).Some?;
    var p := ProcOf(s, a).value;
    hide ThreadsClean, CoreInv;
    var r := ReplyState(s, req, a).0;
    match req {
      case MakeProcess(init) => CreateProcessMail(s, init, a, p); SameMailBox(s, r); KeptSame(s.st, r.st);
      case MakeThread(init) => CreateThreadMail(s, init, a, p); SameMailBox(s, r); KeptSame(s.st, r.st);
      case EndProcess => EndProcessSifts(s, a, p); KeptSifted(s.st, r.st);
      case EndThread => EndThreadSifts(s, a, p); KeptSifted(s.st, r.st);
      case SetManager(k, m) =>
        if m.Some? && MgrOf(P(s.st.pcb, p), k).Some? {
          EndProcessSifts(s, a, p);
          KeptSifted(s.st, r.st);
        } else {
          MgrMail(s, k, m, a);
          SameMailBox(s, r);
          KeptSame(s.st, r.st);
        }
      case Io(terminal) => DoIoStore(s, terminal, a); StoreSameBox(s.st); KeptSame(s.st, r.st);
      case Query(v) => StoreSameBox(s.st); KeptSame(s.st, r.st);
      case Unknown => StoreSameBox(s.st); KeptSame(s.st, r.st);
    }
  }

  lemma StoreSameBox(st: Store)
    ensures SameBox(st, st)
  {
  }

  lemma ServeKept(s: State, req: Request)
    requires Inv(s) && Able(s, SsiServe(req))
    ensures Kept(SsiBox(s.st), s.st.msg, Next(s, SsiServe(req)).st)
  {
    hide CoreInv, NoEmpty, CountAgrees, SoftAgrees, Rests, Serve, Send, ReplyState, Kept, SameBox, SsiBox;
    var a := Applicant(s).value;
    ServiceRuns(s, req);
    ReplyKeeps(s, req, a);
    ServiceKept(s, req, a);
    var p := ReplyState(s, req, a);
    if p.1.Some? {
      SendElsewhere(p.0, a, SSI, p.1.value);
      forall t: Tid ensures Live(Send(p.0, a, SSI, p.1.value).0.st.tcb, t) <==> Live(p.0.st.tcb, t) {
        SendLives(p.0, a, SSI, p.1.value, t);
      }
      KeptThen(SsiBox(s.st), s.st.msg, p.0.st, Send(p.0, a, SSI, p.1.value).0.st);
    }
  }

  lemma RecvElsewhere(s: State, src: Option<Tid>, pmsg: nat)
    requires CoreInv(s) && UserRuns(s) && CanReceive(s, src)
    ensures SameBox(s.st, SysRecv(s, src, pmsg).st)
  {
    hide CoreInv, SameMail, SameBox, MsgGet, ReadyList, SsiBox;
    var r := SysRecv(s, src, pmsg);
    if MsgGet(s.st, src, s.current).1.Some? {
      var n := GetFromBox(s, src, s.current);
      assert SsiBox(MsgGet(s.st, src, s.current).0) == SsiBox(s.st) by { WithoutMembers(SsiBox(s.st), n); }
      assert SameBox(s.st, MsgGet(s.st, src, s.current).0) by { BoxesSame(s.st, MsgGet(s.st, src, s.current).0); }
      RecvStore(s, src, pmsg);
    } else {
      Yields(s, s.current.value, src, pmsg);
      SameMailBox(s, r);
    }
  }

  lemma BoxesSame(st: Store, r: Store)
    requires SsiBox(r) == SsiBox(st)
    requires forall k {:trigger k in SsiBox(r)} :: k in SsiBox(r) ==> M(r.msg, MidOf(k)) == M(st.msg, MidOf(k))
    ensures SameBox(st, r)
  {
  }

  lemma RecvStore(s: State, src: Option<Tid>, pmsg: nat)
    requires s.current.Some? && MsgGet(s.st, src, s.current).1.Some?
    ensures SysRecv(s, src, pmsg).st == MsgGet(s.st, src, s.current).0
  {
  }

  /** A request goes to the end of the mailbox, if it is queued at all. */
  lemma RequestKept(s: State, v: Value, pmsg: nat)
    requires Inv(s) && SsiInv(s) && UserRuns(s)
    ensures Kept(SsiBox(s.st), s.st.msg, Next(s, URequest(v, pmsg)).st)
  {
    hide CoreInv, NoEmpty, CountAgrees, SoftAgrees, Send, SsiInv, SameBox, SameMail, Kept, SysRecv, SsiBox;
    var t, m, r := s.current.value, Asked(s, v), Next(s, URequest(v, pmsg));
    SendStep(s, SSI, v);
    AskedBlocks(s, v, pmsg);
    SsiLives(m);
    Yields(m, t, Some(SSI), pmsg);
    SameMailBox(m, r);
    SentKept(s, t, v);
    forall u: Tid | Live(r.st.tcb, u) ensures Live(m.st.tcb, u) {
      if u == t { RunnerLives(m, t); }
    }
    KeptThen(SsiBox(s.st), s.st.msg, m.st, r.st);
  }

  lemma RunnerLives(s: State, t: Tid)
    requires CoreInv(s) && s.current == Some(t)
    ensures Live(s.st.tcb, t)
  {
    CurrentUnlinked(s);
  }

  lemma SentKept(s: State, t: Tid, v: Value)
    requires CoreInv(s)
    ensures Kept(SsiBox(s.st), s.st.msg, Send(s, SSI, t, v).0.st)
  {
    hide CoreInv, Resume, SameMail, MsgAdd, Kept, SameBox;
    var tc, r := T(s.st.tcb, SSI), Send(s, SSI, t, v).0.st;
    if Awaits(tc, t) {
      ResumeMail(s, SSI, Some(t), v);
      SameMailBox(s, Send(s, SSI, t, v).0);
      KeptSame(s.st, r);
    } else if tc.status != Unused {
      AddedToSsi(s, t, v);
      AppendKept(s.st, r);
    } else {
      StoreSameBox(s.st);
      KeptSame(s.st, r);
    }
  }

  lemma AppendKept(st: Store, r: Store)
    requires SsiBox(st) <= SsiBox(r)
    requires forall k :: k in SsiBox(st) ==> M(r.msg, MidOf(k)) == M(st.msg, MidOf(k))
    ensures Kept(SsiBox(st), st.msg, r)
  {
    hide SsiBox;
    var a, b := SsiBox(st), SsiBox(r);
    assert b == a + b[|a|..];
    SiftAll(a, b);
  }

  /** A receive of the SSI takes up the first request. */
  lemma ReceiveKept(s: State, pmsg: nat)
    requires Inv(s) && SsiInv(s) && SsiRuns(s, Receiving)
    ensures var r := Next(s, SsiReceive(pmsg));
            && Kept(Was(s, SsiReceive(pmsg)), s.st.msg, r.st)
            && (SsiBox(s.st) != [] ==> SsiRuns(r, Serving) && Applicant(r) == Sender(s.st.msg, SsiBox(s.st)[0]))
  {
    hide CoreInv, NoEmpty, CountAgrees, SoftAgrees, SsiInv, SameMail, SameBox, Kept, SysRecv;
    var r := Next(s, SsiReceive(pmsg));
    if SsiBox(s.st) == [] {
      EmptyBox(s.st, None, SSI);
      Yields(s, SSI, None, pmsg);
      SameMailBox(s, SysRecv(s, None, pmsg));
      KeptSame(s.st, SysRecv(s, None, pmsg).st);
    } else {
      HeadTaken(s);
      GotRequest(s, pmsg);
      RestKept(s);
    }
  }

  lemma HeadTaken(s: State)
    requires CoreInv(s) && SsiBox(s.st) != []
    ensures var g := MsgGet(s.st, None, Some(SSI)); var box := SsiBox(s.st);
            && g.1.Some? && g.1.value.sender == Sender(s.st.msg, box[0]) && SsiBox(g.0) == box[1..]
            && forall n :: n in box[1..] ==> M(g.0.msg, MidOf(n)) == M(s.st.msg, MidOf(n))
  {
    hide SchedAgree, NoLostWakeup, ThreadsAgree, ThreadsClean, ProcsAgree, Tree, Owned, MsgsAgree, Move, Shaped,
      Without;
    var st, box := s.st, SsiBox(s.st);
    BoxFits(st, SSI);
    assert box[0] in box;
    var m := MidOf(box[0]);
    MsgFreeBox(st, m, SSI);
    WithoutAt(box, 0);
    assert box[..0] + box[0 + 1..] == box[1..];
    RestIsOther(box, m);
    PutM(st.msg, m, M(st.msg, m).(sender := None));
    assert FirstFrom(box, st.msg, None) == Some(m);
  }

  lemma RestKept(s: State)
    requires CoreInv(s) && SsiBox(s.st) != []
    ensures Kept(SsiBox(s.st)[1..], s.st.msg, MsgGet(s.st, None, Some(SSI)).0)
  {
    hide CoreInv, MsgGet, SsiBox;
    HeadTaken(s);
    var rest := SsiBox(s.st)[1..];
    SiftAll(rest, rest);
  }

  /** Every step keeps the requests in order, apart from the one that a receive takes up. */
  lemma StepKept(s: State, e: Step)
    requires Inv(s) && SsiInv(s) && Enabled(s, e) && Polite(s, e)
    ensures Kept(Was(s, e), s.st.msg, Next(s, e).st)
  {
    hide CoreInv, NoEmpty, CountAgrees, SoftAgrees, Rests, SysRecv, Serve, Timer, IoDone, Send, SsiInv, Kept, SameBox,
      SameMail, SsiBox, Ends;
    match e {
      case Compute(cpu, mem) => StoreSameBox(s.st); KeptSame(s.st, s.st);
      case USend(d, v) => SendElsewhere(s, d, s.current.value, v); KeptSame(s.st, Next(s, e).st);
      case URecv(src, pmsg) => RecvElsewhere(s, src, pmsg); KeptSame(s.st, Next(s, e).st);
      case URequest(v, pmsg) => RequestKept(s, v, pmsg);
      case Tick => TickBox(s); KeptSame(s.st, Next(s, e).st);
      case Terminal => TerminalBox(s); KeptSame(s.st, Next(s, e).st);
      case SsiReceive(pmsg) => ReceiveKept(s, pmsg);
      case SsiServe(req) => ServeKept(s, req);
    }
  }

  lemma TickBox(s: State)
    requires CoreInv(s)
    ensures SameBox(s.st, Timer(s).st)
  {
    hide CoreInv, SameMail, SameBox, Dispatch, Preempt;
    PreemptKeeps(s);
    PreemptMail(s);
    DispatchMail(Preempt(s));
    SameMailBox(s, Preempt(s));
    SameMailBox(Preempt(s), Timer(s));
    SameBoxTrans(s.st, Preempt(s).st, Timer(s).st);
  }

  lemma TerminalBox(s: State)
    requires Inv(s) && On(s) && s.slot.Some?
    ensures SameBox(s.st, IoDone(s).st)
  {
    hide CoreInv, NoEmpty, CountAgrees, SameMail, SameBox, Dispatch, Send;
    var d := s.slot.value;
    SendElsewhere(s, d, SSI, 0);
    SendKeeps(s, d, SSI, 0);
    SendFrame(s, d, SSI, 0);
    var m := Send(s, d, SSI, 0).0;
    if s.mode == Waiting {
      var n := m.(slot := None, mode := Running);
      SlotCore(m, n);
      assert n.(current := None) == n;
      DispatchMail(n);
      SameMailBox(n, Dispatch(n));
      SameBoxTrans(s.st, n.st, Dispatch(n).st);
    }
  }

  // ----- Bounded response -----

  /** A request of `x` has `k` requests in front of it. */
  ghost predicate Queued(s: State, x: Tid, k: nat) {
    k < |SsiBox(s.st)| && Sender(s.st.msg, SsiBox(s.st)[k]) == Some(x)
  }

  /** The SSI has taken up the request of `x` and is about to serve it. */
  predicate TakenUp(s: State, x: Tid) { SsiRuns(s, Serving) && Applicant(s) == Some(x) }

  /** Requests that stay keep their order and do not move back. */
  lemma KeptOrder(a: seq<Node>, msg: seq<Msg>, r: Store, x: Tid, y: Tid, i: nat, k: nat) returns (i2: nat, k2: nat)
    requires Kept(a, msg, r) && Live(r.tcb, x) && Live(r.tcb, y) && i <= k < |a|
    requires Sender(msg, a[i]) == Some(x) && Sender(msg, a[k]) == Some(y)
    ensures i2 <= i && k2 <= k < |a| && i2 <= k2 < |SsiBox(r)| && (i < k ==> i2 < k2)
    ensures Sender(r.msg, SsiBox(r)[i2]) == Some(x) && Sender(r.msg, SsiBox(r)[k2]) == Some(y)
  {
    hide SsiBox, Live;
    assert a[i] in a && a[k] in a;
    i2, k2 := SiftOrder(a, SsiBox(r), i, k);
    assert SsiBox(r)[i2] == Sift(a, SsiBox(r))[i2] && SsiBox(r)[k2] == Sift(a, SsiBox(r))[k2];
  }

  /** One step brings a request of `y`, and one of `x` in front of it, nearer to the SSI by one place at each
      receive, or
      the first of the two is taken up. */
  lemma StepOrder(s: State, e: Step, x: Tid, y: Tid, i: nat, k: nat) returns (i2: nat, k2: nat)
    requires Inv(s) && SsiInv(s) && Enabled(s, e) && Polite(s, e) && Queued(s, x, i) && Queued(s, y, k) && i <= k
    ensures var r := Next(s, e);
            Live(r.st.tcb, x) && Live(r.st.tcb, y) ==>
              if e.SsiReceive? && i == 0 then TakenUp(r, x)
              else
                && Queued(r, x, i2) && Queued(r, y, k2) && (i < k ==> i2 < k2)
                && if e.SsiReceive? then i2 < i && k2 < k else i2 <= i && k2 <= k
  {
    hide Inv, SsiInv, Next, Able, On, Ends, Kept, SsiBox, Live, Polite;
    var r, box, d := Next(s, e), SsiBox(s.st), if e.SsiReceive? then 1 else 0;
    i2, k2 := 0, 0;
    StepKept(s, e);
    if e.SsiReceive? { ReceiveFirst(s, e.pmsg); }
    if Live(r.st.tcb, x) && Live(r.st.tcb, y) && d <= i {
      var rest := Was(s, e);
      assert rest == box[d..];
      assert rest[i - d] == box[i] && rest[k - d] == box[k];
      i2, k2 := KeptOrder(rest, s.st.msg, r.st, x, y, i - d, k - d);
    }
  }

  lemma ReceiveFirst(s: State, pmsg: nat)
    requires Inv(s) && SsiInv(s) && Able(s, SsiReceive(pmsg)) && SsiBox(s.st) != []
    ensures var r := Next(s, SsiReceive(pmsg));
            SsiRuns(r, Serving) && Applicant(r) == Sender(s.st.msg, SsiBox(s.st)[0])
  {
    hide Inv, SsiInv, Next, Kept, SsiBox;
    ReceiveKept(s, pmsg);
  }

  /** How often the SSI receives in a run. */
  function Receipts(es: seq<Step>): nat {
    if es == [] then 0 else (if es[0].SsiReceive? then 1 else 0) + Receipts(es[1..])
  }

  lemma PrefixRuns(s: State, es: seq<Step>, m: nat)
    requires es != [] && Enabled(s, es[0]) && m < |es| && Run(Next(s, es[0]), es[1..][..m])
    ensures Run(s, es[..m + 1]) && After(s, es[..m + 1]) == After(Next(s, es[0]), es[1..][..m])
    ensures Receipts(es[..m + 1]) == (if es[0].SsiReceive? then 1 else 0) + Receipts(es[1..][..m])
  {
    hide Able, On, Next;
    assert es[..m + 1][0] == es[0] && es[..m + 1][1..] == es[1..][..m];
  }

  /** A client with `k` requests in front of its own is taken up by the first `k + 1` receives of the SSI in every
      polite run, as long as it lives. */
  lemma {:induction false} BoundedResponse(s: State, es: seq<Step>, x: Tid, k: nat) returns (i: nat)
    requires Inv(s) && SsiInv(s) && PoliteRun(s, es) && Run(s, es) && LivesThrough(s, es, x)
    requires Queued(s, x, k) && Receipts(es) > k
    ensures i <= |es| && Run(s, es[..i]) && TakenUp(After(s, es[..i]), x) && Receipts(es[..i]) <= k + 1
    decreases |es|
  {
    hide Inv, SsiInv, Next, Able, On, Polite, Queued, Live, TakenUp;
    var e, n := es[0], Next(s, es[0]);
    StepKeeps(s, e);
    StepSsi(s, e);
    LivesNow(n, es[1..], x);
    var j, _ := StepOrder(s, e, x, x, k, k);
    if e.SsiReceive? && k == 0 {
      i := 1;
      assert es[1..][..0] == [] && Run(n, []) && After(n, []) == n;
      PrefixRuns(s, es, 0);
    } else {
      var m := BoundedResponse(n, es[1..], x, j);
      i := m + 1;
      PrefixRuns(s, es, m);
    }
  }

  /** Of two clients, the one whose request stands in front is taken up first, whoever they are. */
  lemma {:induction false} ArrivalOrder(s: State, es: seq<Step>, x: Tid, y: Tid, i: nat, k: nat) returns (m: nat)
    requires Inv(s) && SsiInv(s) && PoliteRun(s, es) && Run(s, es) && LivesThrough(s, es, x) && LivesThrough(s, es, y)
    requires Queued(s, x, i) && Queued(s, y, k) && i < k && TakenUp(After(s, es), y)
    ensures m <= |es| && Run(s, es[..m]) && TakenUp(After(s, es[..m]), x)
    decreases |es|
  {
    hide Inv, SsiInv, Next, Able, On, Polite, Live;
    if es == [] {
      m := 0;
      NotBoth(s, y, k);
    } else {
      hide Queued, TakenUp;
      var e, n := es[0], Next(s, es[0]);
      StepKeeps(s, e);
      StepSsi(s, e);
      LivesNow(n, es[1..], x);
      LivesNow(n, es[1..], y);
      var i2, k2 := StepOrder(s, e, x, y, i, k);
      if e.SsiReceive? && i == 0 {
        m := 1;
        assert es[1..][..0] == [] && Run(n, []) && After(n, []) == n;
        PrefixRuns(s, es, 0);
      } else {
        var l := ArrivalOrder(n, es[1..], x, y, i2, k2);
        m := l + 1;
        PrefixRuns(s, es, l);
      }
    }
  }

  /** A request cannot be taken up and still be queued. */
  lemma NotBoth(s: State, y: Tid, k: nat)
    requires Inv(s) && SsiInv(s) && Queued(s, y, k)
    ensures !TakenUp(s, y)
  {
    hide CoreInv, NoEmpty, CountAgrees, SoftAgrees, NotFromSsi;
    assert SsiBox(s.st)[k] in SsiBox(s.st);
    if TakenUp(s, y) { HeldIs(s); }
  }
}
