/** The pools on real links: the routines of src/mikabooq.c, each proved to do what `Store` says. */
module Pools {
  import opened Types
  import opened Seqs
  import opened Links
  import opened S = Store
  import opened Boot
  import opened Preserve

  lemma UnlinkCommutes(q: Lists, a: Node, b: Node)
    ensures Unlink(Unlink(q, a), b) == Unlink(Unlink(q, b), a)
  {
    hide Without;
    var x, y := Unlink(Unlink(q, a), b), Unlink(Unlink(q, b), a);
    forall h | h in q ensures x[h] == y[h] {
      assert x[h] == Without(Without(q[h], a), b) && y[h] == Without(Without(q[h], b), a);
      WithoutCommutes(q[h], a, b);
    }
  }

  lemma {:induction false} WithoutCommutes(s: seq<Node>, a: Node, b: Node)
    ensures Without(Without(s, a), b) == Without(Without(s, b), a)
  {
    if s != [] {
      WithoutCommutes(s[1..], a, b);
      if s[0] != a && s[0] != b {
        assert ([s[0]] + Without(s[1..], a))[1..] == Without(s[1..], a);
        assert ([s[0]] + Without(s[1..], b))[1..] == Without(s[1..], b);
      } else if s[0] != a {
        assert ([s[0]] + Without(s[1..], a))[1..] == Without(s[1..], a);
      } else if s[0] != b {
        assert ([s[0]] + Without(s[1..], b))[1..] == Without(s[1..], b);
      }
    }
  }

  lemma NoLists()
    ensures OnlyEmpty(map[], {})
  {
  }

  class PoolHeap {
    const links: LinkHeap
    const pcb: array<Pcb>
    const tcb: array<Tcb>
    const msg: array<Msg>

    ghost function View(): S.Store
      reads links, pcb, tcb, msg
    {
      S.Store(links.q, pcb[..], tcb[..], msg[..])
    }

    ghost predicate Valid()
      reads links, pcb, tcb, msg
    {
      && links.Valid() && Shape(View())
      && pcb as object != tcb && tcb as object != msg && pcb as object != msg
    }

    // ----- Initialisation -----

    /** The static list heads, `proc_init`, `thread_init`, `msgq_init`, and the lists of the SSI descriptor. */
    constructor (np: nat, nt: nat, nm: nat)
      requires 1 <= np && 1 <= nt
      ensures Valid() && fresh(links) && fresh(pcb) && fresh(tcb) && fresh(msg)
      ensures Fresh(View()) && pcb.Length == np && tcb.Length == nt && msg.Length == nm
    {
      links := new LinkHeap();
      pcb := new Pcb[np](_ => BLANK_PCB);
      tcb := new Tcb[nt](_ => BLANK_TCB);
      msg := new Msg[nm](_ => Msg(None, 0));
      new;
      hide Represents, Progress, Shaped, OnlyEmpty;
      StaticHeads();
      ProcInit();
      ThreadInit();
      MsgqInit();
      FreshShape(View());
    }

    method StaticHeads()
      requires links.Valid() && links.q == map[]
      modifies links
      ensures links.Valid() && OnlyEmpty(links.q, STATIC_HEADS)
    {
      hide Represents, OnlyEmpty, Q;
      ghost var heads: set<Node> := {};
      assert OnlyEmpty(links.q, heads) by { NoLists(); }
      StaticHead(ReadyQ, heads);
      heads := heads + {ReadyQ};
      StaticHead(BlockedQ, heads);
      heads := heads + {BlockedQ};
      StaticHead(FreeThreads, heads);
      heads := heads + {FreeThreads};
      StaticHead(FreeMsgs, heads);
      heads := heads + {FreeMsgs};
      StaticHead(TMsgq(SSI), heads);
      heads := heads + {TMsgq(SSI)};
      StaticHead(TWait4me(SSI), heads);
      assert heads + {TWait4me(SSI)} == STATIC_HEADS;
    }

    method StaticHead(h: Node, ghost heads: set<Node>)
      requires links.Valid() && OnlyEmpty(links.q, heads) && h !in heads
      modifies links
      ensures links.Valid() && OnlyEmpty(links.q, heads + {h})
    {
      OneMoreEmpty(links.q, heads, h);
      links.InitListHead(h);
    }

    method ProcInit()
      requires links.Valid() && pcb.Length >= 1 && pcb[0] == BLANK_PCB
      requires OnlyEmpty(links.q, STATIC_HEADS)
      modifies links, pcb
      ensures links.Valid() && Progress(links.q, pcb.Length, 1, 0)
      ensures forall c :: 0 <= c < pcb.Length ==> pcb[c] == BLANK_PCB
    {
      hide Represents, Progress, OnlyEmpty;
      pcb[0] := pcb[0].(parent := None);
      StaticHead(PThreads(ROOT), STATIC_HEADS);
      StaticHead(PChildren(ROOT), STATIC_HEADS + {PThreads(ROOT)});
      StaticHead(FREE_PROCS, STATIC_HEADS + {PThreads(ROOT)} + {PChildren(ROOT)});
      pcb[0] := pcb[0].(pgmMgr := None, tlbMgr := None, sysMgr := None);
      StaticProgress(links.q);
      for i := 1 to pcb.Length
        invariant links.Valid() && Progress(links.q, i, 1, 0)
        invariant forall c :: 0 <= c < i ==> pcb[c] == BLANK_PCB
      {
        ProcSlotInit(i);
      }
    }

    /** The body of the loop of `proc_init`. */
    method ProcSlotInit(i: nat)
      requires links.Valid() && 1 <= i < pcb.Length && Progress(links.q, i, 1, 0)
      modifies links, pcb
      ensures links.Valid() && Progress(links.q, i + 1, 1, 0)
      ensures pcb[i] == BLANK_PCB && forall c :: 0 <= c < pcb.Length && c != i ==> pcb[c] == old(pcb[c])
    {
      hide Represents;
      ghost var q := links.q;
      NotLinkedYet(q, i, 1, 0, PSiblings(i));
      NotLinkedYet(q, i, 1, 0, PThreads(i));
      NotLinkedYet(q, i, 1, 0, PChildren(i));
      assert FREE_PROCS in q by { assert IsHead(FREE_PROCS, i, 1); }
      hide Linked;
      LooseAppend(q, FREE_PROCS, PSiblings(i), PThreads(i));
      LooseAppend(q, FREE_PROCS, PSiblings(i), PChildren(i));
      links.ListAddTail(PSiblings(i), FREE_PROCS);
      ghost var q1 := links.q;
      pcb[i] := pcb[i].(parent := None);
      LooseInit(q1, PThreads(i), PChildren(i));
      links.InitListHead(PThreads(i));
      ghost var q2 := links.q;
      links.InitListHead(PChildren(i));
      pcb[i] := pcb[i].(pgmMgr := None, tlbMgr := None, sysMgr := None);
      LinkProc(q, q1, q2, links.q, i, 1, 0);
    }

    method ThreadInit()
      requires links.Valid() && tcb.Length >= 1 && Progress(links.q, pcb.Length, 1, 0)
      requires forall t :: 0 <= t < tcb.Length ==> tcb[t] == BLANK_TCB
      modifies links, tcb
      ensures links.Valid() && Progress(links.q, pcb.Length, tcb.Length, 0)
      ensures forall t :: 0 <= t < tcb.Length ==> tcb[t] == BLANK_TCB
    {
      hide Represents, Progress;
      for i := 1 to tcb.Length
        invariant links.Valid() && Progress(links.q, pcb.Length, i, 0)
        invariant forall t :: 0 <= t < tcb.Length ==> tcb[t] == BLANK_TCB
      {
        tcb[i] := Cleaned(tcb[i]);
        ThreadSlotInit(i);
      }
    }

    /** The links that the loop of `thread_init` sets for one descriptor. */
    method ThreadSlotInit(i: nat)
      requires links.Valid() && 1 <= i < tcb.Length && Progress(links.q, pcb.Length, i, 0)
      modifies links
      ensures links.Valid() && Progress(links.q, pcb.Length, i + 1, 0)
    {
      hide Represents;
      ghost var q := links.q;
      NotLinkedYet(q, pcb.Length, i, 0, TNext(i));
      NotLinkedYet(q, pcb.Length, i, 0, TMsgq(i));
      NotLinkedYet(q, pcb.Length, i, 0, TWait4me(i));
      assert FreeThreads in q by { assert IsHead(FreeThreads, pcb.Length, i); }
      hide Linked;
      LooseAppend(q, FreeThreads, TNext(i), TMsgq(i));
      LooseAppend(q, FreeThreads, TNext(i), TWait4me(i));
      links.ListAddTail(TNext(i), FreeThreads);
      ghost var q1 := links.q;
      LooseInit(q1, TMsgq(i), TWait4me(i));
      links.InitListHead(TMsgq(i));
      ghost var q2 := links.q;
      links.InitListHead(TWait4me(i));
      LinkThread(q, q1, q2, links.q, pcb.Length, i, 0);
    }

    method MsgqInit()
      requires links.Valid() && Progress(links.q, pcb.Length, tcb.Length, 0)
      modifies links, msg
      ensures links.Valid() && Progress(links.q, pcb.Length, tcb.Length, msg.Length)
      ensures forall m :: 0 <= m < msg.Length ==> msg[m].sender == None
    {
      hide Represents;
      for i := 0 to msg.Length
        invariant links.Valid() && Progress(links.q, pcb.Length, tcb.Length, i)
        invariant forall m :: 0 <= m < i ==> msg[m].sender == None
      {
        ghost var q := links.q;
        NotLinkedYet(q, pcb.Length, tcb.Length, i, MNext(i));
        assert FreeMsgs in q by { assert IsHead(FreeMsgs, pcb.Length, tcb.Length); }
        links.ListAdd(MNext(i), FreeMsgs);
        msg[i] := msg[i].(sender := None);
        LinkMsg(q, links.q, pcb.Length, tcb.Length, i);
      }
    }

    // ----- Stores through a record pointer -----

    method SetTcb(t: Tid, x: Tcb)
      requires Valid() && t < tcb.Length
      modifies tcb
      ensures Valid() && View() == old(View()).(tcb := Put(old(View()).tcb, t, x))
    {
      tcb[t] := x;
      SameShape(old(View()), View());
    }

    method SetPcb(p: Pid, x: Pcb)
      requires Valid() && p < pcb.Length
      modifies pcb
      ensures Valid() && View() == old(View()).(pcb := Put(old(View()).pcb, p, x))
    {
      pcb[p] := x;
      SameShape(old(View()), View());
    }

    method SetMsg(m: Mid, x: Msg)
      requires Valid() && m < msg.Length
      modifies msg
      ensures Valid() && View() == old(View()).(msg := Put(old(View()).msg, m, x))
    {
      msg[m] := x;
      SameShape(old(View()), View());
    }

    // ----- Links of the records -----

    /** `list_del` on a link that is on some list. */
    method Del(n: Node)
      requires Valid() && Linked(links.q, n)
      modifies links
      ensures Valid() && View() == old(View()).(q := Unlink(old(View()).q, n))
    {
      hide Represents, Shaped;
      ghost var st := View();
      links.ListDel(n);
      UnlinkShape(st, n);
    }

    /** `list_add_tail` on a link that is on no list. */
    method AddTail(n: Node, h: Node)
      requires Valid() && !Linked(links.q, n) && IsHead(h, pcb.Length, tcb.Length)
      requires Fits(h, n, pcb.Length, tcb.Length, msg.Length)
      modifies links
      ensures Valid() && View() == old(View()).(q := Append(old(View()).q, h, n))
    {
      hide Represents;
      ghost var st := View();
      assert h in links.q;
      FitsNotHead(links.q, h, n, pcb.Length, tcb.Length, msg.Length);
      hide Shaped;
      links.ListAddTail(n, h);
      AppendShape(st, n, h);
    }

    method Next(h: Node) returns (first: Option<Node>)
      requires Valid() && IsHead(h, pcb.Length, tcb.Length)
      ensures first == if Q(View().q, h) == [] then None else Some(Q(View().q, h)[0])
    {
      assert h in links.q;
      first := links.ListNext(h);
    }

    method Empty(h: Node) returns (empty: bool)
      requires Valid() && IsHead(h, pcb.Length, tcb.Length)
      ensures empty <==> Q(View().q, h) == []
    {
      assert h in links.q;
      empty := links.ListEmpty(h);
    }

    method IsOnly(n: Node, h: Node) returns (only: bool)
      requires Valid() && n in Q(View().q, h)
      ensures only <==> Q(View().q, h) == [n]
    {
      only := links.ListIsOnly(n, h);
    }

    // ----- Processes -----

    method ProcAlloc(parent: Option<Pid>) returns (c: Option<Pid>)
      requires Valid() && (parent.Some? ==> parent.value < pcb.Length)
      modifies links, pcb
      ensures Valid() && (View(), c) == S.ProcAlloc(old(View()), parent)
    {
      hide Represents, Unlink, Append;
      ghost var st := View();
      var space := Next(FREE_PROCS);
      if space == None || parent == None { return None; }
      HeadFits(st, FREE_PROCS);
      Del(space.value);
      var n := PidOf(space.value);
      assert space.value == PSiblings(n) && pcb[n] == P(st.pcb, n);
      SetPcb(n, pcb[n].(parent := parent));
      StillLoose(st.q, space.value);
      AddTail(PSiblings(n), PChildren(parent.value));
      c := Some(n);
      ghost var spec := S.ProcAlloc(st, parent).0;
      assert View().q == spec.q && View().pcb == spec.pcb;
      assert View().tcb == spec.tcb && View().msg == spec.msg;
    }

    method ProcDelete(p: Pid) returns (ok: bool)
      requires Valid() && p < pcb.Length && (pcb[p].parent.Some? ==> p != ROOT && Linked(links.q, PSiblings(p)))
      modifies links, pcb
      ensures Valid() && (View(), ok) == S.ProcDelete(old(View()), p)
    {
      hide Represents, Unlink, Append, Linked;
      ghost var st := View();
      var noChildren := Empty(PChildren(p));
      var noThreads := Empty(PThreads(p));
      if pcb[p].parent == None || !noChildren || !noThreads { return false; }
      SetPcb(p, pcb[p].(parent := None));
      assert pcb[p].parent == None by { assert View().pcb[p] == pcb[p]; }
      Del(PSiblings(p));
      StillLoose(st.q, PSiblings(p));
      AddTail(PSiblings(p), FREE_PROCS);
      SetPcb(p, pcb[p].(pgmMgr := None, tlbMgr := None, sysMgr := None));
      ok := true;
      ghost var spec := S.ProcDelete(st, p).0;
      assert View().q == spec.q && View().pcb == spec.pcb;
      assert View().tcb == spec.tcb && View().msg == spec.msg;
    }

    method FirstChild(p: Pid) returns (c: Option<Pid>)
      requires Valid() && p < pcb.Length
      ensures c == if Q(View().q, PChildren(p)) == [] then None else Some(PidOf(Q(View().q, PChildren(p))[0]))
    {
      var n := Next(PChildren(p));
      c := if n == None then None else Some(PidOf(n.value));
    }

    method FirstThread(p: Pid) returns (t: Option<Tid>)
      requires Valid() && p < pcb.Length
      ensures t == if Q(View().q, PThreads(p)) == [] then None else Some(TidOf(Q(View().q, PThreads(p))[0]))
    {
      var n := Next(PThreads(p));
      t := if n == None then None else Some(TidOf(n.value));
    }

    // ----- Threads -----

    method ThreadAlloc(process: Option<Pid>) returns (t: Option<Tid>)
      requires Valid() && (process.Some? ==> process.value < pcb.Length)
      modifies links, tcb
      ensures Valid() && (View(), t) == S.ThreadAlloc(old(View()), process)
    {
      hide Represents, Unlink, Append;
      ghost var st := View();
      var head := Next(FreeThreads);
      if process == None || head == None { return None; }
      HeadFits(st, FreeThreads);
      var n := TidOf(head.value);
      Del(head.value);
      assert head.value == TNext(n) && tcb[n] == T(st.tcb, n);
      SetTcb(n, tcb[n].(pcb := process));
      assert tcb[n] == T(st.tcb, n).(pcb := process) by { assert View().tcb[n] == tcb[n]; }
      StillLoose(st.q, head.value);
      AddTail(head.value, PThreads(process.value));
      SetTcb(n, tcb[n].(status := Ready));
      t := Some(n);
      ghost var spec := S.ThreadAlloc(st, process).0;
      assert View().q == spec.q && View().tcb == spec.tcb;
      assert View().pcb == spec.pcb && View().msg == spec.msg;
    }

    /** `thread_free`; both links of the descriptor are unlinked without looking, so they must be on lists. */
    method ThreadFree(t: Tid) returns (err: int)
      requires Valid() && 1 <= t < tcb.Length && Linked(links.q, TNext(t)) && Linked(links.q, TSched(t))
      modifies links, tcb
      ensures Valid() && (View(), err) == S.ThreadFree(old(View()), t)
    {
      hide Represents, Unlink, Append, Linked;
      ghost var st := View();
      var noMessages := Empty(TMsgq(t));
      if !noMessages { return -1; }
      var noWaiters := Empty(TWait4me(t));
      if !noWaiters { return -2; }
      SetTcb(t, Cleaned(tcb[t]));
      Del(TNext(t));
      StillLinked(st.q, TNext(t), TSched(t));
      Del(TSched(t));
      StillLoose(st.q, TNext(t));
      UnlinkCommutes(st.q, TNext(t), TSched(t));
      StillLoose(Unlink(st.q, TSched(t)), TNext(t));
      AddTail(TNext(t), FreeThreads);
      err := 0;
    }

    method ThreadEnqueue(t: Tid, h: Node)
      requires Valid() && t < tcb.Length && !Linked(links.q, TSched(t)) && IsHead(h, pcb.Length, tcb.Length)
      requires h.ReadyQ? || h.BlockedQ? || h.TWait4me?
      modifies links
      ensures Valid() && View() == old(View()).(q := Append(old(View()).q, h, TSched(t)))
    {
      AddTail(TSched(t), h);
    }

    method ThreadQhead(h: Node) returns (t: Option<Tid>)
      requires Valid() && IsHead(h, pcb.Length, tcb.Length)
      ensures t == if Q(View().q, h) == [] then None else Some(TidOf(Q(View().q, h)[0]))
    {
      var n := Next(h);
      t := if n == None then None else Some(TidOf(n.value));
    }

    method ThreadDequeue(h: Node) returns (t: Option<Tid>)
      requires Valid() && IsHead(h, pcb.Length, tcb.Length)
      modifies links
      ensures Valid()
      ensures var l := Q(old(View()).q, h);
              if l == [] then t == None && View() == old(View())
              else t == Some(TidOf(l[0])) && View() == old(View()).(q := Unlink(old(View()).q, l[0]))
    {
      hide Represents, Shaped, Unlink;
      ghost var st := View();
      var n := Next(h);
      if n == None { return None; }
      assert n.value in Q(st.q, h);
      Del(n.value);
      t := Some(TidOf(n.value));
    }

    method ThreadOutqueue(t: Tid)
      requires Valid() && Linked(links.q, TSched(t))
      modifies links
      ensures Valid() && View() == old(View()).(q := Unlink(old(View()).q, TSched(t)))
    {
      Del(TSched(t));
    }

    // ----- Messages -----

    method MsgqAdd(sender: Option<Tid>, dest: Option<Tid>, v: Value) returns (ok: bool)
      requires Valid() && (dest.Some? ==> dest.value < tcb.Length)
      modifies links, msg
      ensures Valid() && (View(), ok) == MsgAdd(old(View()), sender, dest, v)
    {
      hide Represents, Unlink, Append;
      ghost var st := View();
      var space := Next(FreeMsgs);
      if space == None || sender == None || dest == None { return false; }
      HeadFits(st, FreeMsgs);
      Del(space.value);
      var m := MidOf(space.value);
      SetMsg(m, Msg(sender, v));
      StillLoose(st.q, space.value);
      AddTail(space.value, TMsgq(dest.value));
      ok := true;
    }

    method MsgqFree(m: Mid)
      requires Valid() && m < msg.Length && Linked(links.q, MNext(m))
      modifies links, msg
      ensures Valid() && View() == MsgFree(old(View()), m)
    {
      hide Represents, Unlink, Append, Linked;
      ghost var st := View();
      Del(MNext(m));
      SetMsg(m, msg[m].(sender := None));
      StillLoose(st.q, MNext(m));
      AddTail(MNext(m), FreeMsgs);
    }

    method MsgQhead(t: Tid) returns (m: Option<Mid>)
      requires Valid() && t < tcb.Length
      ensures m == if Q(View().q, TMsgq(t)) == [] then None else Some(MidOf(Q(View().q, TMsgq(t))[0]))
    {
      var n := Next(TMsgq(t));
      m := if n == None then None else Some(MidOf(n.value));
    }

    /** The search of `msgq_get` along the `next` pointers of the mailbox. */
    method Search(sender: Tid, d: Tid) returns (found: Option<Mid>)
      requires Valid() && d < tcb.Length
      ensures found == FirstFrom(Q(View().q, TMsgq(d)), msg[..], Some(sender))
    {
      var h := TMsgq(d);
      assert h in links.q;
      ghost var box := links.q[h];
      ghost var c := Ring(h, box);
      assert Linkage(links.next, links.prev, h, box);
      assert Joined(links.next, links.prev, c[0], c[1]);
      var pos := links.next[h];
      ghost var k := 0;
      while pos != h
        invariant 0 <= k <= |box| && pos == c[k + 1]
        invariant FirstFrom(box, msg[..], Some(sender)) == FirstFrom(box[k..], msg[..], Some(sender))
        decreases |box| - k
      {
        assert k < |box| && box[k] == pos && box[k] in Q(links.q, h);
        assert Fits(h, pos, pcb.Length, tcb.Length, msg.Length);
        var m := MidOf(pos);
        assert box[k..][0] == pos && box[k..][1..] == box[k + 1..];
        if msg[m].sender == Some(sender) { return Some(m); }
        assert Joined(links.next, links.prev, c[k + 1], c[k + 2]);
        pos := links.next[pos];
        k := k + 1;
      }
      SearchEnds(links.q, h, box, k);
      found := None;
    }

    method MsgqGet(sender: Option<Tid>, dest: Option<Tid>) returns (got: Option<Msg>)
      requires Valid() && (dest.Some? ==> dest.value < tcb.Length)
      modifies links, msg
      ensures Valid() && (View(), got) == MsgGet(old(View()), sender, dest)
    {
      hide Represents;
      ghost var st := View();
      var found: Option<Mid> := None;
      if sender == None {
        if dest != None { found := MsgQhead(dest.value); }
      } else if dest != None {
        found := Search(sender.value, dest.value);
      }
      if found == None { return None; }
      FoundFits(st, sender, dest.value);
      got := Some(msg[found.value]);
      MsgqFree(found.value);
    }
  }

  // ----- Facts the routines rely on -----

  lemma SameShape(st: S.Store, r: S.Store)
    requires Shape(st) && r.q == st.q && |r.pcb| == |st.pcb| && |r.tcb| == |st.tcb| && |r.msg| == |st.msg|
    ensures Shape(r)
  {
  }

  lemma UnlinkShape(st: S.Store, n: Node)
    requires Shape(st)
    ensures Shape(st.(q := Unlink(st.q, n)))
  {
    UnlinkFacts(st.q, n);
    hide Unlink;
    ShapedGone(st.q, Unlink(st.q, n), n, |st.pcb|, |st.tcb|, |st.msg|);
  }

  lemma AppendShape(st: S.Store, n: Node, h: Node)
    requires Shape(st) && !Linked(st.q, n) && h in st.q && Fits(h, n, |st.pcb|, |st.tcb|, |st.msg|)
    ensures Shape(st.(q := Append(st.q, h, n)))
  {
    AppendFacts(st.q, h, n);
    hide Append;
    ShapedMoved(st.q, Append(st.q, h, n), n, h, |st.pcb|, |st.tcb|, |st.msg|);
  }

  lemma HeadFits(st: S.Store, h: Node)
    requires Shape(st) && Q(st.q, h) != []
    ensures Fits(h, Q(st.q, h)[0], |st.pcb|, |st.tcb|, |st.msg|) && Linked(st.q, Q(st.q, h)[0])
  {
    assert Q(st.q, h)[0] in Q(st.q, h);
  }

  lemma StillLoose(q: Lists, n: Node)
    ensures !Linked(Unlink(q, n), n)
  {
  }

  lemma StillLinked(q: Lists, a: Node, n: Node)
    requires Linked(q, n) && n != a
    ensures Linked(Unlink(q, a), n)
  {
    var h :| n in Q(q, h);
    assert n in Q(Unlink(q, a), h);
  }

  /** Only the sentinel ends the walk. */
  lemma SearchEnds(q: Lists, h: Node, box: seq<Node>, k: nat)
    requires Sep(q) && h in q && q[h] == box && k <= |box| && Ring(h, box)[k + 1] == h
    ensures k == |box|
  {
    assert Q(q, h) == box && Ring(h, box)[|box| + 1] == h;
    RingEnds(h, box);
  }

  lemma FoundFits(st: S.Store, from: Option<Tid>, d: Tid)
    requires Shape(st) && FirstFrom(Q(st.q, TMsgq(d)), st.msg, from).Some?
    ensures var m := FirstFrom(Q(st.q, TMsgq(d)), st.msg, from).value; m < |st.msg| && Linked(st.q, MNext(m))
  {
    FirstFromIn(Q(st.q, TMsgq(d)), st.msg, from);
    var n :| n in Q(st.q, TMsgq(d)) && MidOf(n) == FirstFrom(Q(st.q, TMsgq(d)), st.msg, from).value;
    assert Fits(TMsgq(d), n, |st.pcb|, |st.tcb|, |st.msg|);
  }
}
