/** The kernel on its real state: the routines of src/handlers, src/scheduler.c and src/SSI, statement by
    statement, each proved to do what `Kernel` says. */
module Nucleus {
  import opened Types
  import opened Links
  import opened Store
  import opened K = Kernel
  import opened Invariant
  import opened Preserve
  import opened Lifecycle
  import opened Termination
  import opened Subtree
  import opened Endings
  import opened Creation
  import opened Machine
  import opened Safety
  import opened Pools
  import opened Boot
  import opened Startup
  import opened Ssi
  import opened Conserve
  import opened Reap
  import opened Addresses

  lemma LinksSep(pools: PoolHeap)
    requires pools.Valid()
    ensures Sep(pools.View().q)
  {
  }

  class Nucleus {
    const pools: PoolHeap
    var current: Option<Tid>
    var cpu: Regs
    var mem: map<nat, Value>
    var threadCount: int
    var softBlockCount: nat
    ghost var ios: nat
    var slot: Option<Tid>
    var mode: Mode
    var ssi: SsiPc

    /** The static data and the three pools; nothing has been loaded. */
    constructor (np: nat, nt: nat, nm: nat)
      requires 1 <= np && 1 <= nt
      ensures Valid() && fresh(pools.links) && fresh(pools.pcb) && fresh(pools.tcb) && fresh(pools.msg)
      ensures Blank()
      ensures |View().st.pcb| == np && |View().st.tcb| == nt && |View().st.msg| == nm
    {
      pools := new PoolHeap(np, nt, nm);
      current, slot := None, None;
      cpu, mem := Regs(Code(0), NULL_ADDR), map[];
      threadCount, softBlockCount, ios := 0, 0, 0;
      mode, ssi := Running, Receiving;
      new;
      hide Represents, Fresh, Shaped;
    }

    /** Nothing has been loaded yet. */
    ghost predicate Blank()
      reads this, pools.links, pools.pcb, pools.tcb, pools.msg
    {
      && Fresh(pools.View()) && current == None && slot == None && threadCount == 0
      && softBlockCount == 0 && ios == 0 && mode == Running && ssi == Receiving
    }

    /** `load_readyq` and the first call of the scheduler. */
    method Start(ssiRegs: Regs, testRegs: Regs)
      requires Valid() && Blank() && |View().st.tcb| > 1
      modifies Repr()
      ensures Valid() && Inv(View()) && SsiInv(View()) && InPools(View())
      ensures View().cpu == ssiRegs && View().mem == old(mem)
      ensures T(View().st.tcb, SSI) == Tcb(None, ssiRegs, Ready, 0, None)
      ensures exists t: Tid :: Opening(View(), t) && UserThreads(View()) == {t}
                               && T(View().st.tcb, t) == Tcb(Some(ROOT), testRegs, Ready, 0, None)
    {
      hide Represents, Fresh, JustSsi, Inv, SsiInv, Append, Shaped, Opening, UserThreads;
      ghost var st := pools.View();
      assert Sep(st.q) by { LinksSep(pools); }
      AloneJust(st, ssiRegs, cpu, mem);
      LoadSsi(ssiRegs);
      assert T(View().st.tcb, SSI) == Tcb(None, ssiRegs, Ready, 0, None) by { AloneRegs(st, ssiRegs, cpu, mem); }
      LoadFirst(testRegs);
      FreshMgrs(st, View());
    }

    /** The first thread of the root process is allocated and loaded, and the scheduler called. */
    method LoadFirst(regs: Regs)
      requires Valid() && JustSsi(View())
      modifies Repr()
      ensures Valid() && Inv(View()) && SsiInv(View())
      ensures View().cpu == T(old(View()).st.tcb, SSI).regs && View().mem == old(mem)
      ensures T(View().st.tcb, SSI) == T(old(View()).st.tcb, SSI)
      ensures exists t: Tid :: Opening(View(), t) && UserThreads(View()) == {t}
                               && T(View().st.tcb, t) == Tcb(Some(ROOT), regs, Ready, 0, None)
      ensures View().st.pcb == old(View()).st.pcb && View().slot == old(View()).slot
    {
      hide CoreInv, Inv, SsiInv, Represents, NoEmpty, CountAgrees, SoftAgrees, CreateThreadIn, Dispatch, Shaped,
        Opening, UserThreads;
      ghost var s := View();
      RootAllocated(s);
      CreateThreadEffect(s, regs, ROOT);
      var t := StartThread(regs, Some(ROOT));
      ghost var r := View();
      Scheduler();
      FirstState(s, r, t.value, regs);
      DispatchFrame(r);
    }

    /** `ssi_thread_init` and `init_and_load` on the SSI descriptor. */
    method LoadSsi(regs: Regs)
      requires Valid() && Blank()
      modifies Repr()
      ensures Valid() && View() == SsiAlone(old(pools.View()), regs, old(cpu), old(mem))
    {
      hide Append, Shaped, Represents, Fresh;
      ghost var st := pools.View();
      SsiNotListed(st);
      FreshLists(st);
      SsiInPool(st);
      assert pools.tcb[SSI] == T(st.tcb, SSI);
      pools.SetTcb(SSI, pools.tcb[SSI].(pcb := None, status := Ready, wait := None));
      assert pools.View().tcb[SSI] == pools.tcb[SSI];
      slot := None;
      pools.SetTcb(SSI, pools.tcb[SSI].(regs := regs));
      pools.ThreadEnqueue(SSI, ReadyQ);
      threadCount := threadCount + 1;
      assert pools.View().tcb == Put(st.tcb, SSI, Tcb(None, regs, Ready, 0, None));
    }

    ghost function Repr(): set<object> { {this, pools.links, pools.pcb, pools.tcb, pools.msg} }

    ghost predicate Valid()
      reads this, pools.links, pools.pcb, pools.tcb, pools.msg
    {
      pools.Valid()
    }

    ghost function View(): State
      reads this, pools.links, pools.pcb, pools.tcb, pools.msg
    {
      State(pools.View(), current, cpu, mem, threadCount, softBlockCount, ios, slot, mode, ssi)
    }

    // ----- Message passing -----

    method ResumeThread(t: Tid, rval: Option<Tid>, v: Value)
      requires Valid() && CoreInv(View()) && T(View().st.tcb, t).status == W4Msg
      modifies Repr()
      ensures Valid() && View() == Resume(old(View()), t, rval, v) && CoreInv(View())
    {
      hide CoreInv, Unlink, Append, Shaped, Represents;
      ghost var s := View();
      SchedLinked(s, t);
      ResumeKeeps(s, t, rval, v);
      var tc := pools.tcb[t];
      pools.SetTcb(t, tc.(regs := tc.regs.(a1 := Ptr(rval))));
      if tc.regs.a3 != NULL_ADDR { mem := mem[tc.regs.a3 := v]; }
      assert pools.View().tcb[t] == pools.tcb[t];
      pools.SetTcb(t, pools.tcb[t].(status := Ready));
      assert pools.View().tcb[t] == pools.tcb[t];
      pools.SetTcb(t, pools.tcb[t].(wait := None));
      pools.ThreadOutqueue(t);
      StillLoose(s.st.q, TSched(t));
      pools.ThreadEnqueue(t, ReadyQ);
      assert pools.View().tcb == Put(s.st.tcb, t, Resumed(T(s.st.tcb, t), rval));
    }

    method Send(d: Tid, snd: Tid, v: Value) returns (ok: bool)
      requires Valid() && CoreInv(View()) && d < pools.tcb.Length
      modifies Repr()
      ensures Valid() && (View(), ok) == K.Send(old(View()), d, snd, v) && CoreInv(View())
    {
      hide CoreInv, Resume, MsgAdd, Shaped, Represents;
      ghost var s := View();
      SendKeeps(s, d, snd, v);
      var tc := pools.tcb[d];
      match tc.status {
        case Ready => ok := pools.MsgqAdd(Some(snd), Some(d), v);
        case W4Msg =>
          if tc.wait == Some(snd) || tc.wait == None {
            ResumeThread(d, Some(snd), v);
            ok := true;
          } else {
            ok := pools.MsgqAdd(Some(snd), Some(d), v);
          }
        case Unused => ok := false;
      }
    }

    /** The send system call: the return code goes to a1 of the caller. */
    method SendSyscall(d: Tid, v: Value) returns (ok: bool)
      requires Valid() && CoreInv(View()) && current.Some? && d < pools.tcb.Length
      modifies Repr()
      ensures Valid() && (View(), ok) == SysSend(old(View()), d, v) && CoreInv(View())
    {
      hide CoreInv, K.Send;
      SysSendKeeps(View(), d, v);
      ok := Send(d, current.value, v);
      cpu := cpu.(a1 := SendCode(ok));
    }

    /** The receive system call: the message, or the scheduler. */
    method RecvSyscall(src: Option<Tid>, pmsg: nat)
      requires Valid() && CoreInv(View()) && current.Some? && (src.Some? ==> src.value < pools.tcb.Length)
      modifies Repr()
      ensures Valid() && View() == SysRecv(old(View()), src, pmsg) && CoreInv(View())
    {
      hide CoreInv, MsgGet, Dispatch, Append, Shaped, Represents;
      ghost var s := View();
      SysRecvKeeps(s, src, pmsg);
      CurrentUnlinked(s);
      cpu := Regs(Code(SYS_RECV), pmsg);
      var got := pools.MsgqGet(src, current);
      if got != None {
        if pmsg != NULL_ADDR { mem := mem[pmsg := got.value.value]; }
        cpu := cpu.(a1 := Ptr(got.value.sender));
      } else {
        NothingGot(s.st, src, current);
        var t := current.value;
        ghost var s1 := View();
        pools.SetTcb(t, pools.tcb[t].(regs := cpu));
        assert pools.View().tcb[t] == pools.tcb[t];
        pools.SetTcb(t, pools.tcb[t].(status := W4Msg));
        assert pools.View().tcb[t] == pools.tcb[t];
        pools.SetTcb(t, pools.tcb[t].(wait := src));
        if src != None {
          pools.ThreadEnqueue(t, TWait4me(src.value));
        } else {
          pools.ThreadEnqueue(t, BlockedQ);
        }
        assert pools.View().tcb == Put(s1.st.tcb, t, T(s1.st.tcb, t).(regs := s1.cpu, status := W4Msg, wait := src));
        assert View() == Block(s1, src);
        Scheduler();
      }
    }

    // ----- Dispatch -----

    method Scheduler()
      requires Valid()
      modifies Repr()
      ensures Valid() && View() == Dispatch(old(View()))
    {
      hide Unlink, Represents;
      ghost var s := View();
      current := pools.ThreadDequeue(ReadyQ);
      if current == None {
        if threadCount == 1 {
          mode := Halted;
        } else if softBlockCount == 0 {
          mode := Deadlocked;
        } else if mode == Waiting {
          mode := Failed;
        } else {
          mode := Waiting;
        }
      } else {
        ReadyInPool(s);
        cpu := pools.tcb[current.value].regs;
      }
    }

    method IntervalTimer()
      requires Valid() && CoreInv(View())
      modifies Repr()
      ensures Valid() && View() == Timer(old(View()))
    {
      hide CoreInv, Append, Dispatch, Shaped, Represents;
      ghost var s := View();
      if current != None {
        CurrentUnlinked(s);
        var t := current.value;
        pools.SetTcb(t, pools.tcb[t].(regs := cpu));
        pools.ThreadEnqueue(t, ReadyQ);
      }
      assert View() == Preempt(s);
      Scheduler();
    }

    /** The terminal has answered: its requester gets the message of the SSI. */
    method Acknowledge()
      requires Valid() && CoreInv(View()) && (slot.Some? ==> slot.value < pools.tcb.Length)
      modifies Repr()
      ensures Valid() && View() == IoDone(old(View()))
    {
      hide CoreInv, K.Send, Dispatch, Represents;
      ghost var s := View();
      if slot == None {
        mode := Failed;
        return;
      }
      var ok := Send(slot.value, SSI, 0);
      SendFrame(s, s.slot.value, SSI, 0);
      if !ok {
        mode := Failed;
        return;
      }
      slot := None;
      if mode == Waiting {
        mode := Running;
        Scheduler();
      }
    }

    // ----- Creation -----

    method StartThread(init: Regs, p: Option<Pid>) returns (t: Option<Tid>)
      requires Valid() && CoreInv(View()) && (p.Some? ==> Allocated(View().st.pcb, p.value))
      modifies Repr()
      ensures Valid() && (View(), t) == CreateThreadIn(old(View()), init, p) && CoreInv(View())
    {
      hide CoreInv, Move, Append, Shaped, Represents;
      ghost var s := View();
      CreateKeeps(s, init, p);
      NewUnlinked(s, p);
      t := pools.ThreadAlloc(p);
      if t == None { return; }
      var n := t.value;
      AllocBounds(s.st, p);
      ghost var a := pools.View();
      pools.SetTcb(n, pools.tcb[n].(regs := init));
      pools.ThreadEnqueue(n, ReadyQ);
      threadCount := threadCount + 1;
      assert pools.View().tcb == Put(a.tcb, n, T(a.tcb, n).(regs := init));
    }

    method CreateThreadService(init: Regs, a: Tid) returns (t: Option<Tid>)
      requires Valid() && CoreInv(View()) && a < pools.tcb.Length
      modifies Repr()
      ensures Valid() && (View(), t) == CreateThread(old(View()), init, a) && CoreInv(View())
    {
      hide CreateThreadIn, Represents, Shape, Sep, ThreadsAgree, ThreadsClean, ProcsAgree, Tree, MsgsAgree, SchedAgree,
        NoLostWakeup;
      OwnerAllocated(View(), a);
      t := StartThread(init, pools.tcb[a].pcb);
    }

    method CreateProcessService(init: Regs, a: Tid) returns (t: Option<Tid>)
      requires Valid() && CoreInv(View()) && a < pools.tcb.Length && ProcOf(View(), a).Some?
      modifies Repr()
      ensures Valid() && (View(), t) == CreateProcess(old(View()), init, a) && CoreInv(View())
    {
      hide CoreInv, Represents, CreateThreadIn, Shaped;
      ghost var s := View();
      ghost var o := ProcOf(s, a).value;
      OwnerAllocated(s, a);
      ProcAllocEffect(s, o);
      ProcAllocKeeps(s, Some(o));
      CreateProcessEffect(s, init, a, o);
      var c := pools.ProcAlloc(pools.tcb[a].pcb);
      if c == None { return None; }
      ghost var m := View();
      NewAllocated(s, m, c.value, o);
      CreateKeeps(m, init, c);
      t := StartThread(init, c);
      if t == None {
        NotStarted(m, init, c.value);
        Deletable(m, c.value);
        var ok := pools.ProcDelete(c.value);
      }
    }

    // ----- Termination -----

    /** The first loop of `__terminate_thread_s`. */
    method DrainMailbox(t: Tid)
      requires Valid() && CoreInv(View()) && t < pools.tcb.Length
      modifies Repr()
      ensures Valid() && View() == old(View()).(st := Drain(old(View()).st, t)) && CoreInv(View())
    {
      hide CoreInv, Represents, MsgFree, Shaped, Linked;
      ghost var s := View();
      var empty := pools.Empty(TMsgq(t));
      while !empty
        invariant Valid() && CoreInv(View()) && View() == s.(st := View().st)
        invariant Drain(View().st, t) == Drain(s.st, t)
        invariant empty <==> Q(View().st.q, TMsgq(t)) == []
        decreases |Q(View().st.q, TMsgq(t))|
      {
        var m := pools.MsgQhead(t);
        CanFreeHead(View(), t);
        ShapeOf(View());
        DrainStep(View().st, t);
        MsgFreeKeeps(View(), m.value);
        pools.MsgqFree(m.value);
        empty := pools.Empty(TMsgq(t));
      }
    }

    /** The second loop: everybody who waits for `t` is woken with errno 1. */
    method WakeWaiters(t: Tid)
      requires Valid() && CoreInv(View()) && t < pools.tcb.Length
      modifies Repr()
      ensures Valid() && View() == Wake(old(View()), t) && CoreInv(View())
    {
      hide CoreInv, Represents, Resume, Shaped;
      ghost var s := View();
      var u := pools.ThreadQhead(TWait4me(t));
      while u != None
        invariant Valid() && CoreInv(View()) && Wake(View(), t) == Wake(s, t)
        invariant u == if Q(View().st.q, TWait4me(t)) == [] then None else Some(TidOf(Q(View().st.q, TWait4me(t))[0]))
        decreases |Q(View().st.q, TWait4me(t))|
      {
        WakeStep(View(), t);
        HeadWaiter(View(), t);
        ghost var s1 := View();
        SetErrnoKeeps(s1, u.value);
        SetErrnoStatus(s1, u.value);
        pools.SetTcb(u.value, pools.tcb[u.value].(errno := 1));
        assert View() == SetErrno(s1, u.value);
        ResumeThread(u.value, None, 0);
        u := pools.ThreadQhead(TWait4me(t));
      }
    }

    /** `__terminate_thread_s` */
    method EndThreadNow(t: Tid)
      requires Valid() && CoreInv(View()) && 1 <= t && Live(View().st.tcb, t) && current != Some(t)
      modifies Repr()
      ensures Valid() && View() == KillThread(old(View()), t) && CoreInv(View())
    {
      hide CoreInv, Represents, Drain, Wake, ThreadFree, Shaped;
      ghost var s := View();
      LiveInPool(s, t);
      KillKeeps(s, t);
      DrainMailbox(t);
      WakeWaiters(t);
      BeforeFree(s, t);
      var err := pools.ThreadFree(t);
      threadCount := threadCount - 1;
    }

    method CleanRequest(t: Tid)
      requires Valid() && CoreInv(View()) && t < pools.tcb.Length && pools.tcb[t].pcb.Some?
      requires CleanedBox(View().st, t).Some? ==> CleanedBox(View().st, t).value < pools.tcb.Length
      modifies Repr()
      ensures Valid() && View() == old(View()).(st := CleanSysMsg(old(View()).st, t)) && CoreInv(View())
    {
      hide StoreInv, SchedAgree, NoLostWakeup, Represents, MsgGet;
      ghost var s := View();
      OwnerAllocated(s, t);
      CleanFacts(s, t);
      var wait, proc := pools.tcb[t].wait, pools.pcb[pools.tcb[t].pcb.value];
      var box: Option<Tid> := None;
      if wait == Some(SSI) {
        box := Some(SSI);
      } else if wait == proc.sysMgr {
        box := proc.sysMgr;
      } else if wait == proc.pgmMgr {
        box := proc.sysMgr;
      }
      assert box == CleanedBox(s.st, t);
      var got := pools.MsgqGet(Some(t), box);
    }

    /** `__terminate_process_s`; the heights are only there to show that the recursion ends. */
    method EndTree(p: Pid, applicant: Option<Tid>, ghost h: seq<nat>)
      requires Valid() && CoreInv(View()) && Service(current) && Allocated(View().st.pcb, p)
      requires Heights(View().st.pcb, h) && p < |h| && MgrsInPool(View().st)
      modifies Repr()
      ensures Valid() && View() == KillTree(old(View()), p, applicant, h) && TreeGone(old(View()), View(), p)
      decreases h[p]
    {
      hide Represents, CoreInv, Reaped, Heights, Under, Within, KillThreads, KillKids, ProcDelete, Shaped, MgrsInPool;
      ghost var s := View();
      KillTreeKeeps(s, p, applicant, h);
      KillThreadsKeeps(s, p, applicant);
      EndThreads(p, applicant);
      ghost var s1 := View();
      ReapedFrame(s, s1);
      HeightsMono(s.st.pcb, s1.st.pcb, h);
      MgrsStay(s, s1);
      KillKidsKeeps(s1, p, h);
      ghost var s2 := KillKids(s1, Q(s1.st.q, PChildren(p)), h, h[p]);
      var c := pools.FirstChild(p);
      while c != None
        invariant Valid() && CoreInv(View()) && Service(current) && Heights(View().st.pcb, h) && MgrsInPool(View().st)
        invariant p < pools.pcb.Length && Q(View().st.q, PThreads(p)) == []
        invariant KillKids(View(), Q(View().st.q, PChildren(p)), h, h[p]) == s2
        invariant c == if Q(View().st.q, PChildren(p)) == [] then None else Some(PidOf(Q(View().st.q, PChildren(p))[0]))
        decreases |Q(View().st.q, PChildren(p))|
      {
        ghost var n := View();
        NextChild(n, p, h);
        EndTree(c.value, None, h);
        c := pools.FirstChild(p);
      }
      NoKidsLeft(View(), h, h[p]);
      Deletable(View(), p);
      var ok := pools.ProcDelete(p);
    }

    /** The first loop of `__terminate_process_s`. */
    method EndThreads(p: Pid, applicant: Option<Tid>)
      requires Valid() && CoreInv(View()) && Service(current) && p < pools.pcb.Length && MgrsInPool(View().st)
      modifies Repr()
      ensures Valid() && View() == KillThreads(old(View()), Q(old(View()).st.q, PThreads(p)), applicant)
      ensures CoreInv(View())
    {
      hide Represents, StoreInv, SchedAgree, NoLostWakeup, Reaped, KillVictim, MgrsInPool;
      ghost var s := View();
      var t := pools.FirstThread(p);
      while t != None
        invariant Valid() && CoreInv(View()) && Service(current) && MgrsInPool(View().st)
        invariant KillThreads(View(), Q(View().st.q, PThreads(p)), applicant)
                  == KillThreads(s, Q(s.st.q, PThreads(p)), applicant)
        invariant t == if Q(View().st.q, PThreads(p)) == [] then None else Some(TidOf(Q(View().st.q, PThreads(p))[0]))
        decreases |Q(View().st.q, PThreads(p))|
      {
        ghost var n := View();
        HeadOfThreads(n.st, p);
        VictimReaps(n, t.value, applicant);
        VictimMgrs(n, t.value, applicant);
        assert Q(KillVictim(n, t.value, applicant).st.q, PThreads(p)) == Q(n.st.q, PThreads(p))[1..];
        EndVictim(t.value, applicant);
        t := pools.FirstThread(p);
      }
    }

    method EndVictim(t: Tid, applicant: Option<Tid>)
      requires Valid() && CoreInv(View()) && 1 <= t && Live(View().st.tcb, t) && current != Some(t)
      requires MgrsInPool(View().st)
      modifies Repr()
      ensures Valid() && View() == KillVictim(old(View()), t, applicant) && CoreInv(View())
    {
      hide Represents, CoreInv, KillThread, CleanSysMsg;
      ghost var s := View();
      LiveInPool(s, t);
      if Some(t) != applicant && pools.tcb[t].status == W4Msg {
        BoxInPool(s, t);
        CleanFacts(s, t);
        CleanRequest(t);
      }
      EndThreadNow(t);
    }

    method EndProcessService(a: Tid)
      requires Valid() && CoreInv(View()) && Service(current) && a < pools.tcb.Length && ProcOf(View(), a).Some?
      requires MgrsInPool(View().st)
      modifies Repr()
      ensures Valid() && View() == TerminateProcess(old(View()), a) && CoreInv(View())
    {
      hide Represents, CoreInv, Reaped, Heights, Within, KillTree, MgrsInPool;
      ghost var s := View();
      OwnerAllocated(s, a);
      var p := pools.tcb[a].pcb.value;
      HeightsExist(s, p);
      EndTree(p, Some(a), HeightsOf(s.st.pcb));
    }

    method EndThreadService(t: Tid)
      requires Valid() && CoreInv(View()) && Service(current) && t < pools.tcb.Length && ProcOf(View(), t).Some?
      requires MgrsInPool(View().st)
      modifies Repr()
      ensures Valid() && View() == TerminateThread(old(View()), t) && CoreInv(View())
    {
      hide Represents, CoreInv, TerminateProcess, KillThread, MgrsInPool;
      ghost var s := View();
      OnlyThread(s, t, ProcOf(s, t).value);
      OnItsList(s, t);
      var only := pools.IsOnly(TNext(t), PThreads(pools.tcb[t].pcb.value));
      if only { EndProcessService(t); } else { EndThreadNow(t); }
    }

    // ----- Managers, I/O and the SSI loop -----

    /** `__setmgr` */
    method SetManagerService(k: Mgr, m: Option<Tid>, a: Tid) returns (reply: Option<Tid>, back: bool)
      requires Valid() && CoreInv(View()) && Service(current) && a < pools.tcb.Length && ProcOf(View(), a).Some?
      requires MgrsInPool(View().st)
      modifies Repr()
      ensures Valid() && (View(), reply, back) == SetMgr(old(View()), k, m, a) && CoreInv(View())
    {
      hide Represents, CoreInv, TerminateProcess, MgrsInPool;
      ghost var s := View();
      OwnerAllocated(s, a);
      var p := pools.tcb[a].pcb.value;
      if m == None { return None, true; }
      if MgrOf(pools.pcb[p], k) != None {
        EndProcessService(a);
        return None, false;
      }
      MgrStore(s, p, WithMgr(P(s.st.pcb, p), k, m));
      pools.SetPcb(p, WithMgr(pools.pcb[p], k, m));
      return m, true;
    }

    /** `do_io_s`: a second request, or one for another device, panics. */
    method DoIoService(terminal: bool, a: Tid)
      requires Valid()
      modifies Repr()
      ensures Valid() && View() == DoIo(old(View()), terminal, a)
    {
      hide Represents;
      if !terminal {
        mode := Failed;
        return;
      }
      softBlockCount, ios := (softBlockCount + 1) % UINT_RANGE, ios + 1;
      if slot != None {
        mode := Failed;
      } else {
        slot := Some(a);
      }
    }

    /** The body of the loop of `ssi`, on a request of `a`. */
    method ServeRequest(req: Request, a: Tid)
      requires Valid() && Inv(View()) && MgrsInPool(View().st)
      requires current == Some(SSI) && a != SSI && Live(View().st.tcb, a)
      modifies Repr()
      ensures Valid() && View() == Serve(old(View()), req, a) && Inv(View())
    {
      hide Represents, CoreInv, NoEmpty, CountAgrees, SoftAgrees, Rests, CreateProcess, CreateThread, TerminateProcess,
        TerminateThread, SetMgr, DoIo, SysSend, MgrsInPool;
      ghost var s := View();
      LiveInPool(s, a);
      ServeKeeps(s, req, a);
      ghost var p := pools.tcb[a].pcb.value;
      match req {
        case MakeProcess(init) =>
          MakeProcessKeeps(s, init, a, p);
          var t := CreateProcessService(init, a);
          var _ := SendSyscall(a, AddrOf(t));
        case MakeThread(init) =>
          MakeThreadKeeps(s, init, a, p);
          var t := CreateThreadService(init, a);
          var _ := SendSyscall(a, AddrOf(t));
        case EndProcess => EndProcessService(a);
        case EndThread => EndThreadService(a);
        case SetManager(k, m) =>
          SetMgrKeeps(s, k, m, a, p);
          var reply, back := SetManagerService(k, m, a);
          if back { var _ := SendSyscall(a, AddrOf(reply)); }
        case Io(terminal) => DoIoService(terminal, a);
        case Query(v) => var _ := SendSyscall(a, v);
        case Unknown => mode := Failed;
      }
    }

    /** A run of the machine on the real state. */
    method RunSteps(es: seq<Step>)
      requires Valid() && Inv(View()) && InPools(View()) && Run(View(), es)
      requires forall i :: 0 <= i < |es| ==> Names(es[i], pools.tcb.Length)
      modifies Repr()
      ensures Valid() && View() == After(old(View()), es) && Inv(View()) && InPools(View())
    {
      hide Represents, Inv, InPools, Able, On, Next, Shape;
      ghost var s := View();
      for i := 0 to |es|
        invariant Valid() && Inv(View()) && InPools(View())
        invariant Run(View(), es[i..]) && After(View(), es[i..]) == After(s, es)
      {
        assert es[i..][0] == es[i] && es[i..][1..] == es[i + 1..];
        Step(es[i]);
      }
    }

    /** One step of the machine, by the routine that the kernel runs for it. */
    method Step(e: Step)
      requires Valid() && Inv(View()) && Enabled(View(), e) && InPools(View()) && Names(e, pools.tcb.Length)
      modifies Repr()
      ensures Valid() && View() == Next(old(View()), e) && Inv(View()) && InPools(View())
    {
      hide Represents, CoreInv, NoEmpty, CountAgrees, SoftAgrees, Rests, SysRecv, SysSend, Serve, Timer, IoDone,
        MgrsInPool;
      ghost var s := View();
      StepKeeps(s, e);
      match e {
        case Compute(regs, cells) => cpu, mem := regs, cells;
        case USend(d, v) => var _ := SendSyscall(d, v);
        case URecv(src, pmsg) => RecvSyscall(src, pmsg);
        case URequest(v, pmsg) =>
          SendStep(s, SSI, v);
          SsiLives(Asked(s, v));
          SsiLives(s);
          LiveInside(s, SSI);
          var _ := SendSyscall(SSI, v);
          RecvSyscall(Some(SSI), pmsg);
        case Tick => IntervalTimer();
        case Terminal => Acknowledge();
        case SsiReceive(pmsg) => RecvSyscall(None, pmsg); ssi := Serving;
        case SsiServe(req) => ServeRequest(req, cpu.a1.thread.value); ssi := Receiving;
      }
      StepInPools(s, e);
    }
  }

  // ----- Facts the loops rely on -----

  lemma AloneRegs(st: Store, regs: Regs, cpu: Regs, mem: map<nat, Value>)
    requires Fresh(st)
    ensures T(SsiAlone(st, regs, cpu, mem).st.tcb, SSI) == Tcb(None, regs, Ready, 0, None)
  {
  }

  lemma DispatchFrame(s: State)
    ensures Dispatch(s).st.pcb == s.st.pcb && Dispatch(s).slot == s.slot && Dispatch(s).mem == s.mem
    ensures Dispatch(s).st.tcb == s.st.tcb
  {
  }

  lemma FreshMgrs(st: Store, r: State)
    requires Fresh(st) && r.st.pcb == st.pcb && r.slot == None
    ensures InPools(r)
  {
  }

  lemma CanFreeHead(s: State, t: Tid)
    requires CoreInv(s) && Q(s.st.q, TMsgq(t)) != []
    ensures var n := Q(s.st.q, TMsgq(t))[0]; n == MNext(MidOf(n)) && MidOf(n) < |s.st.msg| && Linked(s.st.q, n)
  {
    hide SchedAgree, NoLostWakeup, ThreadsAgree, ThreadsClean, ProcsAgree, Tree, Owned, MsgsAgree, Sep;
    HeadMsg(s.st, t);
    assert Q(s.st.q, TMsgq(t))[0] in Q(s.st.q, TMsgq(t));
  }

  lemma SetErrnoStatus(s: State, u: Tid)
    ensures T(SetErrno(s, u).st.tcb, u).status == T(s.st.tcb, u).status
  {
  }

  lemma LiveInPool(s: State, t: Tid)
    requires CoreInv(s) && Live(s.st.tcb, t)
    ensures t < |s.st.tcb| && (t != SSI ==> ProcOf(s, t).Some?)
  {
    hide SchedAgree, NoLostWakeup, ThreadsAgree, ProcsAgree, Tree, Owned, MsgsAgree, Sep, Shaped;
  }

  /** After both loops the descriptor can be unlinked: both its links are on lists. */
  lemma BeforeFree(s: State, t: Tid)
    requires CoreInv(s) && 1 <= t && Live(s.st.tcb, t) && s.current != Some(t)
    ensures var w := Wake(s.(st := Drain(s.st, t)), t);
            Linked(w.st.q, TNext(t)) && Linked(w.st.q, TSched(t)) && t < |w.st.tcb|
  {
    hide CoreInv, Drain, Wake;
    var d := s.(st := Drain(s.st, t));
    var w := Wake(d, t);
    DrainKeeps(s, t);
    WakeKeeps(d, t);
    assert Live(w.st.tcb, t) by { assert T(d.st.tcb, t) == T(s.st.tcb, t); }
    LiveInPool(w, t);
    ThreadHomed(w, t);
    SchedHomed(w, t);
  }

  lemma VictimMgrs(s: State, t: Tid, applicant: Option<Tid>)
    requires CoreInv(s) && 1 <= t && Live(s.st.tcb, t) && s.current != Some(t) && MgrsInPool(s.st)
    ensures MgrsInPool(KillVictim(s, t, applicant).st) && KillVictim(s, t, applicant).current == s.current
  {
    hide CoreInv, KillVictim, Reaped, MgrsInPool;
    VictimReaps(s, t, applicant);
    MgrsStay(s, KillVictim(s, t, applicant));
    ReapedFrame(s, KillVictim(s, t, applicant));
  }

  lemma BoxInPool(s: State, t: Tid)
    requires CoreInv(s) && MgrsInPool(s.st)
    ensures CleanedBox(s.st, t).Some? ==> CleanedBox(s.st, t).value < |s.st.tcb|
  {
    hide SchedAgree, NoLostWakeup, ThreadsAgree, ProcsAgree, Tree, Owned, MsgsAgree, Sep, Shaped;
    var o := ProcOf(s, t);
    if o.Some? { assert MgrOf(P(s.st.pcb, o.value), SysMgr) == P(s.st.pcb, o.value).sysMgr; }
  }

  /** One round of the loop over the children. */
  lemma NextChild(n: State, p: Pid, h: seq<nat>)
    requires CoreInv(n) && Service(n.current) && Heights(n.st.pcb, h) && p < |h| && MgrsInPool(n.st)
    requires Q(n.st.q, PThreads(p)) == [] && Q(n.st.q, PChildren(p)) != []
    ensures var c := PidOf(Q(n.st.q, PChildren(p))[0]); c < |h| && h[c] < h[p] && Allocated(n.st.pcb, c)
    ensures var c := PidOf(Q(n.st.q, PChildren(p))[0]); var r := KillTree(n, c, None, h);
            && CoreInv(r) && Service(r.current) && Heights(r.st.pcb, h) && MgrsInPool(r.st)
            && Q(r.st.q, PThreads(p)) == [] && Q(r.st.q, PChildren(p)) == Q(n.st.q, PChildren(p))[1..]
            && KillKids(n, Q(n.st.q, PChildren(p)), h, h[p]) == KillKids(r, Q(r.st.q, PChildren(p)), h, h[p])
  {
    hide SchedAgree, NoLostWakeup, StoreInv, Reaped, KillTree, Heights, Under, Within, MgrsInPool;
    var c := PidOf(Q(n.st.q, PChildren(p))[0]);
    FirstChild(n.st, p, h);
    var r := KillTree(n, c, None, h);
    KillTreeKeeps(n, c, None, h);
    FirstChildGone(n, r, p, h);
    StillNoThreads(n, r, p);
    ReapedFrame(n, r);
    HeightsMono(n.st.pcb, r.st.pcb, h);
    MgrsStay(n, r);
  }

  lemma NoKidsLeft(s: State, h: seq<nat>, bound: nat)
    ensures KillKids(s, [], h, bound) == s
  {
  }

  lemma OnItsList(s: State, t: Tid)
    requires CoreInv(s) && ProcOf(s, t).Some? && 1 <= t < |s.st.tcb|
    ensures TNext(t) in Q(s.st.q, PThreads(ProcOf(s, t).value))
  {
    hide SchedAgree, NoLostWakeup, ThreadsClean, ProcsAgree, Tree, Owned, MsgsAgree, Sep, Shaped;
  }
}
