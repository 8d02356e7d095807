/*
 * The KVM driver instance and its operations. The instance holds the
 * transport handle, the VCPU count, the pause counter of the pause/resume
 * protocol, the page-fault arming latch, the handler table, the generic
 * layer's in-callback flag and watcher tables, and, as observations, the
 * callbacks made and the events freed. Every operation is proved against
 * the pure description of the same operation in ControlSpec or EventSpec.
 */
module Driver {
  import opened KvmTypes
  import opened Transport
  import opened Paging
  import opened Access
  import opened Registers
  import opened ControlSpec
  import opened EventSpec

  /** The kinds of initialisation data the generic layer can pass. */
  datatype InitDataKind = KvmiSocket | OtherInitData(code: nat)

  /** One initialisation-data entry: its kind and its payload (a socket path for KvmiSocket). */
  datatype InitEntry = InitEntry(kind: InitDataKind, data: string)

  /** kvm_init_vmi's checks on the init data: present, not empty, first entry a KVMI socket. */
  predicate SocketGiven(initData: Option<seq<InitEntry>>) {
    initData.Some? && |initData.value| >= 1 && initData.value[0].kind == KvmiSocket
  }

  /** The two MSR values get_kvmi_registers fetches with the registers: EFER, then STAR. */
  function SingleReadData(state: VcpuState): (data: seq<u64>)
    ensures |data| == 2
  {
    [MsrValue(state, SingleReadMsrs()[0]), MsrValue(state, SingleReadMsrs()[1])]
  }

  /** What get_kvmi_registers reports for `reg` from a VCPU's state; None when not implemented. */
  function VcpuRegister(state: VcpuState, reg: Reg): Option<u64> {
    ReadRegister(reg, state.regs, state.sregs, SingleReadData(state))
  }

  /**
   * kvm_set_vcpureg followed by kvm_get_vcpureg on VCPU 0: the written
   * general-purpose register reads back as the value written, and every
   * other register, control register and MSR reads as before.
   */
  lemma SetVcpuRegReadsBack(state: VcpuState, g: GprName, value: u64, other: Reg)
    ensures WriteGpr(state.regs, Gpr(g), value).Some?
    ensures var after := state.(regs := WriteGpr(state.regs, Gpr(g), value).value);
      VcpuRegister(after, other) == if other == Gpr(g) then Some(value) else VcpuRegister(state, other)
  {
    WriteThenRead(state.regs, state.sregs, SingleReadData(state), g, other, value);
  }

  // -----------------------------------------------------------------------
  // The per-VCPU loops of the monitoring controls
  // -----------------------------------------------------------------------

  /** One VCPU's step: its calls in order, stopping at a refused one when `stopAtRefusal`. */
  method StepVcpu(dom: Kvmi, step: VcpuStep, v: nat, stopAtRefusal: bool) returns (ok: bool)
    requires dom.Valid() && v < dom.vcpuCount
    modifies dom`controls, dom`log
    ensures dom.Valid()
    ensures ok <==> Accepted(step, v, dom.failing)
    ensures stopAtRefusal ==>
      var calls := UntilRefused(StepCalls(step, v), dom.failing);
      dom.log == old(dom.log) + calls && dom.controls == Replay(old(dom.controls), calls, dom.failing)
    ensures !stopAtRefusal ==>
      dom.log == old(dom.log) + StepCalls(step, v) && dom.controls == Replay(old(dom.controls), StepCalls(step, v), dom.failing)
  {
    var calls := StepCalls(step, v);
    match step {
      case ControlEventsStep(flags) =>
        var err := dom.ControlEvents(v, flags);
        ReplayOne(old(dom.controls), calls[0], dom.failing);
        ok := !err;
      case SetAccessStep(gpa, access) =>
        var err := dom.SetPageAccess(v, gpa, access);
        ReplayOne(old(dom.controls), calls[0], dom.failing);
        ok := !err;
      case MonitorRegStep(req) =>
        ok := StepMonitorReg(dom, req, v, stopAtRefusal);
    }
  }

  /** A register step on one VCPU: enable the event kind, then the intercept. */
  method StepMonitorReg(dom: Kvmi, req: RegRequest, v: nat, stopAtRefusal: bool) returns (ok: bool)
    requires dom.Valid() && v < dom.vcpuCount
    modifies dom`controls, dom`log
    ensures dom.Valid()
    ensures ok <==> EventsCtl(v, req.flags) !in dom.failing && CtlCall(req, v, req.enable) !in dom.failing
    ensures stopAtRefusal && EventsCtl(v, req.flags) in dom.failing ==>
      dom.log == old(dom.log) + [EventsCtl(v, req.flags)]
      && dom.controls == Replay(old(dom.controls), [EventsCtl(v, req.flags)], dom.failing)
    ensures !(stopAtRefusal && EventsCtl(v, req.flags) in dom.failing) ==>
      dom.log == old(dom.log) + [EventsCtl(v, req.flags), CtlCall(req, v, req.enable)]
      && dom.controls == Replay(old(dom.controls), [EventsCtl(v, req.flags), CtlCall(req, v, req.enable)], dom.failing)
  {
    var first := EventsCtl(v, req.flags);
    var err := dom.ControlEvents(v, req.flags);
    ReplayOne(old(dom.controls), first, dom.failing);
    if err && stopAtRefusal {
      return false;
    }
    var err2;
    if req.onCr {
      err2 := dom.ControlCr(v, req.index, req.enable);
    } else {
      err2 := dom.ControlMsr(v, req.index, req.enable);
    }
    ReplaySnoc(old(dom.controls), [first], CtlCall(req, v, req.enable), dom.failing);
    assert [first] + [CtlCall(req, v, req.enable)] == [first, CtlCall(req, v, req.enable)];
    ok := !err && !err2;
  }

  /** Run `undo` on VCPUs 0 .. n - 1, whatever the transport answers. */
  method UndoAll(dom: Kvmi, n: nat, undo: VcpuStep)
    requires dom.Valid() && n <= dom.vcpuCount
    modifies dom`controls, dom`log
    ensures dom.Valid()
    ensures dom.log == old(dom.log) + AllCalls(undo, n)
    ensures dom.controls == Replay(old(dom.controls), AllCalls(undo, n), dom.failing)
  {
    var v := 0;
    AppendEmpty(dom.log);
    while v < n
      invariant dom.Valid() && v <= n
      invariant CalledThrough(dom, undo, v, old(dom.log), old(dom.controls))
    {
      UndoNext(dom, undo, v, old(dom.log), old(dom.controls));
      v := v + 1;
    }
  }

  /** One round of the undo pass: `undo` on VCPU `v`, whatever the transport answers. */
  method UndoNext(dom: Kvmi, undo: VcpuStep, v: nat, ghost log0: seq<Call>, ghost ctl0: seq<VcpuControls>)
    requires dom.Valid() && v < dom.vcpuCount
    requires CalledThrough(dom, undo, v, log0, ctl0)
    modifies dom`controls, dom`log
    ensures dom.Valid()
    ensures CalledThrough(dom, undo, v + 1, log0, ctl0)
  {
    var ignored := StepVcpu(dom, undo, v, false);
    StepExtends(log0, ctl0, undo, v, dom.failing);
  }


  /**
   * The forward pass has made and had accepted the steps on VCPUs
   * 0 .. k - 1 since the log read `log0` and the tables read `ctl0`.
   */
  ghost predicate SteppedThrough(dom: Kvmi, step: VcpuStep, k: nat, log0: seq<Call>, ctl0: seq<VcpuControls>)
    reads dom
  {
    AllAccepted(step, k, dom.failing) && CalledThrough(dom, step, k, log0, ctl0)
  }

  /** The steps on VCPUs 0 .. k - 1 have been made, accepted or not, since `log0` and `ctl0`. */
  ghost predicate CalledThrough(dom: Kvmi, step: VcpuStep, k: nat, log0: seq<Call>, ctl0: seq<VcpuControls>)
    reads dom
  {
    && dom.log == log0 + AllCalls(step, k)
    && dom.controls == Replay(ctl0, AllCalls(step, k), dom.failing)
  }

  /** One round of the forward pass: `step` on VCPU `k`. */
  method StepNext(dom: Kvmi, step: VcpuStep, k: nat, ghost log0: seq<Call>, ghost ctl0: seq<VcpuControls>) returns (ok: bool)
    requires dom.Valid() && k < dom.vcpuCount
    requires SteppedThrough(dom, step, k, log0, ctl0)
    modifies dom`controls, dom`log
    ensures dom.Valid()
    ensures ok ==> SteppedThrough(dom, step, k + 1, log0, ctl0)
    ensures !ok ==>
      && AllAccepted(step, k, dom.failing) && !Accepted(step, k, dom.failing)
      && dom.log == log0 + AllCalls(step, k) + UntilRefused(StepCalls(step, k), dom.failing)
      && dom.controls == Replay(Replay(ctl0, AllCalls(step, k), dom.failing),
           UntilRefused(StepCalls(step, k), dom.failing), dom.failing)
  {
    ok := StepVcpu(dom, step, k, true);
    if ok {
      assert UntilRefused(StepCalls(step, k), dom.failing) == StepCalls(step, k);
      StepExtends(log0, ctl0, step, k, dom.failing);
    }
  }

  /**
   * The forward pass of the per-VCPU loop: `step` on VCPUs 0, 1, ... in
   * turn, stopping at the first VCPU `k` whose step is refused (`ok` false)
   * or after all `n` (`ok` true, `k == n`).
   */
  method StepEach(dom: Kvmi, n: nat, step: VcpuStep) returns (k: nat, ok: bool)
    requires dom.Valid() && n <= dom.vcpuCount
    modifies dom`controls, dom`log
    ensures dom.Valid()
    ensures k <= n
    ensures ok ==> k == n && SteppedThrough(dom, step, n, old(dom.log), old(dom.controls))
    ensures !ok ==>
      && k < n && AllAccepted(step, k, dom.failing) && !Accepted(step, k, dom.failing)
      && dom.log == old(dom.log) + AllCalls(step, k) + UntilRefused(StepCalls(step, k), dom.failing)
      && dom.controls == Replay(Replay(old(dom.controls), AllCalls(step, k), dom.failing),
           UntilRefused(StepCalls(step, k), dom.failing), dom.failing)
  {
    k := 0;
    AppendEmpty(dom.log);
    while k < n
      invariant dom.Valid() && k <= n
      invariant SteppedThrough(dom, step, k, old(dom.log), old(dom.controls))
    {
      ok := StepNext(dom, step, k, old(dom.log), old(dom.controls));
      if !ok {
        return;
      }
      k := k + 1;
    }
    ok := true;
  }

  /**
   * The per-VCPU loop shared by the access-setting operations: `step` on
   * VCPUs 0, 1, ... in turn; at the first refused step, `undo` on every one
   * of them.
   */
  method RunVcpuLoop(dom: Kvmi, n: nat, step: VcpuStep, undo: VcpuStep) returns (completed: bool)
    requires dom.Valid() && n <= dom.vcpuCount
    modifies dom`controls, dom`log
    ensures dom.Valid()
    ensures var o := VcpuLoop(step, undo, n, dom.failing);
      && completed == o.completed
      && dom.log == old(dom.log) + o.calls
      && dom.controls == Replay(old(dom.controls), o.calls, dom.failing)
  {
    var k, ok := StepEach(dom, n, step);
    if !ok {
      UndoAll(dom, n, undo);
      StoppedLoopCalls(old(dom.log), old(dom.controls), step, undo, n, dom.failing, k);
      return false;
    }
    VcpuLoopCompletes(step, undo, n, dom.failing);
    return true;
  }


  /**
   * The body of kvm_set_mem_access on a connected transport: arm page-fault
   * events unless `pfEnabled`, read VCPU 0's mask, then set the new mask on
   * every VCPU. Returns the status and the latch afterwards.
   */
  method SetMemAccessOn(dom: Kvmi, pfEnabled: bool, n: nat, gpfn: u64, flag: bv8) returns (s: Status, latch: bool)
    requires dom.Valid() && n <= dom.vcpuCount
    modifies dom`controls, dom`log
    ensures dom.Valid()
    ensures var r := ControlSpec.SetMemAccess(pfEnabled, n, old(dom.controls), gpfn, flag, dom.failing);
      && s == r.status
      && latch == r.pfEnabled
      && dom.log == old(dom.log) + r.calls
      && dom.controls == Replay(old(dom.controls), r.calls, dom.failing)
  {
    ghost var armCalls: seq<Call> := [];
    latch := pfEnabled;
    if !pfEnabled {
      var armed := RunVcpuLoop(dom, n, ControlEventsStep(EVENT_PF_FLAG), ControlEventsStep(0));
      armCalls := ArmPageFaults(n, dom.failing).calls;
      if !armed {
        return Failure, latch;
      }
      latch := true;
    } else {
      assert old(dom.log) + armCalls == old(dom.log);
    }
    assert dom.log == old(dom.log) + armCalls;
    var err, orig := dom.GetPageAccess(0, gpfn);
    if err {
      return Failure, latch;
    }
    var access := NativeAccess(flag, orig);
    if access.None? {
      return Failure, latch;
    }
    var gpa := ShiftLeft(gpfn, 12);
    ghost var applyCalls := VcpuLoop(SetAccessStep(gpa, access.value), SetAccessStep(gpa, orig), n, dom.failing).calls;
    SetMemAccessApplies(pfEnabled, n, old(dom.controls), gpfn, flag, dom.failing, armCalls, orig, access.value);
    var applied := RunVcpuLoop(dom, n, SetAccessStep(gpa, access.value), SetAccessStep(gpa, orig));
    AppendAssoc(old(dom.log), armCalls, applyCalls);
    ReplayAppend(old(dom.controls), armCalls, applyCalls, dom.failing);
    return Success, latch;
  }

  /** reply_continue: let the VCPU continue, echoing the event's sequence number and id. */
  method ReplyContinue(dom: Kvmi, ev: KvmiEvent) returns (s: Status)
    modifies dom`replies, dom`log
    ensures s == Success <==> Reply(ev.seqNum) !in dom.failing
    ensures dom.replies == old(dom.replies) +
      (if s == Success then [EventReply(ev.seqNum, ACTION_CONTINUE, ev.reason)] else [])
    ensures dom.log == old(dom.log) + [Reply(ev.seqNum)]
  {
    var err := dom.ReplyEvent(ev.seqNum, EventReply(ev.seqNum, ACTION_CONTINUE, ev.reason));
    s := if err then Failure else Success;
  }

  /**
   * The loop of kvm_resume_vm: while `count` pause events are still
   * expected, wait, pop one event, and acknowledge it if it is a pause event
   * (lowering the count first). Returns the status, the count left and the
   * events freed.
   */
  method DrainPauseEvents(dom: Kvmi, count: nat) returns (s: Status, left: nat, gone: seq<KvmiEvent>)
    requires dom.Valid()
    modifies dom`pending, dom`replies, dom`log
    ensures dom.Valid()
    ensures var r := Drain(count, old(dom.pending), dom.failing);
      && s == r.status
      && left == r.count
      && dom.pending == r.pending
      && dom.replies == old(dom.replies) + r.replies
      && gone == r.freed
      && dom.log == old(dom.log) + r.calls
  {
    left, gone := count, [];
    ghost var total := Drain(count, dom.pending, dom.failing);
    ghost var acked: seq<EventReply> := [];
    ghost var calls: seq<Call> := [];
    AppendEmpty(old(dom.replies));
    AppendEmpty(old(dom.log));
    while left != 0
      invariant dom.Valid()
      invariant dom.replies == old(dom.replies) + acked
      invariant dom.log == old(dom.log) + calls
      invariant var rest := Drain(left, dom.pending, dom.failing);
        total == DrainResult(rest.status, rest.count, rest.pending,
          acked + rest.replies, gone + rest.freed, calls + rest.calls)
      decreases left
    {
      ghost var pending := dom.pending;
      ghost var log0 := dom.log;
      var w := dom.WaitEvent(RESUME_TIMEOUT);
      if w != WaitReady {
        AppendAssoc(old(dom.log), calls, [Wait(RESUME_TIMEOUT)]);
        AppendEmpty(acked);
        AppendEmpty(gone);
        return Failure, left, gone;
      }
      var err, ev := dom.PopEvent();
      AppendTwo(log0, Wait(RESUME_TIMEOUT), Pop);
      AppendAssoc(old(dom.log), calls, [Wait(RESUME_TIMEOUT), Pop]);
      if err {
        AppendEmpty(acked);
        AppendEmpty(gone);
        return Failure, left, gone;
      }
      if ev.reason != EVENT_PAUSE_VCPU {
        AppendEmpty(acked);
        return Failure, left, gone + [ev];
      }
      left := left - 1;
      var replied := ReplyContinue(dom, ev);
      AppendThree(log0, Wait(RESUME_TIMEOUT), Pop, Reply(ev.seqNum));
      AppendAssoc(old(dom.log), calls, [Wait(RESUME_TIMEOUT), Pop, Reply(ev.seqNum)]);
      if replied == Failure {
        AppendEmpty(acked);
        AppendEmpty(old(dom.replies) + acked);
        return Failure, left, gone + [ev];
      }
      ghost var ack := EventReply(ev.seqNum, ACTION_CONTINUE, EVENT_PAUSE_VCPU);
      DrainAcksOne(left + 1, pending, dom.failing, total, acked, gone, calls);
      AppendAssoc(old(dom.replies), acked, [ack]);
      calls := calls + [Wait(RESUME_TIMEOUT), Pop, Reply(ev.seqNum)];
      acked := acked + [ack];
      gone := gone + [ev];
    }
    AppendEmpty(acked);
    AppendEmpty(gone);
    AppendEmpty(calls);
    return Success, left, gone;
  }

  /**
   * Pausing and then resuming a guest with no other events queued: the
   * resume loop acknowledges every pause confirmation kvm_pause_vm caused,
   * in order, frees each one, and brings the expected count back to zero.
   */
  lemma PauseThenResume(firstSeq: nat, n: nat, template: VcpuState, failing: set<Call>)
    requires Wait(RESUME_TIMEOUT) !in failing && Pop !in failing
    requires forall seqNum :: firstSeq <= seqNum < firstSeq + n ==> Reply(seqNum) !in failing
    ensures var evs := PauseEvents(firstSeq, 0, n, template);
      var r := Drain(n, evs, failing);
      && r.status == Success && r.count == 0 && r.pending == []
      && r.freed == evs && r.replies == Acks(evs)
  {
    var evs := PauseEvents(firstSeq, 0, n, template);
    assert evs[..n] == evs && evs[n..] == [];
    assert AllPause(evs);
    forall i | 0 <= i < n
      ensures Reply(evs[i].seqNum) !in failing
    {
      assert evs[i].seqNum == firstSeq + i;
    }
    DrainSucceedsOnPauseEvents(n, evs, failing);
  }

  /**
   * kvm_set_mem_access on an instance created after another one latched the
   * process-wide flag: the later instance's domain is never armed for page
   * faults, and every call logged sets a page's access.
   */
  method LaterInstanceNeverArms(earlier: KvmDriver, later: KvmDriver, gpfn: u64, flag: bv8) returns (s: Status)
    requires earlier != later && earlier.latch == later.latch && earlier.latch.enabled
    requires later.Valid() && later.dom != null
    modifies later.latch, later.Doms()
    ensures later.latch.enabled && earlier.latch.enabled
    ensures |old(later.dom.log)| <= |later.dom.log|
    ensures forall i :: |old(later.dom.log)| <= i < |later.dom.log| ==> later.dom.log[i].AccessSet?
  {
    s := later.SetMemAccess(gpfn, flag);
    LatchedCallsSetAccessOnly(later.numVcpus, old(later.dom.controls), gpfn, flag, later.dom.failing);
  }

  /**
   * The `static pf_enabled` of kvm_set_mem_access: one flag for the whole
   * process, shared by every driver instance and never cleared, not even
   * when an instance is destroyed and another created.
   */
  class PfLatch {
    var enabled: bool

    /** The flag as the process starts: page faults not yet armed. */
    constructor ()
      ensures !enabled
    {
      enabled := false;
    }
  }

  class KvmDriver {
    /** The transport handle; null until kvm_init_vmi connects. */
    var dom: Kvmi?
    var numVcpus: nat
    var expectedPauseCount: nat
    /** The process-wide page-fault arming latch of kvm_set_mem_access. */
    const latch: PfLatch
    /** The handler table, indexed by event id. */
    var processEvent: map<nat, Handler>
    /** The generic layer's flag that is set while a user callback runs. */
    var eventCallback: bool
    /** Every callback made, in order. */
    var callbacks: seq<Delivery>
    /** Every event freed, in order; events neither here nor pending were leaked. */
    var freed: seq<KvmiEvent>
    var watchers: Watchers

    ghost function Doms(): set<object>
      reads this
    {
      if dom == null then {} else {dom}
    }

    ghost predicate Valid()
      reads this, Doms()
    {
      && ValidTable(processEvent)
      && (dom == null ==> numVcpus == 0)
      && (dom != null ==> dom.Valid() && numVcpus <= dom.vcpuCount)
    }

    /**
     * A driver instance as kvm_init leaves it: not connected, no pause
     * expected. The latch is the process's, whatever an earlier instance
     * left in it.
     */
    constructor (watchers: Watchers, latch: PfLatch)
      ensures Valid()
      ensures dom == null && numVcpus == 0 && expectedPauseCount == 0
      ensures this.latch == latch && latch.enabled == old(latch.enabled)
      ensures processEvent == map[] && !eventCallback && callbacks == [] && freed == []
      ensures this.watchers == watchers
    {
      dom := null;
      numVcpus := 0;
      expectedPauseCount := 0;
      this.latch := latch;
      processEvent := map[];
      eventCallback := false;
      callbacks := [];
      freed := [];
      this.watchers := watchers;
    }

    // ---------------------------------------------------------------------
    // kvm_init_vmi
    // ---------------------------------------------------------------------

    /**
     * kvm_init_vmi: `domainFound` and `libVersionOk` are the answers of the
     * hypervisor's domain lookup and version query; `conn` is the transport
     * connection that arrives before the connection timeout, or null.
     */
    method InitVmi(initFlags: bv32, initData: Option<seq<InitEntry>>, domainFound: bool, libVersionOk: bool, conn: Kvmi?)
      returns (s: Status)
      requires Valid() && dom == null
      requires conn != null ==> conn.Valid()
      modifies this`dom, this`numVcpus, this`processEvent
      ensures Valid()
      ensures s == Success <==>
        SocketGiven(initData) && domainFound && libVersionOk && conn != null && VcpuCountGet !in conn.failing
      ensures dom == if SocketGiven(initData) && domainFound && libVersionOk then conn else null
      ensures numVcpus == if s == Success then conn.vcpuCount else 0
      ensures processEvent ==
        if s == Success && initFlags & INIT_EVENTS != 0 then DISPATCH_TABLE else old(processEvent)
    {
      if !SocketGiven(initData) {
        return Failure;
      }
      if !domainFound {
        return Failure;
      }
      if !libVersionOk {
        return Failure;
      }
      dom := conn;
      if dom == null {
        return Failure;
      }
      var err, count := dom.GetVcpuCount();
      if err {
        return Failure;
      }
      numVcpus := count;
      if initFlags & INIT_EVENTS != 0 {
        processEvent := DISPATCH_TABLE;
      }
      return Success;
    }

    // ---------------------------------------------------------------------
    // Event handlers
    // ---------------------------------------------------------------------

    /** call_event_callback: the callback runs with the in-callback flag set, which is cleared after. */
    method CallEventCallback(d: Delivery)
      modifies this`eventCallback, this`callbacks
      ensures callbacks == old(callbacks) + [d.(inCallback := true)]
      ensures !eventCallback
    {
      eventCallback := true;
      callbacks := callbacks + [d.(inCallback := eventCallback)];
      eventCallback := false;
    }

    /** process_interrupt */
    method ProcessInterruptEvent(ev: KvmiEvent) returns (s: Status)
      requires ev.payload.BreakpointInfo?
      modifies this`eventCallback, this`callbacks
      ensures var h := Handle(ProcessInterrupt, ev, watchers);
        && s == h.status
        && callbacks == old(callbacks) + h.deliveries
        && eventCallback == (old(eventCallback) && h.deliveries == [])
    {
      if Int3 !in watchers.interrupt {
        return Failure;
      }
      var d := InterruptDelivery(ev, watchers.interrupt[Int3]);
      assert d.(inCallback := true) == d;
      CallEventCallback(d);
      return Success;
    }

    /** process_pagefault: the exact frame watcher first, then every matching generic watcher. */
    method ProcessPagefaultEvent(ev: KvmiEvent) returns (s: Status)
      requires ev.payload.PageFaultInfo?
      modifies this`eventCallback, this`callbacks
      ensures var h := Handle(ProcessPagefault, ev, watchers);
        && s == h.status
        && callbacks == old(callbacks) + h.deliveries
        && eventCallback == (old(eventCallback) && h.deliveries == [])
    {
      var out := OutAccess(ev.payload.mode);
      var gfn := Gfn(ev.payload.gpa);
      if |watchers.onGfn| > 0 {
        if gfn in watchers.onGfn && Meets(watchers.onGfn[gfn].inAccess, out) {
          var d := MemDelivery(ev, watchers.onGfn[gfn], out);
          assert d.(inCallback := true) == d;
          CallEventCallback(d);
          return Success;
        }
      }
      if |watchers.generic| > 0 {
        var issued := NotifyGenericWatchers(ev, out);
        if issued {
          return Success;
        }
      }
      return Failure;
    }

    /** process_pagefault's walk over the generic watchers, calling each whose key meets `out`. */
    method NotifyGenericWatchers(ev: KvmiEvent, out: bv8) returns (issued: bool)
      requires ev.payload.PageFaultInfo?
      modifies this`eventCallback, this`callbacks
      ensures var ds := GenericDeliveries(ev, watchers.generic, out);
        && callbacks == old(callbacks) + ds
        && (issued <==> ds != [])
        && eventCallback == (old(eventCallback) && !issued)
    {
      var generic := watchers.generic;
      issued := false;
      var i := 0;
      AppendEmpty(old(callbacks));
      while i < |generic|
        invariant 0 <= i <= |generic|
        invariant callbacks == old(callbacks) + GenericDeliveries(ev, generic[..i], out)
        invariant issued <==> GenericDeliveries(ev, generic[..i], out) != []
        invariant eventCallback == (old(eventCallback) && !issued)
      {
        assert generic[..i + 1][..i] == generic[..i];
        ghost var sofar := GenericDeliveries(ev, generic[..i], out);
        if Meets(generic[i].key, out) {
          var d := MemDelivery(ev, generic[i].watcher, out);
          assert d.(inCallback := true) == d;
          CallEventCallback(d);
          AppendAssoc(old(callbacks), sofar, [d]);
          issued := true;
        } else {
          AppendEmpty(sofar);
        }
        i := i + 1;
      }
      assert generic[..i] == generic;
    }

    /** The call through the handler table: register events succeed, pause events fail. */
    method Dispatch(h: Handler, ev: KvmiEvent) returns (s: Status)
      requires h == ProcessInterrupt ==> ev.payload.BreakpointInfo?
      requires h == ProcessPagefault ==> ev.payload.PageFaultInfo?
      modifies this`eventCallback, this`callbacks
      ensures var r := Handle(h, ev, watchers);
        && s == r.status
        && callbacks == old(callbacks) + r.deliveries
        && eventCallback == (old(eventCallback) && r.deliveries == [])
    {
      match h
      case ProcessRegister => s := Success;
      case ProcessInterrupt => s := ProcessInterruptEvent(ev);
      case ProcessPagefault => s := ProcessPagefaultEvent(ev);
      case ProcessPauseEvent => s := Failure;
    }

    // ---------------------------------------------------------------------
    // kvm_events_listen
    // ---------------------------------------------------------------------

    /** kvm_events_listen: wait, pop, check the handler, handle, acknowledge. */
    method EventsListen(timeout: nat) returns (s: Status)
      requires Valid()
      modifies this`eventCallback, this`callbacks, this`freed, Doms()
      ensures Valid()
      ensures dom == null ==>
        s == Failure && callbacks == old(callbacks) && freed == old(freed) && eventCallback == old(eventCallback)
      ensures dom != null ==>
        var r := Listen(timeout, old(dom.pending), dom.failing, processEvent, watchers);
        && s == r.status
        && callbacks == old(callbacks) + r.deliveries
        && eventCallback == (old(eventCallback) && r.deliveries == [])
        && freed == old(freed) + r.freed
        && dom.pending == (if r.popped.Some? then old(dom.pending)[1..] else old(dom.pending))
        && dom.replies == old(dom.replies) + (if r.reply.Some? then [r.reply.value] else [])
        && dom.log == old(dom.log) + r.calls
        && dom.controls == old(dom.controls) && dom.vcpus == old(dom.vcpus) && dom.nextSeq == old(dom.nextSeq)
    {
      if dom == null {
        return Failure;
      }
      AppendEmpty(old(callbacks));
      AppendEmpty(old(freed));
      AppendEmpty(old(dom.replies));
      var w := dom.WaitEvent(timeout);
      if w == WaitError {
        return Failure;
      }
      if w == WaitTimedOut {
        return Success;
      }
      var err, ev := dom.PopEvent();
      AppendTwo(old(dom.log), Wait(timeout), Pop);
      if err {
        return Failure;
      }
      if ev.reason >= NUM_EVENTS || ev.reason !in processEvent {
        return Failure;
      }
      s := HandleAndAck(ev);
      AppendThree(old(dom.log), Wait(timeout), Pop, Reply(ev.seqNum));
    }

    /** The tail of kvm_events_listen: call the handler, acknowledge if it succeeded, free the event on failure. */
    method HandleAndAck(ev: KvmiEvent) returns (s: Status)
      requires dom != null && ValidTable(processEvent) && WellFormed(ev) && Handled(ev, processEvent)
      modifies this`eventCallback, this`callbacks, this`freed, dom`replies, dom`log
      ensures var h := Handle(processEvent[ev.reason], ev, watchers);
        && callbacks == old(callbacks) + h.deliveries
        && eventCallback == (old(eventCallback) && h.deliveries == [])
        && (s == Success <==> h.status == Success && Reply(ev.seqNum) !in dom.failing)
        && freed == old(freed) + (if s == Success then [] else [ev])
        && dom.replies == old(dom.replies) + (if s == Success then [EventReply(ev.seqNum, ACTION_CONTINUE, ev.reason)] else [])
        && dom.log == old(dom.log) + (if h.status == Success then [Reply(ev.seqNum)] else [])
    {
      AppendEmpty(old(dom.log));
      AppendEmpty(old(dom.replies));
      s := Dispatch(processEvent[ev.reason], ev);
      if s == Failure {
        freed := freed + [ev];
        return;
      }
      s := ReplyContinue(dom, ev);
      if s == Failure {
        freed := freed + [ev];
      } else {
        AppendEmpty(old(freed));
      }
    }

    // ---------------------------------------------------------------------
    // kvm_pause_vm and kvm_resume_vm
    // ---------------------------------------------------------------------

    /** kvm_pause_vm: pause every VCPU unless pause confirmations are still expected. */
    method PauseVm() returns (s: Status)
      requires Valid() && dom != null
      modifies this`expectedPauseCount, dom`pending, dom`nextSeq, dom`log
      ensures Valid()
      ensures old(expectedPauseCount) != 0 ==>
        && s == Success && expectedPauseCount == old(expectedPauseCount)
        && dom.pending == old(dom.pending) && dom.nextSeq == old(dom.nextSeq) && dom.log == old(dom.log)
      ensures old(expectedPauseCount) == 0 ==>
        && (s == Success <==> PauseAll !in dom.failing)
        && expectedPauseCount == (if s == Success then dom.vcpuCount else 0)
        && dom.pending == (if s == Success
             then old(dom.pending) + PauseEvents(old(dom.nextSeq), 0, dom.vcpuCount, if dom.vcpuCount == 0 then Blank() else dom.vcpus[0])
             else old(dom.pending))
        && dom.nextSeq == (if s == Success then old(dom.nextSeq) + dom.vcpuCount else old(dom.nextSeq))
        && dom.log == old(dom.log) + [PauseAll]
    {
      if expectedPauseCount != 0 {
        return Success;
      }
      var err, count := dom.PauseAllVcpus();
      if err {
        return Failure;
      }
      expectedPauseCount := count;
      return Success;
    }

    /**
     * kvm_resume_vm: while pause confirmations are expected, wait for an
     * event, pop it, and acknowledge it if it is a pause confirmation,
     * lowering the count first; any other event, and any refused call, ends
     * the operation with a failure.
     */
    method ResumeVm() returns (s: Status)
      requires Valid() && dom != null
      modifies this`expectedPauseCount, this`freed, dom`pending, dom`replies, dom`log
      ensures Valid()
      ensures var r := Drain(old(expectedPauseCount), old(dom.pending), dom.failing);
        && s == r.status
        && expectedPauseCount == r.count
        && dom.pending == r.pending
        && dom.replies == old(dom.replies) + r.replies
        && freed == old(freed) + r.freed
        && dom.log == old(dom.log) + r.calls
    {
      var gone;
      s, expectedPauseCount, gone := DrainPauseEvents(dom, expectedPauseCount);
      freed := freed + gone;
    }

    // ---------------------------------------------------------------------
    // kvm_set_reg_access, kvm_set_intr_access, kvm_set_mem_access
    // ---------------------------------------------------------------------

    /** kvm_set_reg_access */
    method SetRegAccess(reg: Reg, access: RegAccess) returns (s: Status)
      requires Valid()
      modifies Doms()
      ensures Valid()
      ensures dom == null ==> s == Failure
      ensures dom != null ==>
        var r := ControlSpec.SetRegAccess(reg, access, numVcpus, dom.failing);
        && s == r.status
        && dom.log == old(dom.log) + r.calls
        && dom.controls == Replay(old(dom.controls), r.calls, dom.failing)
        && dom.vcpus == old(dom.vcpus) && dom.pending == old(dom.pending)
        && dom.replies == old(dom.replies) && dom.nextSeq == old(dom.nextSeq)
    {
      if dom == null {
        return Failure;
      }
      var req := RegRequestFor(reg, access);
      if req.None? {
        return Failure;
      }
      var completed := RunVcpuLoop(dom, numVcpus, MonitorRegStep(req.value), MonitorRegStep(RegUndo(req.value)));
      s := if completed then Success else Failure;
    }

    /** kvm_set_intr_access */
    method SetIntrAccess(intr: Interrupt, enabled: bool) returns (s: Status)
      requires Valid()
      modifies Doms()
      ensures Valid()
      ensures dom == null ==> s == Failure
      ensures dom != null ==>
        var r := ControlSpec.SetIntrAccess(intr, enabled, numVcpus, dom.failing);
        && s == r.status
        && dom.log == old(dom.log) + r.calls
        && dom.controls == Replay(old(dom.controls), r.calls, dom.failing)
        && dom.vcpus == old(dom.vcpus) && dom.pending == old(dom.pending)
        && dom.replies == old(dom.replies) && dom.nextSeq == old(dom.nextSeq)
    {
      if dom == null {
        return Failure;
      }
      if intr != Int3 {
        return Failure;
      }
      var flags: bv32 := if enabled then EVENT_BREAKPOINT_FLAG else 0;
      var completed := RunVcpuLoop(dom, numVcpus, ControlEventsStep(flags), ControlEventsStep(0));
      s := if completed then Success else Failure;
    }

    /** kvm_set_mem_access; the latch it reads and sets is shared with every other instance. */
    method SetMemAccess(gpfn: u64, flag: bv8) returns (s: Status)
      requires Valid()
      modifies latch, Doms()
      ensures Valid()
      ensures dom == null ==> s == Failure && latch.enabled == old(latch.enabled)
      ensures dom != null ==>
        var r := ControlSpec.SetMemAccess(old(latch.enabled), numVcpus, old(dom.controls), gpfn, flag, dom.failing);
        && s == r.status
        && latch.enabled == r.pfEnabled
        && dom.log == old(dom.log) + r.calls
        && dom.controls == Replay(old(dom.controls), r.calls, dom.failing)
        && dom.vcpus == old(dom.vcpus) && dom.pending == old(dom.pending)
        && dom.replies == old(dom.replies) && dom.nextSeq == old(dom.nextSeq)
    {
      if dom == null {
        return Failure;
      }
      s, latch.enabled := SetMemAccessOn(dom, latch.enabled, numVcpus, gpfn, flag);
    }

    // ---------------------------------------------------------------------
    // Registers
    // ---------------------------------------------------------------------

    /** kvm_get_vcpureg: always answers from VCPU 0, whatever VCPU is asked for. */
    method GetVcpuReg(reg: Reg, vcpu: nat) returns (s: Status, value: u64)
      requires Valid()
      ensures dom == null ==> s == Failure
      ensures dom != null ==>
        && (s == Success <==> 0 < dom.vcpuCount && RegsGet(0) !in dom.failing && VcpuRegister(dom.vcpus[0], reg).Some?)
        && (s == Success ==> value == VcpuRegister(dom.vcpus[0], reg).value)
    {
      if dom == null {
        return Failure, 0;
      }
      var err, regs, sregs, msrData := dom.GetRegisters(0, SingleReadMsrs());
      if err {
        return Failure, 0;
      }
      assert msrData == SingleReadData(dom.vcpus[0]);
      var r := ReadRegister(reg, regs, sregs, msrData);
      if r.None? {
        return Failure, 0;
      }
      return Success, r.value;
    }

    /** kvm_set_vcpureg: fetch the VCPU's registers, replace one general-purpose register, write them back. */
    method SetVcpuReg(value: u64, reg: Reg, vcpu: nat) returns (s: Status)
      requires Valid()
      modifies Doms()
      ensures Valid()
      ensures dom == null ==> s == Failure
      ensures dom != null ==>
        var fetched := vcpu < dom.vcpuCount && RegsGet(vcpu) !in dom.failing;
        && (s == Success <==> fetched && reg.Gpr? && RegsSet(vcpu) !in dom.failing)
        && dom.log == old(dom.log) + (if fetched && reg.Gpr? then [RegsSet(vcpu)] else [])
        && dom.vcpus == (if s == Success
             then old(dom.vcpus)[vcpu := old(dom.vcpus)[vcpu].(regs := WriteGpr(old(dom.vcpus)[vcpu].regs, reg, value).value)]
             else old(dom.vcpus))
        && dom.controls == old(dom.controls) && dom.pending == old(dom.pending)
        && dom.replies == old(dom.replies) && dom.nextSeq == old(dom.nextSeq)
    {
      if dom == null {
        return Failure;
      }
      var err, regs, sregs, msrData := dom.GetRegisters(vcpu, []);
      if err {
        return Failure;
      }
      var written := WriteGpr(regs, reg, value);
      if written.None? {
        return Failure;
      }
      err := dom.SetRegisters(vcpu, written.value);
      s := if err then Failure else Success;
    }
  }
}
