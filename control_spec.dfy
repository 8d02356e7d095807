/*
 * What the monitoring-control operations of the KVM driver ask of the
 * transport. Each of kvm_set_reg_access, kvm_set_intr_access and
 * kvm_set_mem_access runs the same pattern: one step (one or two control
 * calls) on every VCPU in turn, stopping at the first VCPU whose step is
 * refused, and then an undo step on every VCPU whose own errors are
 * ignored. This module states that pattern as the list of calls it makes,
 * and proves what the calls leave in the transport's tables.
 */
module ControlSpec {
  import opened KvmTypes
  import opened Transport
  import opened Paging
  import opened Access
  import Registers

  /** What monitoring one register means on one VCPU: the events to enable and the register to intercept. */
  datatype RegRequest = RegRequest(flags: bv32, onCr: bool, index: nat, enable: bool)

  /** The per-VCPU step of a loop. */
  datatype VcpuStep =
    | ControlEventsStep(flags: bv32)
    | MonitorRegStep(req: RegRequest)
    | SetAccessStep(gpa: u64, access: bv8)

  /** The intercept call of a register request. */
  function CtlCall(req: RegRequest, v: nat, enable: bool): (c: Call)
    ensures IsControl(c) && c.vcpu == v
  {
    if req.onCr then CrCtl(v, req.index, enable) else MsrCtl(v, req.index, enable)
  }

  /** The calls a step makes on VCPU `v` when none of them is refused. */
  function StepCalls(step: VcpuStep, v: nat): (calls: seq<Call>)
    ensures 1 <= |calls| <= 2
    ensures forall i :: 0 <= i < |calls| ==> IsControl(calls[i]) && calls[i].vcpu == v
  {
    match step
    case ControlEventsStep(flags) => [EventsCtl(v, flags)]
    case MonitorRegStep(req) => [EventsCtl(v, req.flags), CtlCall(req, v, req.enable)]
    case SetAccessStep(gpa, access) => [AccessSet(v, gpa, access)]
  }

  /** The tables of one VCPU after a step all of whose calls were accepted. */
  function Performed(e: VcpuControls, step: VcpuStep): VcpuControls {
    match step
    case ControlEventsStep(flags) => e.(eventFlags := flags)
    case MonitorRegStep(req) =>
      if req.onCr then e.(eventFlags := req.flags, crIntercept := Intercept(e.crIntercept, req.index, req.enable))
      else e.(eventFlags := req.flags, msrIntercept := Intercept(e.msrIntercept, req.index, req.enable))
    case SetAccessStep(gpa, access) => e.(pageAccess := SetAccess(e.pageAccess, gpa, access))
  }

  /** Some call of `calls` is refused. */
  predicate Refused(calls: seq<Call>, failing: set<Call>) {
    exists i :: 0 <= i < |calls| && calls[i] in failing
  }

  /** Every call the step makes on VCPU `v` is accepted. */
  predicate Accepted(step: VcpuStep, v: nat, failing: set<Call>) {
    !Refused(StepCalls(step, v), failing)
  }

  /** Every call the step makes on any of VCPUs 0 .. n - 1 is accepted. */
  predicate AllAccepted(step: VcpuStep, n: nat, failing: set<Call>) {
    forall v :: 0 <= v < n ==> Accepted(step, v, failing)
  }

  /** The calls made until, and including, the first refused one. */
  function UntilRefused(calls: seq<Call>, failing: set<Call>): (r: seq<Call>)
    ensures |r| <= |calls| && r == calls[..|r|]
    ensures !Refused(calls, failing) ==> r == calls
    ensures Refused(calls, failing) ==> |r| >= 1 && r[|r| - 1] in failing && !Refused(r[..|r| - 1], failing)
  {
    if calls == [] then []
    else if calls[0] in failing then [calls[0]]
    else
      var rest := UntilRefused(calls[1..], failing);
      assert Refused(calls, failing) ==> Refused(calls[1..], failing) by {
        if Refused(calls, failing) {
          var i :| 0 <= i < |calls| && calls[i] in failing;
          assert calls[1..][i - 1] == calls[i];
        }
      }
      assert !Refused(calls[1..], failing) ==> !Refused(calls, failing) by {
        if Refused(calls, failing) {
          var i :| 0 <= i < |calls| && calls[i] in failing;
          assert i > 0 && calls[1..][i - 1] == calls[i];
        }
      }
      assert Refused(calls, failing) ==> !Refused(([calls[0]] + rest)[..|rest|], failing) by {
        if Refused(calls, failing) {
          assert ([calls[0]] + rest)[..|rest|] == [calls[0]] + rest[..|rest| - 1];
        }
      }
      [calls[0]] + rest
  }

  /** The first VCPU from `from` on whose step is refused, or `n` when there is none. */
  function FirstRefused(step: VcpuStep, from: nat, n: nat, failing: set<Call>): (k: nat)
    requires from <= n
    ensures from <= k <= n
    ensures forall v :: from <= v < k ==> Accepted(step, v, failing)
    ensures k < n ==> !Accepted(step, k, failing)
    decreases n - from
  {
    if from == n then n
    else if !Accepted(step, from, failing) then from
    else FirstRefused(step, from + 1, n, failing)
  }

  /** The loop stops at `k` when the steps before it were accepted and its own was refused. */
  lemma {:induction false} FirstRefusedAt(step: VcpuStep, from: nat, k: nat, n: nat, failing: set<Call>)
    requires from <= k <= n
    requires forall v :: from <= v < k ==> Accepted(step, v, failing)
    requires k < n ==> !Accepted(step, k, failing)
    ensures FirstRefused(step, from, n, failing) == k
    decreases k - from
  {
    if from < k {
      FirstRefusedAt(step, from + 1, k, n, failing);
    }
  }

  /** The calls of the step on VCPUs 0 .. k - 1, in order. */
  function AllCalls(step: VcpuStep, k: nat): seq<Call> {
    if k == 0 then []
    else AllCalls(step, k - 1) + StepCalls(step, k - 1)
  }

  /** Every call of the loop is a control call on one of VCPUs 0 .. k - 1. */
  lemma {:induction false} AllCallsOnVcpus(step: VcpuStep, k: nat)
    ensures forall i :: 0 <= i < |AllCalls(step, k)| ==> IsControl(AllCalls(step, k)[i]) && AllCalls(step, k)[i].vcpu < k
  {
    if k > 0 {
      AllCallsOnVcpus(step, k - 1);
    }
  }

  /** The calls of a per-VCPU loop over `n` VCPUs, and whether it got through all of them. */
  datatype LoopOutcome = LoopOutcome(completed: bool, calls: seq<Call>)

  /**
   * Run `step` on VCPUs 0 .. n - 1; at the first refused step stop, then run
   * `undo` on every VCPU 0 .. n - 1 whatever the transport answers.
   */
  function VcpuLoop(step: VcpuStep, undo: VcpuStep, n: nat, failing: set<Call>): (o: LoopOutcome)
    ensures o.completed <==> AllAccepted(step, n, failing)
    ensures o.completed ==> o.calls == AllCalls(step, n)
    ensures forall i :: 0 <= i < |o.calls| ==> IsControl(o.calls[i]) && o.calls[i].vcpu < n
  {
    var k := FirstRefused(step, 0, n, failing);
    AllCallsOnVcpus(step, n);
    if k == n then LoopOutcome(true, AllCalls(step, n))
    else
      AllCallsOnVcpus(step, k);
      AllCallsOnVcpus(undo, n);
      var partial := UntilRefused(StepCalls(step, k), failing);
      assert forall i :: 0 <= i < |partial| ==> partial[i] == StepCalls(step, k)[i];
      LoopOutcome(false, AllCalls(step, k) + partial + AllCalls(undo, n))
  }

  /** A loop whose step is refused first at VCPU `k` makes the calls up to the refusal, then the undo calls. */
  lemma VcpuLoopStopsAt(step: VcpuStep, undo: VcpuStep, n: nat, failing: set<Call>, k: nat)
    requires k < n && AllAccepted(step, k, failing) && !Accepted(step, k, failing)
    ensures VcpuLoop(step, undo, n, failing) ==
      LoopOutcome(false, AllCalls(step, k) + UntilRefused(StepCalls(step, k), failing) + AllCalls(undo, n))
  {
    FirstRefusedAt(step, 0, k, n, failing);
  }

  /** A loop whose steps are all accepted makes exactly the step calls. */
  lemma VcpuLoopCompletes(step: VcpuStep, undo: VcpuStep, n: nat, failing: set<Call>)
    requires AllAccepted(step, n, failing)
    ensures VcpuLoop(step, undo, n, failing) == LoopOutcome(true, AllCalls(step, n))
  {
    FirstRefusedAt(step, 0, n, n, failing);
  }

  /** One more step extends the log and the tables by that VCPU's calls. */
  lemma StepExtends(prev: seq<Call>, ctl: seq<VcpuControls>, step: VcpuStep, v: nat, failing: set<Call>)
    ensures prev + AllCalls(step, v) + StepCalls(step, v) == prev + AllCalls(step, v + 1)
    ensures Replay(Replay(ctl, AllCalls(step, v), failing), StepCalls(step, v), failing)
      == Replay(ctl, AllCalls(step, v + 1), failing)
  {
    AppendAssoc(prev, AllCalls(step, v), StepCalls(step, v));
    ReplayAppend(ctl, AllCalls(step, v), StepCalls(step, v), failing);
  }

  /** A refused step followed by the undo pass makes exactly the calls of the stopped loop. */
  lemma StoppedLoopCalls(prev: seq<Call>, ctl: seq<VcpuControls>, step: VcpuStep, undo: VcpuStep, n: nat, failing: set<Call>, k: nat)
    requires k < n && AllAccepted(step, k, failing) && !Accepted(step, k, failing)
    ensures var part := UntilRefused(StepCalls(step, k), failing);
      prev + AllCalls(step, k) + part + AllCalls(undo, n) == prev + VcpuLoop(step, undo, n, failing).calls
    ensures var part := UntilRefused(StepCalls(step, k), failing);
      Replay(Replay(Replay(ctl, AllCalls(step, k), failing), part, failing), AllCalls(undo, n), failing)
        == Replay(ctl, VcpuLoop(step, undo, n, failing).calls, failing)
  {
    var part := UntilRefused(StepCalls(step, k), failing);
    VcpuLoopStopsAt(step, undo, n, failing, k);
    AppendAssoc(prev, AllCalls(step, k), part);
    AppendAssoc(prev, AllCalls(step, k) + part, AllCalls(undo, n));
    ReplayAppend(ctl, AllCalls(step, k), part, failing);
    ReplayAppend(ctl, AllCalls(step, k) + part, AllCalls(undo, n), failing);
  }

  // -----------------------------------------------------------------------
  // What the calls leave in the tables
  // -----------------------------------------------------------------------

  /** Calls that do not name VCPU `v` leave its tables alone. */
  lemma {:induction false} ReplayElsewhere(ctl: seq<VcpuControls>, calls: seq<Call>, failing: set<Call>, v: nat)
    requires v < |ctl|
    requires forall i :: 0 <= i < |calls| ==> !(IsControl(calls[i]) && calls[i].vcpu == v)
    ensures Replay(ctl, calls, failing)[v] == ctl[v]
    decreases |calls|
  {
    if calls != [] {
      ReplayElsewhere(ctl, calls[..|calls| - 1], failing, v);
    }
  }

  /** An accepted step changes its own VCPU as `Performed` says and no other VCPU. */
  lemma StepEffect(ctl: seq<VcpuControls>, step: VcpuStep, v: nat, failing: set<Call>)
    requires v < |ctl|
    requires Accepted(step, v, failing)
    ensures Replay(ctl, StepCalls(step, v), failing)[v] == Performed(ctl[v], step)
    ensures forall w :: 0 <= w < |ctl| && w != v ==> Replay(ctl, StepCalls(step, v), failing)[w] == ctl[w]
  {
    var calls := StepCalls(step, v);
    assert calls[0] !in failing;
    ReplayOne(ctl, calls[0], failing);
    match step {
      case ControlEventsStep(flags) =>
      case SetAccessStep(gpa, access) =>
      case MonitorRegStep(req) =>
        assert calls[1] !in failing;
        ReplaySnoc(ctl, [calls[0]], calls[1], failing);
        assert [calls[0]] + [calls[1]] == calls;
    }
  }


  /** A loop whose steps are all accepted performs the step on VCPUs below `n` and leaves the others alone. */
  lemma {:induction false} AllCallsEffect(ctl: seq<VcpuControls>, step: VcpuStep, n: nat, failing: set<Call>)
    requires n <= |ctl|
    requires AllAccepted(step, n, failing)
    ensures forall v :: 0 <= v < n ==> Replay(ctl, AllCalls(step, n), failing)[v] == Performed(ctl[v], step)
    ensures forall v :: n <= v < |ctl| ==> Replay(ctl, AllCalls(step, n), failing)[v] == ctl[v]
  {
    if n > 0 {
      AllCallsEffect(ctl, step, n - 1, failing);
      var mid := Replay(ctl, AllCalls(step, n - 1), failing);
      var last := StepCalls(step, n - 1);
      ReplayAppend(ctl, AllCalls(step, n - 1), last, failing);
      var after := Replay(mid, last, failing);
      assert Replay(ctl, AllCalls(step, n), failing) == after;
      StepEffect(mid, step, n - 1, failing);
      forall v | 0 <= v < n
        ensures after[v] == Performed(ctl[v], step)
      {
        if v < n - 1 {
          assert after[v] == mid[v];
          assert mid[v] == Performed(ctl[v], step);
        } else {
          assert after[v] == Performed(mid[v], step);
          assert mid[v] == ctl[v];
        }
      }
      forall v | n <= v < |ctl|
        ensures after[v] == ctl[v]
      {
        assert after[v] == mid[v];
      }
    }
  }

  /**
   * After a loop, VCPUs at and above `n` are untouched; if every step was
   * accepted each VCPU below `n` holds the step's effect; and if some step
   * was refused but every undo was accepted, each VCPU below `n` holds the
   * undo's effect on whatever the interrupted loop had left there.
   */
  lemma VcpuLoopEffect(ctl: seq<VcpuControls>, step: VcpuStep, undo: VcpuStep, n: nat, failing: set<Call>)
    returns (mid: seq<VcpuControls>)
    requires n <= |ctl|
    ensures |mid| == |ctl|
    ensures var o := VcpuLoop(step, undo, n, failing);
      && (forall v :: n <= v < |ctl| ==> Replay(ctl, o.calls, failing)[v] == ctl[v])
      && (o.completed ==> forall v :: 0 <= v < n ==> Replay(ctl, o.calls, failing)[v] == Performed(ctl[v], step))
      && (!o.completed && AllAccepted(undo, n, failing) ==>
            forall v :: 0 <= v < n ==> Replay(ctl, o.calls, failing)[v] == Performed(mid[v], undo))
  {
    var o := VcpuLoop(step, undo, n, failing);
    forall v | n <= v < |ctl|
      ensures Replay(ctl, o.calls, failing)[v] == ctl[v]
    {
      ReplayElsewhere(ctl, o.calls, failing, v);
    }
    mid := ctl;
    if o.completed {
      AllCallsEffect(ctl, step, n, failing);
    } else {
      var k := FirstRefused(step, 0, n, failing);
      var prefix := AllCalls(step, k) + UntilRefused(StepCalls(step, k), failing);
      mid := Replay(ctl, prefix, failing);
      ReplayAppend(ctl, prefix, AllCalls(undo, n), failing);
      if AllAccepted(undo, n, failing) {
        AllCallsEffect(mid, undo, n, failing);
      }
    }
  }

  // -----------------------------------------------------------------------
  // kvm_set_reg_access
  // -----------------------------------------------------------------------

  /** The events flag and register number of the register switch and the access switch. */
  function RegRequestFor(reg: Reg, access: RegAccess): (r: Option<RegRequest>)
    ensures r.Some? <==> reg in {Cr0, Cr3, Cr4, Msr(Star)} && access in {RegAccessN, RegAccessW}
    ensures r.Some? ==> r.value.enable == (access == RegAccessW)
    ensures r.Some? ==> r.value.onCr == (reg != Msr(Star))
    ensures r.Some? ==> r.value.flags == if r.value.onCr then EVENT_CR_FLAG else EVENT_MSR_FLAG
    ensures r.Some? && reg == Cr0 ==> r.value.index == 0
    ensures r.Some? && reg == Cr3 ==> r.value.index == 3
    ensures r.Some? && reg == Cr4 ==> r.value.index == 4
    ensures r.Some? && reg == Msr(Star) ==> r.value.index == Registers.MsrIndex(Star)
  {
    var target: Option<RegRequest> :=
      match reg
      case Cr0 => Some(RegRequest(EVENT_CR_FLAG, true, 0, false))
      case Cr3 => Some(RegRequest(EVENT_CR_FLAG, true, 3, false))
      case Cr4 => Some(RegRequest(EVENT_CR_FLAG, true, 4, false))
      case Msr(Star) => Some(RegRequest(EVENT_MSR_FLAG, false, 0xc0000081, false))
      case _ => None;
    if target.None? then None
    else
      match access
      case RegAccessN => Some(target.value.(enable := false))
      case RegAccessW => Some(target.value.(enable := true))
      case _ => None
  }

  /** The undo step of kvm_set_reg_access: no events, and the register no longer intercepted. */
  function RegUndo(req: RegRequest): RegRequest {
    RegRequest(0, req.onCr, req.index, false)
  }

  /** A driver operation's status and the calls it made. */
  datatype Outcome = Outcome(status: Status, calls: seq<Call>)

  /** kvm_set_reg_access on `n` VCPUs. */
  function SetRegAccess(reg: Reg, access: RegAccess, n: nat, failing: set<Call>): (r: Outcome)
    ensures RegRequestFor(reg, access).None? ==> r == Outcome(Failure, [])
    ensures RegRequestFor(reg, access).Some? ==>
      var req := RegRequestFor(reg, access).value;
      (r.status == Success <==> AllAccepted(MonitorRegStep(req), n, failing))
  {
    match RegRequestFor(reg, access)
    case None => Outcome(Failure, [])
    case Some(req) =>
      var o := VcpuLoop(MonitorRegStep(req), MonitorRegStep(RegUndo(req)), n, failing);
      Outcome(if o.completed then Success else Failure, o.calls)
  }

  /**
   * kvm_set_reg_access: on success every VCPU enables exactly the register's
   * event kind and intercepts the register as requested; after a failure
   * whose undo calls were all accepted, every VCPU has no events enabled
   * and does not intercept the register. VCPUs past `n` are untouched.
   */
  lemma SetRegAccessEffect(ctl: seq<VcpuControls>, reg: Reg, access: RegAccess, n: nat, failing: set<Call>)
    requires n <= |ctl|
    requires RegRequestFor(reg, access).Some?
    ensures var req := RegRequestFor(reg, access).value;
      var r := SetRegAccess(reg, access, n, failing);
      var after := Replay(ctl, r.calls, failing);
      && (forall v :: n <= v < |ctl| ==> after[v] == ctl[v])
      && (r.status == Success ==> forall v :: 0 <= v < n ==>
            && after[v].eventFlags == req.flags
            && (req.onCr ==> (req.index in after[v].crIntercept <==> req.enable) && after[v].msrIntercept == ctl[v].msrIntercept)
            && (req.onCr ==> after[v].crIntercept - {req.index} == ctl[v].crIntercept - {req.index})
            && (!req.onCr ==> (req.index in after[v].msrIntercept <==> req.enable) && after[v].crIntercept == ctl[v].crIntercept)
            && (!req.onCr ==> after[v].msrIntercept - {req.index} == ctl[v].msrIntercept - {req.index})
            && after[v].pageAccess == ctl[v].pageAccess)
      && (r.status == Failure && AllAccepted(MonitorRegStep(RegUndo(req)), n, failing) ==>
            forall v :: 0 <= v < n ==>
              && after[v].eventFlags == 0
              && (req.onCr ==> req.index !in after[v].crIntercept)
              && (!req.onCr ==> req.index !in after[v].msrIntercept))
  {
    var req := RegRequestFor(reg, access).value;
    var mid := VcpuLoopEffect(ctl, MonitorRegStep(req), MonitorRegStep(RegUndo(req)), n, failing);
  }

  /** Register reads cannot be monitored: R and RW fail before any call. */
  lemma RegReadsRejected(reg: Reg)
    ensures SetRegAccess(reg, RegAccessR, 0, {}) == Outcome(Failure, [])
    ensures SetRegAccess(reg, RegAccessRW, 0, {}) == Outcome(Failure, [])
  {
  }

  // -----------------------------------------------------------------------
  // kvm_set_intr_access
  // -----------------------------------------------------------------------

  /** kvm_set_intr_access on `n` VCPUs. */
  function SetIntrAccess(intr: Interrupt, enabled: bool, n: nat, failing: set<Call>): (r: Outcome)
    ensures intr != Int3 ==> r == Outcome(Failure, [])
    ensures intr == Int3 ==>
      (r.status == Success <==> AllAccepted(ControlEventsStep(if enabled then EVENT_BREAKPOINT_FLAG else 0), n, failing))
  {
    if intr != Int3 then Outcome(Failure, [])
    else
      var flags := if enabled then EVENT_BREAKPOINT_FLAG else 0;
      var o := VcpuLoop(ControlEventsStep(flags), ControlEventsStep(0), n, failing);
      Outcome(if o.completed then Success else Failure, o.calls)
  }

  /**
   * kvm_set_intr_access for INT3: on success every VCPU's event set is
   * exactly the breakpoint event (enabling) or empty (disabling), whatever
   * events were enabled before; after a failure whose undo calls were all
   * accepted every VCPU has no events enabled.
   */
  lemma SetIntrAccessEffect(ctl: seq<VcpuControls>, enabled: bool, n: nat, failing: set<Call>)
    requires n <= |ctl|
    ensures var r := SetIntrAccess(Int3, enabled, n, failing);
      var after := Replay(ctl, r.calls, failing);
      && (forall v :: n <= v < |ctl| ==> after[v] == ctl[v])
      && (r.status == Success ==> forall v :: 0 <= v < n ==>
            after[v] == ctl[v].(eventFlags := if enabled then EVENT_BREAKPOINT_FLAG else 0))
      && (r.status == Failure && AllAccepted(ControlEventsStep(0), n, failing) ==>
            forall v :: 0 <= v < n ==> after[v].eventFlags == 0)
  {
    var flags := if enabled then EVENT_BREAKPOINT_FLAG else 0;
    var mid := VcpuLoopEffect(ctl, ControlEventsStep(flags), ControlEventsStep(0), n, failing);
  }

  // -----------------------------------------------------------------------
  // kvm_set_mem_access
  // -----------------------------------------------------------------------

  /** The status of kvm_set_mem_access, the latch afterwards and the calls made. */
  datatype MemAccessOutcome = MemAccessOutcome(status: Status, pfEnabled: bool, calls: seq<Call>)

  /** The loop that enables page-fault events on every VCPU, undone by disabling all events. */
  function ArmPageFaults(n: nat, failing: set<Call>): LoopOutcome {
    VcpuLoop(ControlEventsStep(EVENT_PF_FLAG), ControlEventsStep(0), n, failing)
  }

  /**
   * kvm_set_mem_access on `n` VCPUs, with the latch `pfEnabled` and the
   * tables `ctl` as they are on entry. The original mask is read from
   * VCPU 0 at address `gpfn`, after the arming loop; the new mask is
   * written at `gpfn << 12`.
   */
  function SetMemAccess(pfEnabled: bool, n: nat, ctl: seq<VcpuControls>, gpfn: u64, flag: bv8, failing: set<Call>): (r: MemAccessOutcome)
    ensures r.pfEnabled <==> pfEnabled || ArmPageFaults(n, failing).completed
    ensures !pfEnabled && !ArmPageFaults(n, failing).completed ==> r == MemAccessOutcome(Failure, false, ArmPageFaults(n, failing).calls)
    ensures r.status == Success <==>
      && r.pfEnabled
      && |ctl| > 0 && AccessGet(0, gpfn) !in failing
      && SupportedRequest(flag)
  {
    var arm := ArmPageFaults(n, failing);
    if !pfEnabled && !arm.completed then MemAccessOutcome(Failure, false, arm.calls)
    else
      var armCalls := if pfEnabled then [] else arm.calls;
      if |ctl| == 0 || AccessGet(0, gpfn) in failing then MemAccessOutcome(Failure, true, armCalls)
      else
        var orig := AccessOf(Replay(ctl, armCalls, failing)[0].pageAccess, gpfn);
        match NativeAccess(flag, orig)
        case None => MemAccessOutcome(Failure, true, armCalls)
        case Some(access) =>
          var gpa := ShiftLeft(gpfn, 12);
          var apply := VcpuLoop(SetAccessStep(gpa, access), SetAccessStep(gpa, orig), n, failing);
          MemAccessOutcome(Success, true, armCalls + apply.calls)
  }

  /** Once the latch is set, kvm_set_mem_access makes page-access calls only. */
  lemma LatchedCallsSetAccessOnly(n: nat, ctl: seq<VcpuControls>, gpfn: u64, flag: bv8, failing: set<Call>)
    ensures var r := SetMemAccess(true, n, ctl, gpfn, flag, failing);
      forall i :: 0 <= i < |r.calls| ==> r.calls[i].AccessSet?
  {
    if |ctl| > 0 && AccessGet(0, gpfn) !in failing {
      var orig := AccessOf(Replay(ctl, [], failing)[0].pageAccess, gpfn);
      if NativeAccess(flag, orig).Some? {
        var gpa := ShiftLeft(gpfn, 12);
        var access := NativeAccess(flag, orig).value;
        AccessStepsOnly(SetAccessStep(gpa, access), SetAccessStep(gpa, orig), n, failing);
        assert SetMemAccess(true, n, ctl, gpfn, flag, failing).calls
          == [] + VcpuLoop(SetAccessStep(gpa, access), SetAccessStep(gpa, orig), n, failing).calls;
      }
    }
  }

  /** The success path of kvm_set_mem_access: the arming calls, then the loop applying the new mask. */
  lemma SetMemAccessApplies(pfEnabled: bool, n: nat, ctl: seq<VcpuControls>, gpfn: u64, flag: bv8, failing: set<Call>,
                            armCalls: seq<Call>, orig: bv8, access: bv8)
    requires pfEnabled || ArmPageFaults(n, failing).completed
    requires armCalls == if pfEnabled then [] else ArmPageFaults(n, failing).calls
    requires |ctl| > 0 && AccessGet(0, gpfn) !in failing
    requires orig == AccessOf(Replay(ctl, armCalls, failing)[0].pageAccess, gpfn)
    requires NativeAccess(flag, orig) == Some(access)
    ensures SetMemAccess(pfEnabled, n, ctl, gpfn, flag, failing)
      == MemAccessOutcome(Success, true, armCalls + VcpuLoop(SetAccessStep(ShiftLeft(gpfn, 12), access), SetAccessStep(ShiftLeft(gpfn, 12), orig), n, failing).calls)
  {
  }

  /** A loop of page-access steps makes only page-access calls. */
  lemma AccessStepsOnly(step: VcpuStep, undo: VcpuStep, n: nat, failing: set<Call>)
    requires step.SetAccessStep? && undo.SetAccessStep? && step.gpa == undo.gpa
    ensures forall i :: 0 <= i < |VcpuLoop(step, undo, n, failing).calls| ==>
      VcpuLoop(step, undo, n, failing).calls[i].AccessSet? && VcpuLoop(step, undo, n, failing).calls[i].gpa == step.gpa
  {
    var o := VcpuLoop(step, undo, n, failing);
    forall i | 0 <= i < |o.calls| ensures o.calls[i].AccessSet? && o.calls[i].gpa == step.gpa {
      var c := o.calls[i];
      assert IsControl(c);
      AllCallsKinds(step, n);
      AllCallsKinds(undo, n);
      var k := FirstRefused(step, 0, n, failing);
      AllCallsKinds(step, k);
    }
  }

  /** Every call of a page-access loop sets a page access; every call of an events loop controls events. */
  lemma {:induction false} AllCallsKinds(step: VcpuStep, k: nat)
    ensures step.SetAccessStep? ==> forall i :: 0 <= i < |AllCalls(step, k)| ==>
      AllCalls(step, k)[i].AccessSet? && AllCalls(step, k)[i].gpa == step.gpa
    ensures step.ControlEventsStep? ==> forall i :: 0 <= i < |AllCalls(step, k)| ==> AllCalls(step, k)[i].EventsCtl?
  {
    if k > 0 {
      AllCallsKinds(step, k - 1);
    }
  }

  /**
   * kvm_set_mem_access changes only page access masks, apart from the
   * event flags of the arming loop; on success with every per-VCPU write
   * accepted, every VCPU below `n` denies exactly what was asked at
   * `gpfn << 12`; when a write was refused and every restoring write was
   * accepted, every VCPU below `n` holds VCPU 0's original mask there,
   * even a VCPU whose own mask differed.
   */
  lemma SetMemAccessEffect(ctl: seq<VcpuControls>, gpfn: u64, flag: bv8, n: nat, failing: set<Call>)
    requires n <= |ctl|
    requires |ctl| > 0 && AccessGet(0, gpfn) !in failing && SupportedRequest(flag)
    ensures var orig := AccessOf(ctl[0].pageAccess, gpfn);
      var access := NativeAccess(flag, orig).value;
      var gpa := ShiftLeft(gpfn, 12);
      var r := SetMemAccess(true, n, ctl, gpfn, flag, failing);
      && r.status == Success
      && r.calls == VcpuLoop(SetAccessStep(gpa, access), SetAccessStep(gpa, orig), n, failing).calls
      && ApplyAccessHolds(ctl, gpa, access, orig, n, failing)
  {
    var orig := AccessOf(ctl[0].pageAccess, gpfn);
    var access := NativeAccess(flag, orig).value;
    var gpa := ShiftLeft(gpfn, 12);
    var o := VcpuLoop(SetAccessStep(gpa, access), SetAccessStep(gpa, orig), n, failing);
    assert SetMemAccess(true, n, ctl, gpfn, flag, failing).calls == [] + o.calls;
    ApplyAccessEffect(ctl, gpa, access, orig, n, failing);
  }

  /**
   * The first kvm_set_mem_access with every VCPU armed: the call succeeds
   * and latches; every VCPU below `n` then has exactly the page-fault
   * event enabled; the original mask is VCPU 0's mask before the call,
   * since arming changes no mask; and the apply loop runs on the armed
   * tables, with the outcome ApplyAccessHolds describes.
   */
  lemma SetMemAccessArmsThenApplies(ctl: seq<VcpuControls>, gpfn: u64, flag: bv8, n: nat, failing: set<Call>)
    requires n <= |ctl|
    requires |ctl| > 0 && AccessGet(0, gpfn) !in failing && SupportedRequest(flag)
    requires ArmPageFaults(n, failing).completed
    ensures var arm := ArmPageFaults(n, failing).calls;
      var armed := Replay(ctl, arm, failing);
      var orig := AccessOf(ctl[0].pageAccess, gpfn);
      var access := NativeAccess(flag, orig).value;
      var gpa := ShiftLeft(gpfn, 12);
      var apply := VcpuLoop(SetAccessStep(gpa, access), SetAccessStep(gpa, orig), n, failing).calls;
      var r := SetMemAccess(false, n, ctl, gpfn, flag, failing);
      && r == MemAccessOutcome(Success, true, arm + apply)
      && (forall v :: 0 <= v < n ==> armed[v] == ctl[v].(eventFlags := EVENT_PF_FLAG))
      && Replay(ctl, r.calls, failing) == Replay(armed, apply, failing)
      && ApplyAccessHolds(armed, gpa, access, orig, n, failing)
  {
    var arm := ArmPageFaults(n, failing).calls;
    var armed := Replay(ctl, arm, failing);
    ArmPageFaultsEffect(ctl, n, failing);
    assert armed[0].pageAccess == ctl[0].pageAccess;
    var orig := AccessOf(ctl[0].pageAccess, gpfn);
    var access := NativeAccess(flag, orig).value;
    var gpa := ShiftLeft(gpfn, 12);
    var apply := VcpuLoop(SetAccessStep(gpa, access), SetAccessStep(gpa, orig), n, failing).calls;
    SetMemAccessApplies(false, n, ctl, gpfn, flag, failing, arm, orig, access);
    ReplayAppend(ctl, arm, apply, failing);
    ApplyAccessEffect(armed, gpa, access, orig, n, failing);
  }

  /**
   * The page-access loop writing `access` at `gpa` and restoring `orig`:
   * it touches no event flags and no VCPU from `n` on; with every write
   * accepted every VCPU below `n` holds `access` at `gpa`; with a write
   * refused and every restoring write accepted, every VCPU below `n` holds
   * `orig` there.
   */
  ghost predicate ApplyAccessHolds(ctl: seq<VcpuControls>, gpa: u64, access: bv8, orig: bv8, n: nat, failing: set<Call>)
    requires n <= |ctl|
  {
    var after := Replay(ctl, VcpuLoop(SetAccessStep(gpa, access), SetAccessStep(gpa, orig), n, failing).calls, failing);
    && (forall v :: n <= v < |ctl| ==> after[v] == ctl[v])
    && (forall v :: 0 <= v < |ctl| ==>
          && after[v].eventFlags == ctl[v].eventFlags
          && after[v].crIntercept == ctl[v].crIntercept
          && after[v].msrIntercept == ctl[v].msrIntercept)
    && (forall v, a :: 0 <= v < |ctl| && a != gpa ==> AccessOf(after[v].pageAccess, a) == AccessOf(ctl[v].pageAccess, a))
    && (AllAccepted(SetAccessStep(gpa, access), n, failing) ==>
          forall v :: 0 <= v < n ==> AccessOf(after[v].pageAccess, gpa) == access)
    && (!AllAccepted(SetAccessStep(gpa, access), n, failing) && AllAccepted(SetAccessStep(gpa, orig), n, failing) ==>
          forall v :: 0 <= v < n ==> AccessOf(after[v].pageAccess, gpa) == orig)
  }

  lemma ApplyAccessEffect(ctl: seq<VcpuControls>, gpa: u64, access: bv8, orig: bv8, n: nat, failing: set<Call>)
    requires n <= |ctl|
    ensures ApplyAccessHolds(ctl, gpa, access, orig, n, failing)
  {
    var step, undo := SetAccessStep(gpa, access), SetAccessStep(gpa, orig);
    var o := VcpuLoop(step, undo, n, failing);
    var mid := VcpuLoopEffect(ctl, step, undo, n, failing);
    AccessStepsOnly(step, undo, n, failing);
    forall v | 0 <= v < |ctl| {
      AccessCallsFrame(ctl, o.calls, failing, gpa, v);
    }
  }

  /**
   * Page-access calls at `gpa` never touch event flags, intercepts, or the
   * mask of any other address.
   */
  lemma {:induction false} AccessCallsFrame(ctl: seq<VcpuControls>, calls: seq<Call>, failing: set<Call>, gpa: u64, v: nat)
    requires v < |ctl|
    requires forall i :: 0 <= i < |calls| ==> calls[i].AccessSet? && calls[i].gpa == gpa
    ensures Replay(ctl, calls, failing)[v].eventFlags == ctl[v].eventFlags
    ensures Replay(ctl, calls, failing)[v].crIntercept == ctl[v].crIntercept
    ensures Replay(ctl, calls, failing)[v].msrIntercept == ctl[v].msrIntercept
    ensures forall a :: a != gpa ==> AccessOf(Replay(ctl, calls, failing)[v].pageAccess, a) == AccessOf(ctl[v].pageAccess, a)
    decreases |calls|
  {
    if calls != [] {
      AccessCallsFrame(ctl, calls[..|calls| - 1], failing, gpa, v);
    }
  }

  /**
   * The page-fault latch: arming succeeds on every VCPU or, when the
   * disabling calls are accepted, leaves every VCPU with no events at all.
   */
  lemma ArmPageFaultsEffect(ctl: seq<VcpuControls>, n: nat, failing: set<Call>)
    requires n <= |ctl|
    ensures var o := ArmPageFaults(n, failing);
      var after := Replay(ctl, o.calls, failing);
      && (forall v :: n <= v < |ctl| ==> after[v] == ctl[v])
      && (o.completed ==> forall v :: 0 <= v < n ==> after[v] == ctl[v].(eventFlags := EVENT_PF_FLAG))
      && (!o.completed && AllAccepted(ControlEventsStep(0), n, failing) ==>
            forall v :: 0 <= v < n ==> after[v].eventFlags == 0)
  {
    var mid := VcpuLoopEffect(ctl, ControlEventsStep(EVENT_PF_FLAG), ControlEventsStep(0), n, failing);
  }

  /** An unsupported request fails without setting any page access. */
  lemma UnsupportedRequestSetsNothing(pfEnabled: bool, n: nat, ctl: seq<VcpuControls>, gpfn: u64, flag: bv8, failing: set<Call>)
    requires !SupportedRequest(flag)
    ensures var r := SetMemAccess(pfEnabled, n, ctl, gpfn, flag, failing);
      r.status == Failure && forall i :: 0 <= i < |r.calls| ==> !r.calls[i].AccessSet?
  {
    AllCallsKinds(ControlEventsStep(EVENT_PF_FLAG), n);
    AllCallsKinds(ControlEventsStep(0), n);
    var k := FirstRefused(ControlEventsStep(EVENT_PF_FLAG), 0, n, failing);
    AllCallsKinds(ControlEventsStep(EVENT_PF_FLAG), k);
  }
}
