/*
 * The introspection transport the driver talks to, as an abstract object.
 * It holds, per VCPU, the enabled events, the intercepted control registers
 * and MSRs, the page access masks and the register state. It also holds a
 * FIFO of pending events, the replies sent so far and a log of every call
 * that asks it to do something. Which calls fail is fixed by `failing`, a
 * set of calls (with their arguments) that the transport refuses. A refused
 * call changes nothing but is still logged.
 */
module Transport {
  import opened KvmTypes

  /** A transport call, identified by its kind, VCPU and arguments. */
  datatype Call =
    | EventsCtl(vcpu: nat, flags: bv32)
    | CrCtl(vcpu: nat, cr: nat, enable: bool)
    | MsrCtl(vcpu: nat, msr: nat, enable: bool)
    | AccessGet(vcpu: nat, gpa: u64)
    | AccessSet(vcpu: nat, gpa: u64, access: bv8)
    | RegsGet(vcpu: nat)
    | RegsSet(vcpu: nat)
    | VcpuCountGet
    | PauseAll
    | Wait(timeout: nat)
    | Pop
    | Reply(seqNum: nat)

  /** Outcome of waiting for an event. */
  datatype WaitResult = WaitReady | WaitTimedOut | WaitError

  /** The tables the control calls change, for one VCPU. */
  datatype VcpuControls = VcpuControls(
    eventFlags: bv32,
    crIntercept: set<nat>,
    msrIntercept: set<nat>,
    pageAccess: map<u64, bv8>)

  /** The VCPU-control calls: the calls that change a VCPU's tables when accepted. */
  predicate IsControl(c: Call) {
    c.EventsCtl? || c.CrCtl? || c.MsrCtl? || c.AccessSet?
  }

  /** The access mask of `gpa` in one VCPU's table; untouched pages allow everything. */
  function AccessOf(table: map<u64, bv8>, gpa: u64): bv8 {
    if gpa in table then table[gpa] else PAGE_ACCESS_ALL
  }

  /** The table after `gpa` is given mask `access`. */
  function SetAccess(table: map<u64, bv8>, gpa: u64, access: bv8): (t: map<u64, bv8>)
    ensures AccessOf(t, gpa) == access
    ensures forall a :: a != gpa ==> AccessOf(t, a) == AccessOf(table, a)
  {
    table[gpa := access]
  }

  /** Effect of one control-register or MSR control call on a VCPU's intercept set. */
  function Intercept(s: set<nat>, reg: nat, enable: bool): (r: set<nat>)
    ensures reg in r <==> enable
    ensures forall x :: x != reg ==> (x in r <==> x in s)
  {
    if enable then s + {reg} else s - {reg}
  }

  /** The tables of a VCPU after it accepted the control call `c`. */
  function Update(e: VcpuControls, c: Call): VcpuControls
    requires IsControl(c)
  {
    match c
    case EventsCtl(_, flags) => e.(eventFlags := flags)
    case CrCtl(_, cr, enable) => e.(crIntercept := Intercept(e.crIntercept, cr, enable))
    case MsrCtl(_, msr, enable) => e.(msrIntercept := Intercept(e.msrIntercept, msr, enable))
    case AccessSet(_, gpa, access) => e.(pageAccess := SetAccess(e.pageAccess, gpa, access))
  }

  /**
   * The effect of one call on the tables of all VCPUs: a control call that
   * the transport accepts changes the tables of its VCPU and of no other;
   * every other call, and a refused call, changes nothing.
   */
  function ApplyCall(ctl: seq<VcpuControls>, c: Call, failing: set<Call>): (r: seq<VcpuControls>)
    ensures |r| == |ctl|
    ensures c in failing || !IsControl(c) ==> r == ctl
    ensures IsControl(c) && c !in failing && c.vcpu < |ctl| ==> r[c.vcpu] == Update(ctl[c.vcpu], c)
    ensures forall w :: 0 <= w < |ctl| && !(IsControl(c) && c.vcpu == w) ==> r[w] == ctl[w]
  {
    if c in failing || !IsControl(c) || c.vcpu >= |ctl| then ctl
    else ctl[c.vcpu := Update(ctl[c.vcpu], c)]
  }

  /** The tables after the calls, in order. */
  function Replay(ctl: seq<VcpuControls>, calls: seq<Call>, failing: set<Call>): (r: seq<VcpuControls>)
    ensures |r| == |ctl|
  {
    if calls == [] then ctl
    else ApplyCall(Replay(ctl, calls[..|calls| - 1], failing), calls[|calls| - 1], failing)
  }

  /** Replaying two call sequences one after the other is replaying their concatenation. */
  lemma {:induction false} ReplayAppend(ctl: seq<VcpuControls>, a: seq<Call>, b: seq<Call>, failing: set<Call>)
    ensures Replay(ctl, a + b, failing) == Replay(Replay(ctl, a, failing), b, failing)
    decreases |b|
  {
    if b == [] {
      assert a + b == a;
    } else {
      var b' := b[..|b| - 1];
      assert (a + b)[..|a + b| - 1] == a + b';
      assert (a + b)[|a + b| - 1] == b[|b| - 1];
      ReplayAppend(ctl, a, b', failing);
    }
  }

  /** Replaying one more call applies it to the tables replayed so far. */
  lemma ReplaySnoc(ctl: seq<VcpuControls>, calls: seq<Call>, c: Call, failing: set<Call>)
    ensures Replay(ctl, calls + [c], failing) == ApplyCall(Replay(ctl, calls, failing), c, failing)
  {
    assert (calls + [c])[..|calls + [c]| - 1] == calls;
  }

  /** Appending to a log in two steps is appending the concatenation. */
  lemma AppendAssoc<T>(a: seq<T>, b: seq<T>, c: seq<T>)
    ensures a + b + c == a + (b + c)
  {
  }

  /** Appending nothing leaves a log as it is. */
  lemma AppendEmpty<T>(a: seq<T>)
    ensures a + [] == a
  {
  }

  /** Appending two entries one at a time. */
  lemma AppendTwo<T>(a: seq<T>, x: T, y: T)
    ensures a + [x] + [y] == a + [x, y]
  {
  }

  /** Appending three entries one at a time. */
  lemma AppendThree<T>(a: seq<T>, x: T, y: T, z: T)
    ensures a + [x] + [y] + [z] == a + [x, y, z]
  {
  }

  /** Replaying a single call applies it. */
  lemma ReplayOne(ctl: seq<VcpuControls>, c: Call, failing: set<Call>)
    ensures Replay(ctl, [c], failing) == ApplyCall(ctl, c, failing)
  {
    ReplaySnoc(ctl, [], c, failing);
    assert [] + [c] == [c];
  }

  /** A read of an MSR the VCPU does not hold yields 0. */
  function MsrValue(state: VcpuState, index: nat): u64 {
    if index in state.msrs then state.msrs[index] else 0
  }

  /** An all-zero register state. */
  function Blank(): VcpuState {
    VcpuState(KvmRegs(0, 0, 0, 0, 0, 0, 0, 0, 0, 0, 0, 0, 0, 0, 0, 0, 0, 0), KvmSregs(0, 0, 0, 0, 0, 0), map[])
  }

  /** One pause-confirmation event per VCPU `from` .. `n - 1`, numbered from `firstSeq`. */
  function PauseEvents(firstSeq: nat, from: nat, n: nat, template: VcpuState): (evs: seq<KvmiEvent>)
    requires from <= n
    ensures |evs| == n - from
    ensures forall i :: 0 <= i < |evs| ==>
      evs[i].reason == EVENT_PAUSE_VCPU && evs[i].vcpu == from + i && evs[i].seqNum == firstSeq + i && WellFormed(evs[i])
    decreases n - from
  {
    if from == n then
      []
    else
      [KvmiEvent(firstSeq, EVENT_PAUSE_VCPU, from, template.regs, template.sregs, NoPayload)]
      + PauseEvents(firstSeq + 1, from + 1, n, template)
  }

  class Kvmi {
    const vcpuCount: nat
    const failing: set<Call>
    var controls: seq<VcpuControls>
    var vcpus: seq<VcpuState>
    var pending: seq<KvmiEvent>
    var replies: seq<EventReply>
    var nextSeq: nat
    var log: seq<Call>

    ghost predicate Valid()
      reads this
    {
      && |controls| == vcpuCount
      && |vcpus| == vcpuCount
      && (forall i :: 0 <= i < |pending| ==> WellFormed(pending[i]))
    }

    constructor (vcpus: seq<VcpuState>, pending: seq<KvmiEvent>, failing: set<Call>)
      requires forall i :: 0 <= i < |pending| ==> WellFormed(pending[i])
      ensures Valid()
      ensures vcpuCount == |vcpus| && this.vcpus == vcpus && this.pending == pending && this.failing == failing
      ensures forall v :: 0 <= v < vcpuCount ==> controls[v] == VcpuControls(0, {}, {}, map[])
      ensures replies == [] && log == []
    {
      vcpuCount := |vcpus|;
      this.failing := failing;
      controls := seq(|vcpus|, _ => VcpuControls(0, {}, {}, map[]));
      this.vcpus := vcpus;
      this.pending := pending;
      replies := [];
      nextSeq := 0;
      log := [];
    }

    /** kvmi_control_events: replace the VCPU's set of enabled events by `flags`. */
    method ControlEvents(vcpu: nat, flags: bv32) returns (err: bool)
      requires Valid()
      modifies this`controls, this`log
      ensures Valid()
      ensures err <==> vcpu >= vcpuCount || EventsCtl(vcpu, flags) in failing
      ensures controls == ApplyCall(old(controls), EventsCtl(vcpu, flags), failing)
      ensures log == old(log) + [EventsCtl(vcpu, flags)]
    {
      log := log + [EventsCtl(vcpu, flags)];
      err := vcpu >= vcpuCount || EventsCtl(vcpu, flags) in failing;
      controls := ApplyCall(controls, EventsCtl(vcpu, flags), failing);
    }

    /** kvmi_control_cr: start or stop intercepting writes to control register `cr`. */
    method ControlCr(vcpu: nat, cr: nat, enable: bool) returns (err: bool)
      requires Valid()
      modifies this`controls, this`log
      ensures Valid()
      ensures err <==> vcpu >= vcpuCount || CrCtl(vcpu, cr, enable) in failing
      ensures controls == ApplyCall(old(controls), CrCtl(vcpu, cr, enable), failing)
      ensures log == old(log) + [CrCtl(vcpu, cr, enable)]
    {
      log := log + [CrCtl(vcpu, cr, enable)];
      err := vcpu >= vcpuCount || CrCtl(vcpu, cr, enable) in failing;
      controls := ApplyCall(controls, CrCtl(vcpu, cr, enable), failing);
    }

    /** kvmi_control_msr: start or stop intercepting writes to MSR `msr`. */
    method ControlMsr(vcpu: nat, msr: nat, enable: bool) returns (err: bool)
      requires Valid()
      modifies this`controls, this`log
      ensures Valid()
      ensures err <==> vcpu >= vcpuCount || MsrCtl(vcpu, msr, enable) in failing
      ensures controls == ApplyCall(old(controls), MsrCtl(vcpu, msr, enable), failing)
      ensures log == old(log) + [MsrCtl(vcpu, msr, enable)]
    {
      log := log + [MsrCtl(vcpu, msr, enable)];
      err := vcpu >= vcpuCount || MsrCtl(vcpu, msr, enable) in failing;
      controls := ApplyCall(controls, MsrCtl(vcpu, msr, enable), failing);
    }

    /** kvmi_get_page_access: the mask the VCPU's table holds for `gpa`. */
    method GetPageAccess(vcpu: nat, gpa: u64) returns (err: bool, access: bv8)
      requires Valid()
      ensures err <==> vcpu >= vcpuCount || AccessGet(vcpu, gpa) in failing
      ensures !err ==> access == AccessOf(controls[vcpu].pageAccess, gpa)
    {
      err := vcpu >= vcpuCount || AccessGet(vcpu, gpa) in failing;
      access := if err then 0 else AccessOf(controls[vcpu].pageAccess, gpa);
    }

    /** kvmi_set_page_access with a single page. */
    method SetPageAccess(vcpu: nat, gpa: u64, access: bv8) returns (err: bool)
      requires Valid()
      modifies this`controls, this`log
      ensures Valid()
      ensures err <==> vcpu >= vcpuCount || AccessSet(vcpu, gpa, access) in failing
      ensures controls == ApplyCall(old(controls), AccessSet(vcpu, gpa, access), failing)
      ensures log == old(log) + [AccessSet(vcpu, gpa, access)]
    {
      log := log + [AccessSet(vcpu, gpa, access)];
      err := vcpu >= vcpuCount || AccessSet(vcpu, gpa, access) in failing;
      controls := ApplyCall(controls, AccessSet(vcpu, gpa, access), failing);
    }

    /** kvmi_get_registers: the VCPU's registers and the values of the requested MSRs, in order. */
    method GetRegisters(vcpu: nat, msrIndices: seq<nat>) returns (err: bool, regs: KvmRegs, sregs: KvmSregs, msrData: seq<u64>)
      requires Valid()
      ensures err <==> vcpu >= vcpuCount || RegsGet(vcpu) in failing
      ensures !err ==> regs == vcpus[vcpu].regs && sregs == vcpus[vcpu].sregs
      ensures |msrData| == |msrIndices|
      ensures !err ==> forall i :: 0 <= i < |msrIndices| ==> msrData[i] == MsrValue(vcpus[vcpu], msrIndices[i])
    {
      err := vcpu >= vcpuCount || RegsGet(vcpu) in failing;
      var state := if err then Blank() else vcpus[vcpu];
      regs, sregs := state.regs, state.sregs;
      msrData := seq(|msrIndices|, i requires 0 <= i < |msrIndices| => MsrValue(state, msrIndices[i]));
    }

    /** kvmi_set_registers: replace the VCPU's general-purpose register record. */
    method SetRegisters(vcpu: nat, regs: KvmRegs) returns (err: bool)
      requires Valid()
      modifies this`vcpus, this`log
      ensures Valid()
      ensures err <==> vcpu >= vcpuCount || RegsSet(vcpu) in failing
      ensures vcpus == if err then old(vcpus) else old(vcpus)[vcpu := old(vcpus)[vcpu].(regs := regs)]
      ensures log == old(log) + [RegsSet(vcpu)]
    {
      log := log + [RegsSet(vcpu)];
      err := vcpu >= vcpuCount || RegsSet(vcpu) in failing;
      if !err {
        vcpus := vcpus[vcpu := vcpus[vcpu].(regs := regs)];
      }
    }

    /** kvmi_get_vcpu_count */
    method GetVcpuCount() returns (err: bool, count: nat)
      ensures err <==> VcpuCountGet in failing
      ensures !err ==> count == vcpuCount
    {
      err := VcpuCountGet in failing;
      count := if err then 0 else vcpuCount;
    }

    /**
     * kvmi_pause_all_vcpus: ask every VCPU to pause and report how many
     * were asked. Each VCPU later delivers a pause-confirmation event,
     * queued here behind the events already pending.
     */
    method PauseAllVcpus() returns (err: bool, count: nat)
      requires Valid()
      modifies this`pending, this`nextSeq, this`log
      ensures Valid()
      ensures err <==> PauseAll in failing
      ensures !err ==> count == vcpuCount
      ensures pending == if err then old(pending)
        else old(pending) + PauseEvents(old(nextSeq), 0, vcpuCount, if vcpuCount == 0 then Blank() else vcpus[0])
      ensures nextSeq == if err then old(nextSeq) else old(nextSeq) + vcpuCount
      ensures log == old(log) + [PauseAll]
    {
      log := log + [PauseAll];
      err := PauseAll in failing;
      count := 0;
      if !err {
        count := vcpuCount;
        var template := if vcpuCount == 0 then Blank() else vcpus[0];
        pending := pending + PauseEvents(nextSeq, 0, vcpuCount, template);
        nextSeq := nextSeq + vcpuCount;
      }
    }

    /** kvmi_wait_event: an event is ready when one is pending; an empty queue times out. */
    method WaitEvent(timeout: nat) returns (r: WaitResult)
      modifies this`log
      ensures r == if Wait(timeout) in failing then WaitError
                   else if pending == [] then WaitTimedOut
                   else WaitReady
      ensures log == old(log) + [Wait(timeout)]
    {
      log := log + [Wait(timeout)];
      r := if Wait(timeout) in failing then WaitError
           else if pending == [] then WaitTimedOut
           else WaitReady;
    }

    /** kvmi_pop_event: remove and return the oldest pending event. */
    method PopEvent() returns (err: bool, ev: KvmiEvent)
      requires Valid()
      modifies this`pending, this`log
      ensures Valid()
      ensures err <==> Pop in failing || old(pending) == []
      ensures !err ==> ev == old(pending)[0] && WellFormed(ev) && pending == old(pending)[1..]
      ensures err ==> pending == old(pending)
      ensures log == old(log) + [Pop]
    {
      log := log + [Pop];
      err := Pop in failing || pending == [];
      ev := KvmiEvent(0, 0, 0, Blank().regs, Blank().sregs, NoPayload);
      if !err {
        ev := pending[0];
        pending := pending[1..];
      }
    }

    /** kvmi_reply_event: answer the event with sequence number `seqNum`. */
    method ReplyEvent(seqNum: nat, reply: EventReply) returns (err: bool)
      modifies this`replies, this`log
      ensures err <==> Reply(seqNum) in failing
      ensures replies == if err then old(replies) else old(replies) + [reply]
      ensures log == old(log) + [Reply(seqNum)]
    {
      log := log + [Reply(seqNum)];
      err := Reply(seqNum) in failing;
      if !err {
        replies := replies + [reply];
      }
    }
  }
}
