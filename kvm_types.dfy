/*
 * Shared vocabulary of the KVM introspection driver model: status codes,
 * machine words, register identifiers, the raw register records exchanged
 * with the introspection transport, transport events and their replies,
 * and the numeric constants of the transport protocol and of the generic
 * introspection API.
 */
module KvmTypes {

  /** status_t of the generic introspection API. */
  datatype Status = Success | Failure

  datatype Option<T> = None | Some(value: T)

  const WORD_LIMIT: nat := 0x1_0000_0000_0000_0000

  /** uint64_t / addr_t: every value the driver stores in a 64-bit field. */
  type u64 = x: nat | x < 0x1_0000_0000_0000_0000

  /** Guest page size used by the driver (its page shift is hard-wired to 12). */
  const PAGE_SIZE: nat := 4096

  // ---------------------------------------------------------------------
  // Register identifiers (reg_t)
  // ---------------------------------------------------------------------

  /** The fields of the transport's general-purpose register record. */
  datatype GprName =
    | Rax | Rbx | Rcx | Rdx | Rbp | Rsi | Rdi | Rsp
    | R8 | R9 | R10 | R11 | R12 | R13 | R14 | R15
    | Rip | Rflags

  /** Every model-specific register name the driver's MSR table knows. */
  datatype MsrName =
    | Efer | Star | Lstar | Cstar | SyscallMask | ShadowGsBase | TscAux
    | MtrrFix64k00000 | MtrrFix16k80000 | MtrrFix16kA0000
    | MtrrFix4kC0000 | MtrrFix4kC8000 | MtrrFix4kD0000 | MtrrFix4kD8000
    | MtrrFix4kE0000 | MtrrFix4kE8000 | MtrrFix4kF0000 | MtrrFix4kF8000
    | MtrrDefType
    | Ia32Mc0Ctl | Ia32Mc0Status | Ia32Mc0Addr | Ia32Mc0Misc | Ia32Mc1Ctl | Ia32Mc0Ctl2
    | AmdPatchlevel | Amd64TscRatio
    | Ia32P5McAddr | Ia32P5McType | Ia32Tsc | Ia32PlatformId
    | Ia32EblCrPoweron | Ia32EbcFrequencyId | Ia32FeatureControl
    | Ia32SysenterCs | Ia32SysenterEsp | Ia32SysenterEip | Ia32MiscEnable
    | Hypervisor

  /**
   * A generic register identifier. `OtherReg` stands for every reg_t value
   * the driver has no case for (debug registers, segment selectors, MSRs
   * missing from the table, ...).
   */
  datatype Reg =
    | Gpr(name: GprName)
    | Cr0 | Cr2 | Cr3 | Cr4
    | FsBase | GsBase
    | Msr(msr: MsrName)
    | OtherReg(code: nat)

  /** struct kvm_regs */
  datatype KvmRegs = KvmRegs(
    rax: u64, rbx: u64, rcx: u64, rdx: u64, rsi: u64, rdi: u64, rsp: u64, rbp: u64,
    r8: u64, r9: u64, r10: u64, r11: u64, r12: u64, r13: u64, r14: u64, r15: u64,
    rip: u64, rflags: u64)

  /** The fields of struct kvm_sregs that the driver reads. */
  datatype KvmSregs = KvmSregs(cr0: u64, cr2: u64, cr3: u64, cr4: u64, fsBase: u64, gsBase: u64)

  /** One VCPU's register state as the transport holds it; `msrs` maps MSR index to value. */
  datatype VcpuState = VcpuState(regs: KvmRegs, sregs: KvmSregs, msrs: map<nat, u64>)

  // ---------------------------------------------------------------------
  // Transport events
  // ---------------------------------------------------------------------

  const EVENT_CR: nat := 1
  const EVENT_MSR: nat := 2
  const EVENT_BREAKPOINT: nat := 4
  const EVENT_PF: nat := 6
  const EVENT_PAUSE_VCPU: nat := 10
  /** Number of event kinds; every valid event id is below it. */
  const NUM_EVENTS: nat := 12

  /** Event-enable flags given to the transport's control-events call: bit `id` enables event `id`. */
  const EVENT_CR_FLAG: bv32 := 1 << 1
  const EVENT_MSR_FLAG: bv32 := 1 << 2
  const EVENT_BREAKPOINT_FLAG: bv32 := 1 << 4
  const EVENT_PF_FLAG: bv32 := 1 << 6

  /** The reply action that lets the VCPU continue. */
  const ACTION_CONTINUE: nat := 0

  /** The variant-specific part of an event (a union in the transport's wire record). */
  datatype Payload =
    | NoPayload
    | BreakpointInfo(gpa: u64)
    | PageFaultInfo(gpa: u64, gva: u64, mode: bv8)

  /** struct kvmi_dom_event: sequence number, event id, VCPU, register snapshot, payload. */
  datatype KvmiEvent = KvmiEvent(
    seqNum: nat, reason: nat, vcpu: nat,
    regs: KvmRegs, sregs: KvmSregs, payload: Payload)

  /** The payload variant is the one the event id announces. */
  ghost predicate WellFormed(ev: KvmiEvent) {
    && (ev.reason == EVENT_BREAKPOINT <==> ev.payload.BreakpointInfo?)
    && (ev.reason == EVENT_PF <==> ev.payload.PageFaultInfo?)
  }

  /** What the driver sends back for an event: the event's sequence number, an action and the event id. */
  datatype EventReply = EventReply(seqNum: nat, action: nat, event: nat)

  // ---------------------------------------------------------------------
  // Access masks
  // ---------------------------------------------------------------------

  /** Native page-access bits: a set bit ALLOWS that access. */
  const PAGE_ACCESS_R: bv8 := 1
  const PAGE_ACCESS_W: bv8 := 2
  const PAGE_ACCESS_X: bv8 := 4
  /** Access of a page the transport was never told about. */
  const PAGE_ACCESS_ALL: bv8 := 7

  /** Generic memory-access values (vmi_mem_access_t). */
  const MEMACCESS_INVALID: bv8 := 0
  const MEMACCESS_N: bv8 := 1
  const MEMACCESS_R: bv8 := 2
  const MEMACCESS_W: bv8 := 4
  const MEMACCESS_X: bv8 := 8
  const MEMACCESS_RW: bv8 := 6
  const MEMACCESS_RX: bv8 := 10
  const MEMACCESS_WX: bv8 := 12
  const MEMACCESS_RWX: bv8 := 14

  /** Generic register-access requests (vmi_reg_access_t). */
  datatype RegAccess = RegAccessN | RegAccessR | RegAccessW | RegAccessRW | RegAccessOther(code: nat)

  /** Interrupt kinds of the generic API; only INT3 is supported by this driver. */
  datatype Interrupt = Int3 | OtherInterrupt(code: nat)
}
