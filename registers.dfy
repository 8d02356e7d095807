/*
 * Register translation of the KVM driver: the MSR-name to MSR-index table,
 * the register selection done when one register is read, and the
 * single-register write done as a read-modify-write of the general-purpose
 * register record.
 */
module Registers {
  import opened KvmTypes

  /** Architectural MSR addresses (Intel 64 and IA-32 SDM, Volume 4, chapter 2; AMD for the AMD names). */
  function MsrIndex(m: MsrName): (index: nat)
    ensures index < 0x1_0000_0000
  {
    match m
    case Efer => 0xc0000080
    case Star => 0xc0000081
    case Lstar => 0xc0000082
    case Cstar => 0xc0000083
    case SyscallMask => 0xc0000084
    case ShadowGsBase => 0xc0000102
    case TscAux => 0xc0000103
    case MtrrFix64k00000 => 0x250
    case MtrrFix16k80000 => 0x258
    case MtrrFix16kA0000 => 0x259
    case MtrrFix4kC0000 => 0x268
    case MtrrFix4kC8000 => 0x269
    case MtrrFix4kD0000 => 0x26a
    case MtrrFix4kD8000 => 0x26b
    case MtrrFix4kE0000 => 0x26c
    case MtrrFix4kE8000 => 0x26d
    case MtrrFix4kF0000 => 0x26e
    case MtrrFix4kF8000 => 0x26f
    case MtrrDefType => 0x2ff
    case Ia32Mc0Ctl => 0x400
    case Ia32Mc0Status => 0x401
    case Ia32Mc0Addr => 0x402
    case Ia32Mc0Misc => 0x403
    case Ia32Mc1Ctl => 0x404
    case Ia32Mc0Ctl2 => 0x280
    case AmdPatchlevel => 0x8b
    case Amd64TscRatio => 0xc0000104
    case Ia32P5McAddr => 0x0
    case Ia32P5McType => 0x1
    case Ia32Tsc => 0x10
    case Ia32PlatformId => 0x17
    case Ia32EblCrPoweron => 0x2a
    case Ia32EbcFrequencyId => 0x2c
    case Ia32FeatureControl => 0x3a
    case Ia32SysenterCs => 0x174
    case Ia32SysenterEsp => 0x175
    case Ia32SysenterEip => 0x176
    case Ia32MiscEnable => 0x1a0
    case Hypervisor => 0x40000000
  }

  /** The reverse reading of the table: which name, if any, has this index. */
  function MsrNameOf(index: nat): Option<MsrName> {
    match index
    case 0xc0000080 => Some(Efer)
    case 0xc0000081 => Some(Star)
    case 0xc0000082 => Some(Lstar)
    case 0xc0000083 => Some(Cstar)
    case 0xc0000084 => Some(SyscallMask)
    case 0xc0000102 => Some(ShadowGsBase)
    case 0xc0000103 => Some(TscAux)
    case 0x250 => Some(MtrrFix64k00000)
    case 0x258 => Some(MtrrFix16k80000)
    case 0x259 => Some(MtrrFix16kA0000)
    case 0x268 => Some(MtrrFix4kC0000)
    case 0x269 => Some(MtrrFix4kC8000)
    case 0x26a => Some(MtrrFix4kD0000)
    case 0x26b => Some(MtrrFix4kD8000)
    case 0x26c => Some(MtrrFix4kE0000)
    case 0x26d => Some(MtrrFix4kE8000)
    case 0x26e => Some(MtrrFix4kF0000)
    case 0x26f => Some(MtrrFix4kF8000)
    case 0x2ff => Some(MtrrDefType)
    case 0x400 => Some(Ia32Mc0Ctl)
    case 0x401 => Some(Ia32Mc0Status)
    case 0x402 => Some(Ia32Mc0Addr)
    case 0x403 => Some(Ia32Mc0Misc)
    case 0x404 => Some(Ia32Mc1Ctl)
    case 0x280 => Some(Ia32Mc0Ctl2)
    case 0x8b => Some(AmdPatchlevel)
    case 0xc0000104 => Some(Amd64TscRatio)
    case 0x0 => Some(Ia32P5McAddr)
    case 0x1 => Some(Ia32P5McType)
    case 0x10 => Some(Ia32Tsc)
    case 0x17 => Some(Ia32PlatformId)
    case 0x2a => Some(Ia32EblCrPoweron)
    case 0x2c => Some(Ia32EbcFrequencyId)
    case 0x3a => Some(Ia32FeatureControl)
    case 0x174 => Some(Ia32SysenterCs)
    case 0x175 => Some(Ia32SysenterEsp)
    case 0x176 => Some(Ia32SysenterEip)
    case 0x1a0 => Some(Ia32MiscEnable)
    case 0x40000000 => Some(Hypervisor)
    case _ => None
  }

  /** translate_msr_index: the returned index and the value left in `*err`. */
  datatype MsrLookup = MsrLookup(index: nat, err: nat)

  function TranslateMsrIndex(r: Reg): (t: MsrLookup)
    ensures t.err == 0 <==> r.Msr?
    ensures t.err == 1 <==> !r.Msr?
    ensures !r.Msr? ==> t.index == 0
    ensures r.Msr? ==> MsrNameOf(t.index) == Some(r.msr)
  {
    match r
    case Msr(m) =>
      MsrIndexRoundTrip(m);
      MsrLookup(MsrIndex(m), 0)
    case _ => MsrLookup(0, 1)
  }

  /** Reading the table backwards after forwards gives the name back. */
  lemma MsrIndexRoundTrip(m: MsrName)
    ensures MsrNameOf(MsrIndex(m)) == Some(m)
  {
    match m
    case Efer =>
    case Star =>
    case Lstar =>
    case Cstar =>
    case SyscallMask =>
    case ShadowGsBase =>
    case TscAux =>
    case MtrrFix64k00000 =>
    case MtrrFix16k80000 =>
    case MtrrFix16kA0000 =>
    case MtrrFix4kC0000 =>
    case MtrrFix4kC8000 =>
    case MtrrFix4kD0000 =>
    case MtrrFix4kD8000 =>
    case MtrrFix4kE0000 =>
    case MtrrFix4kE8000 =>
    case MtrrFix4kF0000 =>
    case MtrrFix4kF8000 =>
    case MtrrDefType =>
    case Ia32Mc0Ctl =>
    case Ia32Mc0Status =>
    case Ia32Mc0Addr =>
    case Ia32Mc0Misc =>
    case Ia32Mc1Ctl =>
    case Ia32Mc0Ctl2 =>
    case AmdPatchlevel =>
    case Amd64TscRatio =>
    case Ia32P5McAddr =>
    case Ia32P5McType =>
    case Ia32Tsc =>
    case Ia32PlatformId =>
    case Ia32EblCrPoweron =>
    case Ia32EbcFrequencyId =>
    case Ia32FeatureControl =>
    case Ia32SysenterCs =>
    case Ia32SysenterEsp =>
    case Ia32SysenterEip =>
    case Ia32MiscEnable =>
    case Hypervisor =>
  }

  /** Every index the reverse reading accepts is the table's index for that name. */
  lemma MsrNameOfSound(index: nat, m: MsrName)
    requires MsrNameOf(index) == Some(m)
    ensures MsrIndex(m) == index
  {
    match m
    case Efer =>
    case Star =>
    case Lstar =>
    case Cstar =>
    case SyscallMask =>
    case ShadowGsBase =>
    case TscAux =>
    case MtrrFix64k00000 =>
    case MtrrFix16k80000 =>
    case MtrrFix16kA0000 =>
    case MtrrFix4kC0000 =>
    case MtrrFix4kC8000 =>
    case MtrrFix4kD0000 =>
    case MtrrFix4kD8000 =>
    case MtrrFix4kE0000 =>
    case MtrrFix4kE8000 =>
    case MtrrFix4kF0000 =>
    case MtrrFix4kF8000 =>
    case MtrrDefType =>
    case Ia32Mc0Ctl =>
    case Ia32Mc0Status =>
    case Ia32Mc0Addr =>
    case Ia32Mc0Misc =>
    case Ia32Mc1Ctl =>
    case Ia32Mc0Ctl2 =>
    case AmdPatchlevel =>
    case Amd64TscRatio =>
    case Ia32P5McAddr =>
    case Ia32P5McType =>
    case Ia32Tsc =>
    case Ia32PlatformId =>
    case Ia32EblCrPoweron =>
    case Ia32EbcFrequencyId =>
    case Ia32FeatureControl =>
    case Ia32SysenterCs =>
    case Ia32SysenterEsp =>
    case Ia32SysenterEip =>
    case Ia32MiscEnable =>
    case Hypervisor =>
  }

  /** No two MSR names share an index, so a successful translation identifies the register. */
  lemma MsrIndexInjective(a: MsrName, b: MsrName)
    ensures MsrIndex(a) == MsrIndex(b) ==> a == b
  {
    MsrIndexRoundTrip(a);
    MsrIndexRoundTrip(b);
  }

  /**
   * MSR_IA32_P5_MC_ADDR translates to 0, the same value an unknown register
   * yields, so only `err` tells success from failure.
   */
  lemma ZeroIndexIsAmbiguous(code: nat)
    ensures TranslateMsrIndex(Msr(Ia32P5McAddr)).index == TranslateMsrIndex(OtherReg(code)).index
    ensures TranslateMsrIndex(Msr(Ia32P5McAddr)).err != TranslateMsrIndex(OtherReg(code)).err
  {
  }

  /** The two MSRs requested when a single register is read: entry 0 is EFER, entry 1 is STAR. */
  function SingleReadMsrs(): (indices: seq<nat>)
    ensures |indices| == 2
    ensures MsrNameOf(indices[0]) == Some(Efer) && MsrNameOf(indices[1]) == Some(Star)
  {
    [TranslateMsrIndex(Msr(Efer)).index, TranslateMsrIndex(Msr(Star)).index]
  }

  /**
   * The register selection of a single-register read: which field of the
   * fetched records holds `reg`; `msrData` holds the values of
   * SingleReadMsrs(), in that order. None is "not implemented".
   */
  function ReadRegister(reg: Reg, regs: KvmRegs, sregs: KvmSregs, msrData: seq<u64>): Option<u64>
    requires |msrData| == 2
  {
    match reg
    case Gpr(Rax) => Some(regs.rax)
    case Gpr(Rbx) => Some(regs.rbx)
    case Gpr(Rcx) => Some(regs.rcx)
    case Gpr(Rdx) => Some(regs.rdx)
    case Gpr(Rbp) => Some(regs.rbp)
    case Gpr(Rsi) => Some(regs.rsi)
    case Gpr(Rdi) => Some(regs.rdi)
    case Gpr(Rsp) => Some(regs.rsp)
    case Gpr(R8) => Some(regs.r8)
    case Gpr(R9) => Some(regs.r9)
    case Gpr(R10) => Some(regs.r10)
    case Gpr(R11) => Some(regs.r11)
    case Gpr(R12) => Some(regs.r12)
    case Gpr(R13) => Some(regs.r13)
    case Gpr(R14) => Some(regs.r14)
    case Gpr(R15) => Some(regs.r15)
    case Gpr(Rip) => Some(regs.rip)
    case Gpr(Rflags) => Some(regs.rflags)
    case Cr0 => Some(sregs.cr0)
    case Cr2 => Some(sregs.cr2)
    case Cr3 => Some(sregs.cr3)
    case Cr4 => Some(sregs.cr4)
    case FsBase => Some(sregs.fsBase)
    case GsBase => Some(sregs.gsBase)
    case Msr(Efer) => Some(msrData[0])
    case Msr(Star) => Some(msrData[1])
    case _ => None
  }

  /** A single-register read succeeds exactly for the GPRs, CR0/2/3/4, FS/GS base, EFER and STAR. */
  lemma ReadRegisterDomain(reg: Reg, regs: KvmRegs, sregs: KvmSregs, msrData: seq<u64>)
    requires |msrData| == 2
    ensures ReadRegister(reg, regs, sregs, msrData).Some? <==>
      (reg.Gpr? || reg in {Cr0, Cr2, Cr3, Cr4, FsBase, GsBase, Msr(Efer), Msr(Star)})
  {
    match reg
    case Gpr(g) =>
      match g {
        case Rax => case Rbx => case Rcx => case Rdx => case Rbp => case Rsi =>
        case Rdi => case Rsp => case R8 => case R9 => case R10 => case R11 =>
        case R12 => case R13 => case R14 => case R15 => case Rip => case Rflags =>
      }
    case Msr(m) =>
    case _ =>
  }

  /**
   * The register switch of a single-register write: the fetched record with
   * the named general-purpose register replaced, or None for any register
   * that is not in the general-purpose record.
   */
  function WriteGpr(regs: KvmRegs, reg: Reg, value: u64): (r: Option<KvmRegs>)
    ensures r.Some? <==> reg.Gpr?
  {
    match reg
    case Gpr(Rax) => Some(regs.(rax := value))
    case Gpr(Rbx) => Some(regs.(rbx := value))
    case Gpr(Rcx) => Some(regs.(rcx := value))
    case Gpr(Rdx) => Some(regs.(rdx := value))
    case Gpr(Rsi) => Some(regs.(rsi := value))
    case Gpr(Rdi) => Some(regs.(rdi := value))
    case Gpr(Rsp) => Some(regs.(rsp := value))
    case Gpr(Rbp) => Some(regs.(rbp := value))
    case Gpr(R8) => Some(regs.(r8 := value))
    case Gpr(R9) => Some(regs.(r9 := value))
    case Gpr(R10) => Some(regs.(r10 := value))
    case Gpr(R11) => Some(regs.(r11 := value))
    case Gpr(R12) => Some(regs.(r12 := value))
    case Gpr(R13) => Some(regs.(r13 := value))
    case Gpr(R14) => Some(regs.(r14 := value))
    case Gpr(R15) => Some(regs.(r15 := value))
    case Gpr(Rip) => Some(regs.(rip := value))
    case Gpr(Rflags) => Some(regs.(rflags := value))
    case _ => None
  }

  /**
   * Reading any register after writing general-purpose register `g` gives
   * the written value for `g` and the old value for every other register:
   * the write replaces exactly one field.
   */
  lemma WriteThenRead(regs: KvmRegs, sregs: KvmSregs, msrData: seq<u64>, g: GprName, other: Reg, value: u64)
    requires |msrData| == 2
    ensures WriteGpr(regs, Gpr(g), value).Some?
    ensures ReadRegister(other, WriteGpr(regs, Gpr(g), value).value, sregs, msrData) ==
      if other == Gpr(g) then Some(value) else ReadRegister(other, regs, sregs, msrData)
  {
    match g {
      case Rax => case Rbx => case Rcx => case Rdx => case Rbp => case Rsi =>
      case Rdi => case Rsp => case R8 => case R9 => case R10 => case R11 =>
      case R12 => case R13 => case R14 => case R15 => case Rip => case Rflags =>
    }
  }
}
