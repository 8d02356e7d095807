/*
 * The two conversions between the generic memory-access masks and the
 * transport's native page-access bits: the observed access of a page fault,
 * and the native mask that a generic access request installs.
 */
module Access {
  import opened KvmTypes

  const NATIVE_RWX: bv8 := PAGE_ACCESS_R | PAGE_ACCESS_W | PAGE_ACCESS_X

  /**
   * out_access of a page-fault event: the generic R, W and X bits of the
   * native mode bits, starting from VMI_MEMACCESS_INVALID.
   */
  function OutAccess(mode: bv8): (out: bv8)
    ensures (out & MEMACCESS_R != 0) <==> (mode & PAGE_ACCESS_R != 0)
    ensures (out & MEMACCESS_W != 0) <==> (mode & PAGE_ACCESS_W != 0)
    ensures (out & MEMACCESS_X != 0) <==> (mode & PAGE_ACCESS_X != 0)
    ensures out & !MEMACCESS_RWX == 0
  {
    var r := if mode & PAGE_ACCESS_R != 0 then MEMACCESS_R else MEMACCESS_INVALID;
    var w := if mode & PAGE_ACCESS_W != 0 then MEMACCESS_W else MEMACCESS_INVALID;
    var x := if mode & PAGE_ACCESS_X != 0 then MEMACCESS_X else MEMACCESS_INVALID;
    r | w | x
  }

  /** The requests kvm_set_mem_access accepts. */
  predicate SupportedRequest(flag: bv8) {
    flag in {MEMACCESS_N, MEMACCESS_R, MEMACCESS_W, MEMACCESS_X, MEMACCESS_RW, MEMACCESS_WX, MEMACCESS_RWX}
  }

  /** The native bits a generic request names: R to native R, W to native W, X to native X. */
  function NamedNativeBits(flag: bv8): (bits: bv8)
    ensures bits & !NATIVE_RWX == 0
  {
    (if flag & MEMACCESS_R != 0 then PAGE_ACCESS_R else 0)
    | (if flag & MEMACCESS_W != 0 then PAGE_ACCESS_W else 0)
    | (if flag & MEMACCESS_X != 0 then PAGE_ACCESS_X else 0)
  }

  /**
   * The access-type switch of kvm_set_mem_access: the native mask to install,
   * computed from the page's original native mask, or None for a request
   * the driver rejects.
   */
  function NativeAccess(flag: bv8, orig: bv8): (r: Option<bv8>)
    ensures r.Some? <==> SupportedRequest(flag)
    ensures flag == MEMACCESS_N || flag == MEMACCESS_RWX ==> r == Some(0)
  {
    if flag == MEMACCESS_N then Some(0)
    else if flag == MEMACCESS_R then Some(orig & !PAGE_ACCESS_R)
    else if flag == MEMACCESS_W then Some(orig & !PAGE_ACCESS_W)
    else if flag == MEMACCESS_X then Some(orig & !PAGE_ACCESS_X)
    else if flag == MEMACCESS_RW then Some(orig & !(PAGE_ACCESS_R | PAGE_ACCESS_W))
    else if flag == MEMACCESS_WX then Some(orig & !(PAGE_ACCESS_W | PAGE_ACCESS_X))
    else if flag == MEMACCESS_RWX then Some(0)
    else None
  }

  /** For R, W, X, RW and WX the installed mask is the original with the named native bits cleared. */
  lemma NativeAccessMasksNamedBits(flag: bv8, orig: bv8)
    requires flag in {MEMACCESS_R, MEMACCESS_W, MEMACCESS_X, MEMACCESS_RW, MEMACCESS_WX}
    ensures NativeAccess(flag, orig) == Some(orig & !NamedNativeBits(flag))
  {
    if flag == MEMACCESS_R {
      assert NamedNativeBits(flag) == PAGE_ACCESS_R;
    } else if flag == MEMACCESS_W {
      assert NamedNativeBits(flag) == PAGE_ACCESS_W;
    } else if flag == MEMACCESS_X {
      assert NamedNativeBits(flag) == PAGE_ACCESS_X;
    } else if flag == MEMACCESS_RW {
      assert NamedNativeBits(flag) == PAGE_ACCESS_R | PAGE_ACCESS_W;
    } else {
      assert NamedNativeBits(flag) == PAGE_ACCESS_W | PAGE_ACCESS_X;
    }
  }

  /**
   * For R, W, X, RW and WX the installed mask keeps every bit of the original
   * mask except the named permissions, which it clears.
   */
  lemma NativeAccessClearsNamedBits(flag: bv8, orig: bv8, bit: bv8)
    requires flag in {MEMACCESS_R, MEMACCESS_W, MEMACCESS_X, MEMACCESS_RW, MEMACCESS_WX}
    requires bit in {PAGE_ACCESS_R, PAGE_ACCESS_W, PAGE_ACCESS_X}
    ensures NativeAccess(flag, orig).Some?
    ensures NativeAccess(flag, orig).value & bit != 0 <==>
      orig & bit != 0 && NamedNativeBits(flag) & bit == 0
    ensures NativeAccess(flag, orig).value & !NATIVE_RWX == orig & !NATIVE_RWX
  {
    NativeAccessMasksNamedBits(flag, orig);
  }

  /** VMI_MEMACCESS_N and VMI_MEMACCESS_RWX install the same native mask: no access at all. */
  lemma NoneAndAllCoincide(orig: bv8)
    ensures NativeAccess(MEMACCESS_N, orig) == NativeAccess(MEMACCESS_RWX, orig) == Some(0)
  {
  }

  /** RX is a valid generic mask but the driver has no case for it. */
  lemma ReadExecuteRejected(orig: bv8)
    ensures NativeAccess(MEMACCESS_RX, orig).None?
  {
  }
}
