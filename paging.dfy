/*
 * Address arithmetic of the KVM driver: splitting a guest-physical address
 * into frame number and page offset, turning a frame number back into an
 * address with a 64-bit left shift, and the memory-size report that scales
 * the hypervisor's kilobyte figure to bytes in 64-bit arithmetic.
 */
module Paging {
  import opened KvmTypes

  function Pow2(k: nat): (p: nat)
    ensures p >= 1
  {
    if k == 0 then 1 else 2 * Pow2(k - 1)
  }

  lemma {:induction false} Pow2Add(a: nat, b: nat)
    ensures Pow2(a + b) == Pow2(a) * Pow2(b)
  {
    if a > 0 {
      Pow2Add(a - 1, b);
      assert Pow2(a + b) == 2 * Pow2(a - 1 + b);
    }
  }

  lemma WordLimitIsPow2()
    ensures Pow2(12) == PAGE_SIZE
    ensures Pow2(64) == WORD_LIMIT
  {
    assert Pow2(2) == 4;
    assert Pow2(4) == 16 by { Pow2Add(2, 2); }
    assert Pow2(8) == 256 by { Pow2Add(4, 4); }
    assert Pow2(12) == 4096 by { Pow2Add(8, 4); }
    assert Pow2(24) == 0x100_0000 by { Pow2Add(12, 12); }
    assert Pow2(48) == 0x1_0000_0000_0000 by { Pow2Add(24, 24); }
    assert Pow2(60) == 0x1000_0000_0000_0000 by { Pow2Add(48, 12); }
    assert Pow2(64) == WORD_LIMIT by { Pow2Add(60, 4); }
  }

  /** `gpa >> 12`: the frame number of a guest-physical address. */
  function Gfn(gpa: u64): (gfn: u64)
    ensures gfn * PAGE_SIZE <= gpa < gfn * PAGE_SIZE + PAGE_SIZE
  {
    gpa / PAGE_SIZE
  }

  /** `gpa & VMI_BIT_MASK(0, 11)`: the offset inside the page. */
  function PageOffset(gpa: u64): (offset: u64)
    ensures offset < PAGE_SIZE
    ensures Gfn(gpa) * PAGE_SIZE + offset == gpa
  {
    gpa % PAGE_SIZE
  }

  /**
   * `page << shift` on a 64-bit unsigned value: bits shifted past bit 63
   * are lost. The driver uses it with its page shift to turn a frame number
   * into the address of the frame's first byte.
   */
  function ShiftLeft(page: u64, shift: nat): (addr: u64)
    requires shift < 64
  {
    (page * Pow2(shift)) % WORD_LIMIT
  }

  lemma MulAtLeast(x: int, p: int)
    requires x >= 1 && p > 0
    ensures x * p >= p
  {
  }

  /** Division by a positive number is determined by quotient and remainder. */
  lemma DivModUnique(a: int, p: int, q: int, r: int)
    requires p > 0 && 0 <= r < p && a == q * p + r
    ensures a / p == q && a % p == r
  {
    var q', r' := a / p, a % p;
    assert a == q' * p + r';
    assert (q - q') * p == r' - r;
    if q > q' {
      MulAtLeast(q - q', p);
    } else if q < q' {
      MulAtLeast(q' - q, p);
    }
  }

  /** Reducing a multiple of p modulo a multiple of p leaves a multiple of p. */
  lemma ModKeepsMultiple(k: nat, p: nat, q: nat)
    requires p > 0 && q > 0
    ensures (k * p) % (q * p) % p == 0
  {
    var w := q * p;
    var m := k * p;
    var d := m / w;
    var r := m % w;
    assert m == d * w + r;
    assert d * w == (d * q) * p;
    assert r == (k - d * q) * p;
    assert k - d * q >= 0 by {
      if k - d * q < 0 {
        MulAtLeast(d * q - k, p);
      }
    }
    DivModUnique(r, p, k - d * q, 0);
  }

  /** The shifted address always starts a page of size 2^shift, even when bits were lost. */
  lemma ShiftLeftAligned(page: u64, shift: nat)
    requires shift < 64
    ensures ShiftLeft(page, shift) % Pow2(shift) == 0
  {
    WordLimitIsPow2();
    Pow2Add(64 - shift, shift);
    ModKeepsMultiple(page, Pow2(shift), Pow2(64 - shift));
  }

  /** A multiple of p below w is unchanged by reduction modulo w and divides back. */
  lemma SmallMultiple(k: nat, p: nat, w: nat)
    requires p > 0 && k * p < w
    ensures (k * p) % w == k * p
    ensures (k * p) / p == k
  {
    DivModUnique(k * p, w, 0, k * p);
    DivModUnique(k * p, p, k, 0);
  }

  /** Multiplying by a positive number keeps a strict order. */
  lemma MulStrict(a: nat, b: nat, p: nat)
    requires a < b && p > 0
    ensures a * p < b * p
  {
    MulAtLeast(b - a, p);
    assert (b - a) * p == b * p - a * p;
  }

  /** A frame number below 2^(64 - shift) survives the shift and comes back by dividing. */
  lemma ShiftLeftRoundTrip(page: u64, shift: nat)
    requires shift < 64
    requires page < Pow2(64 - shift)
    ensures ShiftLeft(page, shift) == page * Pow2(shift)
    ensures ShiftLeft(page, shift) / Pow2(shift) == page
  {
    var p := Pow2(shift);
    var q := Pow2(64 - shift);
    assert q * p == WORD_LIMIT by {
      WordLimitIsPow2();
      Pow2Add(64 - shift, shift);
    }
    MulStrict(page, q, p);
    SmallMultiple(page, p, WORD_LIMIT);
  }

  /** The driver's frame-to-address conversion and Gfn/PageOffset undo each other. */
  lemma FrameAddressRoundTrip(gfn: u64)
    requires gfn * PAGE_SIZE < WORD_LIMIT
    ensures Gfn(ShiftLeft(gfn, 12)) == gfn
    ensures PageOffset(ShiftLeft(gfn, 12)) == 0
  {
    WordLimitIsPow2();
    Pow2Add(12, 52);
    ShiftLeftRoundTrip(gfn, 12);
  }

  /** The memory-size report: `maxMem * 1024` in 64-bit unsigned arithmetic. */
  function KbToBytes(kb: u64): u64 {
    (kb * 1024) % WORD_LIMIT
  }

  /** A size below 2^54 KB is scaled exactly; any result is a whole number of kilobytes. */
  lemma KbToBytesExact(kb: u64)
    ensures KbToBytes(kb) % 1024 == 0
    ensures kb * 1024 < WORD_LIMIT ==> KbToBytes(kb) == kb * 1024 && KbToBytes(kb) / 1024 == kb
  {
    var m := kb * 1024;
    var d := m / WORD_LIMIT;
    assert m == d * WORD_LIMIT + KbToBytes(kb);
    assert WORD_LIMIT == 1024 * 0x40_0000_0000_0000;
    assert KbToBytes(kb) == 1024 * (kb - d * 0x40_0000_0000_0000);
  }

  /** kvm_get_memsize's two outputs: allocated RAM size and highest physical address. */
  datatype MemSize = MemSize(allocatedRamSize: u64, maximumPhysicalAddress: u64)

  /**
   * kvm_get_memsize: `maxMemKb` is the hypervisor's domain-info answer, None
   * when that query fails.
   */
  function GetMemsize(maxMemKb: Option<u64>): (r: Option<MemSize>)
    ensures r.Some? <==> maxMemKb.Some?
    ensures r.Some? ==> r.value.allocatedRamSize == r.value.maximumPhysicalAddress
    ensures r.Some? && maxMemKb.value * 1024 < WORD_LIMIT ==>
      r.value.allocatedRamSize == maxMemKb.value * 1024
  {
    match maxMemKb
    case None => None
    case Some(kb) =>
      KbToBytesExact(kb);
      Some(MemSize(KbToBytes(kb), KbToBytes(kb)))
  }
}
