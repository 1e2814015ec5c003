/**
 * A snapshot of the host process's address space as the plugin sees it:
 * the bytes it can read (everything else faults), the region information
 * VirtualQuery reports, and the little-endian decoding of the integers the
 * plugin reads from it.
 */
module HostMemory {

  datatype Option<+T> = None | Some(value: T)

  const TWO_POW_32: int := 0x1_0000_0000
  const TWO_POW_64: int := 0x1_0000_0000_0000_0000

  /** A 64-bit virtual address (uint64_t in C++). */
  type Addr = x: int | 0 <= x < 0x1_0000_0000_0000_0000

  type Byte = b: int | 0 <= b < 256

  /** The value range of uint32_t. */
  type U32 = x: int | 0 <= x < 0x1_0000_0000

  /** The value range of int32_t. */
  type I32 = x: int | -0x8000_0000 <= x < 0x8000_0000

  /** MEM_COMMIT and the two page-protection bits the validator accepts. */
  const MEM_COMMIT: bv32 := 0x1000
  const PAGE_READONLY: bv32 := 0x02
  const PAGE_READWRITE: bv32 := 0x04

  /** What VirtualQuery reports about the region holding an address. */
  datatype Region = Region(state: bv32, protect: bv32)

  /** uint64_t arithmetic: the sum reduced modulo 2^64. */
  function Wrap64(x: int): (r: Addr)
    ensures 0 <= x < TWO_POW_64 ==> r == x
    ensures (r - x) % TWO_POW_64 == 0
  {
    x % TWO_POW_64
  }

  /** Conversion of a signed value into a uint32_t field. */
  function ToU32(x: int): (r: U32)
    ensures 0 <= x < TWO_POW_32 ==> r == x
    ensures x < 0 && -TWO_POW_32 <= x ==> r == x + TWO_POW_32
  {
    x % TWO_POW_32
  }

  function Pow256(n: nat): (r: nat)
    ensures r >= 1
  {
    if n == 0 then 1 else 256 * Pow256(n - 1)
  }

  /** The unsigned value of a little-endian byte string. */
  function LeValue(bs: seq<Byte>): nat
  {
    if |bs| == 0 then 0 else bs[0] + 256 * LeValue(bs[1..])
  }

  lemma {:induction false} LeValueBound(bs: seq<Byte>)
    ensures LeValue(bs) < Pow256(|bs|)
  {
    if |bs| > 0 {
      LeValueBound(bs[1..]);
    }
  }

  /** Two's-complement reinterpretation of four bytes (int32_t). */
  function ToI32(u: U32): (r: I32)
    ensures ToU32(r) == u
    ensures u < 0x8000_0000 ==> r == u
  {
    if u < 0x8000_0000 then u else u - TWO_POW_32
  }

  datatype Memory = Memory(bytes: map<Addr, Byte>, regions: map<Addr, Region>) {

    /** A read of the byte at x succeeds (no access violation). */
    predicate Mapped(x: int)
    {
      0 <= x < TWO_POW_64 && x in bytes
    }

    function ByteAt(x: int): (r: Option<Byte>)
      ensures r.Some? <==> Mapped(x)
    {
      if Mapped(x) then Some(bytes[x]) else None
    }

    /** The n bytes from a on are readable: what IsBadReadPtr(a, n) denies. */
    predicate Readable(a: int, n: nat)
    {
      forall x :: a <= x < a + n ==> Mapped(x)
    }

    function Bytes(a: int, n: nat): (r: seq<Byte>)
      requires Readable(a, n)
      ensures |r| == n
      ensures forall k :: 0 <= k < n ==> ByteAt(a + k) == Some(r[k])
    {
      seq(n, k requires 0 <= k < n && Mapped(a + k) => bytes[a + k])
    }

    /** `*reinterpret_cast<int32_t*>(a)`, or None when it would fault. */
    function ReadI32(a: int): (r: Option<I32>)
      ensures r.Some? <==> Readable(a, 4)
    {
      if Readable(a, 4) then
        var bs := Bytes(a, 4);
        LeValueBound(bs);
        assert Pow256(4) == TWO_POW_32;
        Some(ToI32(LeValue(bs)))
      else None
    }

    /** `*reinterpret_cast<uint64_t*>(a)`, or None when it would fault. */
    function ReadU64(a: int): (r: Option<Addr>)
      ensures r.Some? <==> Readable(a, 8)
    {
      if Readable(a, 8) then
        var bs := Bytes(a, 8);
        LeValueBound(bs);
        assert Pow256(8) == TWO_POW_64;
        Some(LeValue(bs))
      else None
    }

    /** VirtualQuery(v): None when it returns 0. */
    function Query(v: Addr): Option<Region>
    {
      if v in regions then Some(regions[v]) else None
    }
  }

  /**
   * Target of a 32-bit relative operand stored at `at`: the address just
   * past the operand plus its sign-extended value, in uint64_t arithmetic
   * (RIP-relative addressing and rel32 calls, Intel 64 and IA-32 SDM
   * Vol. 2A section 2.2.1.6). None when the operand cannot be read.
   */
  function Rel32Target(mem: Memory, at: int): (r: Option<Addr>)
    ensures r.Some? <==> mem.Readable(at, 4)
    ensures r.Some? ==> r.value == Wrap64(at + 4 + mem.ReadI32(at).value)
  {
    match mem.ReadI32(at)
    case None => None
    case Some(d) => Some(Wrap64(at + 4 + d))
  }
}
