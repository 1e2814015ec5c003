/**
 * The core controller: the self-healing cache that locates the base
 * controller and the game actor inside it, the trailer-connectivity table
 * the telemetry callback maintains, and the two overlay toggles.
 */
module Core {
  import opened HostMemory
  import opened Scanner
  import opened Patterns

  /** Number of `trailer.N.connected` channels the controller tracks. */
  const MAX_TRAILERS: nat := 10

  /** The two cached values: where the base-controller pointer lives, and the actor's offset in it. */
  datatype ActorCache = ActorCache(ptrAddress: Addr, actorOffset: U32)

  /** A lookup's new cache, its result (0 is null), and whether it ran the pattern search. */
  datatype Lookup = Lookup(cache: ActorCache, result: Addr, scanned: bool)

  /** The cached slot, when set, can be dereferenced: get_base_ctrl_instance reads it without a guard. */
  predicate SlotMapped(c: ActorCache, mem: Memory)
  {
    c.ptrAddress != 0 ==> mem.Readable(c.ptrAddress, 8)
  }

  /** The offset operand at +14 of a successful match can be read: get_base_ctrl_instance reads it without a guard. */
  predicate OffsetOperandMapped(h: Host)
  {
    var a := Scan(h, BASE_CTRL_PATTERNS);
    a != 0 ==> h.mem.Readable(a + 14, 4)
  }

  /** The pointer stored in the cached slot (a readable slot). */
  function CachedPointer(c: ActorCache, mem: Memory): Addr
    requires c.ptrAddress != 0 && SlotMapped(c, mem)
  {
    mem.ReadU64(c.ptrAddress).value
  }

  /**
   * get_base_ctrl_instance: return the cached pointer when it is non-null;
   * otherwise clear the cache, search once, and on success decode the slot
   * (match + disp32(match+3) + 7) and the actor offset (int32 at match+14
   * stored as uint32), and return the pointer in the new slot.
   */
  function ResolveBaseCtrl(c: ActorCache, h: Host): (l: Lookup)
    requires SlotMapped(c, h.mem) && OffsetOperandMapped(h)
    ensures SlotMapped(l.cache, h.mem)
    ensures l.scanned <==> c.ptrAddress == 0 || CachedPointer(c, h.mem) == 0
    ensures l.scanned ==> (l.result == 0 <==> Scan(h, BASE_CTRL_PATTERNS) == 0)
    ensures l.scanned && l.result != 0 ==> MIN_POINTER <= l.result <= MAX_POINTER
  {
    if c.ptrAddress != 0 && CachedPointer(c, h.mem) != 0 then
      Lookup(c, CachedPointer(c, h.mem), false)
    else
      var a := Scan(h, BASE_CTRL_PATTERNS);
      if a == 0 then
        Lookup(c.(ptrAddress := 0), 0, true)
      else
        ScanResultValidated(h, BASE_CTRL_PATTERNS, BaseCtrlPointer);
        BaseCtrlAccepted(h.mem, a);
        var slot := BaseCtrlSlot(h.mem, a).value;
        Lookup(ActorCache(slot, ToU32(h.mem.ReadI32(a + 14).value)), h.mem.ReadU64(slot).value, true)
  }

  /** Fast path: a non-null cached pointer is returned as is, without a search and without touching the cache. */
  lemma BaseCtrlFastPath(c: ActorCache, h: Host)
    requires SlotMapped(c, h.mem) && OffsetOperandMapped(h)
    requires c.ptrAddress != 0 && CachedPointer(c, h.mem) != 0
    ensures ResolveBaseCtrl(c, h) == Lookup(c, CachedPointer(c, h.mem), false)
  {
  }

  /** Stale or empty cache: exactly one search; on failure null is returned and the slot address is 0. */
  lemma BaseCtrlRescanOnFailure(c: ActorCache, h: Host)
    requires SlotMapped(c, h.mem) && OffsetOperandMapped(h)
    requires c.ptrAddress == 0 || CachedPointer(c, h.mem) == 0
    requires Scan(h, BASE_CTRL_PATTERNS) == 0
    ensures ResolveBaseCtrl(c, h) == Lookup(c.(ptrAddress := 0), 0, true)
  {
  }

  /**
   * Successful rescan: the new slot is the one the validator decoded and
   * accepted, the offset is the int32 at +14 as uint32, and the result is the
   * pointer in the new slot, which the validator found plausible.
   */
  lemma BaseCtrlRescanDecodes(c: ActorCache, h: Host)
    requires SlotMapped(c, h.mem) && OffsetOperandMapped(h)
    requires c.ptrAddress == 0 || CachedPointer(c, h.mem) == 0
    requires Scan(h, BASE_CTRL_PATTERNS) != 0
    ensures var a := Scan(h, BASE_CTRL_PATTERNS);
      var l := ResolveBaseCtrl(c, h);
      ValidateBaseCtrlPattern(h.mem, a) &&
      l.cache.ptrAddress == Wrap64(a + h.mem.ReadI32(a + 3).value + 7) &&
      l.cache.actorOffset == ToU32(h.mem.ReadI32(a + 14).value) &&
      l.result == h.mem.ReadU64(l.cache.ptrAddress).value &&
      MIN_POINTER <= l.result <= MAX_POINTER
  {
    ScanResultValidated(h, BASE_CTRL_PATTERNS, BaseCtrlPointer);
  }

  /** A second lookup in the same memory takes the fast path and returns the same pointer. */
  lemma BaseCtrlResolvedIsStable(c: ActorCache, h: Host)
    requires SlotMapped(c, h.mem) && OffsetOperandMapped(h) && !h.mem.Mapped(0)
    requires ResolveBaseCtrl(c, h).result != 0
    ensures var l := ResolveBaseCtrl(c, h);
      ResolveBaseCtrl(l.cache, h) == Lookup(l.cache, l.result, false)
  {
    var l := ResolveBaseCtrl(c, h);
    if l.scanned {
      BaseCtrlRescanDecodes(c, h);
      var slot := l.cache.ptrAddress;
      assert h.mem.Readable(slot, 8);
      assert h.mem.Mapped(slot);
      assert slot != 0;
      assert CachedPointer(l.cache, h.mem) == l.result;
    }
  }

  /** The offsets probed, in order, when the cached actor offset fails. */
  const POTENTIAL_OFFSETS: seq<U32> := [0x2e8, 0x2f0, 0x300, 0x310, 0x2d8, 0x2c8, 0x320, 0x330]

  /**
   * The actor test get_game_actor applies to base + off: the slot readable
   * for 8 bytes, the actor non-null and readable for 0x100 bytes, and the
   * actor's first word strictly between MIN_POINTER and MAX_POINTER. The
   * actor when the test passes, 0 otherwise.
   */
  function ActorAtOffset(mem: Memory, base: Addr, off: U32): (actor: Addr)
    ensures actor != 0 ==>
      mem.Readable(Wrap64(base + off), 8) && actor == mem.ReadU64(Wrap64(base + off)).value &&
      mem.Readable(actor, 0x100) && MIN_POINTER < mem.ReadU64(actor).value < MAX_POINTER
    ensures mem.Readable(Wrap64(base + off), 8) ==>
      var candidate := mem.ReadU64(Wrap64(base + off)).value;
      (candidate != 0 && mem.Readable(candidate, 0x100) && MIN_POINTER < mem.ReadU64(candidate).value < MAX_POINTER
       ==> actor == candidate)
  {
    var slot := Wrap64(base + off);
    if !mem.Readable(slot, 8) then 0
    else
      var actor := mem.ReadU64(slot).value;
      if actor == 0 || !mem.Readable(actor, 0x100) then 0
      else
        var first := mem.ReadU64(actor).value;
        if MIN_POINTER < first < MAX_POINTER then actor else 0
  }

  /** Index of the first offset whose actor test passes; |offsets| when none does. */
  function FirstValidIndex(mem: Memory, base: Addr, offsets: seq<U32>): (k: nat)
    ensures k <= |offsets|
    ensures k < |offsets| ==> ActorAtOffset(mem, base, offsets[k]) != 0
    ensures forall j :: 0 <= j < k ==> ActorAtOffset(mem, base, offsets[j]) == 0
  {
    if offsets == [] then 0
    else if ActorAtOffset(mem, base, offsets[0]) != 0 then 0
    else 1 + FirstValidIndex(mem, base, offsets[1..])
  }

  /**
   * The actor half of get_game_actor, after the base controller b was
   * resolved: a null base gives b unchanged; a nonzero cached offset is kept
   * only if its actor test passes; otherwise the offset is cleared and
   * POTENTIAL_OFFSETS probed in order, caching the first that passes.
   */
  function SettleActor(b: Lookup, mem: Memory): (l: Lookup)
    ensures l.scanned == b.scanned && l.cache.ptrAddress == b.cache.ptrAddress
    ensures b.result == 0 ==> l == b
    ensures b.result != 0 && b.cache.actorOffset != 0 && ActorAtOffset(mem, b.result, b.cache.actorOffset) != 0 ==>
      l == Lookup(b.cache, ActorAtOffset(mem, b.result, b.cache.actorOffset), b.scanned)
    ensures l.result != 0 ==> l.cache.actorOffset != 0 && ActorAtOffset(mem, b.result, l.cache.actorOffset) == l.result
    ensures b.result != 0 && l.result == 0 ==> l.cache.actorOffset == 0
  {
    if b.result == 0 then b
    else
      var off := b.cache.actorOffset;
      if off != 0 && ActorAtOffset(mem, b.result, off) != 0 then
        Lookup(b.cache, ActorAtOffset(mem, b.result, off), b.scanned)
      else
        var k := FirstValidIndex(mem, b.result, POTENTIAL_OFFSETS);
        if k == |POTENTIAL_OFFSETS| then
          Lookup(b.cache.(actorOffset := 0), 0, b.scanned)
        else
          Lookup(b.cache.(actorOffset := POTENTIAL_OFFSETS[k]),
                 ActorAtOffset(mem, b.result, POTENTIAL_OFFSETS[k]), b.scanned)
  }

  /** get_game_actor: resolve the base controller, then settle the actor offset. */
  function ResolveGameActor(c: ActorCache, h: Host): (l: Lookup)
    requires SlotMapped(c, h.mem) && OffsetOperandMapped(h)
    ensures SlotMapped(l.cache, h.mem)
  {
    SettleActor(ResolveBaseCtrl(c, h), h.mem)
  }

  /** FirstValidIndex is characterised by its two properties: it is the only k that has both. */
  lemma {:induction false} FirstValidIndexIs(mem: Memory, base: Addr, offsets: seq<U32>, k: nat)
    requires k <= |offsets|
    requires forall j :: 0 <= j < k ==> ActorAtOffset(mem, base, offsets[j]) == 0
    requires k < |offsets| ==> ActorAtOffset(mem, base, offsets[k]) != 0
    ensures FirstValidIndex(mem, base, offsets) == k
  {
    if k > 0 {
      assert ActorAtOffset(mem, base, offsets[0]) == 0;
      forall j | 0 <= j < k - 1
        ensures ActorAtOffset(mem, base, offsets[1..][j]) == 0
      {
        assert offsets[1..][j] == offsets[j + 1];
      }
      if k - 1 < |offsets[1..]| {
        assert offsets[1..][k - 1] == offsets[k];
      }
      FirstValidIndexIs(mem, base, offsets[1..], k - 1);
    }
  }

  /**
   * When the cached offset is 0 or fails its test, the offset cached is the
   * first of POTENTIAL_OFFSETS in table order that passes, or 0 (with a null
   * result) when none does.
   */
  lemma GameActorProbeOrder(c: ActorCache, h: Host, k: nat)
    requires SlotMapped(c, h.mem) && OffsetOperandMapped(h)
    requires var b := ResolveBaseCtrl(c, h);
      b.result != 0 &&
      (b.cache.actorOffset == 0 || ActorAtOffset(h.mem, b.result, b.cache.actorOffset) == 0)
    requires k <= |POTENTIAL_OFFSETS|
    requires forall j :: 0 <= j < k ==> ActorAtOffset(h.mem, ResolveBaseCtrl(c, h).result, POTENTIAL_OFFSETS[j]) == 0
    requires k < |POTENTIAL_OFFSETS| ==> ActorAtOffset(h.mem, ResolveBaseCtrl(c, h).result, POTENTIAL_OFFSETS[k]) != 0
    ensures var l := ResolveGameActor(c, h);
      if k == |POTENTIAL_OFFSETS| then l.result == 0 && l.cache.actorOffset == 0
      else l.cache.actorOffset == POTENTIAL_OFFSETS[k] && l.result != 0
  {
    FirstValidIndexIs(h.mem, ResolveBaseCtrl(c, h).result, POTENTIAL_OFFSETS, k);
  }

  /** A layout where only offset 0x2f0 passes makes the probe settle on 0x2f0. */
  lemma GameActorConvergesOnOnlyValidOffset(c: ActorCache, h: Host)
    requires SlotMapped(c, h.mem) && OffsetOperandMapped(h)
    requires var b := ResolveBaseCtrl(c, h);
      b.result != 0 &&
      (b.cache.actorOffset == 0 || ActorAtOffset(h.mem, b.result, b.cache.actorOffset) == 0) &&
      forall j :: 0 <= j < |POTENTIAL_OFFSETS| ==>
        (ActorAtOffset(h.mem, b.result, POTENTIAL_OFFSETS[j]) != 0 <==> POTENTIAL_OFFSETS[j] == 0x2f0)
    ensures ResolveGameActor(c, h).cache.actorOffset == 0x2f0
  {
    var b := ResolveBaseCtrl(c, h);
    assert POTENTIAL_OFFSETS[0] == 0x2e8 && POTENTIAL_OFFSETS[1] == 0x2f0;
    GameActorProbeOrder(c, h, 1);
  }

  /** A second get_game_actor in the same memory searches nothing and returns the same actor. */
  lemma GameActorResolvedIsStable(c: ActorCache, h: Host)
    requires SlotMapped(c, h.mem) && OffsetOperandMapped(h) && !h.mem.Mapped(0)
    requires ResolveGameActor(c, h).result != 0
    ensures var l := ResolveGameActor(c, h);
      ResolveGameActor(l.cache, h) == Lookup(l.cache, l.result, false)
  {
    var b := ResolveBaseCtrl(c, h);
    var l := ResolveGameActor(c, h);
    BaseCtrlResolvedIsStable(c, h);
    assert ResolveBaseCtrl(l.cache, h) == Lookup(l.cache, b.result, false);
  }

  // ---- trailer.N.connected channel names ----

  const CHANNEL_PREFIX: string := "trailer."
  const CHANNEL_SUFFIX: string := ".connected"

  predicate IsDigit(c: char)
  {
    '0' <= c <= '9'
  }

  /** isspace in the C locale: space and \t \n \v \f \r. */
  predicate IsSpace(c: char)
  {
    c == ' ' || 9 <= c as int <= 13
  }

  function DigitChar(d: nat): (c: char)
    requires d < 10
    ensures IsDigit(c) && c as int - '0' as int == d
  {
    ('0' as int + d) as char
  }

  /** Decimal text of n, as `%d` prints it. */
  function NatToString(n: nat): (s: string)
    ensures |s| >= 1
    ensures forall i :: 0 <= i < |s| ==> IsDigit(s[i])
  {
    if n < 10 then [DigitChar(n)] else NatToString(n / 10) + [DigitChar(n % 10)]
  }

  /** Value of a run of decimal digits. */
  function DigitsValue(ds: string): nat
    requires forall i :: 0 <= i < |ds| ==> IsDigit(ds[i])
  {
    if |ds| == 0 then 0
    else
      assert IsDigit(ds[|ds| - 1]);
      DigitsValue(ds[..|ds| - 1]) * 10 + (ds[|ds| - 1] as int - '0' as int)
  }

  /** Length of the leading run of digits. */
  function DigitRun(s: string): (k: nat)
    ensures k <= |s|
    ensures forall i :: 0 <= i < k ==> IsDigit(s[i])
    ensures k < |s| ==> !IsDigit(s[k])
  {
    if |s| == 0 || !IsDigit(s[0]) then 0 else 1 + DigitRun(s[1..])
  }

  function SkipSpaces(s: string): (t: string)
    ensures |t| <= |s| && t == s[|s| - |t|..]
    ensures |t| > 0 ==> !IsSpace(t[0])
  {
    if |s| > 0 && IsSpace(s[0]) then SkipSpaces(s[1..]) else s
  }

  /** One `%d` conversion at the start of s: spaces, an optional sign, at least one digit. */
  function ScanDecimal(s: string): (r: Option<int>)
    ensures s == [] ==> r.None?
    ensures |s| > 0 && !IsSpace(s[0]) && !IsDigit(s[0]) && s[0] != '-' && s[0] != '+' ==> r.None?
  {
    var t := SkipSpaces(s);
    var negative := |t| > 0 && t[0] == '-';
    var u := if |t| > 0 && (t[0] == '-' || t[0] == '+') then t[1..] else t;
    var k := DigitRun(u);
    if k == 0 then None
    else
      var magnitude: int := DigitsValue(u[..k]);
      Some(if negative then -magnitude else magnitude)
  }

  /**
   * sscanf(name, "trailer.%d.connected", &n) == 1: the literal prefix and one
   * converted integer. What follows the integer is not checked: sscanf counts
   * conversions, and none follows the `%d`.
   */
  function ParseTrailerChannel(name: string): (r: Option<int>)
    ensures !(|name| >= |CHANNEL_PREFIX| && name[..|CHANNEL_PREFIX|] == CHANNEL_PREFIX) ==> r.None?
    ensures |name| == |CHANNEL_PREFIX| ==> r.None?
  {
    if |name| >= |CHANNEL_PREFIX| && name[..|CHANNEL_PREFIX|] == CHANNEL_PREFIX
    then ScanDecimal(name[|CHANNEL_PREFIX|..])
    else None
  }

  /** The channel name registered for trailer n. */
  function ChannelName(n: nat): string
  {
    CHANNEL_PREFIX + NatToString(n) + CHANNEL_SUFFIX
  }

  lemma {:induction false} NatToStringValue(n: nat)
    ensures DigitsValue(NatToString(n)) == n
  {
    if n >= 10 {
      var s := NatToString(n);
      NatToStringValue(n / 10);
      assert s[..|s| - 1] == NatToString(n / 10);
    }
  }

  lemma {:induction false} DigitRunOfDigits(ds: string, rest: string)
    requires forall i :: 0 <= i < |ds| ==> IsDigit(ds[i])
    requires rest == [] || !IsDigit(rest[0])
    ensures DigitRun(ds + rest) == |ds|
  {
    if |ds| > 0 {
      DigitRunOfDigits(ds[1..], rest);
      assert (ds + rest)[1..] == ds[1..] + rest;
    }
  }

  /** Leading white space is all `%d` skips; text starting with anything else is kept whole. */
  lemma SkipSpacesAtNonSpace(s: string)
    requires |s| > 0 && !IsSpace(s[0])
    ensures SkipSpaces(s) == s
  {
  }

  /** `%d` on text that starts with a digit converts the leading run of digits. */
  lemma ScanDecimalAtDigit(s: string)
    requires |s| > 0 && IsDigit(s[0])
    ensures ScanDecimal(s) == Some(DigitsValue(s[..DigitRun(s)]))
  {
    SkipSpacesAtNonSpace(s);
    assert s[0] != '-' && s[0] != '+';
    assert DigitRun(s) == 1 + DigitRun(s[1..]);
  }

  /** `%d` over a run of digits followed by a non-digit converts exactly that run. */
  lemma ScanDecimalOfDigits(digits: string, rest: string)
    requires |digits| > 0 && forall i :: 0 <= i < |digits| ==> IsDigit(digits[i])
    requires rest == [] || !IsDigit(rest[0])
    ensures ScanDecimal(digits + rest) == Some(DigitsValue(digits))
  {
    var s := digits + rest;
    assert s[0] == digits[0];
    ScanDecimalAtDigit(s);
    DigitRunOfDigits(digits, rest);
    assert s[..|digits|] == digits;
  }

  /** A name that starts `trailer.<n>` parses to n whatever non-digit text follows. */
  lemma ParseTrailerChannelDigits(n: nat, rest: string)
    requires rest == [] || !IsDigit(rest[0])
    ensures ParseTrailerChannel(CHANNEL_PREFIX + NatToString(n) + rest) == Some(n)
  {
    var digits := NatToString(n);
    var name := CHANNEL_PREFIX + digits + rest;
    assert name == CHANNEL_PREFIX + (digits + rest);
    assert name[..|CHANNEL_PREFIX|] == CHANNEL_PREFIX;
    assert name[|CHANNEL_PREFIX|..] == digits + rest;
    ScanDecimalOfDigits(digits, rest);
    NatToStringValue(n);
  }

  /** Every registered channel name parses back to its trailer index. */
  lemma ChannelNameRoundTrip(n: nat)
    ensures ParseTrailerChannel(ChannelName(n)) == Some(n)
  {
    assert ChannelName(n) == CHANNEL_PREFIX + NatToString(n) + CHANNEL_SUFFIX;
    ParseTrailerChannelDigits(n, CHANNEL_SUFFIX);
  }

  /** A telemetry value: a bool, or a value of some other type. */
  datatype ScsValue = BoolValue(b: bool) | OtherValue

  /** The flag a value sets: its bool, and false for any other type. */
  function ConnectedFlag(v: ScsValue): bool
  {
    v.BoolValue? && v.b
  }

  /** The slot a channel update writes: a parsed index in [0, MAX_TRAILERS), or None. */
  function UpdatedSlot(name: string): (r: Option<nat>)
    ensures r.Some? ==> r.value < MAX_TRAILERS && ParseTrailerChannel(name) == Some(r.value as int)
    ensures r.None? ==> match ParseTrailerChannel(name)
      case None => true
      case Some(n) => n < 0 || n >= MAX_TRAILERS
  {
    match ParseTrailerChannel(name)
    case None => None
    case Some(n) => if 0 <= n < MAX_TRAILERS then Some(n) else None
  }

  /** Every channel registered for a tracked trailer updates that trailer's slot. */
  lemma RegisteredChannelsHitTheirSlot(n: nat)
    requires n < MAX_TRAILERS
    ensures UpdatedSlot(ChannelName(n)) == Some(n)
  {
    ChannelNameRoundTrip(n);
  }

  /**
   * The text after the index is not compared with ".connected": any name
   * `trailer.<n>` followed by a non-digit updates slot n when n is in range,
   * and nothing otherwise.
   */
  lemma SuffixIsNotChecked(n: nat, rest: string)
    requires rest == [] || !IsDigit(rest[0])
    ensures UpdatedSlot(CHANNEL_PREFIX + NatToString(n) + rest)
      == if n < MAX_TRAILERS then Some(n) else None
  {
    ParseTrailerChannelDigits(n, rest);
  }

  /** Number of true flags. */
  function CountTrue(s: seq<bool>): (n: nat)
    ensures n <= |s|
  {
    if |s| == 0 then 0 else CountTrue(s[..|s| - 1]) + (if s[|s| - 1] then 1 else 0)
  }

  /** Writing one flag changes the count by that flag's change only. */
  lemma {:induction false} CountTrueUpdate(s: seq<bool>, i: nat, b: bool)
    requires i < |s|
    ensures CountTrue(s[i := b]) == CountTrue(s) - (if s[i] then 1 else 0) + (if b then 1 else 0)
  {
    var t := s[i := b];
    if i < |s| - 1 {
      CountTrueUpdate(s[..|s| - 1], i, b);
      assert t[..|t| - 1] == s[..|s| - 1][i := b];
    } else {
      assert t[..|t| - 1] == s[..|s| - 1];
    }
  }

  const WM_KEYDOWN: nat := 0x0100
  const WM_MOUSEMOVE: nat := 0x0200
  const VK_INSERT: nat := 0x2D
  const VK_DELETE: nat := 0x2E

  class Controller {
    var baseCtrlInstancePtrAddress: Addr
    var gameActorOffsetInBaseCtrl: U32
    const trailerConnected: array<bool>
    var connectedTrailerCount: int
    var disableInGameMouse: bool
    var renderUi: bool
    /** Number of base-controller pattern searches run so far. */
    ghost var scans: nat

    function Cache(): ActorCache
      reads this
    {
      ActorCache(baseCtrlInstancePtrAddress, gameActorOffsetInBaseCtrl)
    }

    /** The table has MAX_TRAILERS slots and the count is the number of true slots. */
    ghost predicate Valid()
      reads this, trailerConnected
    {
      trailerConnected.Length == MAX_TRAILERS &&
      connectedTrailerCount == CountTrue(trailerConnected[..])
    }

    constructor ()
      ensures Valid() && fresh(trailerConnected)
      ensures Cache() == ActorCache(0, 0) && scans == 0
      ensures forall i :: 0 <= i < MAX_TRAILERS ==> !trailerConnected[i]
      ensures connectedTrailerCount == 0 && !disableInGameMouse && !renderUi
    {
      baseCtrlInstancePtrAddress := 0;
      gameActorOffsetInBaseCtrl := 0;
      trailerConnected := new bool[MAX_TRAILERS](_ => false);
      connectedTrailerCount := 0;
      disableInGameMouse := false;
      renderUi := false;
      scans := 0;
      new;
      ghost var s := trailerConnected[..];
      assert forall k :: 0 <= k <= MAX_TRAILERS ==> CountTrue(s[..k]) == 0 by {
        forall k | 0 <= k <= MAX_TRAILERS ensures CountTrue(s[..k]) == 0 {
          AllFalseCountsZero(s[..k]);
        }
      }
      assert s[..MAX_TRAILERS] == s;
    }

    static lemma {:induction false} AllFalseCountsZero(s: seq<bool>)
      requires forall i :: 0 <= i < |s| ==> !s[i]
      ensures CountTrue(s) == 0
    {
      if |s| > 0 {
        AllFalseCountsZero(s[..|s| - 1]);
      }
    }

    /** get_base_ctrl_instance on a memory snapshot. */
    method GetBaseCtrlInstance(h: Host) returns (r: Addr)
      requires SlotMapped(Cache(), h.mem) && OffsetOperandMapped(h)
      modifies this`baseCtrlInstancePtrAddress, this`gameActorOffsetInBaseCtrl, this`scans
      ensures var l := ResolveBaseCtrl(old(Cache()), h);
        Cache() == l.cache && r == l.result && scans == old(scans) + (if l.scanned then 1 else 0)
    {
      ghost var c := Cache();
      if baseCtrlInstancePtrAddress != 0 {
        var baseCtrl := h.mem.ReadU64(baseCtrlInstancePtrAddress).value;
        if baseCtrl != 0 {
          BaseCtrlFastPath(c, h);
          return baseCtrl;
        }
        baseCtrlInstancePtrAddress := 0;
      }
      r := RescanBaseCtrl(h, c);
    }

    /** The search half of get_base_ctrl_instance, once the cached slot is empty or holds null. */
    method RescanBaseCtrl(h: Host, ghost c: ActorCache) returns (r: Addr)
      requires SlotMapped(c, h.mem) && OffsetOperandMapped(h)
      requires c.ptrAddress == 0 || CachedPointer(c, h.mem) == 0
      requires Cache() == c.(ptrAddress := 0)
      modifies this`baseCtrlInstancePtrAddress, this`gameActorOffsetInBaseCtrl, this`scans
      ensures var l := ResolveBaseCtrl(c, h);
        Cache() == l.cache && r == l.result && scans == old(scans) + 1
    {
      var addr := FindWithFallbacks(h, BASE_CTRL_PATTERNS);
      scans := scans + 1;
      if addr == 0 {
        BaseCtrlRescanOnFailure(c, h);
        return 0;
      }
      BaseCtrlRescanDecodes(c, h);
      ghost var l := ResolveBaseCtrl(c, h);
      var slot := BaseCtrlSlot(h.mem, addr).value;
      var operand := addr as int + 14;
      assert slot == l.cache.ptrAddress;
      baseCtrlInstancePtrAddress := slot;
      gameActorOffsetInBaseCtrl := ToU32(h.mem.ReadI32(operand).value);
      r := h.mem.ReadU64(slot).value;
    }

    /** get_game_actor on a memory snapshot. */
    method GetGameActor(h: Host) returns (r: Addr)
      requires SlotMapped(Cache(), h.mem) && OffsetOperandMapped(h)
      modifies this`baseCtrlInstancePtrAddress, this`gameActorOffsetInBaseCtrl, this`scans
      ensures var l := ResolveGameActor(old(Cache()), h);
        Cache() == l.cache && r == l.result && scans == old(scans) + (if l.scanned then 1 else 0)
    {
      ghost var b := ResolveBaseCtrl(old(Cache()), h);
      var baseCtrl := GetBaseCtrlInstance(h);
      if baseCtrl == 0 {
        return 0;
      }
      r := SettleGameActor(h.mem, baseCtrl, b);
    }

    /**
     * The rest of get_game_actor once the base controller b is non-null:
     * revalidate the cached offset, or clear it and probe POTENTIAL_OFFSETS.
     */
    method SettleGameActor(mem: Memory, baseCtrl: Addr, ghost b: Lookup) returns (r: Addr)
      requires baseCtrl != 0 && b.result == baseCtrl && Cache() == b.cache
      modifies this`gameActorOffsetInBaseCtrl
      ensures Cache() == SettleActor(b, mem).cache && r == SettleActor(b, mem).result
    {
      if gameActorOffsetInBaseCtrl != 0 {
        var actor := ActorAtOffset(mem, baseCtrl, gameActorOffsetInBaseCtrl);
        if actor != 0 {
          return actor;
        }
        gameActorOffsetInBaseCtrl := 0;
      }
      var idx := 0;
      while idx < |POTENTIAL_OFFSETS|
        invariant 0 <= idx <= |POTENTIAL_OFFSETS|
        invariant forall j :: 0 <= j < idx ==> ActorAtOffset(mem, baseCtrl, POTENTIAL_OFFSETS[j]) == 0
        invariant Cache() == b.cache.(actorOffset := 0)
      {
        var offset := POTENTIAL_OFFSETS[idx];
        var actor := ActorAtOffset(mem, baseCtrl, offset);
        if actor != 0 {
          gameActorOffsetInBaseCtrl := offset;
          FirstValidIndexIs(mem, baseCtrl, POTENTIAL_OFFSETS, idx);
          return actor;
        }
        idx := idx + 1;
      }
      FirstValidIndexIs(mem, baseCtrl, POTENTIAL_OFFSETS, idx);
      return 0;
    }

    /**
     * trailer_connected_callback: ignore the update when the context, value
     * or name is null or the name yields no slot below MAX_TRAILERS;
     * otherwise write the slot (false for a non-bool value) and recount.
     */
    static method TrailerConnectedCallback(name: Option<string>, index: U32, value: Option<ScsValue>, context: Controller?)
      requires context != null ==> context.Valid()
      modifies if context != null then {context, context.trailerConnected} else {}
      ensures context != null ==> context.Valid()
      ensures context != null ==>
        context.trailerConnected[..] ==
          if name.Some? && value.Some? && UpdatedSlot(name.value).Some?
          then old(context.trailerConnected[..])[UpdatedSlot(name.value).value := ConnectedFlag(value.value)]
          else old(context.trailerConnected[..])
      ensures context != null ==> unchanged(context`baseCtrlInstancePtrAddress, context`gameActorOffsetInBaseCtrl,
                                            context`disableInGameMouse, context`renderUi, context`scans)
    {
      if context == null || value.None? || name.None? {
        return;
      }
      var trailerIndex := ParseTrailerChannel(name.value);
      if trailerIndex.None? || trailerIndex.value < 0 || trailerIndex.value >= MAX_TRAILERS {
        return;
      }
      var connected := if value.value.BoolValue? then value.value.b else false;
      context.trailerConnected[trailerIndex.value] := connected;
      var count := 0;
      var i := 0;
      while i < MAX_TRAILERS
        invariant 0 <= i <= MAX_TRAILERS
        invariant count == CountTrue(context.trailerConnected[..i])
      {
        assert context.trailerConnected[..i + 1][..i] == context.trailerConnected[..i];
        if context.trailerConnected[i] {
          count := count + 1;
        }
        i := i + 1;
      }
      assert context.trailerConnected[..MAX_TRAILERS] == context.trailerConnected[..];
      context.connectedTrailerCount := count;
    }

    /** toggle_ui. */
    method ToggleUi()
      modifies this`renderUi
      ensures renderUi == !old(renderUi)
    {
      renderUi := !renderUi;
    }

    /** toggle_input_hook, without the saved mouse position. */
    method ToggleInputHook()
      modifies this`disableInGameMouse
      ensures disableInGameMouse == !old(disableInGameMouse)
    {
      disableInGameMouse := !disableInGameMouse;
    }

    /**
     * on_wnd_proc: Insert toggles the input hook and Delete the overlay, both
     * consumed; a mouse move is consumed while the input hook is active;
     * everything else is consumed exactly when ImGui's handler consumes it.
     */
    method OnWndProc(umsg: nat, wparam: nat, imguiHandles: bool) returns (handled: bool)
      modifies this`disableInGameMouse, this`renderUi
      ensures disableInGameMouse == (old(disableInGameMouse) != (umsg == WM_KEYDOWN && wparam == VK_INSERT))
      ensures renderUi == (old(renderUi) != (umsg == WM_KEYDOWN && wparam == VK_DELETE))
      ensures handled ==
        if umsg == WM_KEYDOWN && (wparam == VK_INSERT || wparam == VK_DELETE) then true
        else if umsg == WM_MOUSEMOVE && old(disableInGameMouse) then true
        else imguiHandles
    {
      if umsg == WM_KEYDOWN {
        if wparam == VK_INSERT {
          ToggleInputHook();
          return true;
        }
        if wparam == VK_DELETE {
          ToggleUi();
          return true;
        }
      } else if umsg == WM_MOUSEMOVE {
        if disableInGameMouse {
          return true;
        }
      }
      return imguiHandles;
    }
  }
}
