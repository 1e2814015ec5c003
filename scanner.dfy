/**
 * The robust pattern scanner: an ordered list of byte signatures per target,
 * each with an offset and an optional validator, searched first-match-wins,
 * and the two validators the candidate tables use.
 */
module Scanner {
  import opened HostMemory

  /** One token of a byte signature: a literal byte or a `?` wildcard. */
  datatype PatternByte = Lit(value: Byte) | Any

  type Pattern = seq<PatternByte>

  /** The validators a candidate can carry; NoValidator is an empty std::function. */
  datatype Validator = NoValidator | BaseCtrlPointer | FunctionPrologue

  datatype PatternCandidate = PatternCandidate(
    pattern: Pattern,
    description: string,
    offset: I32,
    validator: Validator)

  /**
   * The host as one scan sees it: its memory, and the byte-signature
   * matcher over its image (0 when the pattern is not found). The matcher's
   * own search is not part of this model; `find` stands for whatever it
   * returns for a pattern and an offset.
   */
  datatype Host = Host(mem: Memory, find: (Pattern, int) -> Addr)

  /** The bytes at a are readable over the whole pattern and equal its literals. */
  ghost predicate MatchesAt(mem: Memory, a: int, p: Pattern)
  {
    forall i :: 0 <= i < |p| ==>
      match p[i]
      case Lit(b) => mem.ByteAt(a + i) == Some(b)
      case Any => mem.Mapped(a + i)
  }

  /**
   * The assumption every statement about the candidate tables rests on: a
   * nonzero result of the matcher at offset 0 is an address where the
   * pattern's bytes are.
   */
  ghost predicate Sound(h: Host)
  {
    forall p: Pattern :: h.find(p, 0) != 0 ==> MatchesAt(h.mem, h.find(p, 0), p)
  }

  /** Lowest and highest value the base-controller validator takes for a pointer. */
  const MIN_POINTER: int := 0x10000
  const MAX_POINTER: int := 0x7FFF_FFFF_FFFF

  /** The slot a `mov reg, [rip+disp32]` at a refers to: a + disp32(a+3) + 7. */
  function BaseCtrlSlot(mem: Memory, a: Addr): (r: Option<Addr>)
    ensures r.Some? <==> mem.Readable(a + 3, 4)
    ensures r.Some? ==> r.value == Wrap64(a + mem.ReadI32(a + 3).value + 7)
  {
    Rel32Target(mem, a + 3)
  }

  /**
   * The base-controller check as a flat conjunction: the displacement and
   * the slot it names can be read, the pointer stored there lies in
   * [MIN_POINTER, MAX_POINTER], and VirtualQuery reports its region
   * committed with a read-only or read-write protection bit.
   */
  predicate PlausibleBaseCtrl(mem: Memory, a: Addr)
  {
    mem.Readable(a + 3, 4) &&
    var slot := Wrap64(a + mem.ReadI32(a + 3).value + 7);
    mem.Readable(slot, 8) &&
    var v := mem.ReadU64(slot).value;
    MIN_POINTER <= v <= MAX_POINTER && mem.Query(v).Some? &&
    mem.Query(v).value.state == MEM_COMMIT &&
    (mem.Query(v).value.protect & PAGE_READONLY != 0 || mem.Query(v).value.protect & PAGE_READWRITE != 0)
  }

  /**
   * validate_base_ctrl_pattern: decode the slot, read the pointer stored
   * there, require it in [MIN_POINTER, MAX_POINTER] and its region
   * committed with a read-only or read-write protection bit. Every faulting
   * read rejects.
   */
  predicate ValidateBaseCtrlPattern(mem: Memory, a: Addr)
  {
    match BaseCtrlSlot(mem, a)
    case None => false
    case Some(slot) =>
      match mem.ReadU64(slot)
      case None => false
      case Some(v) =>
        if v < MIN_POINTER || v > MAX_POINTER then false
        else
          match mem.Query(v)
          case None => false
          case Some(region) =>
            region.state == MEM_COMMIT &&
            (region.protect & PAGE_READONLY != 0 || region.protect & PAGE_READWRITE != 0)
  }

  /** The validator accepts exactly the plausible addresses, in both directions. */
  lemma BaseCtrlValidatorIff(mem: Memory, a: Addr)
    ensures ValidateBaseCtrlPattern(mem, a) <==> PlausibleBaseCtrl(mem, a)
  {
  }

  /** What an accepted base-controller address guarantees to its users. */
  lemma BaseCtrlAccepted(mem: Memory, a: Addr)
    requires ValidateBaseCtrlPattern(mem, a)
    ensures mem.Readable(a + 3, 4)
    ensures mem.Readable(BaseCtrlSlot(mem, a).value, 8)
    ensures var v := mem.ReadU64(BaseCtrlSlot(mem, a).value).value;
      MIN_POINTER <= v <= MAX_POINTER && mem.Query(v).Some? &&
      mem.Query(v).value.state == MEM_COMMIT &&
      (mem.Query(v).value.protect & PAGE_READONLY != 0 || mem.Query(v).value.protect & PAGE_READWRITE != 0)
  {
  }

  /**
   * validate_function_pattern: a `push rbp` (55) or a REX.W 89/83 (48 89,
   * 48 83) at a. The second byte is read only when the first is 48, and an
   * unreadable address is rejected.
   */
  function ValidateFunctionPattern(mem: Memory, a: Addr): (ok: bool)
    ensures ok <==>
      mem.ByteAt(a) == Some(0x55) ||
      (mem.ByteAt(a) == Some(0x48) &&
       (mem.ByteAt(a + 1) == Some(0x89) || mem.ByteAt(a + 1) == Some(0x83)))
    ensures !mem.Mapped(a) ==> !ok
  {
    match mem.ByteAt(a)
    case None => false
    case Some(b0) =>
      if b0 == 0x55 then true
      else if b0 == 0x48 then
        match mem.ByteAt(a + 1)
        case None => false
        case Some(b1) => b1 == 0x89 || b1 == 0x83
      else false
  }

  predicate Accepts(v: Validator, mem: Memory, a: Addr)
  {
    match v
    case NoValidator => true
    case BaseCtrlPointer => ValidateBaseCtrlPattern(mem, a)
    case FunctionPrologue => ValidateFunctionPattern(mem, a)
  }

  /** The matcher's result for a candidate. */
  function Found(h: Host, c: PatternCandidate): Addr
  {
    h.find(c.pattern, c.offset)
  }

  /** A candidate matched (nonzero) and its validator, if any, accepts the match. */
  predicate Accepted(h: Host, c: PatternCandidate)
  {
    Found(h, c) != 0 && Accepts(c.validator, h.mem, Found(h, c))
  }

  /** The first-match-wins search, as a function of the candidate list. */
  function Scan(h: Host, cands: seq<PatternCandidate>): Addr
  {
    if cands == [] then 0
    else if Accepted(h, cands[0]) then Found(h, cands[0])
    else Scan(h, cands[1..])
  }

  /** Scan returns the matcher's result of the first accepted candidate. */
  lemma {:induction false} ScanFindsFirst(h: Host, cands: seq<PatternCandidate>, k: nat)
    requires k < |cands| && Accepted(h, cands[k])
    requires forall j :: 0 <= j < k ==> !Accepted(h, cands[j])
    ensures Scan(h, cands) == Found(h, cands[k]) != 0
  {
    if k > 0 {
      assert !Accepted(h, cands[0]);
      ScanFindsFirst(h, cands[1..], k - 1);
    }
  }

  /** Scan returns 0 exactly when no candidate is accepted (so [] gives 0). */
  lemma {:induction false} ScanZeroIff(h: Host, cands: seq<PatternCandidate>)
    ensures Scan(h, cands) == 0 <==> forall k :: 0 <= k < |cands| ==> !Accepted(h, cands[k])
  {
    if cands != [] {
      ScanZeroIff(h, cands[1..]);
      if !Accepted(h, cands[0]) {
        forall k | 0 <= k < |cands| && !Accepted(h, cands[k])
          ensures k == 0 || !Accepted(h, cands[1..][k - 1])
        {
        }
      }
    }
  }

  /** A nonzero Scan result is a candidate's match that its validator accepted. */
  lemma {:induction false} ScanResultAccepted(h: Host, cands: seq<PatternCandidate>)
    ensures Scan(h, cands) != 0 ==>
      exists k :: 0 <= k < |cands| && Accepted(h, cands[k]) && Scan(h, cands) == Found(h, cands[k])
  {
    if cands != [] && !Accepted(h, cands[0]) {
      ScanResultAccepted(h, cands[1..]);
      if Scan(h, cands) != 0 {
        var k :| 0 <= k < |cands[1..]| && Accepted(h, cands[1..][k]) && Scan(h, cands) == Found(h, cands[1..][k]);
        assert cands[k + 1] == cands[1..][k];
      }
    }
  }

  /** A nonzero Scan result is the matcher's result for one of the candidates. */
  lemma ScanResultFound(h: Host, cands: seq<PatternCandidate>) returns (k: nat)
    requires Scan(h, cands) != 0
    ensures k < |cands| && Scan(h, cands) == Found(h, cands[k]) && Accepted(h, cands[k])
  {
    ScanResultAccepted(h, cands);
    k :| 0 <= k < |cands| && Accepted(h, cands[k]) && Scan(h, cands) == Found(h, cands[k]);
  }

  /** When every candidate carries validator v, a nonzero result passed v. */
  lemma ScanResultValidated(h: Host, cands: seq<PatternCandidate>, v: Validator)
    requires forall k :: 0 <= k < |cands| ==> cands[k].validator == v
    ensures Scan(h, cands) != 0 ==> Accepts(v, h.mem, Scan(h, cands))
  {
    ScanResultAccepted(h, cands);
  }

  /** A candidate without a validator wins on any nonzero match once the earlier ones failed. */
  lemma UnvalidatedCandidateWins(h: Host, cands: seq<PatternCandidate>, k: nat)
    requires k < |cands| && cands[k].validator == NoValidator && Found(h, cands[k]) != 0
    requires forall j :: 0 <= j < k ==> !Accepted(h, cands[j])
    ensures Scan(h, cands) == Found(h, cands[k])
  {
    ScanFindsFirst(h, cands, k);
  }

  /**
   * find_with_fallbacks: try the candidates in array order and return the
   * first nonzero match its validator accepts, or 0 when all fail.
   */
  method FindWithFallbacks(h: Host, cands: seq<PatternCandidate>) returns (r: Addr)
    ensures r == 0 <==> forall k :: 0 <= k < |cands| ==> !Accepted(h, cands[k])
    ensures r != 0 ==> exists k :: 0 <= k < |cands| && Accepted(h, cands[k]) && r == Found(h, cands[k]) &&
                                   forall j :: 0 <= j < k ==> !Accepted(h, cands[j])
    ensures r == Scan(h, cands)
  {
    var i := 0;
    while i < |cands|
      invariant 0 <= i <= |cands|
      invariant forall j :: 0 <= j < i ==> !Accepted(h, cands[j])
    {
      var candidate := cands[i];
      var address := h.find(candidate.pattern, candidate.offset);
      if address == 0 {
        i := i + 1;
        continue;
      }
      if candidate.validator != NoValidator && !Accepts(candidate.validator, h.mem, address) {
        i := i + 1;
        continue;
      }
      ScanFindsFirst(h, cands, i);
      return address;
    }
    ScanZeroIff(h, cands);
    return 0;
  }
}
