/**
 * The four candidate tables, in priority order, and what their literal
 * and wildcard bytes imply: which entries can ever pass the prologue
 * validator, which positions are never fixed, which entry subsumes which.
 */
module Patterns {
  import opened HostMemory
  import opened Scanner

  const BASE_CTRL_PATTERNS: seq<PatternCandidate> := [
    PatternCandidate(
      [Lit(0x48), Lit(0x8b), Lit(0x05), Any, Any, Any, Any, Lit(0x48), Lit(0x8b), Lit(0x4b), Any,
       Lit(0x48), Lit(0x8b), Lit(0x80), Any, Any, Any, Any, Lit(0x48), Lit(0x8b), Lit(0xb9)],
      "Original pattern (pre-1.14)", 0, BaseCtrlPointer),
    PatternCandidate(
      [Lit(0x48), Lit(0x8b), Lit(0x05), Any, Any, Any, Any, Lit(0x48), Lit(0x8b), Lit(0x4f), Any,
       Lit(0x48), Lit(0x8b), Lit(0x80), Any, Any, Any, Any, Lit(0x48), Lit(0x8b), Lit(0xb8)],
      "Pattern variant 1 (potential 1.14)", 0, BaseCtrlPointer),
    PatternCandidate(
      [Lit(0x48), Lit(0x8b), Lit(0x0d), Any, Any, Any, Any, Lit(0x48), Lit(0x8b), Lit(0x4b), Any,
       Lit(0x48), Lit(0x8b), Lit(0x81), Any, Any, Any, Any, Lit(0x48), Lit(0x8b), Lit(0xb8)],
      "Pattern variant 2 (MOV RCX instead of RAX)", 0, BaseCtrlPointer),
    PatternCandidate(
      [Lit(0x48), Lit(0x8b), Any, Any, Any, Any, Any, Lit(0x48), Lit(0x8b), Any, Any,
       Lit(0x48), Lit(0x8b), Lit(0x80), Any, Any, Any, Any, Lit(0x48), Lit(0x8b)],
      "Relaxed pattern (more wildcards)", 0, BaseCtrlPointer)
  ]

  const SET_INDIVIDUAL_STEERING_PATTERNS: seq<PatternCandidate> := [
    PatternCandidate(
      [Lit(0x48), Lit(0x89), Lit(0x5c), Lit(0x24), Lit(0x08), Lit(0x48), Lit(0x89), Lit(0x74), Lit(0x24),
       Lit(0x10), Lit(0x57), Lit(0x48), Lit(0x83), Lit(0xec), Any, Lit(0x8b), Lit(0x41), Any, Lit(0x48),
       Lit(0x8b), Lit(0xd9), Lit(0x0f), Lit(0x29), Lit(0x74)],
      "Original pattern (pre-1.14)", 0, FunctionPrologue),
    PatternCandidate(
      [Lit(0x48), Lit(0x89), Lit(0x5c), Lit(0x24), Lit(0x08), Lit(0x48), Lit(0x89), Lit(0x74), Lit(0x24),
       Lit(0x10), Lit(0x57), Lit(0x48), Lit(0x83), Lit(0xec), Any, Lit(0x8b), Lit(0x41), Any, Lit(0x48),
       Lit(0x8b), Lit(0xda), Lit(0x0f), Lit(0x29), Lit(0x74)],
      "Pattern variant 1 (RBX->RDX change)", 0, FunctionPrologue),
    PatternCandidate(
      [Lit(0x48), Lit(0x89), Lit(0x5c), Lit(0x24), Lit(0x08), Lit(0x48), Lit(0x89), Lit(0x74), Lit(0x24),
       Lit(0x10), Lit(0x48), Lit(0x89), Lit(0x7c), Lit(0x24), Lit(0x18), Lit(0x41), Lit(0x56), Lit(0x48),
       Lit(0x83), Lit(0xec), Any, Lit(0x8b), Lit(0x41)],
      "Pattern variant 2 (additional register save)", 0, FunctionPrologue)
  ]

  const CRASH_FUNCTION_PATTERNS: seq<PatternCandidate> := [
    PatternCandidate(
      [Lit(0x48), Lit(0x85), Lit(0xd2), Lit(0x0f), Lit(0x84), Any, Any, Any, Any, Lit(0x48), Lit(0x89),
       Lit(0x74), Lit(0x24), Lit(0x18), Lit(0x57), Lit(0x48), Lit(0x83), Lit(0xec), Lit(0x40)],
      "Original pattern (pre-1.14)", 0, FunctionPrologue),
    PatternCandidate(
      [Lit(0x48), Lit(0x85), Lit(0xd2), Lit(0x0f), Lit(0x84), Any, Any, Any, Any, Lit(0x48), Lit(0x89),
       Lit(0x74), Lit(0x24), Lit(0x10), Lit(0x57), Lit(0x48), Lit(0x83), Lit(0xec), Lit(0x30)],
      "Pattern variant 1 (different stack allocation)", 0, FunctionPrologue),
    PatternCandidate(
      [Lit(0x48), Lit(0x85), Lit(0xd2), Lit(0x0f), Lit(0x84), Any, Any, Any, Any, Lit(0x48), Lit(0x89),
       Lit(0x6c), Lit(0x24), Lit(0x18), Lit(0x48), Lit(0x89), Lit(0x74), Lit(0x24), Lit(0x20)],
      "Pattern variant 2 (different register saves)", 0, FunctionPrologue)
  ]

  const CONNECT_SLAVE_PATTERNS: seq<PatternCandidate> := [
    PatternCandidate(
      [Lit(0x40), Lit(0x53), Lit(0x48), Lit(0x83), Lit(0xec), Lit(0x60), Lit(0x48), Lit(0x83), Lit(0xb9),
       Any, Any, Any, Any, Lit(0x00), Lit(0x48), Lit(0x8b), Lit(0xd9), Lit(0x0f), Lit(0x84), Any, Any,
       Any, Any, Lit(0x48), Lit(0x8d), Lit(0x54), Lit(0x24), Any, Lit(0xe8)],
      "Original pattern (pre-1.14)", 0, FunctionPrologue),
    PatternCandidate(
      [Lit(0x40), Lit(0x53), Lit(0x48), Lit(0x83), Lit(0xec), Lit(0x50), Lit(0x48), Lit(0x83), Lit(0xb9),
       Any, Any, Any, Any, Lit(0x00), Lit(0x48), Lit(0x8b), Lit(0xd9), Lit(0x0f), Lit(0x84), Any, Any,
       Any, Any, Lit(0x48), Lit(0x8d), Lit(0x54), Lit(0x24), Any, Lit(0xe8)],
      "Pattern variant 1 (different stack allocation)", 0, FunctionPrologue),
    PatternCandidate(
      [Lit(0x48), Lit(0x89), Lit(0x5c), Lit(0x24), Lit(0x08), Lit(0x48), Lit(0x83), Lit(0xec), Lit(0x60),
       Lit(0x48), Lit(0x83), Lit(0xb9), Any, Any, Any, Any, Lit(0x00), Lit(0x48), Lit(0x8b), Lit(0xd9),
       Lit(0x0f), Lit(0x84), Any, Any, Any, Any],
      "Pattern variant 2 (different prologue)", 0, FunctionPrologue)
  ]

  /** A match makes every covered byte readable and every literal equal. */
  lemma MatchedByte(mem: Memory, a: Addr, p: Pattern, i: int)
    requires MatchesAt(mem, a, p) && 0 <= i < |p|
    ensures mem.Mapped(a + i)
    ensures p[i].Lit? ==> mem.ByteAt(a + i) == Some(p[i].value)
  {
    match p[i]
    case Lit(b) =>
    case Any =>
  }

  /** Every pattern's first two tokens are literals b0 b1. */
  predicate StartsWith(p: Pattern, b0: Byte, b1: Byte)
  {
    |p| >= 2 && p[0] == Lit(b0) && p[1] == Lit(b1)
  }

  /** Where a pattern starting b0 b1 matches, validate_function_pattern sees b0 b1. */
  lemma PrologueOfMatch(mem: Memory, a: Addr, p: Pattern, b0: Byte, b1: Byte)
    requires StartsWith(p, b0, b1) && MatchesAt(mem, a, p)
    ensures ValidateFunctionPattern(mem, a) <==> b0 == 0x55 || (b0 == 0x48 && (b1 == 0x89 || b1 == 0x83))
  {
    MatchedByte(mem, a, p, 0);
    MatchedByte(mem, a, p, 1);
  }

  /** Every crash-guard candidate starts 48 85, so the prologue check rejects its match. */
  lemma CrashPatternsNeverValidate(mem: Memory, a: Addr, k: nat)
    requires k < |CRASH_FUNCTION_PATTERNS| && MatchesAt(mem, a, CRASH_FUNCTION_PATTERNS[k].pattern)
    ensures CRASH_FUNCTION_PATTERNS[k].offset == 0
    ensures !ValidateFunctionPattern(mem, a)
  {
    PrologueOfMatch(mem, a, CRASH_FUNCTION_PATTERNS[k].pattern, 0x48, 0x85);
  }

  /** The first two connect-slave candidates start 40 53 and are rejected; the third (48 89) passes. */
  lemma ConnectSlavePrologues(mem: Memory, a: Addr, k: nat)
    requires k < |CONNECT_SLAVE_PATTERNS| && MatchesAt(mem, a, CONNECT_SLAVE_PATTERNS[k].pattern)
    ensures CONNECT_SLAVE_PATTERNS[k].offset == 0
    ensures ValidateFunctionPattern(mem, a) <==> k == 2
  {
    if k < 2 {
      PrologueOfMatch(mem, a, CONNECT_SLAVE_PATTERNS[k].pattern, 0x40, 0x53);
    } else {
      PrologueOfMatch(mem, a, CONNECT_SLAVE_PATTERNS[k].pattern, 0x48, 0x89);
    }
  }

  /** Every steering-setter candidate starts 48 89, so the prologue check accepts its match. */
  lemma SteeringPatternsValidate(mem: Memory, a: Addr, k: nat)
    requires k < |SET_INDIVIDUAL_STEERING_PATTERNS| && MatchesAt(mem, a, SET_INDIVIDUAL_STEERING_PATTERNS[k].pattern)
    ensures SET_INDIVIDUAL_STEERING_PATTERNS[k].offset == 0
    ensures ValidateFunctionPattern(mem, a)
  {
    PrologueOfMatch(mem, a, SET_INDIVIDUAL_STEERING_PATTERNS[k].pattern, 0x48, 0x89);
  }

  /** With a sound matcher the crash-guard search always fails. */
  lemma CrashScanFails(h: Host)
    requires Sound(h)
    ensures Scan(h, CRASH_FUNCTION_PATTERNS) == 0
  {
    forall k | 0 <= k < |CRASH_FUNCTION_PATTERNS|
      ensures !Accepted(h, CRASH_FUNCTION_PATTERNS[k])
    {
      var a := Found(h, CRASH_FUNCTION_PATTERNS[k]);
      if a != 0 {
        CrashPatternsNeverValidate(h.mem, a, k);
      }
    }
    ScanZeroIff(h, CRASH_FUNCTION_PATTERNS);
  }

  /** With a sound matcher the connect-slave search returns exactly the third candidate's match. */
  lemma ConnectSlaveScanIsThird(h: Host)
    requires Sound(h)
    ensures Scan(h, CONNECT_SLAVE_PATTERNS) == h.find(CONNECT_SLAVE_PATTERNS[2].pattern, 0)
  {
    var cands := CONNECT_SLAVE_PATTERNS;
    forall k | 0 <= k < |cands|
      ensures Accepted(h, cands[k]) <==> k == 2 && Found(h, cands[k]) != 0
    {
      var a := Found(h, cands[k]);
      if a != 0 {
        ConnectSlavePrologues(h.mem, a, k);
      }
    }
    if Found(h, cands[2]) != 0 {
      ScanFindsFirst(h, cands, 2);
    } else {
      ScanZeroIff(h, cands);
    }
  }

  /** With a sound matcher the steering search returns the first nonzero match in table order. */
  lemma SteeringScanIsFirstMatch(h: Host)
    requires Sound(h)
    ensures var f := (k: nat) requires k < 3 => Found(h, SET_INDIVIDUAL_STEERING_PATTERNS[k]);
      Scan(h, SET_INDIVIDUAL_STEERING_PATTERNS) ==
        if f(0) != 0 then f(0) else if f(1) != 0 then f(1) else f(2)
  {
    var cands := SET_INDIVIDUAL_STEERING_PATTERNS;
    forall k | 0 <= k < |cands|
      ensures Accepted(h, cands[k]) <==> Found(h, cands[k]) != 0
    {
      var a := Found(h, cands[k]);
      if a != 0 {
        SteeringPatternsValidate(h.mem, a, k);
      }
    }
    if Found(h, cands[0]) != 0 {
      ScanFindsFirst(h, cands, 0);
    } else if Found(h, cands[1]) != 0 {
      ScanFindsFirst(h, cands, 1);
    } else if Found(h, cands[2]) != 0 {
      ScanFindsFirst(h, cands, 2);
    } else {
      ScanZeroIff(h, cands);
    }
  }

  /**
   * The rel32 operand read at +29 follows an e8 (call) only in the two
   * connect-slave candidates that can never validate; the one that can is
   * 26 bytes long and fixes nothing from +26 on.
   */
  lemma ConnectSlaveCallOperand()
    ensures forall k :: 0 <= k < 2 ==>
      |CONNECT_SLAVE_PATTERNS[k].pattern| == 29 && CONNECT_SLAVE_PATTERNS[k].pattern[28] == Lit(0xe8)
    ensures |CONNECT_SLAVE_PATTERNS[2].pattern| == 26
  {
  }

  /** Positions where the two base-controller displacements sit. */
  predicate DisplacementPosition(i: int)
  {
    3 <= i <= 6 || 14 <= i <= 17
  }

  /** In every base-controller candidate, bytes 3-6 and 14-17 are wildcards. */
  lemma BaseCtrlDisplacementsAreWildcards(k: nat, i: int)
    requires k < |BASE_CTRL_PATTERNS| && DisplacementPosition(i)
    ensures BASE_CTRL_PATTERNS[k].offset == 0 && BASE_CTRL_PATTERNS[k].validator == BaseCtrlPointer
    ensures i < |BASE_CTRL_PATTERNS[k].pattern| && BASE_CTRL_PATTERNS[k].pattern[i] == Any
  {
  }

  /** Memory with the byte at x replaced by b. */
  function WithByte(mem: Memory, x: Addr, b: Byte): Memory
  {
    mem.(bytes := mem.bytes[x := b])
  }

  /** Rewriting a displacement byte never turns a base-controller match into a mismatch. */
  lemma DisplacementNotFixedByPattern(mem: Memory, a: Addr, k: nat, i: int, b: Byte)
    requires k < |BASE_CTRL_PATTERNS| && DisplacementPosition(i) && a + i < TWO_POW_64
    requires MatchesAt(mem, a, BASE_CTRL_PATTERNS[k].pattern)
    ensures MatchesAt(WithByte(mem, a + i, b), a, BASE_CTRL_PATTERNS[k].pattern)
  {
    var p := BASE_CTRL_PATTERNS[k].pattern;
    var mem' := WithByte(mem, a + i, b);
    BaseCtrlDisplacementsAreWildcards(k, i);
    forall j | 0 <= j < |p|
      ensures match p[j]
        case Lit(c) => mem'.ByteAt(a + j) == Some(c)
        case Any => mem'.Mapped(a + j)
    {
      MatchedByte(mem, a, p, j);
    }
  }

  /** q is at most as long as p and every literal of q is the same literal in p. */
  predicate Generalizes(q: Pattern, p: Pattern)
  {
    |q| <= |p| && forall i :: 0 <= i < |q| ==> q[i] == Any || q[i] == p[i]
  }

  /** Wherever p matches, a generalization of p matches too. */
  lemma GeneralizationMatches(mem: Memory, a: Addr, q: Pattern, p: Pattern)
    requires Generalizes(q, p) && MatchesAt(mem, a, p)
    ensures MatchesAt(mem, a, q)
  {
    forall i | 0 <= i < |q|
      ensures match q[i]
        case Lit(c) => mem.ByteAt(a + i) == Some(c)
        case Any => mem.Mapped(a + i)
    {
      MatchedByte(mem, a, p, i);
    }
  }

  /** The relaxed fourth base-controller candidate matches wherever the first or second does. */
  lemma RelaxedSubsumesFirstTwo(mem: Memory, a: Addr, k: nat)
    requires k < 2 && MatchesAt(mem, a, BASE_CTRL_PATTERNS[k].pattern)
    ensures MatchesAt(mem, a, BASE_CTRL_PATTERNS[3].pattern)
  {
    assert Generalizes(BASE_CTRL_PATTERNS[3].pattern, BASE_CTRL_PATTERNS[k].pattern);
    GeneralizationMatches(mem, a, BASE_CTRL_PATTERNS[3].pattern, BASE_CTRL_PATTERNS[k].pattern);
  }

  /** The relaxed candidate has 80 at byte 13 where the third has 81: they never match at the same place. */
  lemma RelaxedExcludesThird(mem: Memory, a: Addr)
    requires MatchesAt(mem, a, BASE_CTRL_PATTERNS[2].pattern)
    ensures !MatchesAt(mem, a, BASE_CTRL_PATTERNS[3].pattern)
  {
    MatchedByte(mem, a, BASE_CTRL_PATTERNS[2].pattern, 13);
    if MatchesAt(mem, a, BASE_CTRL_PATTERNS[3].pattern) {
      MatchedByte(mem, a, BASE_CTRL_PATTERNS[3].pattern, 13);
    }
  }

  /**
   * With a sound matcher the bytes the controller reads unguarded at +14
   * after a successful base-controller search are readable: they lie inside
   * the matched pattern.
   */
  lemma BaseCtrlMatchCoversOffsetOperand(h: Host)
    requires Sound(h)
    ensures var a := Scan(h, BASE_CTRL_PATTERNS); a != 0 ==> h.mem.Readable(a + 14, 4)
  {
    var a := Scan(h, BASE_CTRL_PATTERNS);
    if a != 0 {
      var k := ScanResultFound(h, BASE_CTRL_PATTERNS);
      var p := BASE_CTRL_PATTERNS[k].pattern;
      assert a == h.find(p, 0) && |p| >= 18;
      assert MatchesAt(h.mem, a, p);
      forall x: int | a + 14 <= x < a + 18
        ensures h.mem.Mapped(x)
      {
        MatchedByte(h.mem, a, p, x - a);
      }
    }
  }
}
