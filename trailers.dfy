/**
 * Trailer manipulation without its drawing: the wiring of the three game
 * functions at start-up, the steering-advance hook that keeps locked
 * trailers from being steered by the game, the connect protocol that
 * brackets a reconnection with the connect-slave hook, the per-trailer
 * joint state machine, and the steering buttons. Calls into the game, the
 * physics engine and the hook library are recorded as events.
 */
module Trailers {
  import opened HostMemory
  import opened Scanner
  import opened Patterns

  /** Size of the two per-trailer tables (locked steering, joint state). */
  const TRAILER_SLOTS: nat := 20

  datatype JointState = Normal | Locked | Disconnected

  /** The two D6 twist motions the joint buttons set (PxD6Motion::eFREE / eLOCKED). */
  datatype TwistMotion = FreeTwist | LockedTwist

  /** What enabling a hook reports; only HOOKED lets a reconnection go ahead. */
  datatype HookStatus = Hooked | Created | OtherStatus

  /** A call the plugin makes into the hook library, the game or the physics engine. */
  datatype Event =
    | RegisterCrashHook(target: Addr)
    | HookCrashGuard(target: Addr)
    | RegisterConnectSlaveHook(target: Addr)
    | CreateConnectSlaveHook(target: Addr)
    | EnableConnectSlaveHook
    | DisableConnectSlaveHook
    | GetSlaveHookPosition(fn: Addr, trailer: Addr)
    | Connect(trailer: Addr, to: Addr)
    | SetTrailerBrace(trailer: Addr, engaged: bool)
    | Disconnect(trailer: Addr)
    | SetTwistMotion(joint: Addr, motion: TwistMotion)
    | SetIndividualSteering(fn: Addr, wheels: Addr, angle: real)

  /** A trailer actor: its steering angle, wheel data, physics joint and the next trailer. */
  class Trailer {
    const address: Addr
    var steering: real
    const wheelSteeringStuff: Addr
    var physicsJoint: Addr
    var pxJoint: Addr
    var slaveTrailer: Trailer?

    constructor (address: Addr, wheels: Addr, joint: Addr, px: Addr, slave: Trailer?)
      ensures this.address == address && wheelSteeringStuff == wheels
      ensures physicsJoint == joint && pxJoint == px && slaveTrailer == slave && steering == 0.0
    {
      this.address := address;
      steering := 0.0;
      wheelSteeringStuff := wheels;
      physicsJoint := joint;
      pxJoint := px;
      slaveTrailer := slave;
    }
  }

  // ---- the trailer chain ----

  /** chain lists the trailers reached from first by following slaveTrailer until null. */
  ghost predicate IsChain(first: Trailer?, chain: seq<Trailer>)
    reads chain
  {
    (if chain == [] then first == null else first == chain[0]) &&
    (forall k :: 0 <= k < |chain| - 1 ==> chain[k].slaveTrailer == chain[k + 1]) &&
    (chain != [] ==> chain[|chain| - 1].slaveTrailer == null)
  }

  /** Position of self in the chain, |chain| when it is not in it. */
  function ChainIndex(self: Trailer, chain: seq<Trailer>): (k: nat)
    ensures k <= |chain|
    ensures k < |chain| ==> chain[k] == self
    ensures forall j :: 0 <= j < k ==> chain[j] != self
  {
    if chain == [] then 0
    else if chain[0] == self then 0
    else 1 + ChainIndex(self, chain[1..])
  }

  /** ChainIndex is the only position with its two properties. */
  lemma {:induction false} ChainIndexIs(self: Trailer, chain: seq<Trailer>, k: nat)
    requires k <= |chain|
    requires forall j :: 0 <= j < k ==> chain[j] != self
    requires k < |chain| ==> chain[k] == self
    ensures ChainIndex(self, chain) == k
  {
    if k > 0 {
      assert chain[0] != self;
      forall j | 0 <= j < k - 1
        ensures chain[1..][j] != self
      {
        assert chain[1..][j] == chain[j + 1];
      }
      ChainIndexIs(self, chain[1..], k - 1);
    }
  }

  /** A trailer is found exactly when it is in the chain. */
  lemma ChainIndexFound(self: Trailer, chain: seq<Trailer>)
    ensures ChainIndex(self, chain) < |chain| <==> self in chain
  {
    if self in chain {
      var k :| 0 <= k < |chain| && chain[k] == self;
      assert ChainIndex(self, chain) <= k;
    }
  }

  /** Whether steering_advance goes on to the game's own function. */
  predicate GameSteers(locked: seq<bool>, index: nat, chainLength: nat)
    requires index <= chainLength && (index < chainLength ==> index < |locked|)
  {
    index == chainLength || !locked[index]
  }

  // ---- start-up wiring ----

  /**
   * The calls init makes: both hooks are registered whatever the scans
   * found; the crash guard is switched on and the connect-slave hook
   * created only outside TruckersMP and for a nonzero address.
   */
  function InitEvents(crash: Addr, connectSlave: Addr, truckersmp: bool): seq<Event>
  {
    CrashGuardWiring(crash, truckersmp) + ConnectSlaveWiring(connectSlave, truckersmp)
  }

  function CrashGuardWiring(crash: Addr, truckersmp: bool): seq<Event>
  {
    [RegisterCrashHook(crash)] + (if !truckersmp && crash != 0 then [HookCrashGuard(crash)] else [])
  }

  function ConnectSlaveWiring(connectSlave: Addr, truckersmp: bool): seq<Event>
  {
    [RegisterConnectSlaveHook(connectSlave)] +
    (if !truckersmp && connectSlave != 0 then [CreateConnectSlaveHook(connectSlave)] else [])
  }

  /**
   * Both hooks are always registered, each with the address its search
   * returned; a hook is switched on exactly outside TruckersMP for a nonzero
   * address, and nothing else is called.
   */
  lemma InitWiring(crash: Addr, connectSlave: Addr, truckersmp: bool)
    ensures var es := InitEvents(crash, connectSlave, truckersmp);
      |es| >= 2 && es[0] == RegisterCrashHook(crash) && RegisterConnectSlaveHook(connectSlave) in es &&
      (HookCrashGuard(crash) in es <==> !truckersmp && crash != 0) &&
      (CreateConnectSlaveHook(connectSlave) in es <==> !truckersmp && connectSlave != 0) &&
      (forall e :: e in es ==> e.RegisterCrashHook? || e.HookCrashGuard? ==> e.target == crash) &&
      (forall e :: e in es ==> e.RegisterConnectSlaveHook? || e.CreateConnectSlaveHook? ==> e.target == connectSlave)
  {
  }

  /** The slave-hook-position function: the rel32 at connect_slave + 29, taken relative to +33. */
  function SlaveHookPositionFn(mem: Memory, connectSlave: Addr): (r: Option<Addr>)
    ensures r.Some? <==> mem.Readable(connectSlave + 29, 4)
    ensures r.Some? ==> r.value == Wrap64(connectSlave + 33 + mem.ReadI32(connectSlave + 29).value)
  {
    Rel32Target(mem, connectSlave + 29)
  }

  /** With a sound matcher the crash guard is registered for address 0 and never switched on. */
  lemma InitNeverHooksCrashGuard(h: Host, truckersmp: bool)
    requires Sound(h)
    ensures var es := InitEvents(Scan(h, CRASH_FUNCTION_PATTERNS), Scan(h, CONNECT_SLAVE_PATTERNS), truckersmp);
      es[0] == RegisterCrashHook(0) && forall e :: e in es ==> !e.HookCrashGuard?
  {
    CrashScanFails(h);
    InitWiring(0, Scan(h, CONNECT_SLAVE_PATTERNS), truckersmp);
  }

  /**
   * With a sound matcher the connect-slave address is the third candidate's
   * match, which is 26 bytes long: the operand decoded at +29 lies past the
   * matched bytes and follows no call opcode the pattern fixes.
   */
  lemma SlaveHookOperandPastMatch(h: Host)
    requires Sound(h)
    ensures var a := Scan(h, CONNECT_SLAVE_PATTERNS);
      a != 0 ==> a == Found(h, CONNECT_SLAVE_PATTERNS[2]) && |CONNECT_SLAVE_PATTERNS[2].pattern| < 29
  {
    ConnectSlaveScanIsThird(h);
    ConnectSlaveCallOperand();
  }

  // ---- connect protocol ----

  /**
   * The calls connect_trailer makes: enable the connect-slave hook; stop if
   * that did not report HOOKED; otherwise connect to the truck when no
   * trailer is connected (else to the last connected trailer, after asking
   * it for its slave hook position), release the trailer brace, and disable
   * the hook again.
   */
  function ConnectEvents(trailer: Addr, hookResult: HookStatus, last: Addr, truck: Addr, slaveFn: Addr): seq<Event>
  {
    [EnableConnectSlaveHook] +
    if hookResult != Hooked then []
    else
      (if last == 0 then [Connect(trailer, truck)]
       else [GetSlaveHookPosition(slaveFn, last), Connect(trailer, last)]) +
      [SetTrailerBrace(trailer, false), DisableConnectSlaveHook]
  }

  /** Number of Connect calls in a trace. */
  function CountConnects(es: seq<Event>): (n: nat)
    ensures n <= |es|
    ensures n == 0 <==> forall i :: 0 <= i < |es| ==> !es[i].Connect?
  {
    if es == [] then 0 else (if es[0].Connect? then 1 else 0) + CountConnects(es[1..])
  }

  lemma {:induction false} CountConnectsAppend(a: seq<Event>, b: seq<Event>)
    ensures CountConnects(a + b) == CountConnects(a) + CountConnects(b)
  {
    if a != [] {
      assert (a + b)[1..] == a[1..] + b;
      CountConnectsAppend(a[1..], b);
    } else {
      assert a + b == b;
    }
  }

  /**
   * The protocol connects exactly once when the hook reported HOOKED and not
   * at all otherwise; the connection is to the truck exactly when no trailer
   * was connected; the hook is enabled first and, after a connection,
   * disabled last.
   */
  lemma ConnectProtocol(trailer: Addr, hookResult: HookStatus, last: Addr, truck: Addr, slaveFn: Addr)
    ensures var es := ConnectEvents(trailer, hookResult, last, truck, slaveFn);
      CountConnects(es) == (if hookResult == Hooked then 1 else 0) &&
      es[0] == EnableConnectSlaveHook &&
      (hookResult == Hooked ==> es[|es| - 1] == DisableConnectSlaveHook) &&
      (hookResult != Hooked ==> es == [EnableConnectSlaveHook]) &&
      (forall e :: e in es && e.Connect? ==>
        e.trailer == trailer && e.to == (if last == 0 then truck else last))
  {
    var es := ConnectEvents(trailer, hookResult, last, truck, slaveFn);
    if hookResult == Hooked {
      var mid := if last == 0 then [Connect(trailer, truck)]
                 else [GetSlaveHookPosition(slaveFn, last), Connect(trailer, last)];
      var tail := [SetTrailerBrace(trailer, false), DisableConnectSlaveHook];
      assert es == [EnableConnectSlaveHook] + (mid + tail);
      CountConnectsAppend([EnableConnectSlaveHook], mid + tail);
      CountConnectsAppend(mid, tail);
    }
  }

  // ---- joint state machine ----

  /** The joint and connection buttons of one trailer; at most one is clicked per frame. */
  datatype JointButton = NoJointButton | UnlockedRadio | LockedRadio | ConnectButton | DisconnectButton

  /**
   * Whether a button is shown and enabled: the radio buttons with PhysX and
   * a physics joint that has a PhysX joint; Connect and Disconnect outside
   * TruckersMP, Connect only without a physics joint and Disconnect only
   * with one.
   */
  predicate ButtonEnabled(b: JointButton, physx: bool, truckersmp: bool, joint: Addr, px: Addr)
  {
    match b
    case NoJointButton => false
    case UnlockedRadio => physx && joint != 0 && px != 0
    case LockedRadio => physx && joint != 0 && px != 0
    case ConnectButton => !truckersmp && joint == 0
    case DisconnectButton => !truckersmp && joint != 0
  }

  /** The state an enabled click leaves in the trailer's slot. */
  function JointAfter(s: JointState, b: JointButton): JointState
  {
    match b
    case NoJointButton => s
    case UnlockedRadio => Normal
    case LockedRadio => Locked
    case ConnectButton => Normal
    case DisconnectButton => Disconnected
  }

  /** The calls an enabled click makes: a radio reconnects a disconnected trailer before setting the twist. */
  function JointEvents(s: JointState, b: JointButton, trailer: Addr, px: Addr,
                       hookResult: HookStatus, last: Addr, truck: Addr, slaveFn: Addr): seq<Event>
  {
    match b
    case NoJointButton => []
    case UnlockedRadio =>
      (if s == Disconnected then ConnectEvents(trailer, hookResult, last, truck, slaveFn) else []) +
      [SetTwistMotion(px, FreeTwist)]
    case LockedRadio =>
      (if s == Disconnected then ConnectEvents(trailer, hookResult, last, truck, slaveFn) else []) +
      [SetTwistMotion(px, LockedTwist)]
    case ConnectButton => ConnectEvents(trailer, hookResult, last, truck, slaveFn)
    case DisconnectButton => [SetTrailerBrace(trailer, true), Disconnect(trailer)]
  }

  /**
   * The transitions: Unlocked and Connect lead to NORMAL, Locked to LOCKED,
   * Disconnect to DISCONNECTED, from any state; the connect protocol runs
   * for Connect, and for a radio exactly when the slot was DISCONNECTED.
   */
  lemma JointTransitions(s: JointState, b: JointButton, trailer: Addr, px: Addr,
                         hookResult: HookStatus, last: Addr, truck: Addr, slaveFn: Addr)
    ensures b == UnlockedRadio || b == ConnectButton ==> JointAfter(s, b) == Normal
    ensures b == LockedRadio ==> JointAfter(s, b) == Locked
    ensures b == DisconnectButton ==> JointAfter(s, b) == Disconnected
    ensures var es := JointEvents(s, b, trailer, px, hookResult, last, truck, slaveFn);
      (EnableConnectSlaveHook in es <==>
        b == ConnectButton || ((b == UnlockedRadio || b == LockedRadio) && s == Disconnected))
  {
    var es := JointEvents(s, b, trailer, px, hookResult, last, truck, slaveFn);
    if b == UnlockedRadio || b == LockedRadio {
      if s == Disconnected {
        assert es[0] == EnableConnectSlaveHook;
      }
    }
  }

  /**
   * The Connect button records NORMAL even when the hook could not be
   * enabled and nothing was connected.
   */
  lemma ConnectButtonMarksNormalWithoutConnecting(s: JointState, trailer: Addr, px: Addr,
                                                  hookResult: HookStatus, last: Addr, truck: Addr, slaveFn: Addr)
    requires hookResult != Hooked
    ensures JointAfter(s, ConnectButton) == Normal
    ensures CountConnects(JointEvents(s, ConnectButton, trailer, px, hookResult, last, truck, slaveFn)) == 0
  {
  }

  // ---- steering ----

  const STEERING_STEP: real := 0.02

  predicate InRange(s: real)
  {
    -1.0 <= s <= 1.0
  }

  /** The left arrow: subtract a step, then clamp from below only. */
  function NudgeLeft(s: real): (r: real)
    ensures r >= -1.0
    ensures s - STEERING_STEP >= -1.0 ==> r == s - STEERING_STEP
    ensures s - STEERING_STEP < -1.0 ==> r == -1.0
  {
    var t := s - STEERING_STEP;
    if t < -1.0 then -1.0 else t
  }

  /** The right arrow: add a step, then clamp from above only. */
  function NudgeRight(s: real): (r: real)
    ensures r <= 1.0
    ensures s + STEERING_STEP <= 1.0 ==> r == s + STEERING_STEP
    ensures s + STEERING_STEP > 1.0 ==> r == 1.0
  {
    var t := s + STEERING_STEP;
    if t > 1.0 then 1.0 else t
  }

  /** The angle slider with its always-clamp flag. */
  function ClampSteering(v: real): (r: real)
    ensures InRange(r)
    ensures InRange(v) ==> r == v
  {
    if v < -1.0 then -1.0 else if v > 1.0 then 1.0 else v
  }

  /** The steering controls of one trailer; at most one is used per frame. */
  datatype SteeringInput = NoSteeringInput | Slide(value: real) | LeftArrow | CenterButton | RightArrow

  function SteeringAfter(s: real, input: SteeringInput): real
  {
    match input
    case NoSteeringInput => s
    case Slide(v) => ClampSteering(v)
    case LeftArrow => NudgeLeft(s)
    case CenterButton => 0.0
    case RightArrow => NudgeRight(s)
  }

  /** Every control keeps an angle in [-1, 1] in [-1, 1]. */
  lemma SteeringStaysInRange(s: real, input: SteeringInput)
    requires InRange(s)
    ensures InRange(SteeringAfter(s, input))
  {
  }

  /**
   * The clamps are one-sided: an angle the game left above 1 is lowered by
   * one step by the left arrow, not clamped, and one below -1 is raised by
   * one step by the right arrow.
   */
  lemma ClampsAreOneSided()
    ensures NudgeLeft(5.0) == 4.98
    ensures NudgeRight(-5.0) == -4.98
  {
  }

  /** Away from the limits the two arrows undo each other. */
  lemma ArrowsAreInverse(s: real)
    requires -0.98 <= s <= 0.98
    ensures NudgeRight(NudgeLeft(s)) == s
    ensures NudgeLeft(NudgeRight(s)) == s
  {
  }

  /** n presses of the right arrow. */
  function RightPresses(s: real, n: nat): real
  {
    if n == 0 then s else NudgeRight(RightPresses(s, n - 1))
  }

  /** From an angle in range, n right presses give s + 0.02 n, saturating at 1. */
  lemma {:induction false} RightPressesSaturate(s: real, n: nat)
    requires InRange(s)
    ensures RightPresses(s, n) == if s + STEERING_STEP * n as real >= 1.0 then 1.0 else s + STEERING_STEP * n as real
  {
    if n > 0 {
      RightPressesSaturate(s, n - 1);
    }
  }

  /** One hundred right presses reach full right lock from anywhere in range. */
  lemma HundredPressesReachFullLock(s: real)
    requires InRange(s)
    ensures RightPresses(s, 100) == 1.0
  {
    RightPressesSaturate(s, 100);
  }

  class TrailerManipulation {
    var valid: bool
    var setIndividualSteeringFn: Addr
    var getSlaveHookPositionFn: Addr
    const lockedTrailers: array<bool>
    const trailerJoints: array<JointState>
    /** The calls made so far into the hook library, the game and the physics engine. */
    var trace: seq<Event>

    ghost predicate Valid()
      reads this
    {
      lockedTrailers.Length == TRAILER_SLOTS && trailerJoints.Length == TRAILER_SLOTS
    }

    constructor ()
      ensures Valid() && fresh(lockedTrailers) && fresh(trailerJoints)
      ensures !valid && setIndividualSteeringFn == 0 && getSlaveHookPositionFn == 0 && trace == []
      ensures forall i :: 0 <= i < TRAILER_SLOTS ==> !lockedTrailers[i] && trailerJoints[i] == Normal
    {
      valid := false;
      setIndividualSteeringFn := 0;
      getSlaveHookPositionFn := 0;
      lockedTrailers := new bool[TRAILER_SLOTS](_ => false);
      trailerJoints := new JointState[TRAILER_SLOTS](_ => Normal);
      trace := [];
    }

    /**
     * init: search the three functions; keep the steering setter when
     * found; wire the crash guard and the connect-slave hook; and report
     * success whatever the searches found.
     */
    method Init(h: Host, truckersmp: bool) returns (ok: bool)
      requires var a := Scan(h, CONNECT_SLAVE_PATTERNS); a != 0 ==> h.mem.Readable(a + 29, 4)
      modifies this`valid, this`setIndividualSteeringFn, this`getSlaveHookPositionFn, this`trace
      ensures ok && valid
      ensures var s := Scan(h, SET_INDIVIDUAL_STEERING_PATTERNS);
        setIndividualSteeringFn == if s != 0 then s else old(setIndividualSteeringFn)
      ensures var a := Scan(h, CONNECT_SLAVE_PATTERNS);
        getSlaveHookPositionFn == if a != 0 then SlaveHookPositionFn(h.mem, a).value else old(getSlaveHookPositionFn)
      ensures trace == old(trace) +
        InitEvents(Scan(h, CRASH_FUNCTION_PATTERNS), Scan(h, CONNECT_SLAVE_PATTERNS), truckersmp)
    {
      var steeringAddr := FindWithFallbacks(h, SET_INDIVIDUAL_STEERING_PATTERNS);
      if steeringAddr != 0 {
        setIndividualSteeringFn := steeringAddr;
      }
      WireCrashGuard(h, truckersmp);
      WireConnectSlave(h, truckersmp);
      valid := true;
      return valid;
    }

    /**
     * Search the crash-guard function, register its hook whatever the
     * search found, and switch the hook on outside TruckersMP when the
     * function was found.
     */
    method WireCrashGuard(h: Host, truckersmp: bool)
      modifies this`trace
      ensures trace == old(trace) + CrashGuardWiring(Scan(h, CRASH_FUNCTION_PATTERNS), truckersmp)
    {
      var crashFnAddress := FindWithFallbacks(h, CRASH_FUNCTION_PATTERNS);
      trace := trace + [RegisterCrashHook(crashFnAddress)];
      if !truckersmp {
        if crashFnAddress != 0 {
          trace := trace + [HookCrashGuard(crashFnAddress)];
        }
      }
    }

    /**
     * Search connect_slave, register its hook whatever the search found,
     * create the hook outside TruckersMP when the function was found, and
     * decode the slave-hook-position function from the rel32 at +29.
     */
    method WireConnectSlave(h: Host, truckersmp: bool)
      requires var a := Scan(h, CONNECT_SLAVE_PATTERNS); a != 0 ==> h.mem.Readable(a + 29, 4)
      modifies this`trace, this`getSlaveHookPositionFn
      ensures trace == old(trace) + ConnectSlaveWiring(Scan(h, CONNECT_SLAVE_PATTERNS), truckersmp)
      ensures var a := Scan(h, CONNECT_SLAVE_PATTERNS);
        getSlaveHookPositionFn == if a != 0 then SlaveHookPositionFn(h.mem, a).value else old(getSlaveHookPositionFn)
    {
      var connectSlaveAddress := FindWithFallbacks(h, CONNECT_SLAVE_PATTERNS);
      trace := trace + [RegisterConnectSlaveHook(connectSlaveAddress)];
      if !truckersmp {
        if connectSlaveAddress != 0 {
          trace := trace + [CreateConnectSlaveHook(connectSlaveAddress)];
        }
      }
      if connectSlaveAddress != 0 {
        var operand := connectSlaveAddress as int + 29;
        getSlaveHookPositionFn := Wrap64(operand + h.mem.ReadI32(operand).value + 4);
      }
    }

    /**
     * hk_steering_advance: walk the chain from the actor's first trailer to
     * self, counting; pass the call on to the game's function (whose result
     * is originalResult) unless self was found and its slot is locked, in
     * which case return 0.
     */
    method SteeringAdvance(self: Trailer, first: Trailer?, ghost chain: seq<Trailer>, originalResult: int)
      returns (trailerIndex: nat, callsOriginal: bool, r: int)
      requires Valid() && IsChain(first, chain)
      requires ChainIndex(self, chain) < |chain| ==> ChainIndex(self, chain) < TRAILER_SLOTS
      ensures trailerIndex == ChainIndex(self, chain)
      ensures trailerIndex < |chain| <==> self in chain
      ensures callsOriginal == GameSteers(lockedTrailers[..], trailerIndex, |chain|)
      ensures callsOriginal <==> self !in chain || !lockedTrailers[trailerIndex]
      ensures r == if callsOriginal then originalResult else 0
    {
      trailerIndex := 0;
      var checkTrailer := first;
      while checkTrailer != null && self != checkTrailer
        invariant 0 <= trailerIndex <= |chain|
        invariant checkTrailer == if trailerIndex < |chain| then chain[trailerIndex] else null
        invariant forall j :: 0 <= j < trailerIndex ==> chain[j] != self
        decreases |chain| - trailerIndex
      {
        checkTrailer := checkTrailer.slaveTrailer;
        trailerIndex := trailerIndex + 1;
      }
      ChainIndexIs(self, chain, trailerIndex);
      ChainIndexFound(self, chain);
      if checkTrailer == null || !lockedTrailers[trailerIndex] {
        return trailerIndex, true, originalResult;
      }
      return trailerIndex, false, 0;
    }

    /** connect_trailer: the protocol of ConnectEvents, with the hook's answer given. */
    method ConnectTrailer(t: Trailer, hookResult: HookStatus, last: Addr, truck: Addr)
      modifies this`trace
      ensures trace == old(trace) + ConnectEvents(t.address, hookResult, last, truck, getSlaveHookPositionFn)
    {
      trace := trace + [EnableConnectSlaveHook];
      if hookResult != Hooked {
        return;
      }
      if last == 0 {
        trace := trace + [Connect(t.address, truck)];
        trace := trace + [SetTrailerBrace(t.address, false)];
      } else {
        trace := trace + [GetSlaveHookPosition(getSlaveHookPositionFn, last)];
        trace := trace + [Connect(t.address, last)];
        trace := trace + [SetTrailerBrace(t.address, false)];
      }
      trace := trace + [DisableConnectSlaveHook];
    }

    /**
     * render_trailer_joint for trailer t in slot i, with the clicked button,
     * the physics engine in use, the TruckersMP flag and what the connect
     * protocol would see given.
     */
    method RenderTrailerJoint(t: Trailer, i: nat, button: JointButton, physx: bool, truckersmp: bool,
                              hookResult: HookStatus, last: Addr, truck: Addr)
      requires Valid() && i < TRAILER_SLOTS
      modifies this`trace, trailerJoints
      ensures var enabled := ButtonEnabled(button, physx, truckersmp, old(t.physicsJoint), old(t.pxJoint));
        trailerJoints[..] ==
          (if enabled then old(trailerJoints[..])[i := JointAfter(old(trailerJoints[i]), button)]
           else old(trailerJoints[..])) &&
        trace == old(trace) +
          (if enabled then JointEvents(old(trailerJoints[i]), button, t.address, t.pxJoint,
                                       hookResult, last, truck, getSlaveHookPositionFn)
           else [])
    {
      if physx {
        if t.physicsJoint != 0 && t.pxJoint != 0 {
          if button == UnlockedRadio {
            if trailerJoints[i] == Disconnected {
              ConnectTrailer(t, hookResult, last, truck);
            }
            trailerJoints[i] := Normal;
            trace := trace + [SetTwistMotion(t.pxJoint, FreeTwist)];
          }
          if button == LockedRadio {
            if trailerJoints[i] == Disconnected {
              ConnectTrailer(t, hookResult, last, truck);
            }
            trailerJoints[i] := Locked;
            trace := trace + [SetTwistMotion(t.pxJoint, LockedTwist)];
          }
        }
      }
      if !truckersmp {
        if button == ConnectButton && t.physicsJoint == 0 {
          ConnectTrailer(t, hookResult, last, truck);
          trailerJoints[i] := Normal;
        }
        if button == DisconnectButton && t.physicsJoint != 0 {
          trace := trace + [SetTrailerBrace(t.address, true)];
          trace := trace + [Disconnect(t.address)];
          trailerJoints[i] := Disconnected;
        }
      }
    }

    /**
     * render_trailer_steering for trailer t in slot i: the lock checkbox
     * flips the slot when clicked; the controls below it act only while the
     * slot is locked, each updating the angle and passing it to the game's
     * setter once.
     */
    method RenderTrailerSteering(t: Trailer, i: nat, toggleLock: bool, input: SteeringInput)
      requires Valid() && i < TRAILER_SLOTS
      requires t.wheelSteeringStuff != 0 && setIndividualSteeringFn != 0
      modifies this`trace, lockedTrailers, t`steering
      ensures lockedTrailers[..] == old(lockedTrailers[..])[i := old(lockedTrailers[i]) != toggleLock]
      ensures var acts := lockedTrailers[i] && input != NoSteeringInput;
        t.steering == (if acts then SteeringAfter(old(t.steering), input) else old(t.steering)) &&
        trace == old(trace) +
          (if acts then [SetIndividualSteering(setIndividualSteeringFn, t.wheelSteeringStuff, t.steering)] else [])
    {
      if toggleLock {
        lockedTrailers[i] := !lockedTrailers[i];
      }
      if !lockedTrailers[i] {
        return;
      }
      match input {
        case NoSteeringInput =>
          return;
        case Slide(v) =>
          t.steering := ClampSteering(v);
        case LeftArrow =>
          t.steering := t.steering - STEERING_STEP;
          if t.steering < -1.0 {
            t.steering := -1.0;
          }
        case CenterButton =>
          t.steering := 0.0;
        case RightArrow =>
          t.steering := t.steering + STEERING_STEP;
          if t.steering > 1.0 {
            t.steering := 1.0;
          }
      }
      trace := trace + [SetIndividualSteering(setIndividualSteeringFn, t.wheelSteeringStuff, t.steering)];
    }
  }
}
