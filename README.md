# ATS_Utilities core, modelled in Dafny

This project models the core of the ATS_Utilities plugin for American Truck Simulator, which has three parts:

- **Robust pattern scanner** (`HostMemory`, `Scanner`, `Patterns`). Each game function or global the plugin needs has an ordered list of byte signatures. The list is searched first-match-wins, and a validator can reject a match. The model includes the two validators (the base-controller pointer check and the function-prologue check) and the four candidate tables: base controller, individual steering setter, crash guard and connect_slave.
- **Core controller** (`Core`). It covers:
  - the self-healing cache that finds the base controller and the game actor inside it;
  - the `trailer.N.connected` telemetry table and its count;
  - the Insert/Delete overlay toggles and the window-message filter.
- **Trailer manipulation** (`Trailers`). It covers:
  - start-up wiring of the three game functions;
  - the steering-advance hook that stops the game steering locked trailers;
  - the connect protocol that brackets a reconnection with the connect-slave hook;
  - the per-trailer joint state machine;
  - the steering buttons.

Process memory is a snapshot: a map of readable bytes plus the region table that VirtualQuery reports. A read outside the map is the access violation the C++ code would take. Integer reads are little-endian. `uint64_t` arithmetic wraps modulo 2^64, and the conversion of an `int32_t` into a `uint32_t` field is written out.

The signature matcher (`memory::get_address_for_pattern`) is not part of this model. It is a parameter: the `find` field of `Scanner.Host`. Facts about the concrete tables assume `Scanner.Sound`, meaning that a nonzero match at offset 0 lies where the pattern's literal bytes are.

Calls into the game, PhysX and the hook library are recorded as an event trace, and the contracts state that trace. Examples: `connect_slave`, `set_individual_steering`, `hook()` and `enable()`.

Where the comments disagree with the code, the model follows the code:

- The actor plausibility test in `get_game_actor` uses strict bounds (core.cpp:327 and core.cpp:379). The base-controller validator uses inclusive ones (robust_pattern_scanner.cpp:53). Both are modelled as written.
- `sscanf(name, "trailer.%d.connected", ...)` returns 1 as soon as `%d` converts, so the `.connected` suffix is never checked. See `Core.SuffixIsNotChecked`.
- `CTrailerManipulation::init` sets `valid_` to true whatever the three searches found. It does not fail closed when the crash guard is missing.
- The value of `MAX_TRAILERS` (10) comes from the comment on the registration loop (core.cpp:85-88). `consts.hpp` is not part of this model.

## Model

| member | source | states |
|---|---|---|
| Scanner.BaseCtrlSlot | src/memory/robust_pattern_scanner.cpp:49 | The pointer slot is `a + disp32(a+3) + 7` modulo 2^64. It is defined exactly when the four displacement bytes can be read. |
| Scanner.BaseCtrlValidatorIff | src/memory/robust_pattern_scanner.cpp:44-67 | The validator accepts an address iff all of these hold: the displacement at +3 can be read; the slot it names can be read; the pointer stored there lies in [0x10000, 0x7FFFFFFFFFFF]; and VirtualQuery reports the pointer's region as committed with the PAGE_READONLY or PAGE_READWRITE bit. |
| Scanner.BaseCtrlAccepted | src/memory/robust_pattern_scanner.cpp:44-67 | An accepted address has readable displacement bytes and a readable slot. The pointer in the slot lies in [0x10000, 0x7FFFFFFFFFFF]. VirtualQuery reports its region as committed, with a read-only or read-write protection bit. |
| Scanner.ValidateFunctionPattern | src/memory/robust_pattern_scanner.cpp:69-88 | The prologue check accepts exactly the byte strings `55`, `48 89` and `48 83`. An unreadable address is rejected, because the fault is caught. |
| Scanner.FindWithFallbacks | src/memory/robust_pattern_scanner.cpp:7-42 | The result is 0 iff no candidate matched and passed its validator. A nonzero result is the match of the first candidate that did, and every earlier candidate failed. The result equals `Scan`. |
| Scanner.ScanFindsFirst | src/memory/robust_pattern_scanner.cpp:13-37 | When candidate k is accepted and all earlier ones are not, the search returns candidate k's nonzero match. |
| Scanner.ScanZeroIff | src/memory/robust_pattern_scanner.cpp:13-41 | The search returns 0 iff no candidate is accepted, so an empty list gives 0. |
| Scanner.ScanResultAccepted | src/memory/robust_pattern_scanner.cpp:18-36 | A nonzero result is the matcher's result for some candidate whose validator accepted it. |
| Scanner.ScanResultFound | src/memory/robust_pattern_scanner.cpp:18-36 | Names the accepted candidate whose match a nonzero result is. |
| Scanner.ScanResultValidated | src/memory/robust_pattern_scanner.cpp:28-36 | When every candidate carries validator v, a nonzero result passed v. |
| Scanner.UnvalidatedCandidateWins | src/memory/robust_pattern_scanner.cpp:28-36 | A candidate with an empty validator wins on any nonzero match once the earlier candidates have failed. |
| Patterns.MatchedByte | src/memory/robust_pattern_scanner.cpp:18 | Inside a match, every byte is readable and every literal byte equals the pattern's. |
| Patterns.PrologueOfMatch | src/memory/robust_pattern_scanner.cpp:76-80 | Where a pattern starting `b0 b1` matches, the prologue check's answer depends on b0 and b1 alone. |
| Patterns.CrashPatternsNeverValidate | src/memory/robust_pattern_scanner.cpp:140-159 | Every crash-guard candidate starts `48 85`, so the prologue validator rejects each of its matches. |
| Patterns.ConnectSlavePrologues | src/memory/robust_pattern_scanner.cpp:161-180 | The first two connect_slave candidates (`40 53`) are always rejected. The third (`48 89`) is always accepted. |
| Patterns.SteeringPatternsValidate | src/memory/robust_pattern_scanner.cpp:119-138 | Every steering-setter candidate starts `48 89`, so each of its matches passes the validator. |
| Patterns.CrashScanFails | src/memory/robust_pattern_scanner.cpp:140-159 | Under a sound matcher, the crash-guard search always returns 0. |
| Patterns.ConnectSlaveScanIsThird | src/memory/robust_pattern_scanner.cpp:161-180 | Under a sound matcher, the connect_slave search returns exactly the third candidate's match. |
| Patterns.SteeringScanIsFirstMatch | src/memory/robust_pattern_scanner.cpp:119-138 | Under a sound matcher, the steering search returns the first nonzero match in table order. |
| Patterns.ConnectSlaveCallOperand | src/memory/robust_pattern_scanner.cpp:161-180 | Only the two candidates that never validate end with an `e8` call opcode at byte 28. The one that validates is 26 bytes long. |
| Patterns.BaseCtrlDisplacementsAreWildcards | src/memory/robust_pattern_scanner.cpp:92-117 | In every base-controller candidate, bytes 3-6 and 14-17 are wildcards. Every candidate has offset 0 and the pointer validator. |
| Patterns.DisplacementNotFixedByPattern | src/memory/robust_pattern_scanner.cpp:92-117 | Rewriting a displacement byte keeps a base-controller match a match. |
| Patterns.GeneralizationMatches | src/memory/robust_pattern_scanner.cpp:18 | Wherever a pattern matches, any pattern that only replaces literals of it with wildcards matches too. |
| Patterns.RelaxedSubsumesFirstTwo | src/memory/robust_pattern_scanner.cpp:92-117 | The relaxed fourth base-controller pattern matches wherever the first or the second matches. |
| Patterns.RelaxedExcludesThird | src/memory/robust_pattern_scanner.cpp:92-117 | The relaxed pattern never matches where the third matches, because byte 13 differs (80 vs 81). |
| Patterns.BaseCtrlMatchCoversOffsetOperand | src/core.cpp:276 | Under a sound matcher, the four bytes at +14 that get_base_ctrl_instance reads without a guard lie inside the match. |
| Core.ResolveBaseCtrl | src/core.cpp:251-295 | A lookup searches iff the cached slot is empty or holds null. A searching lookup returns null iff the search fails. A non-null result from a search is a plausible pointer. |
| Core.BaseCtrlFastPath | src/core.cpp:253-257 | A non-null cached pointer is returned as is. There is no search and the cache is not changed. |
| Core.BaseCtrlRescanOnFailure | src/core.cpp:259-273 | A stale or empty cache with a failing search returns null and clears the slot address. |
| Core.BaseCtrlRescanDecodes | src/core.cpp:264-294 | A successful search passed the validator. The cache takes the decoded slot and the int32 at +14 as uint32. The result is the plausible pointer in the new slot. |
| Core.BaseCtrlResolvedIsStable | src/core.cpp:251-295 | After a non-null lookup, a second lookup in the same memory takes the fast path and returns the same pointer. |
| Core.SettleActor | src/core.cpp:300-406 | A null base controller is passed on unchanged. A nonzero cached offset that passes the actor test is kept and its actor returned, without probing. A non-null actor comes with a nonzero cached offset whose test passes. A null actor with a non-null base leaves offset 0. |
| Core.FirstValidIndexIs | src/core.cpp:358-402 | The probe index is the only index with both properties: every earlier offset fails and this one passes, or none passes. |
| Core.GameActorProbeOrder | src/core.cpp:343-406 | Once the cached offset is 0 or fails, the cached offset becomes the first entry of the offsets table that passes. When none passes, the result is null and the offset 0. |
| Core.GameActorConvergesOnOnlyValidOffset | src/core.cpp:347-402 | When only 0x2f0 passes the actor test, the probe caches 0x2f0. |
| Core.GameActorResolvedIsStable | src/core.cpp:297-407 | After a non-null actor, a second get_game_actor in the same memory searches nothing and returns the same actor from the same cache. |
| Core.ActorAtOffset | src/core.cpp:362-379 | This is the actor test, used both for the cached offset (core.cpp:310-327) and for each probed offset. A nonzero result is the pointer in a readable slot: it is readable for 0x100 bytes and its first word lies strictly between 0x10000 and 0x7FFFFFFFFFFF. Conversely, when all of those hold, the result is that pointer. |
| Core.NatToStringValue | src/core.cpp:88 | The decimal text of n reads back as n. |
| Core.ChannelNameRoundTrip | src/core.cpp:88 | Every registered name `trailer.<n>.connected` parses back to n. |
| Core.ScanDecimal | src/core.cpp:418 | One `%d` conversion: empty text converts nothing. So does text whose first character is neither white space, a sign nor a digit. |
| Core.ScanDecimalAtDigit | src/core.cpp:418 | `%d` on text starting with a digit converts the whole leading run of digits to its decimal value. |
| Core.ParseTrailerChannel | src/core.cpp:418 | A name that does not start with `trailer.` parses to nothing, and so does `trailer.` alone. |
| Core.ParseTrailerChannelDigits | src/core.cpp:418 | `trailer.<n>` followed by any non-digit text parses to n. |
| Core.RegisteredChannelsHitTheirSlot | src/core.cpp:86-88 | The channel registered for trailer n < MAX_TRAILERS updates slot n. |
| Core.SuffixIsNotChecked | src/core.cpp:418-422 | `trailer.<n>` followed by any non-digit updates slot n when n < MAX_TRAILERS, and nothing otherwise. |
| Core.UpdatedSlot | src/core.cpp:418-422 | An update names a slot iff the name parses to an index in [0, MAX_TRAILERS). Otherwise it is ignored. |
| Core.CountTrueUpdate | src/core.cpp:428-437 | Writing one flag changes the count by that flag's change alone. |
| Core.Controller.constructor | src/core.hpp:36-45 | Both cache fields start at 0 and both toggles are off, as the header initialises them. The connected flags all false and the count 0 are assumed (see "## Left out"). |
| Core.Controller.GetBaseCtrlInstance | src/core.cpp:251-295 | The new cache and result are `ResolveBaseCtrl` of the old cache. One search is counted exactly when the lookup scanned. |
| Core.Controller.RescanBaseCtrl | src/core.cpp:264-294 | After a stale or empty cache, runs one search and leaves the cache and result that `ResolveBaseCtrl` gives. |
| Core.Controller.GetGameActor | src/core.cpp:297-407 | The new cache and result are `ResolveGameActor` of the old cache, with one search counted when the base lookup scanned. |
| Core.Controller.SettleGameActor | src/core.cpp:308-406 | Revalidating the cached offset, then probing the table in order, leaves the cache and result that `SettleActor` gives. |
| Core.Controller.TrailerConnectedCallback | src/core.cpp:410-437 | A null context, value or name, or a name with no slot, changes nothing. Otherwise exactly that slot takes the value's bool (false for a non-bool). The count stays the number of true slots, and the cache and toggles are unchanged. |
| Core.Controller.ToggleUi | src/core.cpp:215-218 | The overlay flag flips. |
| Core.Controller.ToggleInputHook | src/core.cpp:195-213 | The input-hook flag flips. |
| Core.Controller.OnWndProc | src/core.cpp:221-249 | Insert flips the input hook and Delete flips the overlay. Both key presses are consumed. A mouse move is consumed while the hook is on. Anything else is consumed exactly when ImGui's handler consumes it. |
| Trailers.ChainIndex | src/windows/trailer_manipulation.cpp:42-48 | The walk's index is at most the chain length. Below the length, the trailer at it is self and every earlier trailer differs from self. |
| Trailers.ChainIndexIs | src/windows/trailer_manipulation.cpp:42-48 | The walk's index is the only position where every earlier trailer differs from self and the trailer at it is self (or the chain has ended). |
| Trailers.ChainIndexFound | src/windows/trailer_manipulation.cpp:42-48 | The walk stops inside the chain iff self is in the chain. |
| Trailers.TrailerManipulation.SteeringAdvance | src/windows/trailer_manipulation.cpp:39-54 | The counted index is self's position in the chain from the first trailer. The game's own function is called and its result returned unless self is in the chain and its slot is locked. In that case the hook returns 0. |
| Trailers.InitWiring | src/windows/trailer_manipulation.cpp:100-131 | Both hooks are always registered, each with its search's address. The crash guard is switched on, and the connect-slave hook created, exactly outside TruckersMP and for a nonzero address. |
| Trailers.SlaveHookPositionFn | src/windows/trailer_manipulation.cpp:133-137 | The slave-hook-position function is connect_slave + 33 + rel32(+29) modulo 2^64, defined when the operand can be read. |
| Trailers.InitNeverHooksCrashGuard | src/windows/trailer_manipulation.cpp:100-115 | Under a sound matcher, the crash guard is registered for address 0 and never switched on. |
| Trailers.SlaveHookOperandPastMatch | src/windows/trailer_manipulation.cpp:117-137 | Under a sound matcher, a found connect_slave is the third candidate's match, and the operand at +29 lies past its 26 matched bytes. |
| Trailers.TrailerManipulation.constructor | src/windows/trailer_manipulation.hpp:19-23 | Not valid, both function pointers null, every slot unlocked and NORMAL, and no calls made. |
| Trailers.TrailerManipulation.Init | src/windows/trailer_manipulation.cpp:82-141 | Reports success and sets valid whatever was found. Keeps the steering setter when found and decodes the slave-hook-position function when connect_slave was found. The calls made are `InitEvents` of the two search results. |
| Trailers.TrailerManipulation.WireCrashGuard | src/windows/trailer_manipulation.cpp:100-115 | Appends the crash-guard registration, and the hook() call outside TruckersMP for a nonzero address. |
| Trailers.TrailerManipulation.WireConnectSlave | src/windows/trailer_manipulation.cpp:117-137 | Appends the connect-slave registration, and create() outside TruckersMP for a nonzero address. Sets the slave-hook-position function when found. |
| Trailers.CountConnectsAppend | src/windows/trailer_manipulation.cpp:197-235 | Connect calls add up over concatenated traces. |
| Trailers.ConnectProtocol | src/windows/trailer_manipulation.cpp:197-235 | The hook is enabled first. When it reports HOOKED, exactly one connection is made, to the truck iff no trailer is connected, and the hook is disabled last. Otherwise nothing follows the enable. |
| Trailers.TrailerManipulation.ConnectTrailer | src/windows/trailer_manipulation.cpp:197-235 | The calls made are `ConnectEvents` for this trailer and the hook's answer. |
| Trailers.JointTransitions | src/windows/trailer_manipulation.cpp:240-292 | Unlocked and Connect lead to NORMAL, Locked to LOCKED and Disconnect to DISCONNECTED. The connect protocol runs for Connect, and for a radio button exactly when the slot was DISCONNECTED. |
| Trailers.ConnectButtonMarksNormalWithoutConnecting | src/windows/trailer_manipulation.cpp:274-282 | The Connect button records NORMAL even when the hook was not enabled and nothing was connected. |
| Trailers.TrailerManipulation.RenderTrailerJoint | src/windows/trailer_manipulation.cpp:237-297 | An enabled click moves only slot i, to `JointAfter`, and makes the calls `JointEvents` gives. A disabled button changes nothing. |
| Trailers.NudgeLeft | src/windows/trailer_manipulation.cpp:162-170 | The left arrow subtracts exactly 0.02 when that stays at or above -1, and otherwise gives exactly -1. |
| Trailers.NudgeRight | src/windows/trailer_manipulation.cpp:179-187 | The right arrow adds exactly 0.02 when that stays at or below 1, and otherwise gives exactly 1. |
| Trailers.ClampSteering | src/windows/trailer_manipulation.cpp:150-154 | The clamped slider value lies in [-1, 1], and a value already in range is kept. |
| Trailers.SteeringStaysInRange | src/windows/trailer_manipulation.cpp:150-187 | Every steering control keeps an angle in [-1, 1] in [-1, 1]. |
| Trailers.ClampsAreOneSided | src/windows/trailer_manipulation.cpp:162-187 | The arrows clamp on one side only: 5.0 goes to 4.98 on the left arrow, and -5.0 to -4.98 on the right arrow. |
| Trailers.ArrowsAreInverse | src/windows/trailer_manipulation.cpp:162-187 | Away from the limits, the two arrows undo each other. |
| Trailers.RightPressesSaturate | src/windows/trailer_manipulation.cpp:179-187 | From an angle in range, n right presses give s + 0.02n, saturating at 1. |
| Trailers.HundredPressesReachFullLock | src/windows/trailer_manipulation.cpp:179-187 | One hundred right presses reach full right lock from anywhere in range. |
| Trailers.TrailerManipulation.RenderTrailerSteering | src/windows/trailer_manipulation.cpp:143-195 | The checkbox flips slot i when clicked. While the slot is locked, one control moves the angle by `SteeringAfter` and passes it to the game's setter once. Otherwise nothing else changes. |

## Left out

- The signature matcher `memory::get_address_for_pattern` is a parameter (`Host.find`). Pattern text is stored already split into literal and wildcard tokens.
- The `name` argument of find_with_fallbacks and each candidate's description are used only in log lines. All logging (`debug`, `info`, `warning`, `error`) is left out.
- find_function_near_address and analyze_binary_around_function are declared in robust_pattern_scanner.hpp, but their bodies are not part of this model.
- ImGui drawing, its one-widget-per-frame input, mouse positions (toggle_input_hook's saved cursor) and vector arithmetic are left out. A click, or a slider value, is a method parameter.
- Float rounding is not modelled: steering angles are `real`. `Trailers.ClampsAreOneSided` and `Trailers.RightPressesSaturate` hold for exact arithmetic, not for `float`.
- Some outside results are passed in as parameters:
  - MinHook's answers are `HookStatus`; the unhook result is only logged.
  - The telemetry SDK's registration is left out.
  - The PhysX engine selector is a parameter. render_trailer_joint reads it through get_base_ctrl_instance (trailer_manipulation.cpp:240).
  - The actor fields that connect_trailer reads through get_game_actor (trailer_manipulation.cpp:205 and 209: the last connected trailer and the truck) are parameters.
  - The first trailer that hk_steering_advance reads through get_game_actor (trailer_manipulation.cpp:42) is a parameter.
- Calls from the trailer code into the core controller are not modelled. Trailers.TrailerManipulation.SteeringAdvance, Trailers.TrailerManipulation.ConnectTrailer and Trailers.TrailerManipulation.RenderTrailerJoint do not model these calls:
  - the get_game_actor calls in hk_steering_advance and connect_trailer;
  - the get_base_ctrl_instance call in render_trailer_joint.

  Each of these calls can search again and rewrite the `Core.Controller` cache, and the model keeps none of that effect. Each C++ caller also dereferences the result without a null check, so it crashes when the lookup returns null. The model takes the values read as parameters and so does not capture that crash.
- The hook bodies hk_crashes_when_disconnected and hk_connect_slave do nothing in the C++ code, so they are not modelled.
- render_trailers (the trailer list window and the vtable hook it installs on the first trailer) is left out. So are is_safe_to_manipulate_trailer and safe_disconnect_trailer, which are not part of this model.
- Concurrency: `locked_trailers` and `trailer_joints` are `thread_local` arrays in the C++ code and are fields of `Trailers.TrailerManipulation` here.
- The chain of trailers is acyclic by hypothesis (`Trailers.IsChain`). A cyclic chain would make hk_steering_advance loop.
- Trailers.TrailerManipulation.SteeringAdvance: requires the found index to be below 20. The C++ code indexes `locked_trailers[20]` without a check.
- Trailers.TrailerManipulation.RenderTrailerJoint: requires i < 20. The C++ code indexes its 20-slot tables without a check.
- Trailers.TrailerManipulation.RenderTrailerSteering: requires i < 20, a non-null wheel-steering pointer and a found steering setter. The C++ code calls the setter without checking it.
- Trailers.TrailerManipulation.ConnectTrailer: calls get_slave_hook_position_fn_ even when it was never set. The model records that call with the stored address (0 when unset).
- Trailers.TrailerManipulation.Init: requires the four bytes at connect_slave + 29 to be readable, because the C++ code reads them without a guard.
- Core.Controller.GetBaseCtrlInstance: requires the cached slot to be readable (`SlotMapped`) and the int32 at +14 of a match to be readable (`OffsetOperandMapped`). The C++ code reads both without a guard.
- Core.Controller.constructor: the declarations of `trailer_connected_` and `connected_trailer_count_` are not part of this model, and the CCore constructor (core.cpp:22-28) does not set them. The model assumes all flags start false and the count starts at 0.
- Core.BaseCtrlResolvedIsStable: requires the null page to be unmapped.
- Core.GameActorResolvedIsStable: requires the null page to be unmapped.
- Core.UpdatedSlot: `%d` overflow of `int` is not modelled. The parsed value is an unbounded integer.
