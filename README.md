# Arc anti-cheat core, modelled in Dafny

This project models the per-participant detection state of the Arc anti-cheat
plugin and the small decision rules around it:

- **Movement aggregation** (`MovingUtil`, `MovingFacts`). `calculateMovement`
  samples the world around clones of a move's `from` and `to` locations, then
  writes the movement record. The record holds the ground and was-on-ground
  flags; the ground, ice, off-ice, sprint, sneak, ascending and descending
  timers; the vertical distance and the one before it; and the climbable,
  climbing and in-liquid flags.
  - The sampling probes (`onGround`, `isOnIce`, `isInOrOnLiquid`,
    `hasClimbable`, `checkBlocksAround`) move a `Location` in place.
  - `MovingFacts` replays runs of moves to state what the counters mean over
    time.
- **Block classification** (`Materials`). These are the 1.8 material tests
  the probes use.
- **Exemptions** (`Exemptions`). This is a map from check type to a stored
  64-bit value, with lazy removal of expired entries.
- **Swing-rate detector** (`Network.SwingFrequency`). It covers the
  constructor defaults, `load`, `reloadConfig`, `unload`, the per-window
  `check`, and the periodic task over the online participants.
- **Combat packet handlers** (`CombatPacketListener`). `onArmSwing` counts
  swings and may cancel them. `onUseEntity` combines the four combat
  detectors.
- **Check registry** (`CheckManager`). It supports `initialize`, `add`,
  `getCheck`, `reload`, `getAllChecks` and `close`.
- **Bypass permissions** (`Permissions`). These are the permission nodes and
  `canBypassChecks`.

The supporting modules:

- `CheckTypes` gives each check type a display name and a category. The names and categories are assumed; see "Left out".
- `Checks` holds configuration sections, check results and the registry's
  view of a detector.
- `Locations` holds the mutable location.
- `PlayerData` holds the per-participant records.

Stateful code is modelled as classes with methods:

- `Location`, `MovingData`, `PacketData`, `CombatData`, `Exemptions`,
  `SwingFrequency`, `CheckManager` and `PacketEvent` are classes.
- Each method is proved against a pure function or predicate of the old
  state.

The pure classification and permission rules are functions and predicates.

`canViewViolations`, `canBypassAllChecks` and `canBypassCategory` are the
predicates `Permissions.CanViewViolations`, `Permissions.CanBypassAllChecks`
and `Permissions.CanBypassCategory`. They test `arc.violations`, `arc.bypass`
and `Permissions.CategoryNode(category)` against the participant's set of
granted nodes. The `isClimbable`, `isIce`, `isFence`, `isWall` and `isLiquid`
tests are the predicates of `Materials`.

## Model

| member | source | states |
|---|---|---|
| Materials.FenceIsExactlyTheListedFences | bridge1_8/src/main/java/bridge1_8/materials/Materials.java:19-32 | a block is a fence exactly when its material is one of the eight listed fence materials |
| Materials.ClassesAreDisjoint | bridge1_8/src/main/java/bridge1_8/materials/Materials.java:50-72 | no material is both climbable and ice; fences are neither climbable nor ice; a wall is none of the others |
| Materials.ClassificationSources | bridge1_8/src/main/java/bridge1_8/materials/Materials.java:50-67 | climbable is exactly ladder or vine and ice exactly ice or packed ice; these tests depend only on the material, and the liquid test only on the block's own liquid flag |
| MovingUtil.FirstCornerFrom | src/main/java/arc/utility/MovingUtil.java:93-99 | the corner index where the scan from `i` stops is at least `i`, at most 4, and the block there matches when it is below 4 |
| MovingUtil.FirstCornerIsFirstHit | src/main/java/arc/utility/MovingUtil.java:88-100 | the corner test holds iff some of the four corners matches; the first match is at the returned index and no earlier corner matches |
| MovingUtil.Reset | src/main/java/arc/utility/MovingUtil.java:129-133 | the location ends exactly at the given original coordinates |
| MovingUtil.GetBlockFromModifier | src/main/java/arc/utility/MovingUtil.java:114-119 | returns the block at the location shifted by the modifiers, reports that position, and leaves the location at the original coordinates |
| MovingUtil.CheckBlocksAround | src/main/java/arc/utility/MovingUtil.java:88-100 | true iff the predicate holds at one of the corners (+x,-z), (-x,+z), (-x,-z), (+x,+z); the positions actually read are exactly those corners in that order, up to and including the first hit; the location is restored exactly |
| MovingUtil.OnGround | src/main/java/arc/utility/MovingUtil.java:25-31 | the answer is solid-below-by-0.5 or a solid corner, and the location is left where it was |
| MovingUtil.HasClimbable | src/main/java/arc/utility/MovingUtil.java:39-43 | the answer is a climbable block here or at a corner, and the location is left where it was |
| MovingUtil.IsInOrOnLiquid | src/main/java/arc/utility/MovingUtil.java:48-54 | the answer is liquid here, below, or at a corner one block up; a miss on the direct sample leaves the location raised by one block |
| MovingUtil.IsOnIce | src/main/java/arc/utility/MovingUtil.java:60-65 | the answer is ice here, below, or at a corner one block up; a miss on the direct sample leaves the location raised by one block |
| MovingUtil.Sample | src/main/java/arc/utility/MovingUtil.java:145-222 | the probes on fresh clones give exactly the observation `Observe` of the two positions; a grounded move's `to` clone ends where all the probes leave it |
| MovingUtil.WriteGround | src/main/java/arc/utility/MovingUtil.java:149-176 | ground flag, was-on-ground, ground time and the ice fields move as one ground step; the ground location is the clone exactly when grounded |
| MovingUtil.WriteIce | src/main/java/arc/utility/MovingUtil.java:164-172 | the ice flag and the ice and off-ice timers move as one ice step |
| MovingUtil.WriteTimers | src/main/java/arc/utility/MovingUtil.java:179-191 | sprint and sneak timers move as one timer step; nothing else in the record changes |
| MovingUtil.WriteVertical | src/main/java/arc/utility/MovingUtil.java:194-213 | vertical, last vertical, the direction flags and their timers move as one vertical step |
| MovingUtil.WriteClimbingAndLiquid | src/main/java/arc/utility/MovingUtil.java:216-224 | climbable, climbing (from the direction flags just written), liquid and update time move as one step |
| MovingUtil.Record | src/main/java/arc/utility/MovingUtil.java:149-224 | the record after the writes is `Moved` of the record before, for the observed move |
| MovingUtil.CalculateMovement | src/main/java/arc/utility/MovingUtil.java:142-225 | the record becomes `Moved(old record, Observe(world, from, to, now))`; when grounded the ground is a fresh clone at the position the probes leave it, otherwise the ground is unchanged |
| MovingFacts.TrailingRun | src/main/java/arc/utility/MovingUtil.java:157-213 | the length of the run of moves at the end of a sequence that satisfy a test: all of them do and the one before does not |
| MovingFacts.GroundFlagsAfterMove | src/main/java/arc/utility/MovingUtil.java:149-154 | after a move, on-ground is the sample at `to` and was-on-ground is `!onGround` or (old on-ground and old was-on-ground) |
| MovingFacts.GroundAndIceAfterMove | src/main/java/arc/utility/MovingUtil.java:157-176 | grounded: ground time +1, ice time +1 and off-ice time 0 on ice, otherwise ice time 0 and off-ice time +1 unless `from` was on ice; airborne: ground time 0, ice fields unchanged |
| MovingFacts.TimersAfterMove | src/main/java/arc/utility/MovingUtil.java:179-191 | sprint and sneak timers grow by one iff their flag is set and are 0 otherwise; the flags are not changed |
| MovingFacts.VerticalAfterMove | src/main/java/arc/utility/MovingUtil.java:194-213 | last vertical is the old vertical and vertical the new distance; ascending and descending are never both set, both clear on a level move, and each timer grows iff its flag is set |
| MovingFacts.ClimbingAfterMove | src/main/java/arc/utility/MovingUtil.java:216-224 | climbing iff a climbable was sampled and the move ascends or descends; liquid and update time are the sampled ones |
| MovingFacts.FreshIsCoherent | src/main/java/arc/utility/MovingUtil.java:157-219 | an untouched record satisfies the flag/counter consistency |
| MovingFacts.MovedKeepsCoherent | src/main/java/arc/utility/MovingUtil.java:149-224 | one move preserves the consistency between flags and counters (each counter positive iff its flag, the sprint and sneak timers included, not both directions, climbing iff climbable while moving vertically) |
| MovingFacts.ReplayKeepsCoherent | src/main/java/arc/utility/MovingUtil.java:142-225 | any run of moves preserves that consistency |
| MovingFacts.GroundTimeIsGroundedRun | src/main/java/arc/utility/MovingUtil.java:157-176 | after a run of moves, ground time is the number of trailing grounded moves (added to the old value if every move was grounded) |
| MovingFacts.AscendingTimeIsAscendingRun | src/main/java/arc/utility/MovingUtil.java:199-207 | ascending time is the number of trailing ascending moves (added to the old value if every move ascended) |
| MovingFacts.DescendingTimeIsDescendingRun | src/main/java/arc/utility/MovingUtil.java:200-213 | descending time is the number of trailing descending moves (added to the old value if every move descended) |
| MovingFacts.SprintTimeOverRun | src/main/java/arc/utility/MovingUtil.java:179-185 | over a non-empty run the sprint flag stays and sprint time grows by the run's length, or is 0 when not sprinting |
| MovingFacts.SettledIffAlwaysGrounded | src/main/java/arc/utility/MovingUtil.java:149-154 | on-ground and was-on-ground both hold after a run iff they both held before and every move was grounded |
| MovingFacts.WasOnGroundAfterRun | src/main/java/arc/utility/MovingUtil.java:149-154 | after a non-empty run, was-on-ground is "last move airborne, or settled before and every earlier move grounded" |
| MovingFacts.WasOnGroundFromFresh | src/main/java/arc/utility/MovingUtil.java:153-154 | from an untouched record, after any non-empty run, was-on-ground is exactly the negation of on-ground |
| MovingFacts.NoDebounceAcrossOneAirborneMove | src/main/java/arc/utility/MovingUtil.java:154 | grounded, airborne, grounded from an untouched record leaves was-on-ground false: one grounded move after an airborne one already clears it |
| Exemptions.WrapLong | src/main/java/arc/exemption/Exemptions.java:38 | the result is a `long`, congruent to the exact value modulo 2^64, and equal to it when it fits |
| Exemptions.Exemptions.constructor | src/main/java/arc/exemption/Exemptions.java:16 | a new record has no entries |
| Exemptions.Exemptions.AddExemption | src/main/java/arc/exemption/Exemptions.java:24-26 | the given value is stored as is for the check, replacing any earlier one, and nothing else changes |
| Exemptions.Exemptions.IsExempt | src/main/java/arc/exemption/Exemptions.java:34-41 | the answer is `ExemptAt` of the entries before the call, and the entries become `AfterQuery` of them |
| Exemptions.Exemptions.Dispose | src/main/java/arc/exemption/Exemptions.java:46-48 | the record is left with no entries |
| Exemptions.MissingIsNotExempt | src/main/java/arc/exemption/Exemptions.java:35-36 | a check with no entry is not exempt and the query leaves the entries unchanged |
| Exemptions.ZeroIsNotExempt | src/main/java/arc/exemption/Exemptions.java:36 | a stored 0 is not exempt and that entry is kept |
| Exemptions.ExemptUntilStoredTime | src/main/java/arc/exemption/Exemptions.java:38-40 | without overflow a non-zero entry is exempt iff `now <= stored`; exempt keeps the entry; expired removes only that check's entry |
| Exemptions.WrappedSubtractionExempts | src/main/java/arc/exemption/Exemptions.java:38 | an entry holding the smallest `long` reads as exempt at time 1000, because the subtraction wraps |
| Exemptions.QueryIsIdempotent | src/main/java/arc/exemption/Exemptions.java:35-40 | asking a second time gives the same answer and removes nothing more |
| Exemptions.AddedValueIsTheExpiry | src/main/java/arc/exemption/Exemptions.java:24-38 | right after adding `d` the check is exempt iff `d != 0` and `now - d` (wrapped) is not positive, so a duration smaller than the current time is already expired |
| Exemptions.DisposedIsNeverExempt | src/main/java/arc/exemption/Exemptions.java:46-48 | after disposal no check is exempt at any time |
| Network.SwingFrequency.constructor | src/main/java/arc/check/network/SwingFrequency.java:27-44 | the type is swing frequency; the settings are enabled, cancel at level 0, notify every 1, ban at level 10, kick at level 5; the section holds the three defaults; being enabled it is loaded, giving 50, false, 100 and one window task |
| Network.SwingFrequency.AddConfigurationValue | src/main/java/arc/check/network/SwingFrequency.java:40-42 | the section gains the key with the value and nothing else changes |
| Network.SwingFrequency.Load | src/main/java/arc/check/network/SwingFrequency.java:78-88 | the three tunables are exactly what the section holds under their three keys, and one more window task is registered |
| Network.SwingFrequency.ReloadConfig | src/main/java/arc/check/network/SwingFrequency.java:73-75 | the same as `load` |
| Network.SwingFrequency.Unload | src/main/java/arc/check/network/SwingFrequency.java:91-93 | no window task remains and the tunables are unchanged |
| Network.SwingFrequency.Check | src/main/java/arc/check/network/SwingFrequency.java:52-70 | the result is `Judge(count, max)`; a kick is requested iff `KickRequested`; the counter ends 0 and the cancel flag ends as the violation outcome says, on both paths |
| Network.SwingFrequency.RunWindow | src/main/java/arc/check/network/SwingFrequency.java:83-87 | exempt participants keep their counter and cancel flag and are never kicked; every other one is checked as `Check` says |
| Network.FailsIffMaximumReached | src/main/java/arc/check/network/SwingFrequency.java:56-59 | a window fails iff the count reaches the maximum (equal counts fail, one less passes) and then reports packets and max |
| Network.KickOnlyOnFailure | src/main/java/arc/check/network/SwingFrequency.java:60-62 | a kick request implies a failed window, the kick threshold reached, the kick flag set and no kick pending |
| Network.DefaultLimits | src/main/java/arc/check/network/SwingFrequency.java:40-42 | loading the default section gives 50, false and 100 |
| Network.LoadReadsOnlyItsKeys | src/main/java/arc/check/network/SwingFrequency.java:79-81 | two sections that agree on the three keys load the same tunables |
| CombatPacketListener.OnArmSwing | src/main/java/arc/listener/combat/CombatPacketListener.java:87-99 | the swing counter grows by exactly one; when swings are being cancelled the event is cancelled and the last swing time kept; otherwise the last swing time is `now` and the event is left as it was |
| CombatPacketListener.OnUseEntity | src/main/java/arc/listener/combat/CombatPacketListener.java:64-80 | a non-attack or a non-living target leaves the event alone and runs nothing; otherwise the enabled detectors run in the order kill-aura, reach, no-swing, criticals, and the event is cancelled iff one of them objects |
| CheckManager.CheckManager.constructor | src/main/java/arc/check/CheckManager.java:28 | a new registry is empty |
| CheckManager.CheckManager.Add | src/main/java/arc/check/CheckManager.java:54-56 | the set gains the check and loses nothing |
| CheckManager.CheckManager.Register | src/main/java/arc/check/CheckManager.java:34 | a fresh, untouched check of the given type is created and added |
| CheckManager.CheckManager.Initialize | src/main/java/arc/check/CheckManager.java:33-47 | thirteen fresh, pairwise different checks are added, one per type in creation order, and nothing else |
| CheckManager.CheckManager.Reload | src/main/java/arc/check/CheckManager.java:58-61 | every registered check receives the same configuration once; the set is unchanged |
| CheckManager.CheckManager.GetCheck | src/main/java/arc/check/CheckManager.java:69-71 | a found check is registered and of the asked type; not found happens iff no registered check has that type, with the message "Could not find check " and the name |
| CheckManager.CheckManager.GetAllChecks | src/main/java/arc/check/CheckManager.java:76-78 | returns the registered set |
| CheckManager.CheckManager.Close | src/main/java/arc/check/CheckManager.java:80-84 | every registered check is unloaded exactly once, then the set is empty |
| CheckManager.ThirteenTypes | src/main/java/arc/check/CheckManager.java:33-47 | the creation list holds thirteen pairwise different types |
| Permissions.Lower | src/main/java/arc/permissions/Permissions.java:90 | same length, and every character is lower-cased |
| Permissions.CanBypassChecks | src/main/java/arc/permissions/Permissions.java:100-110 | true iff the global node is held or some listed check has its category node or its check node held |
| Permissions.LowerIsIdempotent | src/main/java/arc/permissions/Permissions.java:90 | lower-casing twice is lower-casing once |
| Permissions.LowerLeavesNoCapitals | src/main/java/arc/permissions/Permissions.java:90 | no capital letter survives, and other characters are kept |
| Permissions.BypassNodesAreNotOtherNodes | src/main/java/arc/permissions/Permissions.java:89-106 | every category node and check node differs from `arc.violations` and from `arc.bypass` |
| Permissions.ViewingAndBypassAreSeparate | src/main/java/arc/permissions/Permissions.java:68-70 | `canViewViolations` holds with `arc.violations` alone, which bypasses no list of checks; `arc.bypass` alone bypasses everything but does not show violations |
| Permissions.BypassAllNeedsTheGlobalNode | src/main/java/arc/permissions/Permissions.java:78-80 | `canBypassAllChecks` is false for a holder of category and check nodes and `arc.violations` who lacks `arc.bypass` |
| Permissions.CategoryNodeBypassesItsChecks | src/main/java/arc/permissions/Permissions.java:89-91 | holding a category's node bypasses every list that names a check of that category |
| Permissions.CategoryNodeIsPerCategory | src/main/java/arc/permissions/Permissions.java:89-91 | categories whose lower-cased names differ have different nodes, so one category's node does not bypass another |
| Permissions.GlobalNodeBypassesEverything | src/main/java/arc/permissions/Permissions.java:101 | when `canBypassAllChecks` holds, any list is bypassed, the empty list included |
| Permissions.EmptyListNeedsGlobalNode | src/main/java/arc/permissions/Permissions.java:100-109 | with no checks listed, bypass holds iff `arc.bypass` is held |
| Permissions.OnlyTheListedSetMatters | src/main/java/arc/permissions/Permissions.java:103-108 | lists with the same elements give the same answer, whatever their order or repetition |
| Permissions.CheckNodeExtendsCategoryNode | src/main/java/arc/permissions/Permissions.java:89-106 | a check node is its category node followed by a dot and more, so the two nodes differ |

## Left out

- Floating point: coordinates and distances are reals, so rounding of `double` arithmetic is not modelled.
- The source of `Blocks`, `MathUtil` and `MovingData` is not available, so they are modelled from how `MovingUtil` uses them.
  - The world is a total block-lookup function over positions.
  - `MathUtil.vertical` is a function parameter.
  - `MovingData` is the class `PlayerData.MovingData`; its getters and setters are modelled as updates of its four section records.
- MovingUtil.Sample: the source interleaves probes and writes; the model samples first and writes afterwards. The probes touch only the clones and the writes touch only the record, so the outcome is the same. The interleaving itself is not modelled.
- `isOnIceTrapdoor` (a constant `true` stub) is not modelled.
- Counters (`int` in the source) are unbounded integers; overflow after 2^31 moves is not modelled.
- The clock (`System.currentTimeMillis`) is the `now` parameter.
- The host permission check is membership in a set of granted nodes. Operator status and permission defaults are not modelled.
- Permissions.Lower lower-cases ASCII letters only. `toLowerCase` also maps other letters and depends on the locale; category and check names are ASCII.
- Violation bookkeeping, the punishment manager and the combat detectors themselves are not part of this model; they are represented by what they return.
  - `checkViolation(...).cancel()` is the `violationCancel` parameter.
  - `hasPendingKick` is the `pendingKick` parameter.
  - A requested `kickPlayer` is the returned `kick` flag.
  - Each combat detector's `check` result is `CombatCheck.verdict`.
  - Side effects of running those detectors are not modelled; `OnUseEntity` only returns which ones ran.
- Scheduling is a task count: `schedule` adds one and `cancelScheduled` clears them all. Timing (every 20 ticks) and threads are not modelled. Because `reloadConfig` calls `load`, each reload registers another task unless the check is unloaded first.
- The `Check` base class (settings builder, `addConfigurationValue`, `reload(configuration)`, configuration sections) is not part of this model.
  - `addConfigurationValue` is modelled as putting the default into the check's section.
  - `getInt` and `getBoolean` default to 0 and false.
  - In the registry, a detector is a `Checks.Check` that records the reloads and unloads it receives; what each detector does then is left out.
- CheckManager.GetAllChecks returns the set as a value; that the caller receives the live, mutable set (aliasing) is not captured.
- CheckManager.Initialize creates the thirteen checks by walking the list of their types in the source's order, rather than with thirteen separate statements.
- The `CombatPacketListener` constructor's four `getCheck` lookups and the casts are not modelled; `getCheck` itself is.
- Packet decoding: a use-entity packet is given as its action and whether the target is a living entity.
- Concurrency between the network thread (swing counting) and the window task is not modelled.
- `wasOnGround` is not a record of earlier grounding. MovingUtil.java:154 sets it to `!onGround || (currentOnGround && previousOnGround)`, so starting from a fresh record it is always the negation of the new on-ground flag (`MovingFacts.WasOnGroundFromFresh`). One grounded move after an airborne one therefore clears it (`MovingFacts.NoDebounceAcrossOneAirborneMove`), although the name suggests it should hold.
- `addExemption` stores its argument as the expiry time itself (Exemptions.java:24-25), although the parameter is named `duration` and documented as "the duration". `isExempt` compares the stored value with the current time, never adding it to anything (`Exemptions.AddedValueIsTheExpiry`). A zero argument means "not exempt".
- Check type names and categories are assumed. CheckType.java:6-23 declares only `NOFALL`, `FLIGHT`, `SPEED` and `CRITICALS`, with no `getName()` or `category()`, and `CheckCategory` is not part of this model. The thirteen types in `CheckTypes` take their names from the detector classes `CheckManager.initialize` creates, and their categories from those classes' packages. The permission nodes in `Permissions` are therefore stated over whatever name and category a type has, not over particular strings.
