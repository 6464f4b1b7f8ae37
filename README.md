# Logica AI core in Dafny

Logica is a Minecraft Forge mod that gives hostile mobs a perception-driven
behaviour cycle. Each mob carries an AI capability record. The record holds a
state (IDLE, ALERT, COMBAT, TRACKING, SEARCHING), a strategy (NONE, GUARD,
SENTRIES, PATROL), a team number, remembered positions and a waypoint route.

- Sounds move a mob from IDLE to ALERT. Spotting a player moves it to COMBAT.
- Losing sight of the target moves it to TRACKING, and losing the target
  entirely moves it to SEARCHING.
- Strategy marker blocks hand spawning mobs a strategy and a waypoint route.
  The route is found by a breadth-first search over waypoint blocks of the
  same team.
- Per-strategy goals (guard, sentries, patrol) run while the mob is IDLE.

This project models that core and proves properties of it:

- the capability record and its NBT save/load;
- the configuration parsing;
- the waypoint search;
- the spawn and marker goal registration;
- the perception event handler, including the sentry bell schedule;
- the eight goals.

Each goal is a `class` whose fields are the Java goal's fields. The mob is a
`class` too (`Mobs.Mob`): its goal list, persistent flags, navigation
destination and target change in place. Each goal method is proved against a
pure step function on a datatype snapshot of the goal (`State()`), and the
lemmas about the step functions state what the goal promises.

Engine observations are parameters (per-goal `TickInput` values or method
arguments). These include distances already compared with their thresholds,
whether a path exists, whether the navigation accepted it, line of sight and
random draws.

Modules, one per source file:

- `Types`: positions, states, strategies, points and the `(int)` cast.
- `StrategyParsing`: `AIStrategy.fromString`.
- `Capability`: `AICapability`.
- `Persistence`: `AICapabilityProvider`'s NBT codec.
- `Config`: `LogicaConfig`'s parsing and cache.
- `WaypointFinder`: the waypoint search.
- `Mobs`: the mob and `EntitySpawnHandler`.
- `Marker`: `BaseStrategyBlockEntity`.
- `Perception`: `PerceptionEventHandler`.
- The goal modules: `CombatMonitor`, `Tracking`, `Investigate`, `Searching`,
  `Guard`, `Sentries`, `Patrol`.

Source paths below are relative to the repository root.

## Model

| member | source | states |
|---|---|---|
| Types.IntCast | src/main/java/com/sorcery/logica/events/PerceptionEventHandler.java:131 | Java's `(int)` cast of a double truncates toward zero. The result is within one of the argument: at or below it for non-negative arguments, at or above it for negative ones. |
| Types.IntCastVsFloor | src/main/java/com/sorcery/logica/events/PerceptionEventHandler.java:131 | Truncating a coordinate gives the containing block's coordinate, except for a negative non-whole value, where it gives one more. |
| Types.BlockOfAsWritten | src/main/java/com/sorcery/logica/events/PerceptionEventHandler.java:131 | The block built by `(int)` casts, as written here and at TrackingGoal.java:241: each coordinate equals the containing block's, except one more for a negative non-whole coordinate. |
| Types.BlockContaining | src/main/java/com/sorcery/logica/events/PerceptionEventHandler.java:131 | The block whose unit cube contains a point. This is the corrected sound block. |
| Types.BlockContainingUnique | src/main/java/com/sorcery/logica/events/PerceptionEventHandler.java:131 | Exactly one block contains a given point. |
| Types.BlockOfNonNegative | src/main/java/com/sorcery/logica/events/PerceptionEventHandler.java:131 | For non-negative coordinates, the truncating conversion as written gives the containing block. |
| Types.SoundBlockOffByOne | src/main/java/com/sorcery/logica/goals/TrackingGoal.java:241 | Counterexample. The point (-0.5, 64, 3.25) is converted to block (0, 64, 3), which does not contain it; the containing block is (-1, 64, 3). |
| StrategyParsing.LowerChar | src/main/java/com/sorcery/logica/ai/AIStrategy.java:33 | Lower-cases A-Z to a-z and leaves every other character unchanged. |
| StrategyParsing.ToLower | src/main/java/com/sorcery/logica/ai/AIStrategy.java:33 | Same length, and each character is lower-cased position by position. |
| StrategyParsing.FromString | src/main/java/com/sorcery/logica/ai/AIStrategy.java:32-39 | A strategy other than NONE is chosen exactly when the lower-cased input is "guard", "sentries" or "patrol", and then it is the strategy whose lower-cased name matches the input. |
| StrategyParsing.FromStringCases | src/main/java/com/sorcery/logica/ai/AIStrategy.java:32-39 | GUARD, SENTRIES and PATROL are chosen exactly when the lower-cased input is their name. Every other string yields NONE. |
| StrategyParsing.ToLowerIdempotent | src/main/java/com/sorcery/logica/ai/AIStrategy.java:33 | Lower-casing twice is the same as lower-casing once. |
| StrategyParsing.CaseInsensitive | src/main/java/com/sorcery/logica/ai/AIStrategy.java:32-39 | Strings that agree after lower-casing parse to the same strategy. |
| StrategyParsing.NameRoundTrip | src/main/java/com/sorcery/logica/ai/AIStrategy.java:8-39 | The lower-cased declared name of each strategy parses back to that strategy. |
| Capability.Fresh | src/main/java/com/sorcery/logica/capability/AICapability.java:16-27 | A fresh capability is IDLE with strategy NONE and team 0. It has no positions, an empty route and zero counters. |
| Capability.AICapability.constructor | src/main/java/com/sorcery/logica/capability/AICapability.java:16-27 | A new capability holds the fresh record. |
| Capability.AICapability.SetState | src/main/java/com/sorcery/logica/capability/AICapability.java:35-44 | Only the state changes, to the given state, whether or not it differed before. |
| Capability.AICapability.SetStrategy | src/main/java/com/sorcery/logica/capability/AICapability.java:52-54 | Only the strategy changes. |
| Capability.AICapability.SetAreaTeam | src/main/java/com/sorcery/logica/capability/AICapability.java:62-64 | Only the team changes. Any value is stored; the 0-15 range is not checked. |
| Capability.AICapability.SetSpawnPosition | src/main/java/com/sorcery/logica/capability/AICapability.java:72-74 | Only the spawn position changes. Null is allowed. |
| Capability.AICapability.SetStrategyMarkerPos | src/main/java/com/sorcery/logica/capability/AICapability.java:82-84 | Only the marker position changes. |
| Capability.AICapability.SetLastKnownTargetPos | src/main/java/com/sorcery/logica/capability/AICapability.java:112-114 | Only the last known target position changes. |
| Capability.AICapability.SetInterruptedPatrolPosition | src/main/java/com/sorcery/logica/capability/AICapabilityProvider.java:138-141 | Only the interrupted patrol position changes. |
| Capability.AICapability.SetWaypoints | src/main/java/com/sorcery/logica/capability/AICapability.java:92-94 | Only the route changes. A null list is stored as the empty list. |
| Capability.AICapability.SetCurrentWaypointIndex | src/main/java/com/sorcery/logica/capability/AICapability.java:102-104 | Only the waypoint index changes. It is not range-checked. |
| Capability.AICapability.SetTrackingTicks | src/main/java/com/sorcery/logica/capability/AICapability.java:122-124 | Only the tracking tick count changes. |
| Capability.AICapability.SetHasBasicGoals | src/main/java/com/sorcery/logica/events/EntitySpawnHandler.java:168-170 | Only the basic-goals flag changes. |
| Persistence.KeyNamesDistinct | src/main/java/com/sorcery/logica/capability/AICapabilityProvider.java:46-93 | The eleven NBT keys are pairwise distinct, so no field overwrites another. |
| Persistence.Signed | src/main/java/com/sorcery/logica/capability/AICapabilityProvider.java:120 | Narrowing a stored number to a Java int (or byte) lands in the signed range. |
| Persistence.AsLong | src/main/java/com/sorcery/logica/capability/AICapabilityProvider.java:55-57 | `BlockPos.asLong` packs a position into a signed 64-bit value. |
| Persistence.OfLong | src/main/java/com/sorcery/logica/capability/AICapabilityProvider.java:124-126 | `BlockPos.of` unpacks any long into a position whose coordinates fit the packed widths. |
| Persistence.PackRoundTrip | src/main/java/com/sorcery/logica/capability/AICapabilityProvider.java:124-126 | Unpacking a packed in-range position gives it back. |
| Persistence.PackInjective | src/main/java/com/sorcery/logica/capability/AICapabilityProvider.java:55-57 | Distinct in-range positions pack to distinct longs. |
| Persistence.StateOf | src/main/java/com/sorcery/logica/capability/AICapabilityProvider.java:101-107 | `AIState.valueOf` succeeds only on a state's exact name, and yields that state. |
| Persistence.StrategyOf | src/main/java/com/sorcery/logica/capability/AICapabilityProvider.java:110-116 | `AIStrategy.valueOf` succeeds only on a strategy's exact name, and yields that strategy. |
| Persistence.NamesRoundTrip | src/main/java/com/sorcery/logica/capability/AICapabilityProvider.java:101-116 | Saved names load back to the same value. Exactly the strings other than the declared names fail. |
| Persistence.WaypointTags | src/main/java/com/sorcery/logica/capability/AICapabilityProvider.java:75-84 | One compound tag per waypoint, in order, each holding the packed position. |
| Persistence.DecodeWaypoints | src/main/java/com/sorcery/logica/capability/AICapabilityProvider.java:144-152 | One position per list item, in order. Each is read from the item's `pos` long, or from 0 when the item has none. |
| Persistence.WaypointsRoundTrip | src/main/java/com/sorcery/logica/capability/AICapabilityProvider.java:144-152 | Decoding the saved list of an in-range route gives the route back. |
| Persistence.SaveLoadRoundTrip | src/main/java/com/sorcery/logica/capability/AICapabilityProvider.java:42-168 | Loading a saved record into a fresh capability restores every field, when all positions are in range. |
| Persistence.BuildWaypointList | src/main/java/com/sorcery/logica/capability/AICapabilityProvider.java:75-84 | The loop writes exactly one position tag per waypoint, in order. |
| Persistence.EncodeScalars | src/main/java/com/sorcery/logica/capability/AICapabilityProvider.java:45-93 | The save writes state and strategy names, team, waypoint index, tracking ticks and the basic-goals flag under their keys. |
| Persistence.EncodeSpawnAndMarker | src/main/java/com/sorcery/logica/capability/AICapabilityProvider.java:54-62 | The spawn and marker positions are written as longs exactly when present. |
| Persistence.EncodeTargetAndInterrupted | src/main/java/com/sorcery/logica/capability/AICapabilityProvider.java:64-72 | The target and interrupted positions are written as longs exactly when present. |
| Persistence.EncodeWaypointList | src/main/java/com/sorcery/logica/capability/AICapabilityProvider.java:74-84 | The waypoint list is written exactly when the route is non-empty. |
| Persistence.PosFieldRoundTrip | src/main/java/com/sorcery/logica/capability/AICapabilityProvider.java:123-141 | A position field written by the save reads back as the same optional position. |
| Persistence.DecodeDefaults | src/main/java/com/sorcery/logica/capability/AICapabilityProvider.java:99-116 | An empty tag changes nothing. An unknown state name loads IDLE, and an unknown strategy name loads NONE. |
| Persistence.SerializeNBT | src/main/java/com/sorcery/logica/capability/AICapabilityProvider.java:42-96 | The built tag is the encoding of the capability's record. |
| Persistence.DeserializeNBT | src/main/java/com/sorcery/logica/capability/AICapabilityProvider.java:99-168 | The capability ends as the decoding of the tag over its previous record. Absent keys leave fields unchanged. |
| Persistence.LoadHeader | src/main/java/com/sorcery/logica/capability/AICapabilityProvider.java:100-121 | Reads state, strategy and team, with the fallbacks for unknown names. |
| Persistence.LoadPositions | src/main/java/com/sorcery/logica/capability/AICapabilityProvider.java:123-141 | Reads the four optional positions. |
| Persistence.LoadWaypoints | src/main/java/com/sorcery/logica/capability/AICapabilityProvider.java:143-152 | Replaces the route with the decoded list when the key is present. |
| Persistence.ReadWaypoints | src/main/java/com/sorcery/logica/capability/AICapabilityProvider.java:145-150 | The loop reads exactly the decoded list. |
| Persistence.LoadCounters | src/main/java/com/sorcery/logica/capability/AICapabilityProvider.java:154-167 | Reads the waypoint index, the tracking ticks and the basic-goals flag. |
| Config.Defaults | src/main/java/com/sorcery/logica/config/LogicaConfig.java:177-383 | The default settings lie within every declared range. Debug and navigation logs are off; alert-all-types and ignore-creative are on. |
| Config.InRange | src/main/java/com/sorcery/logica/config/LogicaConfig.java:177-383 | Settings within the declared ranges have positive look-around and bell intervals, at least one bell, and a patrol search radius wider than the sentries one. |
| Config.LogSwitches | src/main/java/com/sorcery/logica/config/LogicaConfig.java:84-126 | A category logs exactly when both the master switch and its own switch are on. Nothing logs by default. |
| Config.ShouldLog | src/main/java/com/sorcery/logica/config/LogicaConfig.java:84-126 | A category logs only when the master debug switch is on, and never when its own switch is off. |
| Config.SplitAll | src/main/java/com/sorcery/logica/config/LogicaConfig.java:138 | Splitting on `=` yields at least one part, and no part contains `=`. |
| Config.SplitAllJoin | src/main/java/com/sorcery/logica/config/LogicaConfig.java:138 | Joining the parts with `=` gives the original string back. |
| Config.DropTrailingEmpty | src/main/java/com/sorcery/logica/config/LogicaConfig.java:138 | `String.split` drops exactly the trailing empty parts and keeps the rest as a prefix. |
| Config.JavaSplit | src/main/java/com/sorcery/logica/config/LogicaConfig.java:138 | `split("=")` gives a prefix of all `=`-separated parts with no part holding `=` and no trailing empty part; every part it drops is empty, so only trailing empty parts go. A string without `=` is one part, itself. |
| Config.TrimLeft | src/main/java/com/sorcery/logica/config/LogicaConfig.java:141-142 | Removes exactly the leading characters at or below U+0020. |
| Config.TrimRight | src/main/java/com/sorcery/logica/config/LogicaConfig.java:141-142 | Removes exactly the trailing characters at or below U+0020. |
| Config.Trim | src/main/java/com/sorcery/logica/config/LogicaConfig.java:141-142 | The trimmed string is no longer than the input and neither starts nor ends with a character at or below U+0020. |
| Config.TrimShape | src/main/java/com/sorcery/logica/config/LogicaConfig.java:141-142 | The trimmed string is a contiguous slice with only control or space characters cut on either side. |
| Config.TrimIdempotent | src/main/java/com/sorcery/logica/config/LogicaConfig.java:141-142 | Trimming twice is trimming once. |
| Config.DigitValue | src/main/java/com/sorcery/logica/config/LogicaConfig.java:142 | A decimal digit's value is at most 9. |
| Config.ParseInt | src/main/java/com/sorcery/logica/config/LogicaConfig.java:142-147 | `Integer.parseInt` yields only values within the 32-bit range. |
| Config.NatToDigits | src/main/java/com/sorcery/logica/config/LogicaConfig.java:233-241 | The decimal digits of a natural number form a non-empty digit string. |
| Config.DigitsRoundTrip | src/main/java/com/sorcery/logica/config/LogicaConfig.java:142 | Reading back the digits of a number gives the number. |
| Config.ParseIntRoundTrip | src/main/java/com/sorcery/logica/config/LogicaConfig.java:142 | Every 32-bit integer's decimal text parses back to it. |
| Config.Entries | src/main/java/com/sorcery/logica/config/LogicaConfig.java:137-149 | Each configured entry is parsed independently, in order. |
| Config.Entry | src/main/java/com/sorcery/logica/config/LogicaConfig.java:137-149 | An entry contributes only when it splits into exactly two parts, and then it contributes the trimmed first part and the parsed trimmed second part. |
| Config.FoldSources | src/main/java/com/sorcery/logica/config/LogicaConfig.java:137-149 | Every key and value in the built map come from one of the parsed entries. |
| Config.ParseAll | src/main/java/com/sorcery/logica/config/LogicaConfig.java:134-152 | Every mapped duration is a 32-bit value that some entry of the list contributes for that event. |
| Config.FoldLastWins | src/main/java/com/sorcery/logica/config/LogicaConfig.java:143 | A key is in the map exactly when some parsed entry has it. Its value comes from the last such entry. |
| Config.ParseAllLastWins | src/main/java/com/sorcery/logica/config/LogicaConfig.java:134-152 | Same, stated on the configured strings: the last well-formed entry for an event wins. |
| Config.ParseAllSkipsMalformed | src/main/java/com/sorcery/logica/config/LogicaConfig.java:139-147 | A malformed entry (wrong part count or bad number) changes nothing. |
| Config.TrailingSeparatorCounts | src/main/java/com/sorcery/logica/config/LogicaConfig.java:138-139 | `a=5=` counts as two parts because `split` drops the trailing empty part, so it is accepted as a=5. |
| Config.ThreePartsSkipped | src/main/java/com/sorcery/logica/config/LogicaConfig.java:138-139 | `a=5=6` has three parts and is skipped. |
| Config.FormatEntryRoundTrip | src/main/java/com/sorcery/logica/config/LogicaConfig.java:137-149 | An entry written as `id = ticks` parses back to (id, ticks). |
| Config.DefaultStrings | src/main/java/com/sorcery/logica/config/LogicaConfig.java:233-241 | The nine default entries are the stated event ids and tick counts. |
| Config.DefaultEntriesParsed | src/main/java/com/sorcery/logica/config/LogicaConfig.java:231-241 | Every default entry is well formed. |
| Config.DefaultDurationsParsed | src/main/java/com/sorcery/logica/config/LogicaConfig.java:231-241 | The default list parses to the map of the nine event durations. |
| Config.ParseEntry | src/main/java/com/sorcery/logica/config/LogicaConfig.java:138-147 | One entry yields its trimmed id and parsed ticks when it splits into exactly two parts and the number parses; otherwise it is skipped. |
| Config.ParseEventInvestigationDurations | src/main/java/com/sorcery/logica/config/LogicaConfig.java:134-152 | The loop builds exactly the parsed map. |
| Config.DurationCache.constructor | src/main/java/com/sorcery/logica/config/LogicaConfig.java:155 | The cache starts empty. |
| Config.DurationCache.GetEventInvestigationDurations | src/main/java/com/sorcery/logica/config/LogicaConfig.java:160-165 | The first call parses and caches the map. Later calls return the cached map even if the entries changed. |
| Config.DurationCache.GetInvestigationDurationForEvent | src/main/java/com/sorcery/logica/config/LogicaConfig.java:172-175 | The event's configured duration, or the default when it is not configured. |
| Config.DurationFor | src/main/java/com/sorcery/logica/config/LogicaConfig.java:172-175 | A duration is either the default or the value of some entry for that event. |
| WaypointFinder.WaypointKind | src/main/java/com/sorcery/logica/util/WaypointFinder.java:205-211 | GUARD and NONE have no waypoint block (empty route). PATROL and SENTRIES have their own. |
| WaypointFinder.GroundFromProperties | src/main/java/com/sorcery/logica/util/WaypointFinder.java:260-282 | Scanning down from a height finds the block above the highest full block. With none down to the minimum height, the start is kept. |
| WaypointFinder.GroundProperties | src/main/java/com/sorcery/logica/util/WaypointFinder.java:260-282 | Same, from the waypoint's own height. |
| WaypointFinder.FindGroundBelow | src/main/java/com/sorcery/logica/util/WaypointFinder.java:260-282 | The downward loop returns that ground position. |
| WaypointFinder.GroundAll | src/main/java/com/sorcery/logica/util/WaypointFinder.java:141-145 | Each found waypoint is replaced by its ground position, in order. |
| WaypointFinder.LessEqTotal | src/main/java/com/sorcery/logica/util/WaypointFinder.java:191-193 | The Y, X, Z comparator is total and antisymmetric. |
| WaypointFinder.Insert | src/main/java/com/sorcery/logica/util/WaypointFinder.java:191-193 | Insertion keeps the list sorted and adds exactly one element. |
| WaypointFinder.SortYXZ | src/main/java/com/sorcery/logica/util/WaypointFinder.java:190-193 | The sort returns a sorted permutation of its input. |
| WaypointFinder.SortedUnique | src/main/java/com/sorcery/logica/util/WaypointFinder.java:190-193 | Two sorted permutations of the same elements are equal. |
| WaypointFinder.ExtendsByOne | src/main/java/com/sorcery/logica/util/WaypointFinder.java:169-177 | Enqueuing an unvisited matching neighbour keeps the scan invariant. |
| WaypointFinder.CoveredCube | src/main/java/com/sorcery/logica/util/WaypointFinder.java:159-187 | After the three nested loops, every matching block in the cube other than the centre is visited. |
| WaypointFinder.ScanNeighbourhood | src/main/java/com/sorcery/logica/util/WaypointFinder.java:155-187 | The neighbour scan visits exactly the matching blocks within the radius that were not visited before, and appends them to the queue. |
| WaypointFinder.ChainEndVisited | src/main/java/com/sorcery/logica/util/WaypointFinder.java:133-188 | When the search is closed, every chain of links from the marker ends at a visited block. |
| WaypointFinder.PathsStep | src/main/java/com/sorcery/logica/util/WaypointFinder.java:133-188 | Every visited block stays reachable from the marker by a chain of links. |
| WaypointFinder.QueueStep | src/main/java/com/sorcery/logica/util/WaypointFinder.java:133-188 | The queue holds exactly the visited blocks not yet processed, without repeats. |
| WaypointFinder.CellsStep | src/main/java/com/sorcery/logica/util/WaypointFinder.java:136-150 | The result list holds exactly the processed matching blocks, each once. |
| WaypointFinder.ClosedStep | src/main/java/com/sorcery/logica/util/WaypointFinder.java:155-187 | Every link out of a processed block leads to a visited block. |
| WaypointFinder.SearchComplete | src/main/java/com/sorcery/logica/util/WaypointFinder.java:104-200 | At the end, the found blocks are exactly the matching waypoints reachable from the marker. |
| WaypointFinder.FindWaypoints | src/main/java/com/sorcery/logica/util/WaypointFinder.java:104-200 | The route holds the ground positions of exactly the reachable same-team waypoints, each once, sorted by Y, X, Z. It is empty for GUARD and NONE. |
| WaypointFinder.ResultIndependentOfOrder | src/main/java/com/sorcery/logica/util/WaypointFinder.java:104-200 | Any two results meeting that description are equal, so the route does not depend on visiting order. |
| Mobs.Mob.StopNavigation | src/main/java/com/sorcery/logica/goals/InvestigateGoal.java:169 | Navigation stops. Nothing else about the mob changes. |
| Mobs.Mob.MoveAlongPath | src/main/java/com/sorcery/logica/goals/InvestigateGoal.java:127-137 | Succeeds exactly when a path exists and is accepted. No path leaves the navigation as it was; a refused path stops it. |
| Mobs.Mob.SetTarget | src/main/java/com/sorcery/logica/events/PerceptionEventHandler.java:178 | Only the target changes. |
| Mobs.WithoutConflicts | src/main/java/com/sorcery/logica/events/EntitySpawnHandler.java:185-206 | Filtering never adds goals. |
| Mobs.WithoutConflictsMembers | src/main/java/com/sorcery/logica/events/EntitySpawnHandler.java:186-205 | A goal survives exactly when it was present and its simple name contains neither `Raid` nor `LongDistancePatrol`. |
| Mobs.WithoutConflictsAppend | src/main/java/com/sorcery/logica/events/EntitySpawnHandler.java:186-205 | The filter works goal by goal and keeps order. |
| Mobs.RaiderCoveredByRaid | src/main/java/com/sorcery/logica/events/EntitySpawnHandler.java:191 | The `Raider` test is subsumed by the `Raid` test. |
| Mobs.OwnGoalsKept | src/main/java/com/sorcery/logica/events/EntitySpawnHandler.java:186-205 | The mod's own goals are never removed. |
| Mobs.OwnGoalsUnfiltered | src/main/java/com/sorcery/logica/events/EntitySpawnHandler.java:186-205 | A goal list of only the mod's goals passes through unchanged. |
| Mobs.WithoutConflictsIdempotent | src/main/java/com/sorcery/logica/events/EntitySpawnHandler.java:185-206 | Removing conflicts twice is removing them once. |
| Mobs.RemoveConflictingGoals | src/main/java/com/sorcery/logica/events/EntitySpawnHandler.java:185-206 | The goal list becomes its filtered form. Nothing else about the mob changes. |
| Mobs.RegisterBasicProperties | src/main/java/com/sorcery/logica/events/EntitySpawnHandler.java:152-176 | Unregistered: conflicts are removed and InvestigateGoal at 3 and SearchingGoal at 6 are appended, with the flag set. Registered: nothing changes. |
| Mobs.RegisterStrategyAddsOne | src/main/java/com/sorcery/logica/events/EntitySpawnHandler.java:115-144 | Registration adds exactly one of each strategy goal matching the strategy, and none of the others. |
| Mobs.AddedGoalsKept | src/main/java/com/sorcery/logica/events/EntitySpawnHandler.java:117-136 | The goals registered survive a later conflict removal. |
| Mobs.RegisterStrategyRepeats | src/main/java/com/sorcery/logica/events/EntitySpawnHandler.java:112-115 | Unguarded repeated registration duplicates the goals. This is why callers must check first. |
| Mobs.RegisterStrategyOnceIdempotent | src/main/java/com/sorcery/logica/blocks/entity/BaseStrategyBlockEntity.java:156-160 | The flag-guarded registration is idempotent, whatever strategy the second call names. |
| Mobs.RegisterBasicInvestigationGoals | src/main/java/com/sorcery/logica/events/EntitySpawnHandler.java:152-176 | Performs that basic registration and sets the capability's flag only when it registers. Navigation, target and marker flag are untouched. |
| Mobs.RegisterStrategyGoals | src/main/java/com/sorcery/logica/events/EntitySpawnHandler.java:115-144 | Performs the strategy registration and sets both flags. |
| Mobs.JoinLevelRestores | src/main/java/com/sorcery/logica/events/EntitySpawnHandler.java:45-106 | After joining, a strategy mob has a strategy goal. A NONE mob with the basic flag has InvestigateGoal. Joining again changes nothing. |
| Mobs.OnEntityJoinLevel | src/main/java/com/sorcery/logica/events/EntitySpawnHandler.java:45-106 | The handler does that join step on the server for a mob with a capability, and nothing otherwise. |
| Mobs.HasStrategyGoalScan | src/main/java/com/sorcery/logica/events/EntitySpawnHandler.java:63-69 | The scan finds a Guard, Sentries or Patrol goal exactly when one is present. |
| Mobs.HasInvestigateGoalScan | src/main/java/com/sorcery/logica/events/EntitySpawnHandler.java:86-87 | The scan finds an InvestigateGoal exactly when one is present. |
| Marker.AppliesEverySecond | src/main/java/com/sorcery/logica/blocks/entity/BaseStrategyBlockEntity.java:66-75 | From a fresh block entity, the counter after k server ticks is k mod 20. The marker applies on exactly every twentieth tick. |
| Marker.StrategyMarker.constructor | src/main/java/com/sorcery/logica/blocks/entity/BaseStrategyBlockEntity.java:57-61 | The marker starts with counter 0. |
| Marker.StrategyMarker.Tick | src/main/java/com/sorcery/logica/blocks/entity/BaseStrategyBlockEntity.java:66-75 | The client side does nothing. The server counts and, on the twentieth tick, resets the counter and applies the beacon effect to every mob in the block. |
| Marker.StrategyMarker.ApplyBeaconEffect | src/main/java/com/sorcery/logica/blocks/entity/BaseStrategyBlockEntity.java:80-118 | Each mob at most 40 ticks old, not yet marked and standing in the marker's block gets the strategy and is marked. Every other mob is untouched. |
| Marker.StrategyMarker.ApplyToOne | src/main/java/com/sorcery/logica/blocks/entity/BaseStrategyBlockEntity.java:110-113 | Applies the strategy and sets the marker flag. |
| Marker.StrategyMarker.ApplyStrategyToMob | src/main/java/com/sorcery/logica/blocks/entity/BaseStrategyBlockEntity.java:123-151 | Sets strategy, spawn block, marker position and team. PATROL and SENTRIES also get the found route. The strategy goals are registered unless already registered. |
| Marker.StrategyMarker.SetStrategyRecord | src/main/java/com/sorcery/logica/blocks/entity/BaseStrategyBlockEntity.java:128-133 | Only strategy, spawn position, marker position and team change. |
| Marker.StrategyMarker.FindRoute | src/main/java/com/sorcery/logica/blocks/entity/BaseStrategyBlockEntity.java:136-141 | The stored route is a result of the waypoint search from the marker. |
| Marker.RegisterStrategyGoals | src/main/java/com/sorcery/logica/blocks/entity/BaseStrategyBlockEntity.java:156-190 | Registration guarded by the strategy flag. |
| Perception.GroundBelowFromProperties | src/main/java/com/sorcery/logica/events/PerceptionEventHandler.java:207-223 | The result is the first standable block (air above a solid non-air block) within 10 blocks below the sound, or the sound block itself when there is none. |
| Perception.GroundBelowProperties | src/main/java/com/sorcery/logica/events/PerceptionEventHandler.java:207-223 | Same, from the sound block. |
| Perception.HearRecord | src/main/java/com/sorcery/logica/events/PerceptionEventHandler.java:96-136 | In COMBAT or TRACKING the record is unchanged. Otherwise the state becomes ALERT and a last known position is set; nothing else in the record changes. |
| Perception.FindGroundBelow | src/main/java/com/sorcery/logica/events/PerceptionEventHandler.java:207-223 | The loop returns that position. |
| Perception.HearAlerts | src/main/java/com/sorcery/logica/events/PerceptionEventHandler.java:96-136 | A COMBAT or TRACKING mob ignores the sound. Any other mob becomes ALERT with a last known position in the column of the block containing the sound (the corrected conversion), at most 10 blocks down, standable or the sound block. Nothing else changes. |
| Perception.OnVibrationPerceived | src/main/java/com/sorcery/logica/events/PerceptionEventHandler.java:51-140 | Client-side events, non-monsters, non-player sources and (if configured) creative players change nothing. Otherwise basic goals are registered first and the record is updated as above. |
| Perception.TickPointwise | src/main/java/com/sorcery/logica/events/PerceptionEventHandler.java:274-315 | Per sentry: a cooling entry counts down. A due entry with bells left rings when its mob is present, then decrements and restarts the interval. Other due entries are dropped from both maps. |
| Perception.TickBellsValid | src/main/java/com/sorcery/logica/events/PerceptionEventHandler.java:268-316 | The two maps keep the same keys, with bells and cooldowns within bounds. |
| Perception.CooldownDelays | src/main/java/com/sorcery/logica/events/PerceptionEventHandler.java:278-282 | A cooldown of c delays the ringing by exactly c ticks. |
| Perception.AllBellsRing | src/main/java/com/sorcery/logica/events/PerceptionEventHandler.java:268-316 | A present sentry with n bells rings exactly n times over n(interval+1)+1 ticks. Its entry is then removed. |
| Perception.SentryRingsEveryBell | src/main/java/com/sorcery/logica/events/PerceptionEventHandler.java:228-232 | A scheduled alert (cooldown 0, so the first bell comes at once) rings all its configured bells. |
| Perception.BellScheduler.constructor | src/main/java/com/sorcery/logica/events/PerceptionEventHandler.java:44-45 | Both maps start empty. |
| Perception.BellScheduler.ScheduleSentriesBellAlert | src/main/java/com/sorcery/logica/events/PerceptionEventHandler.java:228-232 | The mob's entry is (re)set to the bell count with cooldown 0. |
| Perception.BellScheduler.OnServerTick | src/main/java/com/sorcery/logica/events/PerceptionEventHandler.java:268-316 | Only the END phase acts. It applies the schedule step and reports which sentries rang. |
| Perception.SpotEntersCombat | src/main/java/com/sorcery/logica/events/PerceptionEventHandler.java:167-191 | Spotting ends in COMBAT with the player's block as the last known position. The basic-goals flag is set iff it was set or registration happened. |
| Perception.BroadcastAlert | src/main/java/com/sorcery/logica/events/PerceptionEventHandler.java:237-262 | Every other mob in range (of the same type unless all types alert) targets the player and becomes COMBAT at the player's block. All other mobs are unchanged. |
| Perception.Alert | src/main/java/com/sorcery/logica/events/PerceptionEventHandler.java:250-257 | One alerted mob targets the player and enters COMBAT at the player's block. |
| Perception.OnTargetSpotted | src/main/java/com/sorcery/logica/events/PerceptionEventHandler.java:146-198 | Filtered events change nothing: the observer, its record, the bells and every nearby mob are unchanged. Otherwise basic goals are registered; without a capability nothing else changes. With one the observer targets the player and enters COMBAT. A sentry also schedules its bells and alerts nearby mobs; mobs it does not alert, and all nearby mobs when the observer is not a sentry, are unchanged. |
| Perception.Engage | src/main/java/com/sorcery/logica/events/PerceptionEventHandler.java:178-191 | The observer's target, last known position and COMBAT state, plus the sentry alarm exactly when its strategy is SENTRIES. Alerted mobs change only in target and record; every other nearby mob is unchanged, all of them for a non-sentry. |
| Perception.SentriesAlarm | src/main/java/com/sorcery/logica/events/PerceptionEventHandler.java:184-187 | Schedules the bells and alerts nearby mobs, leaving the observer alone. An alerted mob changes only its target and record; every other nearby mob is unchanged. |
| CombatMonitor.CheckOutcome | src/main/java/com/sorcery/logica/goals/CombatMonitorGoal.java:75-95 | A check in COMBAT ends in exactly one of three ways. A gone target gives SEARCHING with the target cleared. A target out of sight gives TRACKING at its position with zero ticks. A visible target stays COMBAT at its new position. |
| CombatMonitor.CountsDown | src/main/java/com/sorcery/logica/goals/CombatMonitorGoal.java:70-73 | The cooldown counts down one per tick, and a check happens exactly when it reaches 1. |
| CombatMonitor.ChecksEveryTenTicks | src/main/java/com/sorcery/logica/goals/CombatMonitorGoal.java:68-73 | A fresh goal checks on its first tick, then exactly every tenth tick. |
| CombatMonitor.CombatMonitorGoal.constructor | src/main/java/com/sorcery/logica/goals/CombatMonitorGoal.java:30-34 | Cooldown 0. |
| CombatMonitor.CombatMonitorGoal.CanUse | src/main/java/com/sorcery/logica/goals/CombatMonitorGoal.java:40-48 | Runs exactly for a mob with a capability in COMBAT. |
| CombatMonitor.CombatMonitorGoal.CanContinueToUse | src/main/java/com/sorcery/logica/goals/CombatMonitorGoal.java:54-62 | Same condition. |
| CombatMonitor.CombatMonitorGoal.Tick | src/main/java/com/sorcery/logica/goals/CombatMonitorGoal.java:68-96 | Counts the cooldown and performs the check when due. Only the target and record change. |
| CombatMonitor.CombatMonitorGoal.SwitchToTracking | src/main/java/com/sorcery/logica/goals/CombatMonitorGoal.java:101-110 | TRACKING at the target's block with zero tracking ticks. |
| CombatMonitor.CombatMonitorGoal.SwitchToSearching | src/main/java/com/sorcery/logica/goals/CombatMonitorGoal.java:115-125 | SEARCHING with the last known position kept, and the target cleared. |
| Tracking.FirstEligible | src/main/java/com/sorcery/logica/goals/TrackingGoal.java:177-195 | The index of the first nearby player that is neither spectator nor creative, or none when there is no such player. |
| Tracking.TickCollides | src/main/java/com/sorcery/logica/goals/TrackingGoal.java:132-164 | A tick enters COMBAT iff an eligible player is within the collision box. It then targets the first such player at its block with zero ticks; otherwise the ticks mirror the timer. |
| Tracking.RunTimesOut | src/main/java/com/sorcery/logica/goals/TrackingGoal.java:83-105 | With no collision, the timer grows one per tick, and once it reaches the maximum the goal stops and the mob becomes SEARCHING. |
| Tracking.HearExtends | src/main/java/com/sorcery/logica/goals/TrackingGoal.java:226-254 | A new sound while TRACKING moves the last position to the block containing the sound (the corrected conversion) and takes 100 ticks off the timer, not below 0. |
| Tracking.HearStep | src/main/java/com/sorcery/logica/goals/TrackingGoal.java:240-251 | The mob stays TRACKING; the record's last known position and the goal's last sound are both the block containing the sound; navigation heads there if a path is found; the timer loses 100 ticks but never goes below 0. |
| Tracking.TrackingGoal.constructor | src/main/java/com/sorcery/logica/goals/TrackingGoal.java:42-48 | No sound position, timer 0. |
| Tracking.TrackingGoal.CanUse | src/main/java/com/sorcery/logica/goals/TrackingGoal.java:54-77 | Runs exactly in TRACKING with a last known position. TRACKING without one falls back to SEARCHING. |
| Tracking.TrackingGoal.CanContinueToUse | src/main/java/com/sorcery/logica/goals/TrackingGoal.java:83-105 | Continues in TRACKING below the maximum duration. At the limit it sets SEARCHING. |
| Tracking.TrackingGoal.Start | src/main/java/com/sorcery/logica/goals/TrackingGoal.java:111-117 | Heads for the last sound. |
| Tracking.TrackingGoal.Stop | src/main/java/com/sorcery/logica/goals/TrackingGoal.java:123-126 | Forgets the sound position and stops navigation. |
| Tracking.TrackingGoal.Tick | src/main/java/com/sorcery/logica/goals/TrackingGoal.java:132-164 | Goal fields, record, destination and target follow the tick step. |
| Tracking.TrackingGoal.CheckCollision | src/main/java/com/sorcery/logica/goals/TrackingGoal.java:170-198 | The loop collides exactly when an eligible player exists, and applies the collision step. |
| Tracking.TrackingGoal.NavigateToLastSound | src/main/java/com/sorcery/logica/goals/TrackingGoal.java:203-221 | Paths to the sound position when there is one. |
| Tracking.TrackingGoal.OnVibrationPerceived | src/main/java/com/sorcery/logica/goals/TrackingGoal.java:227-254 | Acts only on its own mob in TRACKING, by the hearing step (block containing the sound, the corrected conversion); otherwise nothing changes. |
| Investigate.BeginValid | src/main/java/com/sorcery/logica/goals/InvestigateGoal.java:84-88 | An investigation starts not arrived, with zero timers. |
| Investigate.TickValid | src/main/java/com/sorcery/logica/goals/InvestigateGoal.java:178-296 | A tick keeps the counters within bounds. |
| Investigate.TickRetargets | src/main/java/com/sorcery/logica/goals/InvestigateGoal.java:197-216 | A changed last known position restarts the investigation towards it. |
| Investigate.TickTimers | src/main/java/com/sorcery/logica/goals/InvestigateGoal.java:219-292 | Before arrival the look timer stays 0, and 100 navigation failures count as arrival with cooldown 5. After arrival the look timer grows one per tick. |
| Investigate.RunLooksAround | src/main/java/com/sorcery/logica/goals/InvestigateGoal.java:264-292 | After arrival, k ticks add k to the look timer. The goal ends once it reaches INVESTIGATION_DURATION_TICKS. |
| Investigate.InvestigateGoal.constructor | src/main/java/com/sorcery/logica/goals/InvestigateGoal.java:45-48 | No target; counters 0. |
| Investigate.InvestigateGoal.CanUse | src/main/java/com/sorcery/logica/goals/InvestigateGoal.java:54-94 | Runs exactly in ALERT with a last known position, which becomes the target. ALERT without one falls back to IDLE. |
| Investigate.InvestigateGoal.CanContinueToUse | src/main/java/com/sorcery/logica/goals/InvestigateGoal.java:100-117 | Continues in ALERT until, after arrival, the look timer reaches the duration. |
| Investigate.InvestigateGoal.Start | src/main/java/com/sorcery/logica/goals/InvestigateGoal.java:123-141 | Paths to the target. |
| Investigate.InvestigateGoal.Stop | src/main/java/com/sorcery/logica/goals/InvestigateGoal.java:147-172 | An ALERT mob goes IDLE and forgets the position. Without a capability nothing happens. |
| Investigate.InvestigateGoal.Tick | src/main/java/com/sorcery/logica/goals/InvestigateGoal.java:178-296 | Follows the tick step. |
| Investigate.InvestigateGoal.Retarget | src/main/java/com/sorcery/logica/goals/InvestigateGoal.java:197-216 | The retargeting part of the tick. |
| Investigate.InvestigateGoal.Approach | src/main/java/com/sorcery/logica/goals/InvestigateGoal.java:219-263 | The approach part of the tick. |
| Investigate.InvestigateGoal.LookAround | src/main/java/com/sorcery/logica/goals/InvestigateGoal.java:264-270 | After arrival, one tick adds one to the look timer and counts the cooldown down, restarting it at LOOK_AROUND_INTERVAL when it runs out. |
| Searching.BeginValid | src/main/java/com/sorcery/logica/goals/SearchingGoal.java:46-71 | A search starts not arrived, with zero timers. |
| Searching.TickValid | src/main/java/com/sorcery/logica/goals/SearchingGoal.java:139-198 | A tick keeps the counters within bounds. |
| Searching.TickSearches | src/main/java/com/sorcery/logica/goals/SearchingGoal.java:139-198 | The centre never changes, and arrival is permanent. The timer runs only after arrival. The mob heads for the centre before arrival and for wander blocks after it. |
| Searching.TickLooksAround | src/main/java/com/sorcery/logica/goals/SearchingGoal.java:185-188 | Looks around when the cooldown runs out, then waits LOOK_AROUND_INTERVAL / 2 ticks. |
| Searching.RunSearches | src/main/java/com/sorcery/logica/goals/SearchingGoal.java:77-94 | After arrival, k ticks add k to the timer. The search ends at twice INVESTIGATION_DURATION_TICKS. |
| Searching.SearchingGoal.constructor | src/main/java/com/sorcery/logica/goals/SearchingGoal.java:37-40 | No target; counters 0. |
| Searching.SearchingGoal.CanUse | src/main/java/com/sorcery/logica/goals/SearchingGoal.java:46-71 | Runs exactly in SEARCHING with a last known position. SEARCHING without one falls back to IDLE. |
| Searching.SearchingGoal.CanContinueToUse | src/main/java/com/sorcery/logica/goals/SearchingGoal.java:77-94 | Continues in SEARCHING until twice the duration has passed after arrival. |
| Searching.SearchingGoal.Start | src/main/java/com/sorcery/logica/goals/SearchingGoal.java:100-109 | Paths to the centre. |
| Searching.SearchingGoal.Stop | src/main/java/com/sorcery/logica/goals/SearchingGoal.java:115-133 | A SEARCHING mob goes IDLE and forgets the position. Without a capability nothing happens. |
| Searching.SearchingGoal.Tick | src/main/java/com/sorcery/logica/goals/SearchingGoal.java:139-198 | Follows the tick step. |
| Searching.SearchingGoal.Approach | src/main/java/com/sorcery/logica/goals/SearchingGoal.java:144-165 | Arrival closer than 4 blocks stops navigation. Otherwise the mob re-paths when idle. |
| Searching.SearchingGoal.Search | src/main/java/com/sorcery/logica/goals/SearchingGoal.java:166-197 | Counts, wanders and looks around. |
| Guard.StartValid | src/main/java/com/sorcery/logica/goals/GuardGoal.java:108-144 | The guard returns to an interrupted position iff one exists and a path to it was found. Without a path it forgets the position. |
| Guard.StopRemembers | src/main/java/com/sorcery/logica/goals/GuardGoal.java:150-168 | Leaving guard duty outside IDLE records the mob's block, unless a position is already recorded. |
| Guard.TickValid | src/main/java/com/sorcery/logica/goals/GuardGoal.java:174-294 | A tick keeps the counters within bounds. |
| Guard.ReturnCounting | src/main/java/com/sorcery/logica/goals/GuardGoal.java:180-242 | Reaching the position within 3 blocks clears it. A path found by the return query resets the failure count; ten failures give up and clear the position. |
| Guard.ReturningSkipsGuarding | src/main/java/com/sorcery/logica/goals/GuardGoal.java:237-240 | While returning, the stuck and wander counters do not move. |
| Guard.FarOnlyPathsHome | src/main/java/com/sorcery/logica/goals/GuardGoal.java:249-263 | Beyond twice the guard radius, the tick only paths home. |
| Guard.StuckAndWander | src/main/java/com/sorcery/logica/goals/GuardGoal.java:265-325 | Moving resets the stuck count. Standing still counts up, and past the threshold it resets and forces a wander 9 ticks later. The wander cooldown restarts at 100-199. |
| Guard.GuardGoal.constructor | src/main/java/com/sorcery/logica/goals/GuardGoal.java:47-50 | No home, counters 0, not returning. |
| Guard.GuardGoal.CanUse | src/main/java/com/sorcery/logica/goals/GuardGoal.java:56-79 | Runs exactly for GUARD in IDLE with a spawn position, which becomes home. |
| Guard.GuardGoal.CanContinueToUse | src/main/java/com/sorcery/logica/goals/GuardGoal.java:85-102 | Continues for GUARD in IDLE. |
| Guard.GuardGoal.Start | src/main/java/com/sorcery/logica/goals/GuardGoal.java:108-144 | Follows the start step. The record changes only in the interrupted position. |
| Guard.GuardGoal.Stop | src/main/java/com/sorcery/logica/goals/GuardGoal.java:150-168 | Stops navigation and records where the guard was interrupted. Of the goal's own fields only the last-position flag changes (to false); home, stuck and wander counters, returning mode and the failure count are kept. |
| Guard.GuardGoal.Tick | src/main/java/com/sorcery/logica/goals/GuardGoal.java:174-294 | Follows the tick step. The return query and the guard's own path query (home or wander point) are separate path inputs. |
| Guard.GuardGoal.GuardHome | src/main/java/com/sorcery/logica/goals/GuardGoal.java:244-293 | The home-keeping part of the tick. |
| Guard.GuardGoal.ReturnToInterrupted | src/main/java/com/sorcery/logica/goals/GuardGoal.java:180-242 | The return part of the tick, with its own path query. |
| Guard.GuardGoal.DetectAndResolveStuck | src/main/java/com/sorcery/logica/goals/GuardGoal.java:299-359 | The stuck detection and escape. |
| Sentries.ScanFrom | src/main/java/com/sorcery/logica/goals/SentriesGoal.java:284-292 | The scan returns an index inside the route. |
| Sentries.ScanFromFirstUnvisited | src/main/java/com/sorcery/logica/goals/SentriesGoal.java:284-295 | The scan picks the first unvisited waypoint after the current one, cyclically. When none is unvisited it picks the next index. |
| Sentries.CyclicCovers | src/main/java/com/sorcery/logica/goals/SentriesGoal.java:284-285 | The cyclic scan covers every index and ends at the current one. |
| Sentries.NextWaypointIndexSpec | src/main/java/com/sorcery/logica/goals/SentriesGoal.java:282-296 | The next waypoint is unvisited and the first such in cyclic order. When all are visited it is (current + 1) mod n. |
| Sentries.MarkVisitedCircuit | src/main/java/com/sorcery/logica/goals/SentriesGoal.java:241-250 | Marking a waypoint visited clears the set exactly when every waypoint has been visited and the route has no repeated position; a route with repeats never clears it. The set stays within the route and smaller than it. |
| Sentries.StartValid | src/main/java/com/sorcery/logica/goals/SentriesGoal.java:128-160 | A start from a stored index within the route (the case that does not throw) leaves a valid, non-resting state. |
| Sentries.StartThrowsNavigatesNowhere | src/main/java/com/sorcery/logica/goals/SentriesGoal.java:132-158 | A start that throws on an out-of-range index has only reset the rest fields; otherwise waypoint mode heads for the stored waypoint and free-roam mode only resets the rest. |
| Sentries.AdoptedIndexThrows | src/main/java/com/sorcery/logica/goals/SentriesGoal.java:80-81 | `canUse` adopts a stored index beyond the route unchanged, and the following start throws. |
| Sentries.TickValid | src/main/java/com/sorcery/logica/goals/SentriesGoal.java:184-228 | A tick keeps the index in range, rests within 1-59 ticks and visited waypoints within the route. |
| Sentries.TickRest | src/main/java/com/sorcery/logica/goals/SentriesGoal.java:203-218 | A rest counts down and ends at 0. A roll to rest stops navigation for 20-59 ticks. Route and centre never change. |
| Sentries.TickArrivalAndSkip | src/main/java/com/sorcery/logica/goals/SentriesGoal.java:233-277 | Arrival marks the waypoint and selects the next. A failed path skips to the following one. |
| Sentries.SentriesGoal.constructor | src/main/java/com/sorcery/logica/goals/SentriesGoal.java:53-58 | Empty route, nothing visited. |
| Sentries.SentriesGoal.CanUse | src/main/java/com/sorcery/logica/goals/SentriesGoal.java:64-93 | Runs for SENTRIES in IDLE with a route or a marker position. It takes the route, index and centre. |
| Sentries.SentriesGoal.CanContinueToUse | src/main/java/com/sorcery/logica/goals/SentriesGoal.java:99-122 | Continues for SENTRIES in IDLE. |
| Sentries.SentriesGoal.Start | src/main/java/com/sorcery/logica/goals/SentriesGoal.java:128-160 | Follows the start step, and reports the IndexOutOfBoundsException exactly when a non-empty route has a stored index outside it. |
| Sentries.SentriesGoal.Stop | src/main/java/com/sorcery/logica/goals/SentriesGoal.java:166-178 | Stops navigation and saves the index when there is a route. |
| Sentries.SentriesGoal.Tick | src/main/java/com/sorcery/logica/goals/SentriesGoal.java:184-228 | Follows the tick step. |
| Sentries.SentriesGoal.PatrolWaypoints | src/main/java/com/sorcery/logica/goals/SentriesGoal.java:233-277 | The waypoint part of the tick. |
| Sentries.SentriesGoal.SelectNextWaypoint | src/main/java/com/sorcery/logica/goals/SentriesGoal.java:282-296 | The loop sets the index to the specified next waypoint and changes nothing else. |
| Sentries.SentriesGoal.FreeRoam | src/main/java/com/sorcery/logica/goals/SentriesGoal.java:301-330 | Without a route, roams around the marker. |
| Patrol.TruncatedCentreShifts | src/main/java/com/sorcery/logica/goals/PatrolGoal.java:279 | The as-written centre conversion keeps non-negative coordinates but moves negative ones up by one block. |
| Patrol.TruncatedCentre | src/main/java/com/sorcery/logica/goals/PatrolGoal.java:279 | The `(int)` of a waypoint's centre c + 0.5 truncates toward zero: the result lies within half a block of the centre, on the side of zero. |
| Patrol.SearchPointBlockAsWritten | src/main/java/com/sorcery/logica/goals/PatrolGoal.java:278-279 | As written, a detour is approached at its own block, and a waypoint centre at the waypoint for non-negative coordinates but one block up for each negative coordinate. |
| Patrol.CentreOfNegativeWaypointMissed | src/main/java/com/sorcery/logica/goals/PatrolGoal.java:279 | Counterexample. The centre of waypoint (-3, 64, 5) is sent to block (-2, 64, 5). |
| Patrol.FlooredCentre | src/main/java/com/sorcery/logica/goals/PatrolGoal.java:279 | Flooring the centre coordinate gives the waypoint's own coordinate back. |
| Patrol.SearchPointBlock | src/main/java/com/sorcery/logica/goals/PatrolGoal.java:278-279 | A final search point navigates to its waypoint. A detour navigates to its own block. |
| Patrol.NavigateStep | src/main/java/com/sorcery/logica/goals/PatrolGoal.java:273-290 | Only the destination changes. With no current point or no path nothing changes; for a waypoint centre the mob heads for that waypoint when the path is accepted. |
| Patrol.SearchPath | src/main/java/com/sorcery/logica/goals/PatrolGoal.java:194-224 | The search path has one point per detour plus the next waypoint. |
| Patrol.GenerateShape | src/main/java/com/sorcery/logica/goals/PatrolGoal.java:194-230 | The path is the detours in order, then the next waypoint (index + 1 mod n). It starts at point 0. |
| Patrol.StartValid | src/main/java/com/sorcery/logica/goals/PatrolGoal.java:121-131 | Start leaves a valid, non-waiting state. |
| Patrol.WaitValid | src/main/java/com/sorcery/logica/goals/PatrolGoal.java:155-184 | Waiting keeps the state valid. |
| Patrol.FollowValid | src/main/java/com/sorcery/logica/goals/PatrolGoal.java:236-268 | Following keeps the state valid. |
| Patrol.TickValid | src/main/java/com/sorcery/logica/goals/PatrolGoal.java:150-189 | A tick keeps the index in range and the search index within the path. |
| Patrol.TickIndex | src/main/java/com/sorcery/logica/goals/PatrolGoal.java:155-184 | The index advances (cyclically) only when a 60-tick wait ends. Before that the wait just counts. |
| Patrol.TickFollow | src/main/java/com/sorcery/logica/goals/PatrolGoal.java:236-268 | Waiting starts exactly on arrival at the last point, with timer 0 and navigation stopped. |
| Patrol.AdvanceOneLap | src/main/java/com/sorcery/logica/goals/PatrolGoal.java:179 | Advancing k positions within one lap wraps once at most. |
| Patrol.AdvanceCompose | src/main/java/com/sorcery/logica/goals/PatrolGoal.java:179 | Advancing k then m positions is advancing k + m. |
| Patrol.AdvanceInRange | src/main/java/com/sorcery/logica/goals/PatrolGoal.java:179 | The index stays in range. |
| Patrol.AdvancePeriodic | src/main/java/com/sorcery/logica/goals/PatrolGoal.java:179 | Advancing an index in range by n more steps, n being the number of waypoints, returns the same index. |
| Patrol.Run | src/main/java/com/sorcery/logica/goals/PatrolGoal.java:150-189 | Any run of ticks from a valid state keeps it valid and keeps the route. |
| Patrol.TickAdvances | src/main/java/com/sorcery/logica/goals/PatrolGoal.java:155-181 | One tick advances the waypoint index by one, modulo the route length, exactly when it ends a 60-tick wait. |
| Patrol.RunAdvances | src/main/java/com/sorcery/logica/goals/PatrolGoal.java:150-189 | After any run of ticks the waypoint index is the start index advanced once per completed wait. |
| Patrol.RunLapReturns | src/main/java/com/sorcery/logica/goals/PatrolGoal.java:150-189 | A run in which as many waits end as there are waypoints brings the patrol back to the waypoint it started from. |
| Patrol.PatrolGoal.constructor | src/main/java/com/sorcery/logica/goals/PatrolGoal.java:49-53 | Empty route, not waiting. |
| Patrol.PatrolGoal.CanUse | src/main/java/com/sorcery/logica/goals/PatrolGoal.java:59-92 | Runs for PATROL in IDLE with a non-empty route. An out-of-range index is reset to 0 in both goal and record. |
| Patrol.PatrolGoal.CanContinueToUse | src/main/java/com/sorcery/logica/goals/PatrolGoal.java:98-115 | Continues for PATROL in IDLE. |
| Patrol.PatrolGoal.Start | src/main/java/com/sorcery/logica/goals/PatrolGoal.java:121-131 | Follows the start step. |
| Patrol.PatrolGoal.Stop | src/main/java/com/sorcery/logica/goals/PatrolGoal.java:137-144 | Stops navigation and saves the index. |
| Patrol.PatrolGoal.Tick | src/main/java/com/sorcery/logica/goals/PatrolGoal.java:150-189 | Follows the tick step (search points navigated by the corrected conversion). |
| Patrol.PatrolGoal.GenerateSearchPath | src/main/java/com/sorcery/logica/goals/PatrolGoal.java:194-231 | Builds the path and heads for its first point. |
| Patrol.PatrolGoal.FollowSearchPath | src/main/java/com/sorcery/logica/goals/PatrolGoal.java:236-268 | The follow part of the tick (search points navigated by the corrected conversion). |
| Patrol.PatrolGoal.NavigateToCurrentSearchPoint | src/main/java/com/sorcery/logica/goals/PatrolGoal.java:273-290 | Paths to the current point's block (corrected conversion). |

## Left out

- Distances, line of sight, path creation, navigation acceptance and random draws are inputs. Floating-point geometry, including the wander and detour points (guard, sentries, searching, patrol), is computed outside the model; those points arrive as block positions.
- Look control, sounds, particles and logging (LogHelper, the log counters) are not modelled: they change no AI state.
- The vanilla goal selector's arbitration (which goal runs, and when start/stop/tick are called) is outside the model. Each goal method is modelled on its own.
- ForgeConfigSpec's storage and range clamping are not modelled. Settings are plain values, checked against the declared ranges by `Config.InRange`.
- Java `int` overflow of the goal counters is not modelled; the counters stay far below 2^31 within the modelled durations.
- Types.IntCast: the saturation of `(int)` for values beyond the int range is not modelled.
- `findWaypointsInRadius` (WaypointFinder.java:45-97) is never called, so it is not modelled.
- `getInvestigationDurationForEvent` is modelled but nothing in the core calls it; the goals read INVESTIGATION_DURATION_TICKS.
- TrackingGoal's event-bus registration is not modelled; its listener is the method `Tracking.TrackingGoal.OnVibrationPerceived`. That listener neither filters the sound source nor grounds the position, unlike the global handler.
- AICapability.java declares neither `interruptedPatrolPosition` nor `hasBasicGoals`, but the provider, GuardGoal and EntitySpawnHandler use accessors for both. The model gives the record both fields, defaulting to none and false.
- Persistence.SaveLoadRoundTrip: holds only for coordinates within BlockPos's packed widths (26/12/26 bits), as in the game.
- Perception.Engage: the observer's COMBAT state is set before the sentry alarm rather than after it. The alarm touches neither the observer nor its record, so the final state is the same.
- Marker.StrategyMarker.ApplyStrategyToMob: the stored route is stated as a result of the waypoint search (`WaypointsFound`). WaypointFinder.ResultIndependentOfOrder shows that this determines the route uniquely.
- Perception.HearRecord, Perception.HearAlerts, Perception.OnVibrationPerceived: the sound's block is the block containing the sound (`Types.BlockContaining`), where PerceptionEventHandler.java:131 truncates each coordinate with `(int)`. The two differ for negative non-integral coordinates; see Findings, whose as-written half is `Types.BlockOfAsWritten`.
- Tracking.HearStep, Tracking.HearExtends, Tracking.TrackingGoal.OnVibrationPerceived: the same corrected conversion where TrackingGoal.java:241 truncates with `(int)`.
- Patrol.NavigateStep, Patrol.PatrolGoal.NavigateToCurrentSearchPoint, Patrol.PatrolGoal.FollowSearchPath, Patrol.PatrolGoal.Tick: a waypoint centre is navigated to the waypoint itself (`Patrol.SearchPointBlock`), where PatrolGoal.java:279 truncates the centre with `(int)`, one block off for negative coordinates; see Findings, whose as-written half is `Patrol.SearchPointBlockAsWritten`.
- StrategyParsing.ToLower, StrategyParsing.FromString: lower-case with the ASCII mapping only. Java's `toLowerCase()` follows the default locale, so under a Turkish locale "SENTRIES" becomes "sentrıes" and parses to NONE; the model parses it as SENTRIES.
- Config.ParseInt: accepts only the ASCII digits 0-9. Java's `Integer.parseInt` also accepts the other Unicode decimal digits (`Character.digit`), which the model rejects as malformed.
- Rendering, blocks, items, the mixin and the client side are not part of this model.

## Findings

| source | as written | input that shows it | evidently intended | confidence | as-written member | corrected member |
|---|---|---|---|---|---|---|
| src/main/java/com/sorcery/logica/goals/PatrolGoal.java:279 | The search point's block is built with `(int)` casts of the waypoint centre, which truncate toward zero. | Final point of waypoint (-3, 64, 5): centre x = -2.5 truncates to -2, so the patrol heads for (-2, 64, 5). | Navigate to the block containing the point, which is the waypoint itself. | not executed | Patrol.CentreOfNegativeWaypointMissed | Patrol.SearchPointBlock |
| src/main/java/com/sorcery/logica/events/PerceptionEventHandler.java:131 | The sound's block is built with `(int)` casts of its coordinates; TrackingGoal.java:241 does the same. | Sound at (-0.5, 64.0, 3.25) gives block (0, 64, 3), which does not contain it. | The containing block (-1, 64, 3), as `BlockPos.containing` gives. | not executed | Types.SoundBlockOffByOne | Types.BlockContaining |
