# RuneLite configuration accessor and two plugin handlers, modelled in Dafny

This project models three pieces of the RuneLite client.

- **Config** (`config.dfy`): the invocation handler behind every typed
  configuration interface. A call on such an interface resolves to a
  (group key, item key) pair. A getter call reads the configuration
  manager's string store: a stored string is decoded to the method's return
  type, and an absent key falls back to the method's default body, or to
  null when the method has none. A setter call needs exactly one argument.
  If the setter is a default method whose default body yields a value equal
  to the argument, the key is removed. Otherwise the argument's string form
  is written. The reflection (finding the annotations, running a default
  body through method handles) is replaced by an explicit descriptor of the
  called method, `ConfigMethod`, whose optional `defaultBody` is the default
  provider. `Invoked` is the specification of one call, and
  `ConfigInvocationHandler.Invoke` is proved to follow it against a
  `ConfigManager` object that holds the store map.
- **Runecraft** (`runecraft.dfy`): the runecraft plugin's binding-necklace
  charge counter, driven by server chat messages. It is set from the number
  in the charges message, lowered by one on a combination-rune craft, and
  reset to 17 when the necklace disintegrates. The plugin also tracks the
  set of abyss rift objects and holds a per-tick dark mage / degraded pouch
  state.
- **Boosts** (`boosts.dfy`): the boosts plugin. It keeps an array of the
  last boosted level seen per skill. It records the time of a one-level
  step as a "stat change". It also chooses which skills are shown, filters
  configuration-change events, and decides whether the stat-change
  indicator is present.

`java_lang.dfy` (module `JavaLang`) holds the Java semantics these rely on:
null as `None`, the 32-bit `int` and its wrap-around, `String.contains`,
and `Integer.parseInt` on a run of digits.

Three behaviours of the accessor's code that a reader might not expect:

- A stored string is always decoded and returned, even when decoding yields
  null. There is no fallback to the default on that path.
- A zero-argument call reaches the handler with a null argument array, so
  it is a getter. Only an explicit argument array of length other than one
  throws.
- The "unset when equal to the default" rule applies only when the *setter*
  method is itself a default method. Its own default body is run with the
  setter's arguments. A setter without a default body always writes the
  string form, even when the value equals the getter's default.

## Model

| member | source | states |
|---|---|---|
| `Config.ConfigInvocationHandler.Invoke` | runelite-client/src/main/java/net/runelite/client/config/ConfigInvocationHandler.java:44-118 | the returned outcome and the new store are exactly those of the specification `Invoked` on the old store |
| `Config.ConfigInvocationHandler.constructor` | runelite-client/src/main/java/net/runelite/client/config/ConfigInvocationHandler.java:39-42 | the handler keeps the given manager (and codec) |
| `Config.ConfigManager.GetConfiguration` | runelite-client/src/main/java/net/runelite/client/config/ConfigInvocationHandler.java:67 | the lookup returns a value exactly when the key is stored, and then the stored string |
| `Config.ConfigManager.SetConfiguration` | runelite-client/src/main/java/net/runelite/client/config/ConfigInvocationHandler.java:115 | the store afterwards maps the key to the string and is otherwise unchanged |
| `Config.ConfigManager.UnsetConfiguration` | runelite-client/src/main/java/net/runelite/client/config/ConfigInvocationHandler.java:110 | the store afterwards lacks the key and is otherwise unchanged |
| `Config.MissingAnnotationIsNoOp` | runelite-client/src/main/java/net/runelite/client/config/ConfigInvocationHandler.java:52-62 | without a group or an item annotation the call returns null and the store is unchanged |
| `Config.GetterOnlyLooksUp` | runelite-client/src/main/java/net/runelite/client/config/ConfigInvocationHandler.java:64-91 | a getter leaves the store unchanged, and two stores that agree at its key give the same result |
| `Config.GetterDecodesStored` | runelite-client/src/main/java/net/runelite/client/config/ConfigInvocationHandler.java:79-90 | with the key stored, a getter returns the stored string decoded to its return type, whether or not a default exists |
| `Config.GetterFallsBackToDefault` | runelite-client/src/main/java/net/runelite/client/config/ConfigInvocationHandler.java:69-77 | with the key absent, a getter returns what its default body yields, or null without one |
| `Config.SetterArity` | runelite-client/src/main/java/net/runelite/client/config/ConfigInvocationHandler.java:96-99 | a setter with other than one argument throws and the store is unchanged |
| `Config.SetToDefaultIsUnset` | runelite-client/src/main/java/net/runelite/client/config/ConfigInvocationHandler.java:103-112 | setting a default setter to its default returns null and removes the key; a later getter for the item answers as on an empty store |
| `Config.SetterWritesString` | runelite-client/src/main/java/net/runelite/client/config/ConfigInvocationHandler.java:101-116 | a non-null value that is not the setter's default is written as its string form at the item's key, the rest of the store unchanged, and null is returned |
| `Config.OnlyOwnKeyChanges` | runelite-client/src/main/java/net/runelite/client/config/ConfigInvocationHandler.java:45-118 | no call changes the entry of any key other than its own |
| `Config.SetterIdempotent` | runelite-client/src/main/java/net/runelite/client/config/ConfigInvocationHandler.java:107-116 | a setter returns null unless it throws, and repeating it gives the same result and store |
| `Config.OverridePersists` | runelite-client/src/main/java/net/runelite/client/config/ConfigInvocationHandler.java:115 | if the codec round-trips `v`, a getter after writing `v` returns `v` |
| `Config.MaxItemsScenario` | runelite-client/src/main/java/net/runelite/client/config/ConfigInvocationHandler.java:64-116 | an item with default 10: reads 10 unset, 7 after setting 7, 10 after setting 10 (entry removed, store back to its start), and an empty argument array throws |
| `Config.ReplayAppend` | runelite-client/src/main/java/net/runelite/client/config/ConfigInvocationHandler.java:45 | running two call sequences one after the other is running their concatenation |
| `Config.UntouchedKeyKeepsEntry` | runelite-client/src/main/java/net/runelite/client/config/ConfigInvocationHandler.java:45-118 | a sequence of calls resolving to other keys leaves a key's entry as it was |
| `Config.LastWriteWins` | runelite-client/src/main/java/net/runelite/client/config/ConfigInvocationHandler.java:115 | when the last call on a key writes `v`, the store ends with the string form of `v` there, whatever calls on other keys follow |
| `JavaLang.Wrap32` | runelite-client/src/main/java/net/runelite/client/plugins/boosts/BoostsPlugin.java:159 | `int` arithmetic: the result is in range, congruent to the exact value modulo 2^32, and equal to it when it fits |
| `JavaLang.ContainsAt` | runelite-client/src/main/java/net/runelite/client/plugins/runecraft/RunecraftPlugin.java:131-145 | `String.contains` holds exactly when the text occurs at some position |
| `JavaLang.DecimalRoundTrip` | runelite-client/src/main/java/net/runelite/client/plugins/runecraft/RunecraftPlugin.java:127 | reading back the decimal rendering of a number gives the number |
| `JavaLang.ParseInt` | runelite-client/src/main/java/net/runelite/client/plugins/runecraft/RunecraftPlugin.java:127 | `Integer.parseInt` on digits, computed digit by digit with an overflow guard, succeeds exactly when the value fits in an `int`, and then returns that value |
| `Runecraft.ChargesMatch` | runelite-client/src/main/java/net/runelite/client/plugins/runecraft/RunecraftPlugin.java:124-125 | group 1 of the charges pattern, when found, is a non-empty run of digits |
| `Runecraft.NoPrefixNoMatch` | runelite-client/src/main/java/net/runelite/client/plugins/runecraft/RunecraftPlugin.java:58 | a message without the text "You have " never matches the charges pattern |
| `Runecraft.RunecraftPlugin.OnChatMessage` | runelite-client/src/main/java/net/runelite/client/plugins/runecraft/RunecraftPlugin.java:116-150 | the new charge count is `ChargesAfter` of the old count and the message |
| `Runecraft.IgnoredMessagesKeepCharges` | runelite-client/src/main/java/net/runelite/client/plugins/runecraft/RunecraftPlugin.java:119-122 | a non-server message, or any message while the counter is off, leaves the count unchanged |
| `Runecraft.MentionsCombinationRune` | runelite-client/src/main/java/net/runelite/client/plugins/runecraft/RunecraftPlugin.java:133-138 | the message names a combination rune exactly when one of the six names mud, lava, steam, dust, smoke, mist occurs at some position of it |
| `Runecraft.ChargesTextMatches` | runelite-client/src/main/java/net/runelite/client/plugins/runecraft/RunecraftPlugin.java:58 | the pattern, tried at the start of a charges message for any count, matches with exactly the count's decimal digits as group 1 |
| `Runecraft.FindSkips` | runelite-client/src/main/java/net/runelite/client/plugins/runecraft/RunecraftPlugin.java:124-125 | `find` passes over every position where the pattern does not match, so it reports the leftmost match |
| `Runecraft.ChargesMessageSetsCount` | runelite-client/src/main/java/net/runelite/client/plugins/runecraft/RunecraftPlugin.java:124-129 | a charges message for any count that fits in an `int`, after any leading text without a match of its own and followed by any further text, sets the count to exactly that number; the later rules are not consulted |
| `Runecraft.ChargesMessageOutranksCraft` | runelite-client/src/main/java/net/runelite/client/plugins/runecraft/RunecraftPlugin.java:125-142 | a charges message that also carries the craft text and a combination rune sets the count to its number instead of lowering it |
| `Runecraft.CraftLowersCount` | runelite-client/src/main/java/net/runelite/client/plugins/runecraft/RunecraftPlugin.java:131-142 | when the charges pattern is not found, a craft message naming a combination rune lowers the count by exactly one (wrapping at the bottom of the `int` range) |
| `Runecraft.DisintegrationResetsCount` | runelite-client/src/main/java/net/runelite/client/plugins/runecraft/RunecraftPlugin.java:145-149 | when the charges pattern is not found, the disintegration message, when not a combination craft, resets the count to 17 |
| `Runecraft.CraftsCountDown` | runelite-client/src/main/java/net/runelite/client/plugins/runecraft/RunecraftPlugin.java:131-142 | a run of k combination crafts lowers the count by exactly k |
| `Runecraft.RunecraftPlugin.constructor` | runelite-client/src/main/java/net/runelite/client/plugins/runecraft/RunecraftPlugin.java:60-67 | a new plugin tracks no object, holds no dark mage and no pouch, and is valid |
| `Runecraft.RunecraftPlugin.OnDecorativeObjectSpawn` | runelite-client/src/main/java/net/runelite/client/plugins/runecraft/RunecraftPlugin.java:152-160 | a spawned object is added exactly when its id is a rift's; no other field changes; only rifts stay tracked |
| `Runecraft.RunecraftPlugin.OnDecorativeObjectDespawned` | runelite-client/src/main/java/net/runelite/client/plugins/runecraft/RunecraftPlugin.java:162-167 | a despawned object is removed; no other field changes |
| `Runecraft.DespawnUndoesSpawn` | runelite-client/src/main/java/net/runelite/client/plugins/runecraft/RunecraftPlugin.java:152-167 | running the spawn handler and then the despawn handler on an object that was not tracked leaves the tracked set as it was and the plugin valid |
| `Runecraft.RunecraftPlugin.OnGameStateChanged` | runelite-client/src/main/java/net/runelite/client/plugins/runecraft/RunecraftPlugin.java:169-176 | the LOADING state empties the tracked set; any other state leaves it alone |
| `Runecraft.RunecraftPlugin.OnGameTick` | runelite-client/src/main/java/net/runelite/client/plugins/runecraft/RunecraftPlugin.java:178-203 | a dark mage is held exactly when highlighting is on, a degraded pouch is present and a dark mage was found, and then it is the first one found; the pouch flag changes only while highlighting is on |
| `Runecraft.RunecraftPlugin.ShutDown` | runelite-client/src/main/java/net/runelite/client/plugins/runecraft/RunecraftPlugin.java:102-108 | the tracked set is empty, no dark mage is held and the pouch flag is false |
| `Boosts.Ordinal` | runelite-client/src/main/java/net/runelite/client/plugins/boosts/BoostsPlugin.java:154 | a skill's ordinal is its position in the declared order |
| `Boosts.ShownSkills` | runelite-client/src/main/java/net/runelite/client/plugins/boosts/BoostsPlugin.java:168-178 | the shown skills start with the combat skills and never include hitpoints, prayer or overall |
| `Boosts.ShownSkillsOrder` | runelite-client/src/main/java/net/runelite/client/plugins/boosts/BoostsPlugin.java:168-178 | the five combat skills come first, followed, when enabled, by the sixteen skilling skills |
| `Boosts.ShownSkillsCover` | runelite-client/src/main/java/net/runelite/client/plugins/boosts/BoostsPlugin.java:55-64 | with skilling enabled every skill but hitpoints, prayer and overall is shown; otherwise exactly the combat skills |
| `Boosts.ShownSkillsDistinct` | runelite-client/src/main/java/net/runelite/client/plugins/boosts/BoostsPlugin.java:55-64 | no skill is shown twice |
| `Boosts.IsStatChange` | runelite-client/src/main/java/net/runelite/client/plugins/boosts/BoostsPlugin.java:159 | the wrapped `last + 1` / `last - 1` test holds exactly when the new level is one above or one below the last modulo 2^32 |
| `Boosts.StatChangeIsUnitStep` | runelite-client/src/main/java/net/runelite/client/plugins/boosts/BoostsPlugin.java:158-159 | away from the ends of the `int` range a stat change is exactly a step of one level up or down |
| `Boosts.LevelsAfterChanges` | runelite-client/src/main/java/net/runelite/client/plugins/boosts/BoostsPlugin.java:154-165 | a sequence of level changes keeps the length of the level array |
| `Boosts.LevelsRememberLastChange` | runelite-client/src/main/java/net/runelite/client/plugins/boosts/BoostsPlugin.java:143-166 | after any sequence of changes each tracked skill's entry holds its last reported level (or its earlier value without one), and hitpoints and prayer entries never change |
| `Boosts.ChangeTime` | runelite-client/src/main/java/net/runelite/client/plugins/boosts/BoostsPlugin.java:194-197 | the countdown is at most 60 seconds once the change lies in the past, and is positive exactly while less than 60 seconds have passed |
| `Boosts.BoostsPlugin.constructor` | runelite-client/src/main/java/net/runelite/client/plugins/boosts/BoostsPlugin.java:66 | the level array has one entry per skill but the last, all zero |
| `Boosts.BoostsPlugin.StartUp` | runelite-client/src/main/java/net/runelite/client/plugins/boosts/BoostsPlugin.java:105-111 | the shown skills follow the setting and every entry of the level array is -1 |
| `Boosts.BoostsPlugin.AddStatChangeIndicator` | runelite-client/src/main/java/net/runelite/client/plugins/boosts/BoostsPlugin.java:180-192 | an indicator exists exactly when a change was recorded and both display settings are on, and it counts down from 60 seconds after that change |
| `Boosts.BoostsPlugin.OnConfigChanged` | runelite-client/src/main/java/net/runelite/client/plugins/boosts/BoostsPlugin.java:119-141 | other groups change nothing; the two display keys only rebuild the indicator; any other key updates the shown skills only |
| `Boosts.BoostsPlugin.OnBoostedLevelChange` | runelite-client/src/main/java/net/runelite/client/plugins/boosts/BoostsPlugin.java:143-166 | hitpoints and prayer change nothing; otherwise only the skill's entry becomes the new level, and the change time is recorded exactly on a step of one |

## Left out

- Reflection and the proxy machinery (finding the interface, the annotation lookups, running a default body through method handles) are replaced by the `ConfigMethod` descriptor. A default body that throws is modelled as the `DefaultMethodThrew` outcome.
- A default body is taken to be a function of the call's arguments only. In the source it runs bound to the proxy (`ConfigInvocationHandler.java:127-130`), so it could call the interface's other configuration methods and through them read or write the store; such a call back into the configuration interface is not modelled. `Config.GetterOnlyLooksUp` (results depend only on the entry at the call's own key), `Config.SetterIdempotent` and `Config.OnlyOwnKeyChanges` rest on this.
- `ConfigManager.stringToObject`, the argument's `toString` and the store implementation are not part of this model. The two conversions are parameters (`Codec`), and the store is a map. A round-trip law is only ever an explicit premise (`RoundTrips`).
- Change notifications are fired by the configuration manager, not by the handler, so they are not modelled.
- Java's `equals` (through `Objects.equal`) is modelled as Dafny's structural equality of values.
- Logging (`log.warn`, `log.debug`) is left out.
- The event bus, the overlays, the info box manager and the dependency injection (`getConfig`, `provideConfig`, `getOverlays`, `getOverlay`, `updateConfig`, `RunecraftPlugin.startUp`) are left out. So are the info box additions and removals in `BoostsPlugin.shutDown`, `onConfigChanged` and `addStatChangeIndicator`; the model keeps only the `statChangeIndicator` field.
- The skill icon (`overallIcon`) is left out.
- The Java `Skill` enum's source file is not part of this model. The `Skill` datatype in `boosts.dfy` declares the skills in an assumed order, the game's usual one with `Overall` last. The level array then has one entry per skill except `Overall`, and `Handled` states which skills the handler can index.
- `SkillCalculator.java` (a Swing panel working on floating point) is not part of this model.
- The configuration values read by the plugins (`showBindNeck`, `hightlightDarkMage`, `enableSkill`, `displayIndicators`, `displayNextChange`) are parameters. So are the client's answers (`getBoostedSkillLevel`, the inventory and NPC queries) and the rift table (`riftIds`).
- Clock reads (`Instant.now()`) are a parameter `now`, in whole seconds. `ChangeTime` does not model the `long` to `int` cast of `getChangeTime`.
- Game objects are reduced to a handle and an id. Object identity in the tracked set is modelled by that pair.
- Runecraft.RunecraftPlugin.OnChatMessage: an `Integer.parseInt` overflow throws `NumberFormatException` in the source; the model states only that the handler then assigns nothing, not that an exception escapes to the event bus.
- Runecraft.RunecraftPlugin.OnGameTick: the dark mage query result is taken to be a non-null array; a null result, on which the source fails at `result.length`, is not modelled.
- Runecraft.ChargesMatch: the regular expression engine is replaced by a hand-written leftmost match (fixed prefix, maximal digit run, fixed suffix, then one character other than a line terminator). It rests on the argument that the greedy digit group can only succeed with the whole run, because a space follows it.
