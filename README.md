# TriggerReactor host hooks, modelled in Dafny

TriggerReactor lets server operators attach small scripts ("triggers") to game
events. The script interpreter consults a host-supplied *interrupter* before
every node, for every `#COMMAND(...)` and for every `%placeholder%`. This
project models three host-side pieces that surround the interpreter:

- **The Sponge interrupter hook** (`interrupter.dfy`, with the event and cause
  model in `events.dfy`). `onCommand` handles the reserved commands `CALL`,
  `CANCELEVENT` and `COOLDOWN`, matched regardless of case. `CALL` looks up a
  named trigger, sets its `sync` flag and activates it with the caller's live
  variable map (sync) or with a fresh copy of it (async). `CANCELEVENT` cancels
  a cancellable event, but only in sync mode. `COOLDOWN` records
  `now + millis` for the player in the event's cause. `onNodeProcess` never
  stops a run for the default interrupter. The inventory interrupter stops a
  run started by opening or closing a carried inventory that is no longer an
  open GUI. `onPlaceholder` resolves nothing. `Trigger`, `Interpreter`, the
  cooldown table, variable maps and events are classes whose fields change in
  place. Trigger activation is reduced to a log of which event and which map
  object each activation was handed. The same source file's item-lore edits
  (`item_lore.dfy`) and `getCustomVarsForTrigger`/`extractPlayerFromContext`
  (`events.dfy`) are modelled too.
- **The Bukkit global variable store** (`global_variables.dfy`).
  `VariableManager` keeps a cache and a file mirror. Every `put`, `remove` and
  adapter `put` changes the cache at once and queues the same write on a
  single-thread pool. The pool is an explicit FIFO queue of pending writes,
  with a step that runs the oldest one and a drain. The class invariant is
  that running the queue over the mirror yields the cache. So, as long as
  writes come from one thread at a time, the mirror equals the cache after a
  drain, and a key ends with its last write.
- **The `EXPLOSION` executor script** (`explosion.dfy`). It accepts 2 or 4
  arguments. The location is `args[1]` or the player's world at
  `(args[1], args[2], args[3])`. The power is clamped to [0, 20]. The
  `createExplosion` call is returned as a record, and the script returns null.

`wrappers.dfy` holds `Option` (Java `null`) and `Result` (a call that throws).
`values.dfy` holds the script values that cross these interfaces.

Points where the code behaves in a way worth spelling out:
- `onPlaceholder`'s cooldown-remaining branch (TriggerReactor.java:886-898 and
  988-1000) is commented out. The live code returns null, and so does the
  model.
- `COOLDOWN` with no argument at all is not treated specially by the code. It
  reads `args[0]` and throws an index error. The model returns
  `MissingArgument` for it.
- `removeLore` does not check its index, unlike `setLore`. An index outside
  the list throws (`List.remove(int)`) instead of returning false.

## Model

| member | source | states |
|---|---|---|
| `SpongeEvents.FirstIndex` | sponge/src/main/java/io/github/wysohn/triggerreactor/sponge/main/TriggerReactor.java:1045-1051 | the position found is the first object of the asked class in the cause: nothing before it is of that class, and it is of that class unless it is the end |
| `SpongeEvents.First` | sponge/src/main/java/io/github/wysohn/triggerreactor/sponge/main/TriggerReactor.java:1045-1051 | `Cause.first(cls)` returns an object of the cause of that class, and returns nothing exactly when the cause holds no such object |
| `SpongeEvents.PlayerIsAnEntity` | sponge/src/main/java/io/github/wysohn/triggerreactor/sponge/main/TriggerReactor.java:1045-1051 | a cause with a player has an entity too, found no later than the player (a player is an entity) |
| `SpongeEvents.FirstEntityIsThePlayer` | sponge/src/main/java/io/github/wysohn/triggerreactor/sponge/main/TriggerReactor.java:1045-1051 | when no other entity precedes the first player, "entity" and "player" are bound to the same object |
| `SpongeEvents.ExtractPlayer` | sponge/src/main/java/io/github/wysohn/triggerreactor/sponge/main/TriggerReactor.java:1007-1015 | the player extracted is the first player of the cause, and there is none exactly when the cause holds no player |
| `SpongeEvents.GetCustomVarsForTrigger` | sponge/src/main/java/io/github/wysohn/triggerreactor/sponge/main/TriggerReactor.java:1041-1054 | the new map binds "player" iff the cause has a player and "entity" iff it has an entity, each to the first such object, and binds no other key |
| `Interrupter.EqualsIgnoreCase` | sponge/src/main/java/io/github/wysohn/triggerreactor/sponge/main/TriggerReactor.java:831-867 | `String.equalsIgnoreCase` as the three reserved-name tests use it: equal strings match, and matching strings have equal length and agree letter by letter up to case |
| `Interrupter.EqualsIgnoreCaseIsUpperEquality` | sponge/src/main/java/io/github/wysohn/triggerreactor/sponge/main/TriggerReactor.java:831 | two names are equal ignoring case exactly when their upper-case forms are equal |
| `Interrupter.ReservedOfIgnoresCase` | sponge/src/main/java/io/github/wysohn/triggerreactor/sponge/main/TriggerReactor.java:831-881 | a command is CALL, CANCELEVENT or COOLDOWN exactly when its upper-case form is that name, and upper-casing a command never changes which one it is |
| `Interrupter.ReservedOf` | sponge/src/main/java/io/github/wysohn/triggerreactor/sponge/main/TriggerReactor.java:831-881 | a command is CALL exactly when it equals "CALL" ignoring case, CANCELEVENT or COOLDOWN only when it equals that name ignoring case, and no reserved command when it equals none of the three |
| `Interrupter.CallSync` | sponge/src/main/java/io/github/wysohn/triggerreactor/sponge/main/TriggerReactor.java:840-846 | the callee runs async exactly when the second argument is the Boolean false |
| `Interrupter.Millis` | sponge/src/main/java/io/github/wysohn/triggerreactor/sponge/main/TriggerReactor.java:871 | the cooldown length in ms is `seconds * 1000` truncated toward zero: within 1 below it for non-negative seconds, within 1 above it for negative ones |
| `Interrupter.VarMap.constructor` | sponge/src/main/java/io/github/wysohn/triggerreactor/sponge/main/TriggerReactor.java:849 | the snapshot map is a new object with exactly the caller's entries |
| `Interrupter.Trigger.Activate` | sponge/src/main/java/io/github/wysohn/triggerreactor/sponge/main/TriggerReactor.java:847-849 | activating appends exactly one record of the event and the map object handed over, and leaves the sync flag alone |
| `Interrupter.ProcessInterrupter.Default` | sponge/src/main/java/io/github/wysohn/triggerreactor/sponge/main/TriggerReactor.java:822-823 | the default interrupter captures the event, interpreter and cooldown table and has no inventory map |
| `Interrupter.ProcessInterrupter.ForInventory` | sponge/src/main/java/io/github/wysohn/triggerreactor/sponge/main/TriggerReactor.java:905-907 | the inventory interrupter captures the same three objects and the inventory map |
| `Interrupter.ProcessInterrupter.OnNodeProcess` | sponge/src/main/java/io/github/wysohn/triggerreactor/sponge/main/TriggerReactor.java:909-929 | the default interrupter never stops a node (lines 825-827); the inventory one stops iff the event is an inventory Open or Close on a carried inventory with a carrier whose key is not in the inventory map |
| `Interrupter.ProcessInterrupter.OnPlaceholder` | sponge/src/main/java/io/github/wysohn/triggerreactor/sponge/main/TriggerReactor.java:885-900 | no placeholder is answered by the hook: the result is always null, for both interrupters |
| `Interrupter.ProcessInterrupter.OnCommand` | sponge/src/main/java/io/github/wysohn/triggerreactor/sponge/main/TriggerReactor.java:830-882 | an unreserved name returns false and changes nothing. CALL throws with nothing changed for no arguments, a non-String name or an unregistered name. Otherwise it sets the callee's sync to `args[1]` when that is a Boolean (else true), activates it once with the live map if sync and a fresh equal copy if not, and returns true. CANCELEVENT throws unless sync and the context is cancellable, else sets cancelled. COOLDOWN throws on a missing or non-Number argument, else sets only the cause player's entry to `now + millis` (none without a player) and returns true |
| `Interrupter.AsyncCalleeWriteStaysLocal` | sponge/src/main/java/io/github/wysohn/triggerreactor/sponge/main/TriggerReactor.java:846-851 | after `CALL(name, false)` a write by the callee into its map leaves the caller's map unchanged |
| `Interrupter.SyncCalleeWriteReachesCaller` | sponge/src/main/java/io/github/wysohn/triggerreactor/sponge/main/TriggerReactor.java:840-847 | after `call(name)` (lower case, default sync) a write by the callee into its map is the caller's map updated |
| `ItemLore.RemoveAt` | sponge/src/main/java/io/github/wysohn/triggerreactor/sponge/main/TriggerReactor.java:528 | removing line i keeps the lines before i and shifts the ones after it down by one |
| `ItemLore.RemoveAtUndoesAppend` | sponge/src/main/java/io/github/wysohn/triggerreactor/sponge/main/TriggerReactor.java:524-559 | removing the last line after appending it gives back the original lines |
| `ItemLore.ItemStack.SetLore` | sponge/src/main/java/io/github/wysohn/triggerreactor/sponge/main/TriggerReactor.java:537-549 | returns true iff the item has lore and `0 <= index < size`, and then only that line is replaced; otherwise the lore is unchanged |
| `ItemLore.ItemStack.RemoveLore` | sponge/src/main/java/io/github/wysohn/triggerreactor/sponge/main/TriggerReactor.java:524-535 | false and unchanged without lore; an index outside the list throws and changes nothing; otherwise the line is removed and the result is true |
| `ItemLore.ItemStack.AddItemLore` | sponge/src/main/java/io/github/wysohn/triggerreactor/sponge/main/TriggerReactor.java:551-559 | the line is appended at the end, to an empty list when the item had no lore |
| `ItemLore.AddThenRemoveLast` | sponge/src/main/java/io/github/wysohn/triggerreactor/sponge/main/TriggerReactor.java:524-559 | adding a line then removing the last line restores the lore, except that an item without lore ends with an empty list |
| `GlobalVariables.Set` | src/main/java/io/github/wysohn/triggerreactor/bukkit/manager/VariableManager.java:249-252 | setting a key holds the new value there (null removes the key) and keeps every other key as it was |
| `GlobalVariables.Lookup` | src/main/java/io/github/wysohn/triggerreactor/bukkit/manager/VariableManager.java:143-148 | `ConfigurationSection.get` on a flat key: the stored value, and null exactly when the key is absent |
| `GlobalVariables.LookupAfterSet` | src/main/java/io/github/wysohn/triggerreactor/bukkit/manager/VariableManager.java:143-177 | get after set reads back the value set (null after a removal), and every other key reads as before |
| `GlobalVariables.ApplyAllAppend` | src/main/java/io/github/wysohn/triggerreactor/bukkit/manager/VariableManager.java:163-173 | the pool applies a newly queued write after all earlier ones |
| `GlobalVariables.ApplyAllOtherKeys` | src/main/java/io/github/wysohn/triggerreactor/bukkit/manager/VariableManager.java:192-201 | queued writes to other keys leave a key's mirrored value unchanged |
| `GlobalVariables.ApplyAll` | src/main/java/io/github/wysohn/triggerreactor/bukkit/manager/VariableManager.java:164-173 | running queued writes over the mirror adds no key that none of them names |
| `GlobalVariables.ApplyAllConcat` | src/main/java/io/github/wysohn/triggerreactor/bukkit/manager/VariableManager.java:42 | the pool running two batches one after the other is running their concatenation |
| `GlobalVariables.LastWriteWins` | src/main/java/io/github/wysohn/triggerreactor/bukkit/manager/VariableManager.java:42 | since the single-thread pool runs tasks in FIFO order, a key's mirrored value is that of the last write queued for it, whatever writes to other keys follow it |
| `GlobalVariables.Upgrade` | src/main/java/io/github/wysohn/triggerreactor/bukkit/manager/VariableManager.java:152-158 | the conversion leaves no legacy Location: a legacy Location becomes a serializable one with the same world and coordinates, and every other value is kept |
| `GlobalVariables.Storable` | src/main/java/io/github/wysohn/triggerreactor/bukkit/manager/VariableManager.java:157-176 | the type check put applies after conversion (157-158) accepts strings, numbers, booleans, serializable objects and serializable Locations, and refuses player, entity and other host references |
| `GlobalVariables.UpgradeAccepts` | src/main/java/io/github/wysohn/triggerreactor/bukkit/manager/VariableManager.java:152-158 | put accepts exactly String, Number, Boolean, ConfigurationSerializable and Location values; the conversion changes only legacy locations, making them serializable |
| `GlobalVariables.VariableManager.constructor` | src/main/java/io/github/wysohn/triggerreactor/bukkit/manager/VariableManager.java:58-63 | after loading, cache and mirror hold the stored variables, the queue is empty and the invariant holds |
| `GlobalVariables.VariableManager.Get` | src/main/java/io/github/wysohn/triggerreactor/bukkit/manager/VariableManager.java:143-148 | get returns the cached value, or null when the cache lacks the key; the mirror and queue play no part |
| `GlobalVariables.VariableManager.Has` | src/main/java/io/github/wysohn/triggerreactor/bukkit/manager/VariableManager.java:179-184 | has is true exactly when the cache holds the key |
| `GlobalVariables.VariableManager.Put` | src/main/java/io/github/wysohn/triggerreactor/bukkit/manager/VariableManager.java:150-177 | null or a non-storable value throws with cache, queue and mirror unchanged; otherwise the converted value is cached under the key, exactly one write with that key and value is queued, and the invariant is kept |
| `GlobalVariables.VariableManager.Remove` | src/main/java/io/github/wysohn/triggerreactor/bukkit/manager/VariableManager.java:186-203 | the key leaves the cache, every other key stays, and exactly one removal of that key is queued |
| `GlobalVariables.VariableManager.AdapterGet` | src/main/java/io/github/wysohn/triggerreactor/bukkit/manager/VariableManager.java:211-226 | null for a non-String key; for a String key the cached value or null |
| `GlobalVariables.VariableManager.AdapterContainsKey` | src/main/java/io/github/wysohn/triggerreactor/bukkit/manager/VariableManager.java:228-243 | true exactly when the key is a String held by the cache |
| `GlobalVariables.VariableManager.AdapterPut` | src/main/java/io/github/wysohn/triggerreactor/bukkit/manager/VariableManager.java:245-267 | returns the previously cached value (null if none), installs any value without a type check (null removes), queues the same write and keeps the invariant |
| `GlobalVariables.VariableManager.RunNext` | src/main/java/io/github/wysohn/triggerreactor/bukkit/manager/VariableManager.java:164-173 | the pool thread applies the oldest queued write to the mirror and dequeues it; the cache and the invariant are kept |
| `GlobalVariables.VariableManager.Drain` | src/main/java/io/github/wysohn/triggerreactor/bukkit/manager/VariableManager.java:42 | once the pool has run every queued write in order, the mirror equals the cache |
| `GlobalVariables.PutThenRead` | src/main/java/io/github/wysohn/triggerreactor/bukkit/manager/VariableManager.java:150-184 | after a successful `put(k, v)`, `get(k)` is v, `has(k)` is true, and after the pool drains the mirror holds v under k |
| `GlobalVariables.RemoveThenRead` | src/main/java/io/github/wysohn/triggerreactor/bukkit/manager/VariableManager.java:186-190 | after `remove(k)`, `get(k)` is null, `has(k)` is false and every other key keeps its value |
| `ExplosionExecutor.ToNumber` | src/main/resources/Executor/EFFECT/EXPLOSION.js:42 | the numbers Math.min sees: null as 0, a number as itself, true and false as 1 and 0, and NaN exactly for arguments that are none of these |
| `ExplosionExecutor.MathMin` | src/main/resources/Executor/EFFECT/EXPLOSION.js:42 | `Math.min` is NaN iff an operand is NaN, else the smaller operand |
| `ExplosionExecutor.MathMax` | src/main/resources/Executor/EFFECT/EXPLOSION.js:42 | `Math.max` is NaN iff an operand is NaN, else the larger operand |
| `ExplosionExecutor.Clamp` | src/main/resources/Executor/EFFECT/EXPLOSION.js:41-43 | clamp is NaN exactly when one of its operands is; otherwise, with min <= max, it lies in [min, max] and keeps a number already inside |
| `ExplosionExecutor.ClampCases` | src/main/resources/Executor/EFFECT/EXPLOSION.js:41-43 | given min <= max, clamp returns n when it is in range, min below it, max above it, and always a value in [min, max] |
| `ExplosionExecutor.ClampNaN` | src/main/resources/Executor/EFFECT/EXPLOSION.js:41-43 | clamp of NaN is NaN |
| `ExplosionExecutor.Explosion` | src/main/resources/Executor/EFFECT/EXPLOSION.js:17-38 | "Invalid parameters" exactly when the argument count is neither 2 nor 4. With 2 arguments the explosion is at `args[1]` (a Location is required; null or anything else fails). With 4 it is in the player's world at `(args[1], args[2], args[3])` (a player is required). The power is `clamp(args[0], 0, 20)`, the call is made on the location's world, and the script returns null |
| `ExplosionExecutor.ExplosionPowerInRange` | src/main/resources/Executor/EFFECT/EXPLOSION.js:29-31 | the power passed to the world lies in [0, 20] whenever the power argument is a number, a boolean or null (null gives power 0), and is NaN otherwise |

## Left out

- Plugin start-up and shutdown, listener and command registration, tab
  completion, messaging and configuration migration are left out. They are
  Sponge event plumbing and file I/O.
- `runTask`, `saveAsynchronously`, `callSyncMethod` and `isServerThread` are
  left out. Their subject is threads and the scheduler.
- `createEmptyPlayerEvent` and `createPlayerCommandEvent` are left out. They
  build events through the Sponge cause-stack API.
- `Trigger.activate` and the interpreter are not part of this model. An
  activation is recorded as the event and the map object it received.
  Concurrency is not modelled. The callee's own effects are outside
  `OnCommand`'s frame. A sync activation (TriggerReactor.java:847) may run
  the callee before `onCommand` returns, and that callee can cancel the event
  or CALL other triggers. `OnCommand` promises that the context, the cooldown
  table and the other triggers are unchanged only for the hook's own steps.
  `Interrupter.SyncCalleeWriteReachesCaller` places the callee's write after
  the CALL returns; in the code it may happen inside `activate`.
- `Interrupter.ProcessInterrupter.OnCommand`: CALL's three steps, setting the
  callee's `sync` flag, reading it back and activating, are one atomic step
  in the model (TriggerReactor.java:840-850). In the code a concurrent CALL
  of the same trigger can flip the flag between `setSync` and `isSync`. An
  async `CALL(name, false)` can then hand over the caller's live map.
  `Interrupter.AsyncCalleeWriteStaysLocal` holds only when CALLs of one
  trigger do not overlap.
- The named-trigger registry and the clock (`System.currentTimeMillis`) are
  parameters of `OnCommand`.
- The script's `Node` argument of `onNodeProcess` is dropped, because neither
  interrupter looks at it.
- Objects that are not Sponge events are modelled as events that cannot be
  cancelled, with an empty cause and no inventory kind. Every hook treats the
  two alike.
- `Interrupter.EqualsIgnoreCase` folds ASCII letters only. For the three
  reserved names this equals Java's `equalsIgnoreCase`. The only non-ASCII
  characters that Java matches to an ASCII letter match I, K or S, and none
  of those letters occurs in CALL, CANCELEVENT or COOLDOWN.
- `Interrupter.Millis` truncates toward zero on reals. The double rounding of
  `seconds * 1000` and the saturation of `(long)` on huge values are not
  modelled. NaN and infinite seconds cannot be expressed, because a number
  value holds a finite real. In Java, `(long) NaN` is 0, which gives a
  cooldown ending now. The `long` sum `System.currentTimeMillis() + mills`
  (line 875) is unbounded in the model. In Java it wraps to a negative expiry
  in the past once the cast saturates.
- The equality of `SpongeInventory` keys is not part of this model. The model
  takes them equal when the inventory and the carrier are equal.
- `VariableManager.reload`, `saveAll`, the auto-save thread and
  `checkConfigurationSerialization` are left out because they are file I/O
  and a background thread. The constructor starts from the state after the
  first load, with cache and mirror equal.
- `SerializableLocation` serialization and deserialization are left out. They
  work on float fields and look worlds up through Bukkit. The conversion of a
  legacy Location keeps its world and coordinates; yaw and pitch are not
  modelled.
- `GlobalVariables.VariableManager.Put`, `Remove`, `AdapterPut` and `Drain`
  treat the cache write and the queueing of the pool task as one atomic step.
  In the code they are two steps: the `varCache` lock is released before
  `sequencialPool.execute` (VariableManager.java:159-164, 188-192, 249-254).
  Two threads writing the same key can queue their tasks in the opposite
  order to their cache writes, and then the drained mirror differs from the
  cache. The invariant and `Drain`'s mirror-equals-cache promise hold only
  when writes come from one thread at a time.
- Bukkit's dotted YAML paths are not modelled: keys are flat strings.
- `GlobalVariables.Storable`: a Bukkit player object is itself
  ConfigurationSerializable. The model has no Bukkit player value; such
  objects are represented by `Serializable`.
- `ExplosionExecutor.ToNumber` converts null to 0 but maps every string to NaN. It does not model
  JavaScript's conversion of a numeric string such as "5" to a number.
  Infinities and negative zero are not modelled either.
- `World.createExplosion`, `player.getWorld()` and the `Location` constructor
  are foreign host calls. The call is returned as a record, and the
  player's world is a parameter.
- `PlaceholderManager.java` is left out because it is JAR copying, directory
  listing and script-engine loading. `InvalidTrgConfigurationException.java`
  is left out because it only formats a message.
