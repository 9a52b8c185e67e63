# SimpleScavenger, modelled in Dafny

SimpleScavenger is a Sponge server plugin. When a player dies, it can let
them keep their inventory and/or experience, depending on three permission
grants: `simplescavenger.use`, `simplescavenger.keepInventory` and
`simplescavenger.keepExperience`. When it does, it sends a localized chat
message and plays a sound. On respawn it sends another localized message and
plays another sound. The plugin reads its settings from a configuration
tree. Before reading, it fills in seventeen default values. It caches the
texts of the default language as fallbacks.

The model has five modules:

- `Wrappers` (wrappers.dfy): `Option`, standing for Java's `null`.
- `ConfigTree` (config_tree.dfy): the configuration tree.
  - The tree is a `map` from key paths to leaf values `B(bool) | S(string) | Num(real)`.
  - A node is "virtual" when its path is not a key of the map.
  - It covers the library reads the plugin uses (`getString`, `getString(def)`, `getBoolean`, `getDouble`).
  - It defines the "set if absent" pass: the specification function `Fill`, its lemmas, and the class `ConfigNode`. `ConfigNode.SaveDefaults` runs the pass in place with a loop.
- `Defaults` (defaults.dfy): the table of seventeen (path, default) entries, in source order, and what the pass does with it.
- `DeathDecision` (death.dfy): the death handler's decision, as a pure function over the grants and the two death toggles.
- `Scavenger` (scavenger.dfy):
  - the plugin class `Plugin`: `LoadConfig` overwrites the cached fields, `Reload` is the command, and the two handlers;
  - the host's death event `DeathEvent`, with its two keep flags;
  - specification functions for what each handler asks of the host (`DeathEffects`, `RespawnEffects`).

Host services are parameters or emitted effects:

- A permission query is a `Grants` field.
- The player's locale language is a `string`.
- Sending chat text is a `SendMessage` effect and playing a sound is a `PlaySound` effect.
- File I/O is the `stored` and `saveOk` parameters of `LoadConfig`. A save followed by a load gives back the same tree.

Three behaviours of the code to keep in mind:

- The tree is saved on every load, even when no default was missing (SimpleScavenger.java:214). `LoadConfig` returns that tree as `written`.
- A failed reload does not always leave the previous configuration in effect. `saveDefaultConfig` replaces `rootNode` (line 170) before it saves. If the save, or the re-read that follows it, fails, the plugin keeps the new tree but the old cached fields. `LoadConfig`'s contract states this.
- The death sound plays whenever some grant holds and the sound is enabled. It does not depend on the message toggle or on which message was chosen.

One consequence of the key layout: `messages.respawn.enabled` sits beside the per-language respawn texts. A language tag `enabled` therefore reads the toggle (`"true"`). The fallback lemmas exclude that tag.

## Model

| member | source | states |
|---|---|---|
| DeathDecision.Decide | src/main/java/dk/xakeps/simplescavenger/SimpleScavenger.java:101-123 | keep-inventory is set exactly when `use` or `keepInventory` holds; keep-level exactly when `use` or `keepExperience` holds; a message is due exactly when some grant holds and messages are enabled, and it is the chain's variant; the sound plays exactly when some grant holds and the sound is enabled |
| DeathDecision.SelectVariant | src/main/java/dk/xakeps/simplescavenger/SimpleScavenger.java:108-116 | "both" iff `use` or both keep grants; "inventory" iff only `keepInventory` (without `use`); "experience" iff only `keepExperience`; no branch fires iff no grant holds |
| DeathDecision.DecisionMatchesTable | src/main/java/dk/xakeps/simplescavenger/SimpleScavenger.java:101-116 | for all eight grant combinations the decision equals the five-row outcome table, built separately; with messages disabled only the message is dropped |
| DeathDecision.NoGrantNoEffect | src/main/java/dk/xakeps/simplescavenger/SimpleScavenger.java:101-124 | without any grant no flag is set, no message is sent and no sound plays, whatever the toggles |
| DeathDecision.SoundIndependentOfMessage | src/main/java/dk/xakeps/simplescavenger/SimpleScavenger.java:107-123 | the sound decision is the same whatever the message toggle |
| DeathDecision.MessageIsNeverBlank | src/main/java/dk/xakeps/simplescavenger/SimpleScavenger.java:108-116 | when some grant holds, a branch of the chain always fires, so the initial empty text is never sent |
| Scavenger.DeathEvent.Apply | src/main/java/dk/xakeps/simplescavenger/SimpleScavenger.java:102-105 | each flag becomes its old value or'ed with the outcome's "set" bit: flags are only ever set to true, and a flag that is already true stays true |
| Scavenger.Plugin.OnPlayerDeath | src/main/java/dk/xakeps/simplescavenger/SimpleScavenger.java:94-125 | the event's flags are updated as `Decide` says, and the effects are exactly `DeathEffects` of the cached settings, the tree, the grants and the player's language |
| Scavenger.Plugin.OnPlayerRespawn | src/main/java/dk/xakeps/simplescavenger/SimpleScavenger.java:127-140 | the effects are exactly `RespawnEffects` of the cached settings, the tree and the player's language |
| Scavenger.NoGrantNoDeathEffects | src/main/java/dk/xakeps/simplescavenger/SimpleScavenger.java:101-124 | without any grant the death handler asks nothing of the host |
| Scavenger.DeathEffectsWithGrant | src/main/java/dk/xakeps/simplescavenger/SimpleScavenger.java:107-123 | with some grant: one effect per enabled toggle; the message comes first and is the chosen variant's localized text; the death sound comes last |
| Scavenger.RespawnEffectsByToggle | src/main/java/dk/xakeps/simplescavenger/SimpleScavenger.java:128-139 | respawn has no permission gate: one effect per enabled respawn toggle; the message is the localized respawn text, and the respawn sound comes last |
| Scavenger.Localized | src/main/java/dk/xakeps/simplescavenger/SimpleScavenger.java:111-115 | the default-language text cached at load time when the player's key is absent; otherwise the key's own value read as text, whatever it holds, so the fallback is ignored whenever the node has a value |
| Scavenger.DefaultLangText | src/main/java/dk/xakeps/simplescavenger/SimpleScavenger.java:158-166 | the cached text is the entry under the configured default language, read with no default; absent when the default language itself reads as absent |
| Scavenger.Extract | src/main/java/dk/xakeps/simplescavenger/SimpleScavenger.java:150-166 | each toggle is on exactly when its node holds boolean true; a sound identifier that is a string is cached as is; the four cached texts are those under the configured default language, and all absent when that language reads as absent |
| Scavenger.Plugin.LoadConfig | src/main/java/dk/xakeps/simplescavenger/SimpleScavenger.java:142-167 | succeeds iff the file loads and the save round-trips. A failed load changes nothing. Otherwise the tree is the defaulted stored tree and is always handed to the save. On success the cached fields are those extracted from the new tree. On failure they keep their old values. |
| Scavenger.Plugin.CacheSounds | src/main/java/dk/xakeps/simplescavenger/SimpleScavenger.java:150-156 | the six sound fields become the values read from the tree; the other fields and the root node are unchanged |
| Scavenger.Plugin.CacheMessages | src/main/java/dk/xakeps/simplescavenger/SimpleScavenger.java:158-166 | the two message toggles and four default-language texts become the values read from the tree; the other fields and the root node are unchanged |
| Scavenger.Plugin.Reload | src/main/java/dk/xakeps/simplescavenger/SimpleScavenger.java:76-88 | reports success iff the load and the save both worked. Whenever the file loads, the tree becomes the defaulted stored tree, on failure too. On success the cached settings are extracted from it; on failure they keep their old values. A failed load leaves the root node as it was |
| Scavenger.Plugin.constructor | src/main/java/dk/xakeps/simplescavenger/SimpleScavenger.java:48-62 | before the first load every cached field holds Java's default (false, 0.0, null) |
| ConfigTree.ConfigNode.SaveDefaults | src/main/java/dk/xakeps/simplescavenger/SimpleScavenger.java:172-212 | the tree becomes `Fill` of the old tree: the keys are the old keys plus the table's paths; every present value is unchanged; an already complete tree is left identical |
| ConfigTree.Fill | src/main/java/dk/xakeps/simplescavenger/SimpleScavenger.java:172-212 | the defaulting pass over a table as a specification: it never removes a key (its other properties are the Fill lemmas below) |
| ConfigTree.SetIfAbsent | src/main/java/dk/xakeps/simplescavenger/SimpleScavenger.java:172-173 | one isVirtual/setValue step: adds the path; keeps every present value; an absent path gets the default |
| ConfigTree.FillKeys | src/main/java/dk/xakeps/simplescavenger/SimpleScavenger.java:172-212 | after the pass exactly the old keys and the table's paths are present |
| ConfigTree.FillKeepsPresent | src/main/java/dk/xakeps/simplescavenger/SimpleScavenger.java:172-212 | a value present before the pass, a user edit included, is unchanged |
| ConfigTree.FillLeavesOthers | src/main/java/dk/xakeps/simplescavenger/SimpleScavenger.java:172-212 | a path the table does not mention is neither added nor changed |
| ConfigTree.FillGivesDefault | src/main/java/dk/xakeps/simplescavenger/SimpleScavenger.java:172-212 | with distinct table paths, an absent table path receives its listed default |
| ConfigTree.FillOnCompleteIsIdentity | src/main/java/dk/xakeps/simplescavenger/SimpleScavenger.java:172-212 | on a tree holding every table path the pass changes nothing |
| ConfigTree.FillIdempotent | src/main/java/dk/xakeps/simplescavenger/SimpleScavenger.java:172-212 | running the pass twice gives the same tree as running it once |
| Defaults.DefaultTableShape | src/main/java/dk/xakeps/simplescavenger/SimpleScavenger.java:172-212 | the table has seventeen entries and no path twice |
| Defaults.AbsentGetsTableDefault | src/main/java/dk/xakeps/simplescavenger/SimpleScavenger.java:172-212 | an absent table path receives the one default listed for it |
| Defaults.DefaultingPass | src/main/java/dk/xakeps/simplescavenger/SimpleScavenger.java:169-215 | for this table: all seventeen paths are present afterwards, absent ones hold their defaults, present values are unchanged, other paths are untouched, and a second pass is the identity |
| Defaults.FreshTree | src/main/java/dk/xakeps/simplescavenger/SimpleScavenger.java:172-187 | on an empty file `sounds.respawn.enabled = true`, `sounds.respawn.sound = entity.player.levelup`, `sounds.death.sound = block.anvil.land`, `messages.defaultLang = en` |
| Defaults.RespawnLanguageNotListed | src/main/java/dk/xakeps/simplescavenger/SimpleScavenger.java:189-194 | a respawn text for a language other than en and ru is not a default path |
| Defaults.DeathLanguageNotListed | src/main/java/dk/xakeps/simplescavenger/SimpleScavenger.java:199-212 | a death text for a language other than en and ru is not a default path |
| Scavenger.FreshSoundSettings | src/main/java/dk/xakeps/simplescavenger/SimpleScavenger.java:150-156 | from a fresh file both sounds are enabled with volume 1.0 and the level-up and anvil sounds |
| Scavenger.FreshMessageSettings | src/main/java/dk/xakeps/simplescavenger/SimpleScavenger.java:158-166 | from a fresh file both message toggles are on and the cached texts are the English defaults |
| Scavenger.FreshInstallSettings | src/main/java/dk/xakeps/simplescavenger/SimpleScavenger.java:142-167 | loading a fresh file caches exactly the documented defaults |
| Scavenger.RespawnFallsBackToDefaultLanguage | src/main/java/dk/xakeps/simplescavenger/SimpleScavenger.java:130-139 | with a fresh file, a player whose language has no entry gets the English respawn text and then the level-up sound |
| Scavenger.OnlyKeepExperienceDeath | src/main/java/dk/xakeps/simplescavenger/SimpleScavenger.java:101-123 | only `keepExperience`: inventory not kept, level kept, the experience text sent, the death sound played |
| Scavenger.UnknownDefaultLanguage | src/main/java/dk/xakeps/simplescavenger/SimpleScavenger.java:158-166 | when the default language has no texts, the four cached fallback texts are absent |

## Left out

- File I/O: `createNewFile`, `loader.load()` and `loader.save()` (lines 143-148, 170, 214) are the `stored` and `saveOk` inputs of `LoadConfig`. A save followed by a load is assumed to give back the same tree.
- Startup (`onInit`, lines 69-92): an I/O failure in the first load skips only the command registration (lines 72-91), which is not modelled. The two handlers are listeners of their own (lines 94, 127) and still run. They see Java's field defaults, as after `Plugin.constructor` and a failed `LoadConfig`: the keep flags are still set, and nothing is sent or played.
- Plugin.constructor: the empty root node stands for Java's `null` before the first load. It is never read while the toggles are false.
- Command registration, the command's description and its bracketed reply texts (lines 72-91) are host API. `Reload` models only the reload and the success/empty result.
- Permission queries (lines 97-99), the player's locale, `SoundType.of`, `playSound` and its position, formatting-code deserialization and `sendMessage` are host calls. Grants and the language are inputs. Sound identifiers and texts are passed on unresolved as effects.
- DeathEffects and RespawnEffects: a null text (the player's key absent and no cached default) is handed to the host's formatting-code deserializer (lines 117, 133). That deserializer most likely fails on it, ending the handler before the sound. The model assumes the handler goes on: it emits `SendMessage(None)` and then the sound.
- The two default sound identifiers (`entity.player.levelup`, `block.anvil.land`) are assumed. The code takes them from the host's sound registry (`SoundTypes...getId()`, lines 175, 182), whose text it does not contain.
- Volumes are Java doubles. `Num(real)` only carries them. No floating-point arithmetic is modelled.
- The comment attached to `messages.defaultLang` (line 187) is presentation only.
- Threading: the host delivers events and commands one at a time, and the plugin starts no threads.
- ConfigTree.GetBoolean: the configuration library's coercion of strings and numbers to booleans is not modelled; any non-boolean value reads as false.
- ConfigTree.GetDouble: strings holding numbers are not parsed; only a `Num` value gives a volume.
- ConfigTree.StringOf: the text form of a double is not modelled. A number read as a string is absent here, where Java gives its decimal text.
- The tree is flat. A path whose ancestor holds a plain value (for example `messages: 5`) is not modelled. Neither is the library's handling of it.
