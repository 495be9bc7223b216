# Philips TV Homebridge plugin: a Dafny model

This project models the core of a Homebridge plugin that exposes a Philips television (JointSpace API, 2020 models) to HomeKit. There are two parts.

- **The platform accessory** (`src/PhilipsTVAccessory.ts`), modelled in `accessory.dfy`. It caches four fields: `power`, `muted`, `ambihueState` and `responsive`. Every 15 seconds `refreshStatus` asks the television for its power state and, only if that query succeeds, for its volume and its Ambilight + Hue state. After a successful query a cached field is updated, and HomeKit notified, only when the reported value differs. A failed power query switches a responsive television off silently (see below). The HomeKit get handlers read the cache; the set handlers forward commands to the television, and `setAmbihueOn` also writes HomeKit's value into the cache. `remoteKey` turns HomeKit key codes into Philips key names through a JavaScript `Map`.
- **The legacy single-file plugin** (`index.js`), modelled in `legacy.dfy`. It has:
  - handlers for `Active`, `ActiveIdentifier`, `RemoteKey`, `VolumeSelector` and `Mute`, which send Wake-on-LAN packets and HTTP requests to `http://<ip>:1925/6/<endpoint>`;
  - one input source per configured Ambilight style, numbered from 1.

Shared pieces:
- `wrappers.dfy` holds the `Option` and `Outcome` datatypes.
- `keytables.dfy` holds the HomeKit key constants and the two look-up rules over (value, name) tables:
  - `new Map(entries)`: a repeated key keeps its **last** entry;
  - `switch`: the **first** matching case wins.

How the model is built:
- Each call into the television's client library becomes an abstract `Outcome` parameter (`Err` or `Ok(value)`).
- Each `updateCharacteristic` call becomes an entry in a ghost notification log.
- Each client-library call becomes an entry in a ghost call log.
- The accessory is a class with the four fields. `RefreshStatus` is proved equal to the pure function `Refresh`, and the lemmas prove the refresh properties about `Refresh`.
- The HomeKit key constants are parameters (`KeyCodes`), so no table assumes they are distinct. `Hap` holds the values HomeKit assigns: RemoteKey REWIND = 0 … EXIT = 10, PLAY_PAUSE = 11, INFORMATION = 15; VolumeSelector INCREMENT = 0, DECREMENT = 1. These values come from the host framework, not from the modelled files.

The code behaves as follows, and the model follows it:
- `remoteKey` sends keys whatever `power` is. There is no power guard.
- `setActive` does not set `power` optimistically.
- `setMute` does not set `muted`.
- `setAmbihueOn` overwrites `ambihueState` with HomeKit's value even when the television is off, and does not re-notify.
- A failed power query on a responsive television sets `power` to false **without** an `Active` notification.

## Model

| member | source | states |
|---|---|---|
| `KeyTables.BuildMap` | src/PhilipsTVAccessory.ts:187-203 | the built map has exactly the keys of the entries, and each key is bound to the name of its last entry |
| `KeyTables.LastEntryDecides` | src/PhilipsTVAccessory.ts:187-207 | the last entry for a key decides what a look-up of that key returns |
| `KeyTables.FirstMatch` | index.js:110-176 | a `switch` takes no branch iff no case matches; otherwise it takes the first matching case |
| `KeyTables.FirstEntryDecides` | index.js:110-176 | the first case for a value decides the branch the switch takes |
| `KeyTables.HapCodesDistinct` | src/PhilipsTVAccessory.ts:188-202 | HomeKit's thirteen RemoteKey constants are pairwise distinct, and INCREMENT ≠ DECREMENT |
| `PhilipsTVAccessory.Number` | src/PhilipsTVAccessory.ts:180 | `Number(b)` is 0 or 1, and 1 exactly when b is true |
| `PhilipsTVAccessory.SyncPower` | src/PhilipsTVAccessory.ts:95-109 | after a successful power query the TV is responsive, `power` is `powerstate == "On"` and the other fields are kept; exactly one `Active` push carrying `Number(power)` iff `power` changed, otherwise none |
| `PhilipsTVAccessory.SyncMute` | src/PhilipsTVAccessory.ts:124-134 | only `muted` can change; it becomes the reported value on success and is kept on failure; exactly one `Mute` push iff it changed |
| `PhilipsTVAccessory.SyncAmbihue` | src/PhilipsTVAccessory.ts:139-149 | only `ambihueState` can change; it becomes the reported value on success and is kept on failure; exactly one `On` push iff it changed |
| `PhilipsTVAccessory.Refresh` | src/PhilipsTVAccessory.ts:90-150 | all three queries are made, in order, iff the power query succeeds, and only the power query otherwise; the TV ends responsive iff the power query succeeded; at most three pushes |
| `PhilipsTVAccessory.KeyTable` | src/PhilipsTVAccessory.ts:187-203 | the 15 entries: the 13 RemoteKey constants with their names, then INCREMENT → VolumeUp and DECREMENT → VolumeDown |
| `PhilipsTVAccessory.KeyMap` | src/PhilipsTVAccessory.ts:205-207 | a key that is sent is always one of the table's names |
| `PhilipsTVAccessory.PowerQuerySucceeds` | src/PhilipsTVAccessory.ts:93-109 | a successful power query sets `responsive`; `power` becomes `powerstate == "On"`; `Active` is pushed exactly when `power` changed, carrying `Number(power)`; the volume and Ambilight + Hue queries follow |
| `PhilipsTVAccessory.PowerQueryFails` | src/PhilipsTVAccessory.ts:110-119 | a failed power query pushes nothing and makes no further query; a responsive TV becomes unresponsive and off with mute/ambihue kept; an unresponsive TV's belief is unchanged |
| `PhilipsTVAccessory.VolumeQuery` | src/PhilipsTVAccessory.ts:124-134 | after a successful volume query `muted` is the reported value, with a `Mute` push iff it changed; a failed one keeps `muted` and pushes nothing; the outcome affects no other field |
| `PhilipsTVAccessory.AmbihueQuery` | src/PhilipsTVAccessory.ts:139-149 | after a successful Ambilight + Hue query `ambihueState` is the reported value, with an `On` push iff it changed; a failed one keeps it and pushes nothing; no other field is affected |
| `PhilipsTVAccessory.NotificationsReportChanges` | src/PhilipsTVAccessory.ts:97-149 | every notification carries the new shown value of a characteristic that changed; every mute or ambihue change is pushed; every power change is pushed when the power query succeeded |
| `PhilipsTVAccessory.RefreshIdempotent` | src/PhilipsTVAccessory.ts:97-146 | a second refresh given the same outcomes pushes nothing and leaves the belief unchanged |
| `PhilipsTVAccessory.RefreshKeepsConsistent` | src/PhilipsTVAccessory.ts:93-119 | refresh preserves "power implies responsive" |
| `PhilipsTVAccessory.FirstRefreshExample` | src/PhilipsTVAccessory.ts:17-21 | a new accessory that sees On / not muted / ambihue on ends at {on, unmuted, ambihue on, responsive}, with one push for `Active` and one for `On` |
| `PhilipsTVAccessory.KeyMapLookup` | src/PhilipsTVAccessory.ts:186-216 | a value matching no table entry maps to nothing; otherwise it maps to the name of its last entry |
| `PhilipsTVAccessory.ExitSendsBack` | src/PhilipsTVAccessory.ts:198 | EXIT maps to "Back" unless a constant listed after it shares its value |
| `PhilipsTVAccessory.BackSendsBack` | src/PhilipsTVAccessory.ts:197 | BACK maps to "Back" unless a constant listed after it shares its value |
| `PhilipsTVAccessory.BackAndExitSendBack` | src/PhilipsTVAccessory.ts:197-198 | BACK and EXIT both map to "Back" unless they collide with a constant listed after them |
| `PhilipsTVAccessory.HapEntryCodes` | src/PhilipsTVAccessory.ts:187-203 | under HomeKit's constants the entries' values are 0 to 11, 15, 0, 1 in table order |
| `PhilipsTVAccessory.HapRemoteEntry` | src/PhilipsTVAccessory.ts:190-200 | under HomeKit's constants, NEXT_TRACK (2) to PLAY_PAUSE (11) and INFORMATION (15) map to their own entry's name |
| `PhilipsTVAccessory.HapVolumeEntries` | src/PhilipsTVAccessory.ts:201-202 | under HomeKit's constants, 0 maps to "VolumeUp" and 1 to "VolumeDown" |
| `PhilipsTVAccessory.HapKeyMap` | src/PhilipsTVAccessory.ts:187-203 | the complete table under HomeKit's constants: 0 → VolumeUp, 1 → VolumeDown, 2–8 → Next … Confirm, 9 and 10 → Back, 11 → PlayPause, 15 → Home, anything else → nothing |
| `PhilipsTVAccessory.RewindSendsVolumeUp` | src/PhilipsTVAccessory.ts:188-202 | under HomeKit's constants, REWIND maps to "VolumeUp" and FAST_FORWARD to "VolumeDown" |
| `PhilipsTVAccessory.CorrectedKeyMaps` | src/PhilipsTVAccessory.ts:187-203 | with separate remote-key and volume tables and distinct constants, every remote key maps to its own name, and INCREMENT/DECREMENT map to VolumeUp/VolumeDown |
| `PhilipsTVAccessory.PhilipsTVPlatformAccessory.constructor` | src/PhilipsTVAccessory.ts:17-21 | a new accessory has all four fields false, satisfies the invariant, and has empty logs |
| `PhilipsTVAccessory.PhilipsTVPlatformAccessory.RefreshStatus` | src/PhilipsTVAccessory.ts:90-150 | the new fields, the pushed notifications and the queries made are exactly those of `Refresh` on the old fields; "power implies responsive" is kept |
| `PhilipsTVAccessory.PhilipsTVPlatformAccessory.ApplyPowerState` | src/PhilipsTVAccessory.ts:95-109 | the successful power-query block moves the fields and log as `SyncPower` says |
| `PhilipsTVAccessory.PhilipsTVPlatformAccessory.ApplyVolume` | src/PhilipsTVAccessory.ts:124-134 | the volume block moves `muted` and the log as `SyncMute` says |
| `PhilipsTVAccessory.PhilipsTVPlatformAccessory.ApplyAmbihue` | src/PhilipsTVAccessory.ts:139-149 | the Ambilight + Hue block moves `ambihueState` and the log as `SyncAmbihue` says |
| `PhilipsTVAccessory.PhilipsTVPlatformAccessory.SetActive` | src/PhilipsTVAccessory.ts:155-165 | a truthy value makes one Wake-on-LAN call and a falsy one makes one `setPowerState(value)` call with that same value; no cached field changes |
| `PhilipsTVAccessory.PhilipsTVPlatformAccessory.GetActive` | src/PhilipsTVAccessory.ts:179-184 | returns 0 or 1, and 1 exactly when `power` |
| `PhilipsTVAccessory.PhilipsTVPlatformAccessory.RemoteKey` | src/PhilipsTVAccessory.ts:186-217 | a mapped value makes exactly one `sendKey` with the mapped name, whatever `power` is; an unmapped value makes none; no cached field changes |
| `PhilipsTVAccessory.PhilipsTVPlatformAccessory.VolumeButton` | src/PhilipsTVAccessory.ts:220-222 | behaves exactly as `RemoteKey` |
| `PhilipsTVAccessory.PhilipsTVPlatformAccessory.GetMute` | src/PhilipsTVAccessory.ts:224-226 | returns the cached `muted` without changing state |
| `PhilipsTVAccessory.PhilipsTVPlatformAccessory.SetMute` | src/PhilipsTVAccessory.ts:228-234 | makes one `setMute(value)` call; no cached field changes |
| `PhilipsTVAccessory.PhilipsTVPlatformAccessory.GetAmbihueOn` | src/PhilipsTVAccessory.ts:236-238 | returns the cached `ambihueState` without changing state |
| `PhilipsTVAccessory.PhilipsTVPlatformAccessory.SetAmbihueOn` | src/PhilipsTVAccessory.ts:240-244 | makes one `setAmbilightPlusHueState(value)` call and sets `ambihueState` to the value whatever `power` is; nothing else changes and nothing is pushed |
| `LegacyPlugin.Url` | index.js:26 | a request URL is "http://", then the address, then ":1925/6/", then the endpoint |
| `LegacyPlugin.UrlDeterminesParts` | index.js:273-274 | for addresses of equal length, the URL determines the address and the endpoint |
| `LegacyPlugin.Styles` | index.js:27 | the configured style list when one is given, otherwise the empty list |
| `LegacyPlugin.RemoteButton` | index.js:252-257 | `remoteButton` makes one POST to `input/key` with the body `{"key": button}` |
| `LegacyPlugin.RemoteKeyCases` | index.js:110-176 | the 13 switch cases, in order: each RemoteKey constant with its fixed name (PLAY_PAUSE → AmbilightOnOff, INFORMATION → Home) |
| `LegacyPlugin.RemoteButtonFor` | index.js:110-176 | the switch sends nothing iff the value is none of the RemoteKey constants; a key that is sent is one of the switch's names |
| `LegacyPlugin.OnActiveSet` | index.js:45-69 | value 1 sends Wake-on-LAN to the MAC address; any other value posts the "Standby" key; either way `Active` is then reported as 1 |
| `LegacyPlugin.PowerStateOf` | index.js:74-85 | the decoded state is 0 or 1, and 1 exactly when the request succeeded with powerstate "On" |
| `LegacyPlugin.OnActiveGet` | index.js:70-87 | one GET to `powerstate`, answered with 1 exactly when the TV reported "On", else 0 |
| `LegacyPlugin.RemoteKeySwitch` | index.js:110-176 | with distinct constants, each handled RemoteKey sends its own fixed name; a value that is no constant sends nothing |
| `LegacyPlugin.HapRemoteKeySwitch` | index.js:156-175 | under HomeKit's constants, PLAY_PAUSE sends "AmbilightOnOff", INFORMATION sends "Home", and BACK and EXIT send "Back" |
| `LegacyPlugin.OnRemoteKeySet` | index.js:108-179 | a handled value makes exactly one key POST with the switch's name; an unhandled one makes none |
| `LegacyPlugin.VolumeButtonFor` | index.js:196-207 | 0 gives "VolumeUp", 1 gives "VolumeDown", and every other value gives nothing |
| `LegacyPlugin.OnVolumeSelectorSet` | index.js:192-210 | 0 posts VolumeUp, 1 posts VolumeDown, any other value posts nothing |
| `LegacyPlugin.MuteBody` | index.js:215-218 | the body has only `muted`: for a boolean it is that boolean, for a number it is `n == 1` |
| `LegacyPlugin.OnMuteSet` | index.js:212-223 | one POST to `audio/volume` whose `muted` is true exactly for `true` or 1 |
| `LegacyPlugin.OnMuteGet` | index.js:224-227 | answers 0 with no request |
| `LegacyPlugin.AmbilightBody` | index.js:259-271 | the body has `styleName` = style type and `isExpert` = false, plus exactly one of `stringValue` (when `str` is present) or `menuSetting` = style value; three keys in all |
| `LegacyPlugin.SetAmbilight` | index.js:259-271 | the body built field by field is `AmbilightBody(style)`, posted to `ambilight/currentconfiguration` |
| `LegacyPlugin.OnActiveIdentifierSet` | index.js:93-105 | the handler throws iff the identifier is not in 1..n; otherwise it posts the Ambilight body of style `identifier - 1` |
| `LegacyPlugin.CreateInputSources` | index.js:236-246 | the nth style gets identifier n (counting from 1); the service's display name is the style's value, and its subtype and configured name are the style's name |
| `LegacyPlugin.IdentifierSelectsStyle` | index.js:97-102 | selecting the identifier given to style k applies style k, so numbering and look-up are inverse on 1..n |
| `LegacyPlugin.SourcesSelectTheirStyles` | index.js:93-105 | for input sources numbered as `CreateInputSources` numbers them, `ActiveIdentifier` is answered exactly when some source carries the identifier, and that source's style is the one posted |

## Findings

| source | as written | input that shows it | evidently intended | confidence | as-written member | corrected member |
|---|---|---|---|---|---|---|
| src/PhilipsTVAccessory.ts:187-203 | one `Map` holds both the RemoteKey entries and the VolumeSelector INCREMENT/DECREMENT entries; all use HomeKit's numeric constants, and a `Map` keeps the last entry for a repeated key | RemoteKey REWIND (0) sends "VolumeUp", and FAST_FORWARD (1) sends "VolumeDown" | REWIND sends "Rewind" and FAST_FORWARD sends "FastForward"; the volume buttons are looked up separately | not executed; depends on HomeKit's constant values (REWIND = INCREMENT = 0, FAST_FORWARD = DECREMENT = 1) | `PhilipsTVAccessory.RewindSendsVolumeUp` | `PhilipsTVAccessory.CorrectedKeyMaps` |

The accessory class keeps the table as written, because it models the shipped handler. The corrected tables `CorrectedRemoteKey` and `CorrectedVolumeKey` stand beside it, with their property proved.

## Left out

- HTTP transport: `request.post` and `request.get`, their timeouts, redirects, status handling and error logging (index.js:273-315). The `philips-tv-api` client and its configuration constants (src/PhilipsTVAccessory.ts:28-36) are left out too. Every television call is an abstract outcome or a logged effect.
- Wake-on-LAN packet construction (`wake_on_lan`, `tv.wakeOnLan`): a foreign library. Only the call is recorded.
- The 15-second `setInterval` timer and the 20 ms delays inside `refreshStatus` (src/PhilipsTVAccessory.ts:48-50, 122, 137): these are timing only.
- Interleaving between `refreshStatus` and the set handlers: each handler is one atomic step.
- Homebridge wiring: `setupAccessory`, service creation, accessory information, `setCharacteristic` calls, and the initial `ActiveIdentifier` of 1 (index.js:90).
- src/platform.ts (plugin bootstrap and accessory registration) and src/settings.ts (two name constants) are not part of this model.
- `JSON.parse`: the model takes the parsed `powerstate` field directly. A missing field counts as a value other than "On". JavaScript's loose `result == false` also treats an empty body as a failure; both readings decode to 0. `JSON.stringify` ordering of body fields is left out.
- All logging, including the "unknown VolumeSelector" and "Unsupported key" error messages. These branches are modelled only as "nothing is sent".
- `PhilipsTVAccessory.PhilipsTVPlatformAccessory.SetActive`: the value is taken as a number, and its truthiness is `value != 0`; the recorded `setPowerState` call carries that number, which the library reads as a boolean. An exception thrown by `wakeOnLan` or `setPowerState` reaches HomeKit; it is not modelled, because it changes no cached field.
- `PhilipsTVAccessory.PhilipsTVPlatformAccessory.SetAmbihueOn`: the `setAmbilightPlusHueState` promise is not awaited, and its failure is not modelled. The cached field is overwritten either way.
- The legacy `Active`, `RemoteKey`, `VolumeSelector` and `ActiveIdentifier` handlers take integer values. Only the `Mute` handler models JavaScript's loose comparison of a boolean with 1.
