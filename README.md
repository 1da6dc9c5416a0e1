# SoundModes ringer-mode core, in Dafny

SoundModes is an Android utility that cycles the phone's ringer mode
NORMAL → VIBRATE → SILENT → NORMAL from a home-screen widget, a
quick-settings tile or the main screen. SILENT is not set through the
native ringer-mode API. It is emulated by an alarms-only automatic
Do-Not-Disturb ("zen") rule that the app creates once, keyed by name, and
switches on and off.

This project models the logic behind that cycle. It is duplicated almost
line for line in `SoundModesManager.kt`, `SoundModesService.kt` (the tile)
and `SoundModesWidget.kt`:

- `getNextMode`: a forward scan over the fixed list [NORMAL, VIBRATE,
  SILENT]. Index arithmetic is modular, excluded modes are skipped, and the
  current mode is returned when every candidate is excluded. `RingerModes`
  holds it as a function (`NextMode`) and as the loop itself
  (`NextModeScan`), proven equal. An independent table (`Rotation`) gives
  the order in which each mode's successors are tried.
- `getOrCreateZenRuleID` and `toggleZenMode`: a find-first-by-name lookup
  in the rule table that adds a rule only when none has the name, followed
  by the rule-state writes. Turning on writes FALSE then TRUE; turning off
  writes FALSE. These live in `ZenRules`.
- The `if (nextMode != currentMode)` block of `changeSoundMode`, shared by
  all three files: vibrate when entering VIBRATE, turn the rule off when
  leaving SILENT, then turn the rule on (SILENT) or call `setRingerMode`.
  This is `ModeChange`.
- One module per surface, holding what differs between them.
  - `SoundModesManager`: a permission guard that invokes the caller's
    callback.
  - `SoundModesService`: no guard, plus the tile refresh.
  - `SoundModesWidget`: a guard that starts an activity, plus the
    `onReceive` dispatch.

The OS is `AndroidOs.Device`, a class with these fields:

- the ringer mode;
- the zen-rule table (`map<RuleId, string>`, id to name);
- the last state written to each rule;
- the id allocator, and whether the OS accepts a new rule;
- the notification-policy permission;
- a vibration counter;
- a log of every call the app makes, in order.

The pure value `AndroidOs.OsState` mirrors these fields. Every method
that calls into the OS ensures `os.State() == After…(old(os.State()))` for a pure function
`After…`. The properties are lemmas over those functions. Log views
(`RingerModesSet`, `ConditionsWritten`, `VibrationCount`) let the lemmas
state orderings such as "FALSE then TRUE" and "`setRingerMode` not
called". `Consistent` is preserved by every operation. It says rule ids
are below the allocator, states belong to existing rules, and the
vibration counter matches the log.

The copies of `getNextMode`, `getOrCreateZenRuleID`, `toggleZenMode` and
the transition block behave identically in the three files. Only the
way the system services and string resources are fetched differs:

| code | SoundModesManager.kt | SoundModesService.kt | SoundModesWidget.kt |
|---|---|---|---|
| `getNextMode` | 76-93 | 145-165 | 97-117 |
| `getOrCreateZenRuleID` | 36-55 | 46-73 | 38-66 |
| `toggleZenMode` | 57-74 | 75-101 | 68-95 |
| transition block | 109-123 | 128-142 | 134-148 |

Each is modelled once, and the rows below cite whichever copy the
property is stated for. The widget's `setIcon` (SoundModesWidget.kt:154-162)
is the same raw-value mapping as the tile's and is `RingerModes.RawModeIcon`.

Points where the code's behaviour is easy to misread:

- **Leaving Silent.** One might expect the rule to be set to false and then
  immediately to the new state. In the code, leaving SILENT writes FALSE
  once. The FALSE-then-TRUE pair happens only when the rule is turned on.
- **Permission.** Permission is not a precondition of every mode
  change: the tile's `changeSoundMode` has no guard.
- **The three-press scenario.** One might expect the mode to be Silent right after
  the second press. The code never sets SILENT itself. What the OS reports after
  the alarms-only rule is activated is outside the code, so the scenario
  lemma `SoundModesManager.ThreePresses` makes the OS's report of SILENT an
  explicit step (`AfterExternalRingerChange`).
- **Rule activation.** "Entering Silent always activates the rule" holds
  only when a rule id is obtained. `addAutomaticZenRule` may yield null,
  and `toggleZenMode` then writes nothing.

## Model

All source paths are under `app/src/main/java/com/helsing/soundmodes/`.

| member | source | states |
|---|---|---|
| RingerModes.KotlinRem | app/src/main/java/com/helsing/soundmodes/SoundModesManager.kt:87 | Kotlin's truncating `%`: for a non-negative operand it is the ordinary remainder in [0, size); for a negative one it is in (-size, 0] |
| RingerModes.IndexOf | app/src/main/java/com/helsing/soundmodes/SoundModesManager.kt:83 | `indexOf` is -1 exactly when the mode is not in the list, otherwise the first position holding it |
| RingerModes.ScanFrom | app/src/main/java/com/helsing/soundmodes/SoundModesManager.kt:86-92 | the remaining loop iterations return either `currentMode` or a listed mode that is not excluded |
| RingerModes.NextMode | app/src/main/java/com/helsing/soundmodes/SoundModesManager.kt:76-93 | `getNextMode` returns either `currentMode` or a ringer mode that is not excluded |
| RingerModes.NextModeScan | app/src/main/java/com/helsing/soundmodes/SoundModesManager.kt:76-93 | the `for` loop with early return computes exactly `NextMode(currentMode, excluded)` |
| RingerModes.FirstAllowed | app/src/main/java/com/helsing/soundmodes/SoundModesManager.kt:86-92 | reference scan: the first candidate not excluded, else the fallback; it returns the fallback when every candidate is excluded |
| RingerModes.ScanFollows | app/src/main/java/com/helsing/soundmodes/SoundModesManager.kt:86-91 | from iteration i on, the modular-index loop tries exactly the tail of the rotation from position i-1 |
| RingerModes.NextModeFollowsRotation | app/src/main/java/com/helsing/soundmodes/SoundModesManager.kt:76-93 | `getNextMode` returns the first non-excluded mode of the rotation after the current mode (table `Rotation`), or the current mode |
| RingerModes.NextModeAllowed | app/src/main/java/com/helsing/soundmodes/SoundModesService.kt:158-163 | when some mode is not excluded, the result is a ringer mode and is never an excluded one |
| RingerModes.NextModeAllExcluded | app/src/main/java/com/helsing/soundmodes/SoundModesService.kt:158-164 | when all three modes are excluded, `currentMode` is returned unchanged |
| RingerModes.NextModeFromUnknown | app/src/main/java/com/helsing/soundmodes/SoundModesManager.kt:83-88 | for a value not in the list (index -1) the scan starts at NORMAL: the result is the first non-excluded mode in list order |
| RingerModes.NextModeFromUnknownIsNormal | app/src/main/java/com/helsing/soundmodes/SoundModesManager.kt:83-88 | with nothing excluded, a value that is not a ringer mode is followed by NORMAL |
| RingerModes.NextModeDefaultCycle | app/src/main/java/com/helsing/soundmodes/SoundModesWidget.kt:97-117 | with the default empty exclusion: NORMAL→VIBRATE, VIBRATE→SILENT, SILENT→NORMAL |
| RingerModes.NextModeThreeTimes | app/src/main/java/com/helsing/soundmodes/SoundModesManager.kt:76-93 | applying `getNextMode` three times with nothing excluded returns the original mode |
| RingerModes.NextModeDefaultMoves | app/src/main/java/com/helsing/soundmodes/SoundModesManager.kt:107-109 | with nothing excluded the next mode always differs from the current value and is a ringer mode, so the `nextMode != currentMode` guard always holds |
| RingerModes.ModeIcon | app/src/main/java/com/helsing/soundmodes/SoundModesManager.kt:126-132 | volume_off exactly for SILENT, mobile_vibrate exactly for VIBRATE, volume_up for anything else |
| RingerModes.ModeLabel | app/src/main/java/com/helsing/soundmodes/SoundModesManager.kt:134-143 | the label is "unknown" exactly for values other than SILENT, VIBRATE and NORMAL |
| RingerModes.RawModeIcon | app/src/main/java/com/helsing/soundmodes/SoundModesService.kt:37-44 | `setIcon` of the tile (and the identical one at SoundModesWidget.kt:154-162), written with the raw values 0 and 1, picks the manager's icon for every value |
| RingerModes.RawModeLabel | app/src/main/java/com/helsing/soundmodes/SoundModesService.kt:107-112 | the tile label `when`, written with the raw values 0, 1, 2, is the manager's label for every value |
| RingerModes.IconMatchesLabel | app/src/main/java/com/helsing/soundmodes/SoundModesManager.kt:126-143 | the icon and the label of a mode name the same mode; volume_up goes with normal or unknown |
| AndroidOs.Device.SetRingerMode | app/src/main/java/com/helsing/soundmodes/SoundModesManager.kt:121 | `setRingerMode` sets the mode and logs the call; the state stays consistent |
| AndroidOs.Device.Vibrate | app/src/main/java/com/helsing/soundmodes/SoundModesManager.kt:23-34 | one pulse: the counter grows by one and the call is logged |
| AndroidOs.Device.AddAutomaticZenRule | app/src/main/java/com/helsing/soundmodes/SoundModesManager.kt:54 | a new rule under a fresh id, or no id when the OS returns null |
| AndroidOs.Device.SetAutomaticZenRuleState | app/src/main/java/com/helsing/soundmodes/SoundModesManager.kt:70-73 | records the written condition's state for the rule and logs the call |
| AndroidOs.Device.UiCall | app/src/main/java/com/helsing/soundmodes/SoundModesManager.kt:102 | handing the permission intent to the UI only appends that call to the log |
| AndroidOs.AddZenRuleKeepsConsistent | app/src/main/java/com/helsing/soundmodes/SoundModesManager.kt:54 | adding a rule keeps ids below the allocator; an id is returned exactly when the OS accepts the rule, and it names a rule in the table |
| AndroidOs.SetZenRuleStateKeepsConsistent | app/src/main/java/com/helsing/soundmodes/SoundModesManager.kt:70-73 | writing a rule's state keeps the state consistent and makes that state the rule's last one |
| ZenRules.FirstRuleNamedFrom | app/src/main/java/com/helsing/soundmodes/SoundModesManager.kt:37-38 | `firstOrNull`: a found id names a rule with that name and no earlier id does; no id means no rule in range has the name |
| ZenRules.FindRuleNamed | app/src/main/java/com/helsing/soundmodes/SoundModesManager.kt:37-39 | the search loop over the rule table returns exactly the first rule with the name |
| ZenRules.ObtainZenRule | app/src/main/java/com/helsing/soundmodes/SoundModesManager.kt:36-55 | `getOrCreateZenRuleID`: an id returned always names a rule with that name; no rule is removed; only the rule table, the allocator and the log change |
| ZenRules.GetOrCreateZenRuleId | app/src/main/java/com/helsing/soundmodes/SoundModesManager.kt:36-55 | returns an existing id, or adds a rule and returns its id |
| ZenRules.AfterToggleZenMode | app/src/main/java/com/helsing/soundmodes/SoundModesManager.kt:57-74 | `toggleZenMode` never touches the ringer mode, the vibrations or the permission; with a rule id, that rule's last state is `turnOn` |
| ZenRules.ObtainKeepsConsistent | app/src/main/java/com/helsing/soundmodes/SoundModesManager.kt:36-55 | the id obtained always belongs to a rule of that name, and the state stays consistent |
| ZenRules.ObtainExisting | app/src/main/java/com/helsing/soundmodes/SoundModesManager.kt:38-39 | when some rule has the name, the id of such a rule, no later than any other with the name, is returned and nothing changes |
| ZenRules.ObtainAbsent | app/src/main/java/com/helsing/soundmodes/SoundModesManager.kt:41-54 | when no rule has the name, exactly one rule is added under a fresh id (table size +1), or, if the OS refuses it, the table is unchanged and no id results |
| ZenRules.ObtainIdempotent | app/src/main/java/com/helsing/soundmodes/SoundModesWidget.kt:38-66 | a second lookup after a successful one returns the same id and changes nothing |
| ZenRules.ObtainCalls | app/src/main/java/com/helsing/soundmodes/SoundModesService.kt:46-73 | the lookup makes at most the one `addAutomaticZenRule` call and changes only the rule table, the id allocator and the log |
| ZenRules.ToggleZenMode | app/src/main/java/com/helsing/soundmodes/SoundModesManager.kt:57-74 | `toggleZenMode` does exactly what `AfterToggleZenMode` says, and the state stays consistent |
| ZenRules.ZenWriteEventsViews | app/src/main/java/com/helsing/soundmodes/SoundModesManager.kt:64-73 | the writes go to the one rule only: FALSE then TRUE to turn on, FALSE to turn off; no ringer call, no vibration |
| ZenRules.ZenWritesShape | app/src/main/java/com/helsing/soundmodes/SoundModesManager.kt:59-73 | the writes append exactly their calls and leave the rule's last state equal to `turnOn` |
| ZenRules.ToggleZenModeShape | app/src/main/java/com/helsing/soundmodes/SoundModesManager.kt:57-74 | `toggleZenMode` appends its calls and changes only the rule table, the id allocator, the rule states and the log |
| ZenRules.ZenCallsEnd | app/src/main/java/com/helsing/soundmodes/SoundModesManager.kt:58-73 | once an id is obtained, the calls of `toggleZenMode` end with its state writes |
| ZenRules.ZenCallsSetNoMode | app/src/main/java/com/helsing/soundmodes/SoundModesManager.kt:57-74 | `toggleZenMode` makes no `setRingerMode` call |
| ZenRules.ToggleZenModeWrites | app/src/main/java/com/helsing/soundmodes/SoundModesService.kt:75-101 | on: FALSE then TRUE; off: a single FALSE; only to the named rule; no id means no writes; the ringer mode and vibrations are untouched |
| ModeChange.ApplyTransition | app/src/main/java/com/helsing/soundmodes/SoundModesManager.kt:109-123 | the transition block does exactly what `AfterTransition` says, and the state stays consistent |
| ModeChange.VibrateKeepsLookup | app/src/main/java/com/helsing/soundmodes/SoundModesManager.kt:110-115 | vibrating first does not change which rule id the later lookup obtains |
| ModeChange.AfterTransition | app/src/main/java/com/helsing/soundmodes/SoundModesManager.kt:109-123 | nothing happens when the mode does not change; any new mode other than SILENT becomes the ringer mode, while entering SILENT leaves the ringer mode as it was; permission and the OS's acceptance of rules are untouched |
| ModeChange.PulseStep | app/src/main/java/com/helsing/soundmodes/SoundModesManager.kt:110-112 | there is one vibration exactly when the next mode is VIBRATE, and nothing else changes |
| ModeChange.ReleaseStep | app/src/main/java/com/helsing/soundmodes/SoundModesManager.kt:114-116 | turning the rule off on leaving SILENT appends only its own calls and keeps the ringer mode |
| ModeChange.FinalStep | app/src/main/java/com/helsing/soundmodes/SoundModesManager.kt:118-122 | the last step appends only its calls (rule on, or `setRingerMode`) |
| ModeChange.TransitionShape | app/src/main/java/com/helsing/soundmodes/SoundModesManager.kt:109-123 | the transition appends its calls to the log, in order, and keeps the state consistent |
| ModeChange.TransitionActs | app/src/main/java/com/helsing/soundmodes/SoundModesService.kt:128-142 | a transition to a different mode always makes at least one OS call |
| ModeChange.TransitionToSameMode | app/src/main/java/com/helsing/soundmodes/SoundModesManager.kt:109 | when the next mode equals the current one nothing happens at all |
| ModeChange.TransitionVibrates | app/src/main/java/com/helsing/soundmodes/SoundModesManager.kt:109-112 | exactly one vibration iff the mode changes and the next mode is VIBRATE; the log agrees with the counter |
| ModeChange.EnteringSilent | app/src/main/java/com/helsing/soundmodes/SoundModesManager.kt:118-119 | entering SILENT never calls `setRingerMode`; the rule's last state is TRUE and its writes are FALSE then TRUE, as the last two calls |
| ModeChange.EnteringOtherMode | app/src/main/java/com/helsing/soundmodes/SoundModesManager.kt:118-122 | entering any other mode calls `setRingerMode(next)` exactly once, as the last call, and the ringer mode becomes `next` |
| ModeChange.ReleaseWrites | app/src/main/java/com/helsing/soundmodes/SoundModesManager.kt:114-116 | leaving SILENT writes one FALSE to the rule, as the step's last call |
| ModeChange.LeavingSilent | app/src/main/java/com/helsing/soundmodes/SoundModesManager.kt:114-121 | leaving SILENT writes FALSE to the rule once, immediately before the `setRingerMode` call |
| ModeChange.LeavingSilentDeactivates | app/src/main/java/com/helsing/soundmodes/SoundModesWidget.kt:139-141 | after leaving SILENT the app rule's last state is FALSE and no other rule's state changes |
| SoundModesManager.ChangeSoundMode | app/src/main/java/com/helsing/soundmodes/SoundModesManager.kt:95-124 | `changeSoundMode` does exactly what `AfterChangeSoundMode` says: the guard, then `getNextMode` and the transition |
| SoundModesManager.AfterChangeSoundMode | app/src/main/java/com/helsing/soundmodes/SoundModesManager.kt:95-124 | without permission only the call log changes; the permission is never changed |
| SoundModesManager.WithoutPermission | app/src/main/java/com/helsing/soundmodes/SoundModesManager.kt:95-104 | without permission the callback is invoked exactly once, with the permission-toast extra; ringer mode, rule table, rule states and vibrations are unchanged |
| SoundModesManager.WithPermission | app/src/main/java/com/helsing/soundmodes/SoundModesManager.kt:106-123 | with permission, one press moves one step. From NORMAL: VIBRATE, one pulse, rule untouched. From VIBRATE: rule on, ringer not set. From SILENT: rule off, NORMAL set. Any other value: NORMAL set, rule untouched |
| SoundModesManager.ThreePresses | app/src/main/java/com/helsing/soundmodes/SoundModesManager.kt:95-124 | three presses from NORMAL: VIBRATE with one pulse and the rule untouched; then the rule is active; then, once SILENT is reported, NORMAL with the rule inactive |
| SoundModesService.ChangeSoundMode | app/src/main/java/com/helsing/soundmodes/SoundModesService.kt:123-143 | the tile's `changeSoundMode` is the transition alone, with no permission guard |
| SoundModesService.AfterChangeSoundMode | app/src/main/java/com/helsing/soundmodes/SoundModesService.kt:123-143 | with or without permission, a next mode other than SILENT becomes the ringer mode; the permission is never changed |
| SoundModesService.AlwaysActs | app/src/main/java/com/helsing/soundmodes/SoundModesService.kt:123-143 | every call acts on the OS whether or not permission is granted; a next mode other than SILENT becomes the ringer mode; with permission the result equals the manager's |
| SoundModesService.QsTile | app/src/main/java/com/helsing/soundmodes/SoundModesService.kt:103-121 | the tile whose label, content description, icon and state `updateTile` sets in place; `pushes` counts `Tile.updateTile()` calls |
| SoundModesService.UpdateTile | app/src/main/java/com/helsing/soundmodes/SoundModesService.kt:103-121 | no tile: nothing changes; otherwise label and description name the ringer mode, the icon shows it, the state is ACTIVE, and the tile is pushed once |
| SoundModesService.OnStartListening | app/src/main/java/com/helsing/soundmodes/SoundModesService.kt:168-171 | starting to listen refreshes the tile to the current mode, ACTIVE |
| SoundModesService.OnClick | app/src/main/java/com/helsing/soundmodes/SoundModesService.kt:173-177 | a click changes the mode, then the tile's label, description and icon show the mode the OS now reports, its state is ACTIVE, and it is pushed once |
| SoundModesWidget.ChangeSoundMode | app/src/main/java/com/helsing/soundmodes/SoundModesWidget.kt:119-149 | the widget's `changeSoundMode` does exactly what its `AfterChangeSoundMode` says |
| SoundModesWidget.AfterChangeSoundMode | app/src/main/java/com/helsing/soundmodes/SoundModesWidget.kt:119-149 | without permission only the call log changes; the permission is never changed |
| SoundModesWidget.AgreesWithManager | app/src/main/java/com/helsing/soundmodes/SoundModesWidget.kt:119-127 | without permission exactly one activity is started, with the toast extra, and nothing else changes; with permission the result equals the manager's; its intent lacks only CLEAR_TASK |
| SoundModesWidget.OnReceive | app/src/main/java/com/helsing/soundmodes/SoundModesWidget.kt:207-213 | `onReceive` does exactly what `AfterReceive` says |
| SoundModesWidget.AfterReceive | app/src/main/java/com/helsing/soundmodes/SoundModesWidget.kt:207-213 | an action other than `WIDGET_TOGGLE_MODE` leaves the OS untouched; that action always makes an OS call, with or without permission, and never changes the permission |

## Left out

- Vibration parameters: the 200 ms one-shot, default amplitude and notification usage are one abstract pulse.
- The rule builder's fields are not modelled: icon, condition URI, alarms-only interruption filter, trigger description, configuration activity and enabled flag. A rule is its name.
- Condition URIs are not modelled: a condition is its summary (empty, active or inactive resource) and its state. String resources are abstract constants (the rule name is `ZenRules.SilentModeRuleName`).
- The order in which `automaticZenRules` is iterated is the platform's: the model scans ids in ascending order, which is creation order, because ids are allocated increasingly.
- A `SecurityException` or other exception thrown by an OS call (say, when the tile changes the mode without permission) is not modelled. A null result from `addAutomaticZenRule` is modelled.
- How Android itself changes the ringer mode once the alarms-only rule is active is not modelled. The OS changing the ringer mode on its own is the explicit step `AndroidOs.AfterExternalRingerChange`.
- `isNotificationPolicyAccessPermissionEnabled` is the `permission` field. The manager's own copy (SoundModesManager.kt:145-148) and `Functions.kt` are not modelled separately.
- Widget rendering is not modelled: `updateAllWidgets`, `updateAppWidget`, `onUpdate`, RemoteViews and PendingIntent are display code over platform libraries, and the model keeps only the `onReceive` decision. The same holds for `Icon.createWithResource`, which the tile model keeps as an icon value.
- Calls to the superclass (`super.onReceive`, `super.onClick`, `super.onStartListening`) are platform code.
- Not modelled: the Compose screens, the Glance widgets and their receivers, the classic fan-out widgets, `RingerModeReceiver`, `SoundModesApp` and the build configuration. These are UI or broadcast plumbing that delegate to the logic modelled here.
- SoundModesWidget.AgreesWithManager: that the widget "returns before reading the ringer mode" is stated only as "nothing but the one `startActivity` call changes", because a read is not observable in the model.
