# Job Notification Tracker — state and gating model

This project models the state kept by the browser controller
`JobNotificationTracker` in `script.js`:

- the **checklist**: a map from test id to the JSON value stored for it;
- the **ship gate**: locked unless exactly ten entries are `true`;
- the **preferences**: a match threshold and an e-mail flag, plus the two
  page controls that show them;
- the **daily digest**: a fixed, ranked list of ten jobs stamped with the
  day it was made, and valid only on that day;
- the **store**: the browser's key-value storage where every record is saved.

Layout, one module per file:

- `wrappers.dfy` (`Wrappers`): `Option`.
- `json_value.dfy` (`JsonValue`): JSON values and JavaScript truthiness.
  A record read back from storage can hold any JSON value. The model needs
  this because the count tests `=== true`, while checkbox display and the
  threshold test use truthiness.
- `checklist.dfy` (`Checklist`): the count, the gate, the default checklist
  and the reset function, with the lemmas about them.
- `preferences.dfy` (`Preferences`): preference loading and the two display
  decisions of `loadPreferencesUI`.
- `digest.dfy` (`Digests`): the mock list, ranks and the freshness rule.
- `storage.dfy` (`Storage`): the store as `map<string, Record>`, the three
  keys and the save/load round trips.
- `tracker.dfy` (`Tracker`): the class `JobNotificationTracker`, whose event
  handlers update its fields in place.
  - `Valid()` is the invariant every handler keeps: the gate agrees with
    the count; reloading the store gives back the checklist and
    preferences held in memory; a digest held in memory is the stored one.
  - `FreshSessionRefusesShip` and `ShipAfterAllTests` are client sessions.
    In the first, a session from an empty store refuses the ship click. In
    the second, starting from the default checklist, nine passed tests keep
    the gate locked and the tenth unlocks it.

"Today" is a parameter (`today`), not a clock read. The three time-dependent
points are the constructor and `GenerateDigest`, which take it, and
`LoadDigest`, which compares against it.

Points where the code behaves in a way a reader might not expect; the model follows the code:

- Loading preferences does not merge a saved record with the defaults
  field by field. The saved record is used as parsed. Only the e-mail display
  test `!== false` makes a missing field look enabled.
- The count covers every key of the map, not only the ten fixed ids.
- Reset sets every key present to `false`. It does not add fixed ids that
  are missing from a saved map.
- The gate opens only at exactly ten. Eleven passed entries keep it locked
  (`ElevenPassedStaysLocked`), so extra ids can push the count past ten.

## Model

| member | source | states |
|---|---|---|
| `Checklist.PassedCount` | script.js:135-137 | the count is at most the number of entries, and is 0 exactly when no entry is exactly `true` |
| `Checklist.ShipUnlocked` | script.js:120 | the gate is open only when the count is exactly 10, so an open gate needs at least ten entries, some of them exactly `true` |
| `Checklist.AllFalse` | script.js:148-150 | the state the reset loop produces: the same key set, every value `false` |
| `Checklist.LoadTestStates` | script.js:391-409 | a saved map is returned unchanged; with nothing saved, the keys are exactly the ten fixed ids, all `false`, so the count is 0 and the gate is locked |
| `Checklist.DefaultIsUnmarked` | script.js:397-408 | the default checklist is the one in which no fixed test is marked passed |
| `Checklist.CheckboxChecked` | script.js:139-144 | a box shows checked exactly when its id is present and its value is truthy; an exactly-`true` entry always shows checked, and a missing id never does (ids are assumed not to be `Object.prototype` property names, see "## Left out") |
| `Checklist.PassedCountUpdate` | script.js:69-75 | writing one entry changes the count only through that entry: minus one if it was `true`, plus one if the new value is `true` |
| `Checklist.WithPassedStep` | script.js:74 | ticking one more id sets that entry to `true` on top of the ids already ticked |
| `Checklist.WithPassedMarked` | script.js:74 | ticking fixed ids in a checklist of marked fixed ids marks exactly those ids as well |
| `Checklist.ResetClearsChecklist` | script.js:146-156 | reset keeps the key set, makes every value `false`, leaves count 0 and the gate locked, and a second reset changes nothing |
| `Checklist.FixedIdsCount` | script.js:397-408 | the default checklist has ten distinct ids, as many as the gate requires |
| `Checklist.MarkedCount` | script.js:113-137 | for every subset of the fixed ids marked passed, the count is the subset's size, and the gate is open exactly when the subset is all ten ids |
| `Checklist.LastTestUnlocksShip` | script.js:113-132 | nine passed fixed tests keep the gate locked; passing the tenth unlocks it; failing any one of them locks it again |
| `Checklist.ElevenPassedStaysLocked` | script.js:120 | ten passed fixed ids plus one extra passed id give a count of 11, and the gate stays locked |
| `Checklist.TruthyNonBooleanNotCounted` | script.js:135-144 | a truthy value other than `true` shows its box as checked but never raises the count |
| `Preferences.LoadPreferences` | script.js:415-425 | a saved record is returned as is; with nothing saved the result is threshold 75 and e-mail `true` |
| `Preferences.LoadPreferencesUI` | script.js:202-215 | the slider takes the threshold only when it is present and truthy, and otherwise keeps its value; the e-mail box is unchecked exactly when the stored value is exactly `false` |
| `Preferences.DefaultControls` | script.js:202-215 | with nothing saved, the controls show 75 and a checked box |
| `Preferences.PartialRecordQuirks` | script.js:202-215 | a saved record with the e-mail field missing or 0, and the threshold missing or 0, is not merged: the slider is untouched and the box shows enabled |
| `Digests.MockDigest` | script.js:290-301 | the generated list has 10 entries, from 95 down to 75, every score strictly above every later one |
| `Digests.EntryAtRank` | script.js:304-307 | the entry shown with rank `rank` (position + 1) is an entry of the list |
| `Digests.RankOrder` | script.js:304-312 | in the generated list a better rank has a strictly higher score, and rank 1 holds the highest |
| `Digests.LoadDigest` | script.js:444-455 | a digest is returned exactly when one is saved and its stamp equals today, and then it is the saved one; otherwise the result is absent |
| `Digests.GeneratedDigestExpires` | script.js:321-324 | a digest generated on one day loads on that day and is absent on any other day |
| `Storage.SavedTestStates` | script.js:392-394 | a checklist is read back exactly when a checklist record is stored under `jnt_test_states`, and it is that record; anything else reads as nothing saved |
| `Storage.SavedPreferences` | script.js:416-418 | preferences are read back exactly when a preferences record is stored under `jnt_preferences`, and it is that record; anything else reads as nothing saved |
| `Storage.SavedDigest` | script.js:445-447 | a digest is read back exactly when a digest record is stored under `jnt_digest`, fresh or not, and it is that record; anything else reads as nothing saved |
| `Storage.TestStatesRoundTrip` | script.js:387-394 | saving the checklist and reloading gives it back; the stored preferences and digest are unchanged |
| `Storage.PreferencesRoundTrip` | script.js:411-419 | saving the preferences and reloading gives them back; the stored checklist and digest are unchanged |
| `Storage.DigestRoundTrip` | script.js:440-451 | saving a digest and loading it on its own day gives it back; the stored checklist and preferences are unchanged |
| `Storage.StaleDigestKept` | script.js:444-455 | a stale digest stays in the store but loads as absent |
| `Tracker.JobNotificationTracker.constructor` | script.js:3-21 | start-up loads each record or its default, keeps the saved digest only if it is from today, sets the route to `dashboard`, sets the gate from the count and reflects the preferences into the controls; `Valid()` holds |
| `Tracker.JobNotificationTracker.UpdateShipLock` | script.js:113-132 | the gate is locked exactly when the count is not 10 |
| `Tracker.JobNotificationTracker.NavigateToRoute` | script.js:41-55 | the current route becomes the requested one |
| `Tracker.JobNotificationTracker.ClickNav` | script.js:24-37 | a click is refused with a warning exactly when the route is `ship` and the count is not 10; a refused click leaves the route unchanged, and any other click shows the route |
| `Tracker.JobNotificationTracker.SaveTestStates` | script.js:387-389 | the store gets the current checklist under `jnt_test_states` and nothing else changes |
| `Tracker.JobNotificationTracker.SavePreferences` | script.js:411-413 | the store gets the current preferences under `jnt_preferences` and nothing else changes |
| `Tracker.JobNotificationTracker.SaveDigest` | script.js:440-442 | the store gets the current digest under `jnt_digest` and nothing else changes |
| `Tracker.JobNotificationTracker.HandleTestChange` | script.js:69-81 | the entry is set to the flag, and added if new; every other entry is unchanged; the saved copy equals the new map; the count moves by that one entry; `Valid()` is kept, so the gate agrees with the new count |
| `Tracker.JobNotificationTracker.ResetTestStates` | script.js:146-156 | the loop makes every value `false` and keeps the key set; the result is saved; the count is 0 and the gate is locked; `Valid()` is kept |
| `Tracker.JobNotificationTracker.SetMatchThreshold` | script.js:185-192 | the threshold field becomes the parsed number, the e-mail field is kept, the record is saved; `Valid()` is kept |
| `Tracker.JobNotificationTracker.SetEmailNotifications` | script.js:194-199 | the e-mail field becomes the flag, the threshold is kept, the record is saved and the box shows the flag; `Valid()` is kept |
| `Tracker.JobNotificationTracker.GenerateDigest` | script.js:283-329 | the digest is replaced as a whole by the ten mock entries stamped today and saved; loading it the same day gives it back; `Valid()` is kept |
| `Tracker.PassTests` | script.js:58-81 | ticking a set of tests one box at a time, in any order, sets exactly those entries to `true`, keeps every other entry, changes only the checklist, its store key and the gate, and keeps `Valid()` |

## Left out

- Everything done on the page: class toggling, HTML building, the progress
  bar and its percentage (floating-point, display only), animations,
  notifications, tooltips and the injected styles. A refused ship click is
  modelled only as the `warned` result of `ClickNav`.
- Test ids are taken not to be names of `Object.prototype` properties
  (`__proto__`, `constructor`, `toString`, …). For those, a plain JS object
  does not behave as a map: `__proto__` stores nothing, and an inherited
  property makes a missing id look truthy. The page's ten checkboxes never
  use such ids.
- `localStorage`, `JSON.stringify`/`JSON.parse` and
  `new Date().toDateString()`. These are calls into the browser. The store
  is an abstract map whose reads return what was last written, and the date
  is the `today` parameter.
- Malformed JSON in the store is not handled by the code, and not modelled.
  A record of the wrong kind under a key (only possible when something else
  wrote it) is read as "nothing saved". The code would instead use whatever
  it parsed.
- A saved preferences record is modelled as two optional fields. Other
  fields, and a record that is not an object, are not represented.
- JSON numbers are integers here. The tracker only stores integers: the
  threshold comes from `parseInt` of a range control. NaN and fractions
  are not modelled, and neither is the control's coercion of a
  non-numeric value.
- The `setTimeout` delay of `generateDigest` and the race between two
  overlapping generations. Generation is one atomic step.
- The `confirm()` dialog of `resetTestStatus`: the model starts at
  `ResetTestStates`, after the user has confirmed.
- `navigateToTests` calls `navigateToRoute('test')` directly and so bypasses
  the gate. The ungated path is `NavigateToRoute`. The wrapper itself is not
  modelled.
- A DOM lookup for a route with no matching element throws in
  `navigateToRoute` before the route changes. Routes are taken as always
  having their elements.
- The presence checks for page elements in `bindPreferences` and
  `loadPreferencesUI`: the controls are taken to exist.
- The threshold label text (`value%`) is not modelled. It is display only.
- `filterJobs`, `saveJob`, `updateJobStatus`, `loadJobs`, `saveJobs` and the
  job list. They only log or show notifications, and keep no state the
  tracker reads.
