# ZERO HOUR goal and target store, in Dafny

ZERO HOUR is a browser dashboard. Both of its variants hold one global
`appState` with two lists side by side: the records and the ids of the
completed ones. The user creates, completes and deletes records, and
the page shows figures derived from the two lists.

- **First variant (`script.js`).** The records are targets with a name,
  a date, an `HH:MM` time and a category. The page shows the
  locked/completed/in-progress counts, a success rate, the active
  missions, a countdown to the first target's time and an exportable
  report. The whole state is saved under `zeroHourState`.
- **Second variant (`script_Version5.js`).** The user signs in with a
  code of at least three UTF-16 code units. They keep personal goals, team
  goals and completed goal ids. Those three lists are saved in their
  own partition, `userData_<code>`. The whole state is saved under
  `zeroHourAppState` and the last code under `userCode`.

The modules:

- `Lists` (`lists.dfy`): the list operations both variants use.
  - **Add once.** Append an id unless it is already there (`AddOnce`).
  - **Cascading delete.** Remove an id from the id list (`Remove`) and
    remove every record with that id (`RemoveKey`).
  - **Pending filter.** Keep the records whose id is not completed
    (`Pending`).
  - **`Tracks` invariant.** The completed ids have no duplicates and
    name only existing records.
- `Metrics` (`metrics.dfy`): the counters and the success rate.
  `Math.round((c / t) * 100)` is restated over exact integers as
  `(200c + t) div 2t`.
- `Text` (`text.dfy`): JavaScript's `toUpperCase` (ASCII letters),
  `trim` (the ECMAScript white space and line terminators) and `length`
  (UTF-16 code units).
- `Clock` (`clock.dfy`): the `HH:MM` countdown.
  - It reads the time the way `split(':')` and `parseInt` do.
  - It puts the deadline on today's clock, keeping the current
    millisecond.
  - It moves a passed deadline to tomorrow.
  - It splits what is left into hours and minutes.
- `Targets` (`targets.dfy`): the first variant.
  - Pure functions for the storage read and write, the metrics, the
    active missions, the countdown and the report.
  - Class `TargetStore`: its fields are `appState`'s and the storage
    map. Its methods are the form handler, `completeTarget`,
    `deleteTarget` and the business-tab handler.
- `Goals` (`goals.dfy`): the second variant.
  - Pure functions for `loadState`/`saveState`, the user partition key,
    `loadUserData`/`saveUserData`, the login's choice and check of the
    code, and the profile initial.
  - Class `GoalStore` with the login and the goal mutators.

How the environment is modelled:

- **Browser storage** is a field `storage: map<string, Stored>`.
- **Stored values.** A stored value is either an abstract document, the
  result of `JSON.stringify`, or raw text `Text(t)`. Under the keys that
  `loadState` and `loadUserData` parse, `Text(t)` stands for text that
  `JSON.parse` rejects (the empty string aside, which is never parsed).
  Under `userCode`, which is never parsed, it is the code itself.
- **Parse failures.** `loadState` and `loadUserData` have no `try`, so
  a parse failure stops them before they assign anything. The model
  returns `ok == false` and leaves the state unchanged.
- **Inputs.** `Date.now()` ids, `new Date().toISOString()` timestamps,
  the `confirm` answer, the login field's text and the current time of
  day are parameters.

Three behaviours of the code that the model keeps as written:

- **Corrupt stored state.** `loadState` does not fall back silently to
  the default state. `JSON.parse` throws out of
  `loadState` (`script.js:12`, `script_Version5.js:16`) and out of
  `loadUserData` (`script_Version5.js:112`). The model has these
  operations fail and change nothing.
- **Completing a deleted record.** Completing a record after deleting
  it does change the completed list. `completeTarget` and
  `completeGoal` do not check that the record exists, so the id is
  appended again. `Lists.CompleteAfterDelete`
  states this.
- **What the goal mutators save.** They call only `saveUserData`, never
  `saveState`. The whole-state copy under `zeroHourAppState` therefore
  holds the lists `appState` had when the login saved it, before
  `loadUserData` ran (`script_Version5.js:75-78`). The user's goals never
  reach it.

## Model

| member | source | states |
|---|---|---|
| Lists.AddOnce | script.js:240-241 | an id already present leaves the list as it was; otherwise it is appended once at the end; the members are the old ones plus the id; a duplicate-free list stays duplicate-free |
| Lists.AddOnceIdempotent | script.js:239-241 | completing twice is completing once |
| Lists.CompleteAfterDelete | script.js:239-252 | deleting an id and then completing it leaves the id at the end of the completed list: completion does not check existence |
| Lists.Remove | script.js:252 | the filtered id list holds exactly the old members other than the id, and is no longer |
| Lists.RemoveAbsent | script.js:252 | filtering out an id that is absent changes nothing |
| Lists.RemoveConcat | script.js:252 | the filter keeps relative order: it distributes over concatenation |
| Lists.RemoveNoDup | script.js:252 | filtering keeps a list duplicate-free and, when the id was present, shortens it by exactly one |
| Lists.RemoveKey | script.js:251 | the filtered record list holds exactly the records with another id, and no record with the id |
| Lists.RemoveKeyConcat | script.js:251 | the record filter keeps relative order: it distributes over concatenation |
| Lists.RemoveKeyAbsent | script.js:251 | filtering out an id no record has changes nothing |
| Lists.RemoveKeyUnique | script.js:251 | filtering keeps record ids unique |
| Lists.TracksAppend | script.js:193 | appending a record keeps the completed list duplicate-free and within the record ids |
| Lists.TracksAddOnce | script.js:240-241 | completing an existing id keeps the invariant |
| Lists.TracksRemove | script.js:251-252 | the cascading delete keeps the invariant |
| Lists.TracksBound | script.js:98-100 | under the invariant there are no more completed ids than records |
| Lists.Pending | script.js:116 | the records kept are exactly those whose id is not completed |
| Lists.PendingConcat | script.js:116 | the filter keeps insertion order: it distributes over concatenation |
| Lists.PendingAgree | script.js:116 | the filter depends only on which of the records' ids are completed |
| Lists.PendingCount | script.js:97-116 | with unique record ids and the invariant, as many records are pending as there are records minus completed ids |
| Metrics.SuccessRate | script.js:107 | 0 for no records; otherwise the integer r with 2t·r <= 200c + t < 2t·r + 2t, the nearest integer to 100c/t with halves rounding up |
| Metrics.RateBounds | script.js:107 | with no more completed than records the rate is in 0..100 |
| Metrics.RateFull | script.js:107 | the rate is 100 exactly when at least 99.5% are completed |
| Metrics.RateZero | script.js:107 | the rate is 0 exactly when there are no records or fewer than one in 200 is completed |
| Metrics.RateExamples | script.js:107 | 0/0 → 0, 1/4 → 25, 2/3 → 67, 1/8 → 13, 1/1 → 100, 199/200 → 100 |
| Metrics.Summarize | script.js:97-108 | total and completed as given, in progress as their difference, the rate as above; in range when completed <= total |
| Text.ToUpper | script_Version5.js:65 | same length, each ASCII lower-case letter raised, nothing lower-case left |
| Text.ToUpperIdempotent | script_Version5.js:65 | upper-casing twice is upper-casing once |
| Text.Trim | script_Version5.js:65 | the result is a slice of the input that is empty or starts and ends with a non-space, and everything before it is white space |
| Text.TrimDropsOnlySpace | script_Version5.js:65 | everything after the kept slice is white space |
| Text.TrimTrimmed | script_Version5.js:65 | a string already starting and ending with a non-space is left as it is |
| Text.TrimIdempotent | script_Version5.js:65 | trimming twice is trimming once |
| Text.Utf16Length | script_Version5.js:67 | the code-unit length lies between the character count and twice it |
| Clock.DigitsValue | script.js:155 | the decimal value `parseInt` gives a run of digits; `k` digits stay below `10^k` |
| Clock.DigitPrefix | script.js:155 | the leading run of digits, followed by a non-digit or the end |
| Clock.ParseInt | script.js:155 | a number exactly when the piece exists and starts with a digit (`NaN` otherwise) |
| Clock.Field | script.js:153 | the text before the first `:`, all of it when there is none |
| Clock.SecondField | script.js:153 | absent exactly when the text has no `:`; otherwise a piece without `:` that follows the first field and its `:` |
| Clock.ParseHourMinute | script.js:153-155 | both fields parse only when the text holds a `:` |
| Clock.ParseClockFace | script.js:153-155 | `HH:MM` with two digits on either side parses to the hour and minute they denote |
| Clock.DeadlineToday | script.js:154-155 | the deadline falls on minute `60 * hours + minutes` of today, with seconds zeroed and the current millisecond kept |
| Clock.MsUntil | script.js:155-161 | the wait is never negative, is the distance to today's deadline or that plus a day, is that distance when the deadline has not passed, and is under a day for a valid clock time |
| Clock.HoursMinutes | script.js:161-163 | whole hours and minutes 0..59 that bracket the wait to the minute; under 24 hours for a wait under a day |
| Clock.CountdownTo | script.js:152-163 | `NaN` exactly when the time does not parse; otherwise minutes in 0..59 and, for a valid clock time, hours in 0..23 |
| Clock.PassedDeadlineRollsOver | script.js:157-159 | an 08:00 deadline at 09:30 has passed and rolls over: 22 h 30 m |
| Clock.DeadlineNowIsZero | script.js:157-163 | a deadline exactly now is not moved: 0 h 0 m |
| Targets.Read | script.js:9-14 | nothing to load for a missing key or empty text, the saved state for a document, a parse failure for other text |
| Targets.Saved | script.js:17-19 | the state under `zeroHourState`, every other key unchanged, and reading it back gives the state |
| Targets.Ids | script.js:116 | the target ids, position by position |
| Targets.CurrentMetrics | script.js:97-108 | counts from the two lists, in progress as their difference, the success rate; for a consistent state in progress is in 0..total and the rate in 0..100 |
| Targets.ActiveMissions | script.js:116 | exactly the targets whose id is not completed; with unique ids and a consistent state as many as the in-progress counter |
| Targets.ActiveMissionsAppend | script.js:116 | a newly appended target that is not completed comes last among the active missions |
| Targets.DeadlineCountdown | script.js:145-166 | "No targets" exactly for an empty list, otherwise the countdown to the first target's time, whatever the others say |
| Targets.RowOf | script.js:316-321 | one report row: the target's name, date, time and category, `Completed` when its id is in the completed list and `In Progress` otherwise |
| Targets.ReportRows | script.js:316-322 | one row per target in order, carrying its fields, "Completed" exactly when its id is completed |
| Targets.InProgressRows | script.js:321 | the rows whose status is "In Progress" |
| Targets.InProgressRowsAreActive | script.js:316-322 | the report's in-progress rows are the active missions' rows, in the same order |
| Targets.GenerateReport | script.js:309-323 | the totals, the same success rate as the metrics panel, the rows above |
| Targets.TargetStore.constructor | script.js:2-6 | the initial state: no targets, none completed, business "viraaj" |
| Targets.TargetStore.LoadState | script.js:9-14 | a saved state replaces the current one; missing or empty, nothing changes; unparsable, it fails and nothing changes; storage untouched |
| Targets.TargetStore.SaveState | script.js:17-19 | storage becomes the written map |
| Targets.Filled | script.js:179 | the form passes exactly when name, date, time and category are all non-empty |
| Targets.TargetStore.SubmitTarget | script.js:179-193 | with all four fields filled, exactly one target appended at the end and the state saved; otherwise nothing changes; completed list and business untouched; invariant and unique ids kept |
| Targets.TargetStore.CompleteTarget | script.js:239-247 | the id added once, saved only when it was new; targets untouched; invariant kept when the id exists |
| Targets.TargetStore.DeleteTarget | script.js:249-258 | once confirmed, the id cascaded out of both lists and the state saved; declined, nothing changes; invariant and unique ids kept |
| Targets.TargetStore.SelectBusiness | script.js:277-278 | the business recorded and saved, the lists untouched |
| Targets.Reload | script.js:9-19 | saving and loading on a fresh page restores exactly the saved state |
| Goals.ReadEntry | script_Version5.js:109-112 | nothing for a missing key or empty text, the document for a document, a parse failure for other text |
| Goals.StoredCode | script_Version5.js:19-22 | the stored code exactly when the `userCode` entry is non-empty text |
| Goals.LoadedState | script_Version5.js:13-23 | a parse failure throws; otherwise the lists and business come from the saved state, or the current one when none is saved, and a stored code overrides the code |
| Goals.SavedState | script_Version5.js:25-30 | the state under `zeroHourAppState`, the code under `userCode` only when it is set, every other key unchanged |
| Goals.SaveLoadRoundTrip | script_Version5.js:13-30 | save then load gives the state back exactly when it has a code or no truthy code is stored |
| Goals.UserKey | script_Version5.js:108 | `userData_` followed by the code, never the key of the state or of the code |
| Goals.UserKeyInjective | script_Version5.js:108 | different codes have different partitions |
| Goals.UserDataOf | script_Version5.js:123-128 | the partition holds the user's personal goals, team goals and completed ids, all present, and the save time |
| Goals.SavedUserData | script_Version5.js:119-131 | no code, no change; otherwise only the user's key is written, with the three lists and the save time |
| Goals.LoadedUserData | script_Version5.js:107-117 | missing, no change; a partition replaces the three lists, a missing list becoming empty; other text throws; code and business untouched |
| Goals.UserDataRoundTrip | script_Version5.js:107-131 | a saved partition loads back the lists that were saved |
| Goals.OtherUsersUntouched | script_Version5.js:119-131 | saving one user's partition leaves every other user's partition as it was |
| Goals.UserSaveKeepsAppState | script_Version5.js:119-131 | saving a partition changes nothing `loadState` reads |
| Goals.StateSaveKeepsUserData | script_Version5.js:25-30 | saving the state changes nothing `loadUserData` reads |
| Goals.ChosenCodeShape | script_Version5.js:65 | a truthy code passed in is used as given; a typed code has no lower-case letter, no white space at either end, and is no longer than what was typed |
| Goals.LoginKeepsPartition | script_Version5.js:74-80 | storing the code and saving the state before `loadUserData` leave the user's partition as it was |
| Goals.ChosenCode | script_Version5.js:65 | the code passed in when it is non-empty; otherwise the typed text upper-cased, then trimmed (its shape is stated by `ChosenCodeShape`) |
| Goals.ValidCode | script_Version5.js:67 | a code passes exactly when it is non-empty and at least three UTF-16 code units long |
| Goals.ValidCodeLength | script_Version5.js:67 | any three characters pass the length check; a single character never does |
| Goals.TypedCodeNormalised | script_Version5.js:65 | typing the code the login produced gives the same code again |
| Goals.NormalisedShape | script_Version5.js:65 | an upper-cased, trimmed code has no lower-case letter, no white space at either end, and is no longer than what was typed |
| Goals.NormalisedIsFixed | script_Version5.js:65 | upper-casing and trimming a code that was already upper-cased and trimmed gives it back |
| Goals.ToUpperNoLower | script_Version5.js:65 | upper-casing a string with no lower-case letter changes nothing |
| Goals.TrimKeepsUpper | script_Version5.js:65 | trimming a string with no lower-case letter leaves none |
| Goals.Initial | script_Version5.js:134 | the first character of the code, empty for an empty code |
| Goals.CurrentMetrics | script_Version5.js:364-375 | counts from the personal and completed lists, in progress as their difference, the success rate; in range for a consistent state |
| Goals.GoalStore.constructor | script_Version5.js:4-10 | the initial state: no code, empty lists, business "viraaj" |
| Goals.GoalStore.LoadState | script_Version5.js:13-23 | the state becomes the loaded one; on a parse failure nothing changes; storage untouched |
| Goals.GoalStore.SaveState | script_Version5.js:25-30 | storage becomes the written map |
| Goals.GoalStore.LoadUserData | script_Version5.js:107-117 | the state becomes the one loaded from the partition; on a parse failure nothing changes; storage untouched |
| Goals.GoalStore.SaveUserData | script_Version5.js:119-131 | storage becomes the map with the partition written |
| Goals.GoalStore.LoginWithCode | script_Version5.js:64-97 | a code failing the check is rejected with nothing changed; otherwise the code is stored and the state saved, then the user's lists are loaded from the partition as it was before, yielding the initial, or the load fails with the code already set |
| Goals.GoalStore.SignIn | script_Version5.js:72-90 | the code is set and stored under its own key, the state saved, the user's lists loaded from the partition as stored before login, and the profile's initial shown; a partition that does not parse leaves the code set and reports the failure |
| Goals.GoalFilled | script_Version5.js:231 | the form passes exactly when name, date and category are all non-empty; the description may be empty |
| Goals.GoalStore.AddPersonalGoal | script_Version5.js:225-252 | with name, date and category filled, one uncompleted goal appended and the partition saved; otherwise nothing changes; the other lists, code and business untouched; invariant and unique ids kept |
| Goals.GoalStore.CompleteGoal | script_Version5.js:283-291 | the id added once, saved only when it was new; goals untouched; invariant kept when the goal exists |
| Goals.GoalStore.DeleteGoal | script_Version5.js:293-301 | once confirmed, the id cascaded out of personal goals and completed ids and the partition saved; team goals untouched; invariant and unique ids kept |
| Goals.GoalStore.AddTeamGoal | script_Version5.js:304-329 | with name, code and deadline filled, one team goal appended with the upper-cased code, the user as only member and no progress, and the partition saved; otherwise nothing changes |
| Goals.GoalStore.DeleteTeamGoal | script_Version5.js:355-361 | once confirmed, every team goal with the id removed and the partition saved; nothing else changes |

## Left out

- DOM reads and writes: rendering, notifications, navigation, the mobile menu, the splash and quote screens. They are user interface.
- `JSON.stringify`/`JSON.parse` as text, and `localStorage` as real storage. Storage is an abstract map of documents and text.
- A document of the wrong kind under a key (a user partition under `zeroHourAppState`, or the reverse) is treated as a parse failure. The code never writes one, and the keys are proved distinct.
- A `userCode` entry that holds a document, not text, is read as no code. The code only writes text there.
- Valid JSON that is not a saved document (`42`, `[]`, `true`, `null`, a quoted string) is not modelled. The code never writes such text. `JSON.parse` accepts it, and then:
  - under `userData_<code>` every list falls back to `[]`, except for `null`, where reading `.personalGoals` throws before any list is assigned;
  - under `zeroHourState` and `zeroHourAppState` it replaces `appState` with a non-object. The second variant then writes `userCode` onto that value when a code is stored, which throws for `null`.
- Partial documents under the state key (a saved `appState` lacking a field) are not modelled. The code never writes one.
- `Math.random` values: mission progress, battery, the shloka choice. Their only point is non-determinism.
- Metrics.SuccessRate: `Math.round` is taken over the exact quotient. Floating-point error in `(c / t) * 100` can round a few exact halves down (29/200 may show 14, not 15).
- Clock.DeadlineToday: time zones, daylight saving and the calendar are left out. The deadline `Date` is assumed to carry the same millisecond as `now`, though the code takes two readings of the clock. Its value is an unbounded integer: the invalid `Date` that `setHours` gives once the time passes the 8.64e15 ms range of `Date` (fields of about 2.4e9 hours or more) is not modelled. `<input type="time">` values never come near that range.
- Clock.CountdownTo: it is `NaN` exactly when the time does not parse. The code also shows `NaN` for fields that parse but put the deadline outside the range of `Date` (see Clock.DeadlineToday). There the model gives a number.
- Clock.ParseInt: leading white space, a sign and a `0x` prefix are not accepted. `parseInt` accepts them, but `<input type="time">` values never have them.
- Text.ToUpper: only ASCII letters are raised. JavaScript also raises other scripts' letters and can lengthen a string (`ß` becomes `SS`).
- Goals.Initial: the first character, where `substring(0, 1)` takes the first UTF-16 code unit, half of a character outside the Basic Multilingual Plane.
- `clearAllData`, `logout` and `location.reload`. They leave the page.
- Share, clipboard, download and mailto functions, `reportBug`, and the `healthTracker` and `quoteSystem` hooks. They are external, or defined outside `script.js` and `script_Version5.js`.
- `sw_Version2.js` is not part of this model. It is a service-worker cache proxy doing asynchronous I/O.
- Team goal progress, team membership beyond the creator, and the goal `completed` flag after creation. The code never updates them.
