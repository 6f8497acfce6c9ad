# AWS Cloud Controller: the application state machine in Dafny

This project models the core of a terminal dashboard for AWS EC2 instances
and Lambda functions. The core is an event-driven reducer over one `App`
record. Each terminal event, each result posted by background work and each
timer tick maps the current state to the next one. The model covers:

- **Dispatch** (`Handlers`). Top-level events and the modal dialogs, including
  list clamping, screen and dialog scroll bounds in `u16` arithmetic, and the
  "keep the highlighted row visible" adjustment.
- **Actions** (`Actions`):
  - toasts and the refresh protocol, with its classification of session-expiry errors;
  - the auto-refresh timer and its boost mode;
  - instance start, stop and terminate;
  - auto-stop scheduling, where a new schedule replaces the old one;
  - throttled, de-duplicated alerts for long-running instances;
  - the settings draft transaction;
  - single sign-on login and profile switching, and the handling of their notifications.
- **Helpers** used by the reducer:
  - cyclic settings values and the settings field order (`UserSettings`);
  - the bounded log buffer (`Logger`);
  - the key-to-event mapping (`Event`);
  - instance defaulting and the `~/.aws/config` header parser (`Aws`);
  - the fixed configuration (`Config`).
- **Life cycle** (`AppLoop`). The initial state built by `App::new`, and one
  pass of the main loop with its fixed step order.

External pieces are inputs:

- The cloud is the `World` oracle, one per pass of the main loop, so
  instances can change state between passes. For a given client it gives
  the raw records of the two listings or their error, the outcome of each
  instance call, and the outcome of saving settings. The model itself
  converts the raw records (`Aws.Ec2Listing`, `Aws.LambdaListing`). The
  error of an instance call is the client's whole message.
- The wall clock is an integer `now`, in whole seconds.
- The notification channel is a sequence of `Notification`s, delivered one batch per tick.
- The `AWS_PROFILE` environment variable is the `profileEnv` field.
- Background work is recorded in order in the `effects` field: the alert
  sound, the `aws sso login` process and the client rebuild.

`u16` and `usize` arithmetic is written out explicitly (`U16`, `SatSub`,
`SatAddU16`, `AsU64`). The model uses the release-mode wrap-around, which is
what the compiled program does.

The program disagrees with itself in two places, and the model follows the code
that uses each item:

- `App::new` reads `settings.default_profile`, but the `Settings` struct has no
  such field. The model adds `defaultProfile: Option<string>` to `Settings`.
- The handler matches `AppEvent::ShowChangelog`, but the event enum has no such
  variant. The model includes it, and no key maps to it.

One more mismatch: the alert check reads the fixed `config.alerts`, not the
threshold and sound flag that the user edits in settings.
`Actions.CheckAlertsIgnoresSettings` states this.

The settings draft is documented as existing only while editing, but it can
outlive the settings dialog. The profile key switches from that dialog
straight to the profile picker (`Handlers.ProfileKeyKeepsDraft`). An
activated profile or a new alert replaces the dialog within the same pass
(`AppLoop.TickCanCloseFreshSettings`). The stale draft is never read: the
settings dialog is only entered through the settings key, which starts a
fresh draft (`Handlers.SettingsDialogStartsFresh`).

## Model

| member | source | states |
|---|---|---|
| Common.U16 | src/app/handlers.rs:132 | A `u16` result (a product or an `as u16` cast) is taken modulo 65536, and values that fit are unchanged |
| Common.SatSub | src/app/handlers.rs:102 | `saturating_sub` never goes below 0, and is exact subtraction when the subtrahend is not larger |
| Common.SatAddU16 | src/app/handlers.rs:322 | `u16::saturating_add` stops at 65535, and is exact addition below it |
| Common.AsU64 | src/app/actions.rs:130 | A signed count of seconds cast `as u64` wraps negatives, and non-negative values are unchanged |
| Common.Lower | src/app/actions.rs:497 | Lower-casing maps each character independently and keeps the length |
| Common.PositionOr | src/app/mod.rs:106-107 | `position(..).unwrap_or(0)`: the first index holding the value, with nothing equal before it, or the fallback when the value is absent |
| Common.ParseNatToString | src/settings.rs:161-169 | Decimal formatting of a count reads back as the count (used for the formatted durations) |
| AppState.DefaultScreen | src/app/state.rs:11-19 | The screen the application defaults to is Home |
| Config.DefaultAlertConfig | src/config/mod.rs:16-24 | Default alerting is a one-hour threshold with sound on and no webhook |
| Config.DefaultAppConfig | src/config/mod.rs:36-44 | The default configuration has no region override, the default alerting, and a 250 ms tick |
| Logger.LastN | src/logger/mod.rs:64-66 | The kept entries are the newest `min(len, n)` entries: a suffix of the list |
| Logger.NewLogManager | src/logger/mod.rs:52-57 | A new log has no entries and scroll offset 0 |
| Logger.Log | src/logger/mod.rs:60-67 | Logging appends the new entry last and drops only the oldest entries, so the count is `min(len+1, 1000)`; the scroll offset is unchanged |
| Logger.LogBelowCapAppends | src/logger/mod.rs:60-61 | Below the 1000-entry cap, logging is exactly an append |
| Logger.LogDebug | src/logger/mod.rs:70-73 | Records the message at exactly the Debug level, as `Log` does |
| Logger.LogInfo | src/logger/mod.rs:75-78 | Records the message at exactly the Info level, as `Log` does |
| Logger.LogSuccess | src/logger/mod.rs:80-83 | Records the message at exactly the Success level, as `Log` does |
| Logger.LogWarning | src/logger/mod.rs:85-88 | Records the message at exactly the Warning level, as `Log` does |
| Logger.LogError | src/logger/mod.rs:90-93 | Records the message at exactly the Error level, as `Log` does |
| Logger.LastNAppend | src/logger/mod.rs:64-66 | Trimming after each append gives the same list as trimming once at the end |
| Logger.LogKeepsMostRecent | src/logger/mod.rs:7-67 | Any sequence of log calls keeps exactly the newest 1000 entries of everything logged, in order |
| Logger.ScrollUp | src/logger/mod.rs:107-109 | Scrolling up decrements the offset, stopping at 0, and keeps the entries |
| Logger.ScrollDown | src/logger/mod.rs:113-118 | Scrolling down increments only while the offset is below `len − visible` (saturating), so it never passes that bound; the entries are kept |
| Logger.ScrollUpUndoesScrollDown | src/logger/mod.rs:107-118 | A scroll down that moved is undone by a scroll up |
| Logger.ScrollToBottom | src/logger/mod.rs:122-124 | Scrolling to the bottom sets the offset to 0 and keeps the entries |
| UserSettings.DefaultSettings | src/settings.rs:31-41 | The defaults are a 60 s refresh, logs tab hidden, Info level, a 3600 s alert threshold, sound on and no default profile |
| UserSettings.StepIndex | src/settings.rs:116-124 | The next or previous position stays within the list |
| UserSettings.StepIndexModular | src/settings.rs:116-124 | Forward is `(i+1) mod n`; backward is `n−1` from 0 and `i−1` otherwise, which is `(i+n−1) mod n` |
| UserSettings.StepIndexInverse | src/settings.rs:116-124 | A step one way is undone by a step the other way |
| UserSettings.CycleValue | src/settings.rs:109-127 | The cycled value is always one of the listed values |
| UserSettings.IndexOfDistinct | src/settings.rs:112-114 | In a list without duplicates, the position found for the j-th value is j |
| UserSettings.CycleValueAt | src/settings.rs:109-127 | From the j-th listed value, cycling gives the value at the stepped position |
| UserSettings.CycleValueNeighbours | src/settings.rs:116-126 | From the j-th listed value, forward gives the next value and backward the previous one, with wrap-around |
| UserSettings.CycleValueRoundTrip | src/settings.rs:109-127 | From a listed value, cycling forward then back (or back then forward) returns it |
| UserSettings.RefreshIntervalsDistinct | src/settings.rs:110 | The five refresh intervals are distinct |
| UserSettings.AlertThresholdsDistinct | src/settings.rs:131 | The five alert thresholds are distinct |
| UserSettings.CycleRefreshInterval | src/settings.rs:109-127 | The new interval is one of 15, 30, 60, 120 and 300; no other setting changes |
| UserSettings.CycleAlertThreshold | src/settings.rs:130-148 | The new threshold is one of 1800, 3600, 7200, 14400 and 28800; no other setting changes |
| UserSettings.RefreshIntervalRoundTrip | src/settings.rs:109-127 | From a listed interval, forward then back restores the settings |
| UserSettings.RefreshIntervalNeighbours | src/settings.rs:109-127 | From the j-th interval, forward gives entry `(j+1) mod 5` and back gives entry `(j+4) mod 5` |
| UserSettings.UnlistedRefreshInterval | src/settings.rs:112-114 | An unlisted interval counts as 60 s, so forward gives 120 and back gives 30 |
| UserSettings.AlertThresholdNeighbours | src/settings.rs:130-148 | From the j-th threshold, forward gives entry `(j+1) mod 5` and back gives entry `(j+4) mod 5` |
| UserSettings.AlertThresholdRoundTrip | src/settings.rs:130-148 | From a listed threshold, forward then back restores the settings |
| UserSettings.UnlistedAlertThreshold | src/settings.rs:133-135 | An unlisted threshold counts as 3600 s, so forward gives 7200 and back gives 1800 |
| UserSettings.ToggleLogsPanel | src/settings.rs:151-153 | Flips the logs-panel flag and nothing else |
| UserSettings.ToggleSound | src/settings.rs:156-158 | Flips the sound flag and nothing else |
| UserSettings.TogglesAreInvolutions | src/settings.rs:151-158 | Each toggle applied twice restores the settings |
| UserSettings.FormatSeconds | src/settings.rs:161-169 | The text is digits followed by one unit letter: `s` below 60, `m` below 3600, `h` otherwise |
| UserSettings.FormatSecondsReadsBack | src/settings.rs:161-169 | The digits read back as the value divided by the unit (integer division) |
| UserSettings.FormatRefreshInterval | src/settings.rs:161-169 | The interval text reads back as the interval truncated to its unit |
| UserSettings.FormatAlertThreshold | src/settings.rs:172-180 | The threshold text reads back as the threshold truncated to its unit |
| UserSettings.FormatListedValues | src/settings.rs:110-180 | Every listed interval and threshold is shown as its natural text ("15s", "2m", "1h", "8h", …) |
| UserSettings.CycleLogLevel | src/settings.rs:183-202 | The new level is never Success, Success becomes Info in both directions, and no other setting changes |
| UserSettings.CycleLogLevelIsRotation | src/settings.rs:183-202 | Cycling moves one step around Debug, Info, Warning, Error; forward and backward are inverses on those four levels |
| UserSettings.FormatLogLevel | src/settings.rs:205-213 | The label is "Info" exactly for Info and Success |
| UserSettings.ShouldShowLog | src/settings.rs:216-224 | An entry is shown exactly when its severity reaches the configured one. The order is Debug < Info = Success < Warning < Error |
| UserSettings.FieldIndex | src/settings.rs:229-236 | The six fields have positions 0 to 5 |
| UserSettings.FieldAt | src/settings.rs:229-236 | Every position 0 to 5 names the field at that position |
| UserSettings.NextField | src/settings.rs:240-249 | `next` moves to position `(i+1) mod 6` |
| UserSettings.PrevField | src/settings.rs:252-261 | `prev` moves to position `(i+5) mod 6` |
| UserSettings.FieldIndexInjective | src/settings.rs:229-236 | Distinct fields have distinct positions |
| UserSettings.NextPrevInverse | src/settings.rs:238-262 | `next` and `prev` undo each other |
| UserSettings.NextNIndex | src/settings.rs:240-249 | k steps of `next` advance the position by k, modulo 6 |
| UserSettings.FieldCycleLengthSix | src/settings.rs:240-249 | `next` is a single cycle of length 6: six steps return to the start, fewer never do |
| Event.MapKeyEvent | src/event/mod.rs:68-115 | The full key table, as an if-and-only-if per event. 'q' with any modifiers and Ctrl+C quit, and other 'c' is ConfigureAws. '1'–'5' are tabs 0–4. Up/'k', Down/'j', Enter, s/x/t/r/a, '?'/'h', ',', Left/'-', Right/'+'/'=', 'l' and Esc each map to their event. Every unbound key maps to the no-op event. No key gives Resize or ShowChangelog |
| Event.PollEvent | src/event/mod.rs:50-65 | Only key presses (mapped through the key table) and resizes (passed through) produce an event; everything else produces none |
| Aws.GetOr | src/aws/mod.rs:83 | `unwrap_or`: the value when present, the default otherwise |
| Aws.NameTagValue | src/aws/mod.rs:86-92 | The value of the first tag keyed "Name", or none when there is no such tag or that tag has no value |
| Aws.ConvertInstance | src/aws/mod.rs:83-121 | A missing id is "N/A". The name is the Name tag's value, else the id. A missing type or state is "unknown". The addresses and launch time are copied, and no auto-stop is set |
| Aws.UntaggedInstanceNamedById | src/aws/mod.rs:86-92 | An instance without a Name tag is named by its id |
| Aws.ListEc2Instances | src/aws/mod.rs:81-125 | The listing converts every instance of every reservation, in order |
| Aws.ConvertAll | src/aws/mod.rs:82-122 | Conversion is element by element and keeps the order |
| Aws.ConvertFunction | src/aws/mod.rs:176-182 | A missing name, runtime or last-modified time is "N/A", missing memory is 0, and a missing description is empty |
| Aws.ListLambdaFunctions | src/aws/mod.rs:173-185 | The listing converts every function, in order |
| Aws.Ec2Listing | src/aws/mod.rs:72-126 | A successful describe call lists every described instance, converted and in order. A failed one gives its error behind "Failed to describe EC2 instances: " |
| Aws.LambdaListing | src/aws/mod.rs:166-186 | A successful call lists every function, converted and in order. A failed one gives its error behind "Failed to list Lambda functions: " |
| Aws.TrimStart | src/aws/mod.rs:219 | Removes exactly the leading whitespace: the result is a suffix and does not start with whitespace |
| Aws.TrimEnd | src/aws/mod.rs:219 | Removes exactly the trailing whitespace: the result is a prefix and does not end with whitespace |
| Aws.TrimSurrounded | src/aws/mod.rs:219 | Trimming a non-blank text surrounded by whitespace gives the text |
| Aws.TrimStartPrefix | src/aws/mod.rs:219 | Trimming the start removes a whitespace prefix and nothing more |
| Aws.TrimEndSuffix | src/aws/mod.rs:219 | Trimming the end removes a whitespace suffix and nothing more |
| Aws.TrimStartMatches | src/aws/mod.rs:221 | Strips the prefix repeatedly: the result is a suffix that no longer starts with it |
| Aws.TrimEndChar | src/aws/mod.rs:221 | Strips every trailing copy of the character: the result is a prefix followed in the input only by that character |
| Aws.ParseProfileLine | src/aws/mod.rs:219-225 | A line yields a name exactly when, once trimmed, it starts with "[profile " and ends with "]", or is "[default]" |
| Aws.StripProfilePrefix | src/aws/mod.rs:221 | Stripping "[profile " from a header leaves the name and its bracket |
| Aws.StripClosingBracket | src/aws/mod.rs:221 | Stripping the closing bracket leaves a name that does not end in one |
| Aws.ProfileHeaderYieldsName | src/aws/mod.rs:219-222 | A "[profile NAME]" header, with any surrounding whitespace, yields NAME |
| Aws.DefaultHeaderYieldsDefault | src/aws/mod.rs:223-225 | A "[default]" header, with any surrounding whitespace, yields "default" |
| Aws.SplitLines | src/aws/mod.rs:218 | The file splits into at least one line, and no line contains a newline |
| Aws.SplitLinesAppend | src/aws/mod.rs:218 | Splitting at a newline splits the two parts independently |
| Aws.ProfilesFromLines | src/aws/mod.rs:218-226 | Each line contributes at most one profile |
| Aws.ProfilesFromLinesAppend | src/aws/mod.rs:218-228 | The profiles of concatenated lines are the profiles of each part, in order |
| Aws.ListAwsProfiles | src/aws/mod.rs:207-213 | A missing config file yields no profiles |
| Aws.ListAwsProfilesAppend | src/aws/mod.rs:215-228 | The output order follows the file order: the profiles of a file are those of its first part followed by those of the rest |
| Actions.AddToast | src/app/actions.rs:31-37 | A new toast goes after all shown toasts, stamped with the current time, and nothing else changes |
| Actions.FreshToasts | src/app/actions.rs:40-45 | Keeps exactly the toasts whose whole-second age is under 5 |
| Actions.FreshToastsAppend | src/app/actions.rs:42-44 | Filtering distributes over concatenation, so the survivors keep their order |
| Actions.FreshToastsIdempotent | src/app/actions.rs:40-45 | A second cleanup at the same instant removes nothing |
| Actions.CleanupOldToasts | src/app/actions.rs:40-45 | Cleanup keeps exactly the toasts under 5 seconds old and changes nothing else |
| Actions.ToastVisibleForFiveSeconds | src/app/actions.rs:31-45 | A toast added at time t survives a cleanup at `now` exactly when `now − t < 5` |
| Actions.ContainsAny | src/app/actions.rs:498-508 | The chain of `contains` calls succeeds exactly when one keyword occurs |
| Actions.IsSessionExpiredError | src/app/actions.rs:496-509 | An error is a session expiry exactly when its lower-cased text contains one of the eleven keywords |
| Actions.SessionExpiryIgnoresCase | src/app/actions.rs:497 | The verdict does not depend on ASCII case |
| Actions.SessionExpirySurvivesContext | src/app/actions.rs:496-509 | A classified error stays classified with any text around it |
| Actions.ExpiredTokenErrorIsClassified | src/app/actions.rs:498 | "ExpiredToken: token expired" is classified as expired |
| Actions.NoEarlyKeywordInAccessDenied | src/app/actions.rs:498-501 | None of the first four keywords occurs in "accessdenied: no such bucket" |
| Actions.NoMiddleKeywordInAccessDenied | src/app/actions.rs:502-504 | None of the next three keywords occurs in it |
| Actions.NoLateKeywordInAccessDenied | src/app/actions.rs:505-508 | None of the last four keywords occurs in it |
| Actions.AccessDeniedErrorIsNotClassified | src/app/actions.rs:496-509 | An access-denied error is not mistaken for an expired session |
| Actions.ReportRefreshFailure | src/app/actions.rs:63-73 | A failed listing reports the error. The session-expired dialog, scrolled to the top, opens exactly when the error is classified as expired; otherwise the dialog is untouched |
| Actions.RefreshInstances | src/app/actions.rs:55-75 | On Home/EC2, success replaces the instance list wholesale; failure keeps it. Either way loading ends and the refresh time is now, and the Lambda list is untouched |
| Actions.RefreshFunctions | src/app/actions.rs:76-96 | On Lambda, success replaces the function list wholesale; failure keeps it. Either way loading ends and the refresh time is now, and the instance list is untouched |
| Actions.RefreshData | src/app/actions.rs:50-105 | Every refresh ends with loading off and the refresh time set to now. It changes only the status, the two lists, the dialog, the log and those two fields |
| Actions.RefreshDataLoads | src/app/actions.rs:54-100 | Success replaces the list the screen shows. A failure, and About/Logs, leave both lists unchanged |
| Actions.RefreshNamesUntaggedById | src/aws/mod.rs:81-92 | After a successful EC2 refresh the k-th described instance is shown k-th, and one without a Name tag is shown under its id |
| Actions.RefreshDataDetectsExpiry | src/app/actions.rs:63-73 | A refresh opens the session-expired dialog exactly when its listing fails with an expiry error; otherwise the dialog is unchanged |
| Actions.AllInstancesStable | src/app/actions.rs:162-166 | True exactly when every instance is running, stopped or terminated |
| Actions.EffectiveInterval | src/app/actions.rs:121-125 | The period is 5 s while boosting, and the configured interval otherwise |
| Actions.CheckAutoRefresh | src/app/actions.rs:108-140 | It does nothing on About or while a dialog is open. Otherwise: stale toasts are dropped, and boost clears only when every instance is stable. A refresh happens exactly when none has happened yet or the elapsed seconds reach the period; it is the full `refresh_data` of that updated state. With no refresh, the lists and status are unchanged |
| Actions.CheckAutoRefreshReloads | src/app/actions.rs:126-136 | When the timer fires, the list the screen shows is reloaded from the cloud on success; when it does not, both lists are kept |
| Actions.SecondsUntilRefresh | src/app/actions.rs:143-159 | None while paused or before the first refresh. Otherwise it is the period minus the elapsed seconds, saturating at 0 |
| Actions.CountdownZeroIffDue | src/app/actions.rs:127-159 | The countdown reads 0 exactly when the timer would refresh |
| Actions.ActivateBoostRefresh | src/app/actions.rs:169-171 | Turns boost mode on and changes nothing else |
| Actions.RunInstanceOp | src/app/actions.rs:176-258 | Success shows a success toast, enters boost mode and refreshes. Failure shows an error toast and changes only the status, toasts and log, so boost and the lists are unchanged |
| Actions.StartSelectedInstance | src/app/actions.rs:176-198 | Does nothing when the selection is past the list; otherwise starts the selected instance by id and shows it by name |
| Actions.StopSelectedInstance | src/app/actions.rs:201-223 | Does nothing when the selection is past the list; otherwise stops the selected instance by id and shows it by name |
| Actions.ConfirmTerminateInstance | src/app/actions.rs:226-232 | Does nothing when the selection is past the list; otherwise opens the confirmation dialog for the selected id, scrolled to the top |
| Actions.InstanceName | src/app/actions.rs:236-239 | The name of the first listed instance with that id, or the id itself when none is listed |
| Actions.TerminateInstance | src/app/actions.rs:235-258 | Calls terminate with the given id, listed or not. On success it enters boost mode and refreshes, with a success toast naming the instance by its listed name or its id. On failure only the status, an error toast and the log change |
| Actions.TerminateUnlistedInstance | src/app/actions.rs:236-239 | An instance no longer listed is still terminated by id, and its toasts name it by that id |
| Actions.OpenScheduleDialog | src/app/actions.rs:261-267 | Does nothing when the selection is past the list; otherwise opens the auto-stop dialog for the selected id, scrolled to the top |
| Actions.RemoveSchedules | src/app/actions.rs:277 | `retain` keeps exactly the schedules for other instances |
| Actions.RemoveSchedulesAppend | src/app/actions.rs:277 | Removal distributes over concatenation, so the survivors keep their order |
| Actions.RemoveSchedulesAbsent | src/app/actions.rs:277 | Without an entry for the id, removal changes nothing |
| Actions.RemoveSchedulesUnique | src/app/actions.rs:277 | Removal keeps the ids unique |
| Actions.ReplaceSchedule | src/app/actions.rs:277-278 | The new schedule is last, and no earlier entry has its id. The earlier entries are exactly the other schedules, in order |
| Actions.ReplaceScheduleKeepsIdsUnique | src/app/actions.rs:277-278 | Replacing keeps at most one schedule per instance |
| Actions.Pad2 | src/app/actions.rs:280 | Two digits that read back as the number |
| Actions.ClockTime | src/app/actions.rs:280 | The `%H:%M:%S` text has eight characters with colons at positions 2 and 5 |
| Actions.ClockFields | src/app/actions.rs:280 | The three two-digit fields sit at positions 0, 3 and 6 |
| Actions.HoursMinutesSeconds | src/app/actions.rs:280 | Hours, minutes and seconds recombine to the second of the day |
| Actions.ClockTimeReadsBack | src/app/actions.rs:280 | The clock text reads back as the UTC second of the day it shows |
| Actions.ScheduleInstanceAutoStop | src/app/actions.rs:270-284 | Exactly one entry remains for the id: `(id, now + duration)`, appended last. The other entries are unchanged and keep their order, ids stay unique, and a success toast names the instance |
| Actions.FormatDurationParses | src/app/actions.rs:21-25 | The duration text is digits, "h ", digits, "m". The first digits read back as the whole hours and the second as the minutes within the hour |
| Actions.HoursMinutesDigitsUnique | src/app/actions.rs:21-25 | The digit runs of a `{h}h {m}m` text are determined by the text |
| Actions.HoursMinutesTextUnique | src/app/actions.rs:21-25 | `{h}h {m}m` determines both numbers |
| Actions.FormatDurationReadsBack | src/app/actions.rs:21-25 | The duration text gives the whole hours and the minutes within the hour |
| Actions.AlertMessageKeyedByMinute | src/app/actions.rs:306-310 | Two alerts for one instance have the same text exactly when the durations agree in whole hours and minutes, which is what de-duplication compares |
| Actions.ThresholdInForce | src/app/actions.rs:296-297 | The configured threshold, or one hour when it is too large for the time library |
| Actions.Sounds | src/app/actions.rs:314-316 | `n` alert sounds |
| Actions.AlertEach | src/app/actions.rs:299-322 | The pending alerts only grow; the old ones are a prefix |
| Actions.AlertEachShowsNewest | src/app/actions.rs:310-313 | When something is raised, the dialog shows the newest alert scrolled to the top; otherwise the dialog is untouched |
| Actions.AlertEachSounds | src/app/actions.rs:314-316 | Each new alert plays one sound exactly when sound is enabled |
| Actions.AlertEachNoDuplicates | src/app/actions.rs:310-311 | No alert text is pending twice |
| Actions.AlertEachJustified | src/app/actions.rs:299-311 | Every alert raised is for a running, unscheduled instance with a launch time whose running time exceeds the threshold |
| Actions.AlertEachComplete | src/app/actions.rs:299-311 | Every such instance has its alert pending afterwards |
| Actions.CheckAlerts | src/app/actions.rs:287-323 | Within 30 s of the last check nothing changes. Otherwise the check time is now, the pending alerts only grow, and only the alert fields, dialog and effects change |
| Actions.CheckAlertsRaises | src/app/actions.rs:287-323 | An alert check raises exactly the alerts for running, unscheduled instances past the configured threshold, and never a duplicate |
| Actions.CheckAlertsNotifies | src/app/actions.rs:310-316 | A new alert opens its dialog scrolled to the top and plays one sound per new alert when the configuration enables sound; with nothing new, both are untouched |
| Actions.CheckAlertsIgnoresSettings | src/app/actions.rs:296-314 | The user's settings have no influence on alerting: only `config.alerts` is read |
| Actions.AlertChecksThrottled | src/app/actions.rs:289-293 | A second check within 30 s of one that ran changes nothing |
| Actions.OpenSettingsDialog | src/app/actions.rs:327-333 | Opening copies the settings into the draft, selects the first field and opens the dialog at the top. The settings themselves are untouched |
| Actions.ReportSave | src/app/actions.rs:339-345 | Saving shows "Settings saved" on success, and the error otherwise |
| Actions.SaveSettings | src/app/actions.rs:335-348 | The draft becomes the settings and sets the refresh period; the draft is cleared, the save is reported and the dialog closes. Without a draft it only closes the dialog |
| Actions.CancelSettings | src/app/actions.rs:350-354 | The draft is dropped and the dialog closes; the settings and the refresh period are untouched |
| Actions.EditField | src/app/actions.rs:359-366 | Each field's edit changes only that field, and Test Sound changes nothing |
| Actions.EditFieldUndone | src/app/actions.rs:359-366 | On an editable draft, an edit one way is undone by an edit the other way |
| Actions.ModifyCurrentSetting | src/app/actions.rs:356-368 | Only the draft changes (a positive delta is forward), and nothing happens without a draft |
| Actions.ModifySettingUndone | src/app/actions.rs:356-368 | The opposite arrow undoes an edit |
| Actions.NavigateSettingsField | src/app/actions.rs:370-376 | Up moves to the previous field and down to the next, with wrap-around; nothing else changes |
| Actions.NavigateSettingsFieldUndone | src/app/actions.rs:370-376 | Up then down, or down then up, returns to the same field |
| Actions.TriggerTestAlert | src/app/actions.rs:379-383 | Plays the sound whatever the sound setting says, adds one info toast and logs it |
| Actions.HighlightedProfile | src/app/actions.rs:392-396 | The highlighted profile exists exactly when the list is not empty, and is one of the listed profiles |
| Actions.LoginWithSso | src/app/actions.rs:387-426 | Starts one login for the highlighted profile (or none), with the status, a toast and a log line |
| Actions.SsoLoginResult | src/app/actions.rs:404-422 | Success exactly when the command ran and succeeded, naming the profile or "default". A failed run reports standard error, or standard output when standard error is blank. A command that cannot start reports why |
| Actions.ClientRebuildResult | src/app/actions.rs:440-449 | A built client reads the profile from the environment and keeps the configured region; a failure reports the error |
| Actions.ActivateProfile | src/app/actions.rs:428-452 | Sets AWS_PROFILE, marks loading and starts one client rebuild with the configured region |
| Actions.OnLoginSucceeded | src/app/actions.rs:457-463 | A login success shows its toast and switches to the profile it names |
| Actions.OnLoginFailed | src/app/actions.rs:464-473 | One error toast. The special status is set exactly when the error mentions the missing single sign-on configuration |
| Actions.OnProfileActivated | src/app/actions.rs:474-484 | Adopts the new client, marks the profile active and configured, and clears loading. The environment, effects and settings are untouched |
| Actions.ProfileActivationRefreshes | src/app/actions.rs:474-484 | Activation closes the dialog and refreshes with the new client at once. The session-expired dialog reopens only if that refresh fails with an expiry error |
| Actions.OnActivationFailed | src/app/actions.rs:485-489 | Only clears loading, with one error toast and one log line |
| Actions.ApplyNotification | src/app/actions.rs:456-490 | No notification changes the screen, the configuration, the profile list or the settings |
| Actions.CheckAsyncNotifications | src/app/actions.rs:454-493 | Draining never changes the screen, the configuration, the profile list or the settings |
| Actions.CheckAsyncNotificationsAppend | src/app/actions.rs:455 | Every queued notification is handled in order: draining two batches equals draining them together |
| Actions.LoginThenActivationActivatesProfile | src/app/actions.rs:457-484 | A login success followed by the rebuilt client it triggers leaves that profile active in the environment and the client, with loading cleared |
| Handlers.TabIndex | src/app/handlers.rs:19-26 | Each screen sits on one of the five tabs |
| Handlers.TabsMatchScreens | src/app/handlers.rs:19-26 | Tabs 0–4 are Home, EC2, Lambda, About and Logs, one to one; any other index keeps the current screen |
| Handlers.NavigateTo | src/app/handlers.rs:18-40 | Moves to the tab's screen unless it is Logs with the logs panel hidden. Only an actual change resets the scroll offset and logs the move; otherwise nothing changes |
| Handlers.HiddenLogsUnreachable | src/app/handlers.rs:28-33 | With the logs panel hidden, no tab leads to Logs |
| Handlers.NavigateToIdempotent | src/app/handlers.rs:18-40 | Pressing the same tab twice equals pressing it once |
| Handlers.ContentHeight | src/app/handlers.rs:240-248 | The content of every scrolling screen is at most 58 lines |
| Handlers.ScreenMaxScroll | src/app/handlers.rs:238-251 | The scroll range never exceeds the content height |
| Handlers.MoveIndex | src/app/handlers.rs:223-224 | `clamp(sel + delta, 0, len − 1)`: always inside the list, exact when in range, and never wrapping |
| Handlers.MoveSelection | src/app/handlers.rs:218-260 | Up or down moves only the list selection or the scroll offset |
| Handlers.MoveSelectionOnLists | src/app/handlers.rs:220-233 | On EC2 and Lambda the selection is clamped to the list, and an empty list leaves it unchanged |
| Handlers.MoveSelectionScrolls | src/app/handlers.rs:234-258 | Down sets the offset to `min(offset + 1, max)`, so afterwards `offset ≤ max`. Up decrements it, stopping at 0 |
| Handlers.MoveDownThenUpRestores | src/app/handlers.rs:220-226 | On a list, down then up returns to the same row unless it was the last |
| Handlers.ScrollDownThenUpRestores | src/app/handlers.rs:253-257 | Below the end of the scroll range, down then up returns to the same line |
| Handlers.HandleEnter | src/app/handlers.rs:263-283 | Enter on a screen never moves a selection or scroll position and never touches the settings or their draft. Only on EC2 can it open a dialog, and then only the session-expired one. Off EC2 at most the status line changes |
| Handlers.EnterOnEc2IsRefresh | src/app/handlers.rs:268-271 | Enter on the EC2 screen does exactly what the refresh key does |
| Handlers.EnterOnScreens | src/app/handlers.rs:263-283 | Enter on Lambda names the highlighted function in the status line. Elsewhere, or with no function highlighted, nothing changes |
| Handlers.DialogLayout | src/app/handlers.rs:119-130 | The per-dialog table of height percentages (at most 70) and content lines. With up to 100 profiles the profile dialog has `6 + max(profiles, 1)` lines |
| Handlers.ChunkHeight | src/app/handlers.rs:132 | `h·pct/100` in `u16`, exact while the product fits |
| Handlers.DialogMaxScroll | src/app/handlers.rs:132-134 | The dialog's scroll range fits in `u16` |
| Handlers.SelectionLine | src/app/handlers.rs:286-317 | Only the profile dialogs and the settings dialog have a highlighted row, and its line fits in `u16` |
| Handlers.EnsureDialogSelectionVisible | src/app/handlers.rs:286-324 | Only the dialog offset changes, and other dialogs are left untouched. A visible row stays put. When the window has at least one row (and nothing wraps), the row is visible afterwards |
| Handlers.EnsureVisibleIdempotent | src/app/handlers.rs:286-324 | Adjusting twice equals adjusting once |
| Handlers.SelectProfile | src/app/handlers.rs:105-107 | Moves the highlight to the index and only scrolls otherwise |
| Handlers.StepSettingsField | src/app/handlers.rs:99-100 | Moves to the previous or next field and only scrolls otherwise |
| Handlers.DialogUp | src/app/handlers.rs:96-114 | Up in a dialog keeps the profile index valid and changes no settings |
| Handlers.DialogUpMoves | src/app/handlers.rs:96-114 | Settings moves to the previous field, except on the first field. A profile dialog moves the highlight up, except at the top. Everywhere else the offset decrements, stopping at 0 |
| Handlers.ScrollDialogDown | src/app/handlers.rs:150-152 | The offset grows by one only while below the dialog's scroll range |
| Handlers.DialogDown | src/app/handlers.rs:115-153 | Down in a dialog keeps the profile index valid and changes no settings |
| Handlers.DialogDownMoves | src/app/handlers.rs:136-152 | Settings moves to the next field, except on Test Sound. A profile dialog moves the highlight down, except at the last profile. Everywhere else it scrolls within range |
| Handlers.ProfileDownThenUpRestores | src/app/handlers.rs:105-146 | Down then up on the profile list returns to the same profile |
| Handlers.SettingsDownThenUpRestores | src/app/handlers.rs:98-139 | Down then up in settings returns to the same field |
| Handlers.DialogScrollBounded | src/app/handlers.rs:132-152 | Scrolling down never passes the dialog's last line |
| Handlers.EnterInstanceDialog | src/app/handlers.rs:157-164 | Confirming a terminate or auto-stop dialog keeps the screen, configuration and profiles, and changes no settings |
| Handlers.EnterTerminatesDialogId | src/app/handlers.rs:157-160 | Enter in the terminate confirmation closes it and terminates the id the dialog holds, not the selection. Success enters boost mode and refreshes. Failure keeps the list and boost, and shows the error toast naming that id's instance |
| Handlers.EnterSettingsDialog | src/app/handlers.rs:165-171 | The settings change only to the committed draft |
| Handlers.EnterProfileDialog | src/app/handlers.rs:172-177 | Enter in a profile dialog changes no settings |
| Handlers.DialogEnter | src/app/handlers.rs:154-183 | Enter never quits, switches screen or touches the profile list, and the settings change only to the draft |
| Handlers.EnterClosesInformationalDialog | src/app/handlers.rs:178-181 | Enter closes Help, Setup, Changelog and alerts, and does nothing with no dialog |
| Handlers.EnterSchedulesAutoStop | src/app/handlers.rs:161-164 | Enter closes the auto-stop dialog and schedules its own instance for 3600 s |
| Handlers.EnterCommitsSettings | src/app/handlers.rs:165-171 | Away from Test Sound, Enter saves the draft. On Test Sound it plays the sound and keeps the dialog open |
| Handlers.EnterActivatesHighlightedProfile | src/app/handlers.rs:172-177 | Enter switches to the highlighted profile, and does nothing with an empty list |
| Handlers.CloseDialog | src/app/handlers.rs:89-95 | Closing cancels the settings dialog, dropping the draft; any other dialog just closes |
| Handlers.OpenDialog | src/app/handlers.rs:51-54 | Opens the dialog scrolled to the top and changes nothing else |
| Handlers.DialogModify | src/app/handlers.rs:189-193 | Left or right edits only the settings draft |
| Handlers.DialogLogin | src/app/handlers.rs:201-205 | The login key keeps the profile index valid and changes no settings |
| Handlers.DialogRefresh | src/app/handlers.rs:206-211 | The refresh key changes no settings |
| Handlers.HandleDialogEvent | src/app/handlers.rs:87-215 | No event inside a dialog quits, switches screen or resizes. The settings change only to the committed draft |
| Handlers.DialogEventRoutes | src/app/handlers.rs:89-200 | Quit and Esc close the dialog, cancelling settings, instead of quitting the program. The profile key opens the profile picker scrolled to the top |
| Handlers.DialogModifyRoute | src/app/handlers.rs:189-193 | Left and right edit the draft only in the settings dialog; elsewhere nothing changes |
| Handlers.DialogLoginRoute | src/app/handlers.rs:201-205 | The login key starts a login only in the session-expired, profile and setup dialogs |
| Handlers.DialogRefreshRoute | src/app/handlers.rs:206-211 | The refresh key works only in the session-expired dialog, which it closes before refreshing |
| Handlers.DialogIgnoresScreenEvents | src/app/handlers.rs:212 | While a dialog is open, tabs, resizes and the screen actions have no effect |
| Handlers.OpenDialogFor | src/app/handlers.rs:49-79 | The events that open a dialog leave the screen, configuration and settings alone |
| Handlers.RunCommandFor | src/app/handlers.rs:45-56 | The events that call the cloud leave the screen, configuration and settings alone |
| Handlers.HandleScreenEvent | src/app/handlers.rs:15-81 | With no dialog, only Quit quits, only tabs change the screen, only resizes change the window, and the settings are untouched |
| Handlers.ScreenEventRoutes | src/app/handlers.rs:15-81 | Quit sets the flag. A resize records the size. Changelog opens only on About. The dialog-only events do nothing |
| Handlers.HandleEvent | src/app/handlers.rs:9-84 | The app quits exactly on Quit with no dialog open, because an open dialog takes every event. The configuration and profile list are kept, and the profile index stays valid. The settings change only when Enter saves the settings dialog, and then to its draft |
| Handlers.DraftAppearsWithSettingsDialog | src/app/state.rs:109 | A settings draft comes into being only when the settings key opens the settings dialog with no dialog open. It then holds the current settings |
| Handlers.SettingsDialogStartsFresh | src/app/actions.rs:327-333 | The settings dialog is entered only through the settings key, with a fresh draft of the current settings at the first field |
| Handlers.ProfileKeyKeepsDraft | src/app/handlers.rs:184-187 | From the settings dialog the profile key opens the profile picker and keeps the draft, unlike Esc |
| Handlers.QuitInDialogCloses | src/app/handlers.rs:11-13 | With a dialog open, Quit closes the dialog and leaves the quit flag as it was |
| AppLoop.StartupSettings | src/app/mod.rs:33-42 | The stored settings, or the defaults when loading fails |
| AppLoop.StartupLogShape | src/app/mod.rs:29-71 | The start-up log has three or four entries. It starts with "Application started" and the settings verdict, and ends with the credentials verdict |
| AppLoop.New | src/app/mod.rs:25-113 | Start-up fails exactly when the client cannot be built. A started state has a valid profile index and no draft |
| AppLoop.NewOpensSetupWithoutCredentials | src/app/mod.rs:60-81 | The Setup dialog opens exactly when no credentials are detected, and the status says the same |
| AppLoop.NewStartsIdle | src/app/mod.rs:75-101 | The app starts on Home, idle and empty, with an 80×24 window, the default configuration and the settings' refresh period |
| AppLoop.NewUsesStoredSettings | src/app/mod.rs:33-37 | Loaded settings are used as they are, and the log says so |
| AppLoop.NewFallsBackToDefaultSettings | src/app/mod.rs:38-41 | A failed load falls back to the defaults and logs a warning with the error |
| AppLoop.NewAppliesAvailableDefaultProfile | src/app/mod.rs:44-58 | The default profile becomes AWS_PROFILE, and so the client's profile, only when it is available |
| AppLoop.NewHighlightsEnvironmentProfile | src/app/mod.rs:106-111 | The picker starts on the first entry equal to AWS_PROFILE, or on 0. The active profile is AWS_PROFILE, or "default" |
| AppLoop.NewLogsCredentialVerdict | src/app/mod.rs:67-71 | The last start-up entry is a warning without credentials and an info entry with them |
| AppLoop.SyncTableState | src/app/mod.rs:155-161 | On EC2 the table selection is None for an empty list and the selected index otherwise. Other screens are untouched |
| AppLoop.SyncTableStateIdempotent | src/app/mod.rs:155-161 | Syncing twice equals syncing once |
| AppLoop.HandleInput | src/app/mod.rs:150-152 | Handling the polled input sets the quit flag exactly on a Quit with no dialog open. It keeps the configuration, the profile list and a valid profile index |
| AppLoop.Tick | src/app/mod.rs:145-177 | A whole pass (event, table sync, notifications, alerts, auto-refresh) keeps the configuration, the profile list and a valid profile index |
| AppLoop.TickQuitsOnlyOnQuit | src/app/mod.rs:150-176 | A pass ends with the quit flag exactly when it was set or the pass's event was Quit with no dialog open |
| AppLoop.QuietTickOnlySyncs | src/app/mod.rs:145-177 | With no input, no notifications, a throttled alert check and a paused timer, a pass only syncs the table |
| AppLoop.TickSettingsOnlyByCommit | src/app/mod.rs:145-177 | Over a whole pass the settings change only when its key is Enter in the settings dialog, and then to the draft. A draft appears only when its key opens the settings dialog, and it holds the old settings |
| AppLoop.AlertsAndRefreshOpenNoSettings | src/app/mod.rs:169-172 | The alert check and the auto-refresh keep the draft and never open the settings dialog |
| AppLoop.ActivationClosesDialog | src/app/actions.rs:474-483 | An activated profile keeps the draft and leaves no settings dialog open |
| AppLoop.TickCanCloseFreshSettings | src/app/mod.rs:145-177 | A settings dialog opened by a pass's key is gone by the end of a pass that also delivers an activated profile, while its draft stays |
| AppLoop.TickStep | src/app/mod.rs:145-177 | A pass can always run from a state with a valid profile index, and keeps it valid |
| AppLoop.Loop | src/app/mod.rs:145-177 | The loop keeps its invariant |
| AppLoop.LoopIgnoresInputAfterQuit | src/app/mod.rs:174-176 | The loop stops after the pass that sets the flag: later input is ignored |
| AppLoop.LoopEndsOnAPass | src/app/mod.rs:145-177 | If the loop ends quitting from a state that had not quit, its final state is the result of one pass from a state that had not quit |
| AppLoop.Run | src/app/mod.rs:142-180 | Running the loop keeps the profile index valid. Each pass sees the cloud as it stands during that pass |
| AppLoop.RunIgnoresInputAfterQuit | src/app/mod.rs:174-176 | Nothing after the quitting pass has any effect |
| AppLoop.RunStopsOnQuit | src/app/mod.rs:145-177 | The loop quits only if some pass polled a Quit event |

## Left out

- Rendering, styling and terminal set-up (`src/ui*`, `src/tui`, `src/main.rs`). They draw the state but do not change it.
- `src/app.rs` is the older copy of the state machine. It is not part of this model.
- Threads, the tokio task and the `aws sso login` process. Their start is recorded as an `Effect`, and their result arrives as a `Notification`; `SsoLoginResult` and `ClientRebuildResult` model what they post.
- The alert sound thread is only recorded as a `PlayAlertSound` effect.
- Cloud calls (`describe_instances`, start/stop/terminate, `list_functions`) are the `World` oracle, one per pass. It returns the provider's raw records, and the model converts them. `AwsClient::new` is the `clientBuild` outcome of `StartupEnv`. It cannot fail in the program, but its error path is kept.
- `invoke_lambda` is never called by the state machine, and is not part of this model.
- File I/O is left out. Loading settings is the `settingsLoad` result, saving is `World.saveSettings`, and the config file is its optional text. The three credential checks are booleans.
- The clock is whole seconds. Sub-second precision and the time zone are not modelled; `%H:%M:%S` is taken in UTC.
- `Ec2Refreshed` and `LambdaRefreshed` notifications are never produced or matched by the state machine, so they are not in `Notification`.
- `check_async_notifications` and `refresh_data` never return an error in the program. The "Notification error" branch of the loop and the error logs around `activate_profile` and `refresh_data` are therefore unreachable and not modelled.
- The program's `ec2_table_state` is only its selected index (`ec2TableSelection`).
- Actions.IsSessionExpiredError: lower-casing is ASCII only, unlike `str::to_lowercase`, which also folds non-ASCII letters. All keywords are ASCII.
- Aws.SplitLines: `str::lines` also drops one trailing empty line and strips `\r`. The model keeps both, but trimming and header parsing make them yield no profile either way.
- Handlers.MoveSelection: the `usize as i32` casts in list clamping are modelled as exact integers. They differ only for lists of more than 2^31 entries.
- Handlers.EnsureDialogSelectionVisible: the visibility guarantee is stated only when the offset plus the window rows fit in `u16`. Beyond that the program's `u16` addition wraps, and the model does too.
- Handlers.ChunkHeight: models the release-mode `u16` wrap of `h * percent`. A debug build would panic instead.
- Actions.ScheduleInstanceAutoStop: requires the duration to be within the time library's range. Its only caller passes 3600 s, so the error return of `Duration::from_std` cannot happen.
- Actions.CheckAutoRefresh and Actions.SecondsUntilRefresh: a clock that runs backwards reads, as in the program, as a huge elapsed time (`as u64`).
