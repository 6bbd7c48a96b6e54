# Exam lockdown: session and violation state machines in Dafny

This project models the state machines at the centre of a browser extension
that proctors online exams held in Google Forms. It has three parts:

- **The background session store** (`background.js`). This is a map from the
  normalised form URL (origin and path) to a session record. Each session
  holds an id, the student's identity, a violation count, a bounded
  violation history, a sliding one-hour expiry, a one-way "submitted" flag
  and a clearance stamp.
  - The store is loaded from extension storage once and swept of expired
    sessions before every request.
  - It is driven by `type`-tagged requests: `INIT_SESSION`,
    `GET_VIOLATION_COUNT`, `REPORT_VIOLATION`, `HEARTBEAT`, `AUTO_SUBMIT` and
    `CHECK_CLEAR_STATUS`.
  - Remote calls go through a retry loop with capped exponential backoff.
- **The page-side monitor** `ExamLockdown` (`content.js`). It keeps the
  violation count, the per-type last-violation timestamps and the flags
  `examLocked`, `examSubmitted`, `isExamStarted`, `isReturningToFullscreen`
  and `submissionInProgress`. Its handlers are:
  - the cooldown gate and lockout decision;
  - the one-hour `submittedForms` lock;
  - submission with rollback;
  - the clearance and submission-expiry poll ticks;
  - the fullscreen and keyboard handlers.
- **The configuration service** (`config.js`). It has a five-minute cache of
  the configuration (the defaults overridden by the stored keys), a
  three-attempt logging loop, the clearance query's error shape, and the
  `action`-tagged message listener.

## Modules

- `Common` holds `Option`, the severity scale, JavaScript's `||` on strings
  and the decimal rendering of numbers (with its read-back proof).
- `BackgroundSessions` holds the session record, URL normalisation, expiry,
  the sweep, the classifiers, and one pure step function per request handler.
  Each step function computes the new map, the reply, whether the handler
  persists, and the payload relayed to the remote log.
- `BackgroundProperties` holds the lemmas about those step functions.
  - Report counting, history and expiry.
  - `examSubmitted` is one-way.
  - Clearance, and which provider decides.
  - Every handler touches only its own form's session.
  - Reports arriving within the sliding window keep a session alive.
- `BackgroundStore` holds the class `SessionStore`. Its fields are the
  in-memory map, the loaded flag and the stored copy. Each handler is split in
  two: the key check plus the load and sweep, then the body on the loaded
  store, which is proved equal to the handler's step function. The
  dispatcher is proved to route each request type to its handler. The sweep
  is a loop that deletes entry by entry.
- `BackgroundRetry` holds `withRetry` as a loop over the attempts.
- `ConfigManager` holds:
  - the configuration value and the merge;
  - the cache as a value, with its lemmas;
  - the class `ConfigService` (`getConfig`, `saveConfig`);
  - the logging retry loop, `checkClearStatus`, and the listener.
- `ContentRules` holds the pure parts of the page monitor:
  - `formatTime` and the severity table;
  - the blocked key combinations and their matching;
  - the keydown decision;
  - the cooldown gate `Admit` with its lemmas over runs of violations;
  - the `submittedForms` check.
- `ContentLockdown` holds the class `ExamLockdown`, whose methods update its
  fields as the source's handlers do.

## Inputs standing in for the environment

- **Storage.** Extension storage is a field of the class that owns it:
  `disk`, `storedConfig`, `storedForms` and `saved`. Each read or write takes
  a flag saying whether it succeeds. A failed one changes nothing, because
  the source catches and logs every storage error. A background handler can
  write storage twice: once when its sweep removes expired sessions, once
  when it persists its own change. Each write has its own flag
  (`sweepWriteOk`, `persistOk`), so storage can end up holding the swept map
  without the handler's change.
- **Time.** `now` is a parameter.
- **Session ids.** `id` is the id a new session would get.
- **Remote answers.** They are parameters:
  - the clearance provider's rows or webhook reply;
  - a function from attempt number to delivery for the retry loops;
  - the form submission's success.
- **Jitter.** `Math.random()`'s jitter is a per-mille function of the
  attempt.

## Behaviour of the code worth noting

- **Fullscreen exit.** Leaving fullscreen reports a `visibilitychange`
  violation, with its 1500 ms cooldown, not a fullscreen-specific type.
- **Zero cooldowns.** `violationCooldowns[t] || 1500` turns a configured
  cooldown of 0 into 1500 ms.
- **Fullscreen handler.** It does not look at `submissionInProgress`.
- **Expiry re-open.** When the submission lock expires, the page re-opens
  but keeps `violationCount` and `examLocked`.
- **Storage read failure.** `isFormUrlSubmitted` answers false, so the
  expiry tick re-opens the page.
- **First report on an unseen form.** The session is created with the
  supplied count n and then counted once, so it records n + 1.
- **Report on an unseen form seeded as submitted.** The report is ignored
  and no session is inserted.
- **Clearance.**
  - The page-side clearance resets the count and timestamps but never lifts
    `examLocked`.
  - It only runs when `userEmail` is set, and nothing in the page monitor
    assigns it.
  - Neither poll (`startViolationClearCheck`,
    `scheduleSubmissionExpiryCheck`) is started anywhere. Each tick is
    modelled as written.
- **Duplicate `key` fields.** In the blocked-combination literals the last
  `key` wins and `shift` is never required. So Ctrl+T and every
  developer-tools letter (copy, paste, select-all and undo among them) are
  blocked with Ctrl alone.
- **Space.** The `'space'` entries can never match, because `e.key` is `" "`
  for the space bar.
- **Timestamps in storage.** `violationTimestamps` starts as an array
  (content.js:56, :490) and is indexed by violation type. Storage serialises
  an array by its numeric indices only, so `persistState` stores an empty
  list and the cooldowns do not survive a reload (`Snapshot`).
- **Failed first load.** When the first storage read of the background
  store fails, the first persisting handler overwrites storage with a map
  holding only its own form (`FailedLoadOverwritesStorage`).

## Model

| member | source | states |
|---|---|---|
| Common.OrElse | background.js:270 | `a \|\| b` on strings: `a` when it is a non-empty string, otherwise `b` |
| Common.DecimalText | config.js:138 | the text of a number is non-empty, all digits, without a leading zero |
| Common.DecimalTextRoundTrip | config.js:177 | the decimal text of a status reads back as that status |
| Common.DecimalTextInjective | config.js:177 | different statuses give different texts |
| BackgroundSessions.NormalizeFormUrl | background.js:435-446 | the empty URL gives the empty key; a URL the parser accepts gives its origin followed by its path, dropping query and fragment; one it rejects is returned unchanged (the URL's text is taken to be already in the parser's canonical form, see "Left out") |
| BackgroundSessions.ExtendSessionExpiry | background.js:499-502 | the expiry becomes max(old, now + one hour), so it never decreases and is at least now + TTL; nothing else changes |
| BackgroundSessions.Sweep | background.js:466-497 | a key survives iff its session is not expired (an expiry that is set and not after `now`), and its session is unchanged |
| BackgroundSessions.KeepRecent | background.js:282 | the history keeps its last 50 entries, a suffix of the input |
| BackgroundProperties.SameFormSameKey | background.js:435-446 | two URLs of one page that differ in query or fragment name the same session |
| BackgroundProperties.NormalizeIdempotent | background.js:435-446 | a normalised key normalises to itself |
| BackgroundProperties.SeverityThresholds | background.js:596-601 | low below 2, medium at 2, high at 3, critical from 4 |
| BackgroundProperties.StatusThresholds | background.js:603-607 | Warning iff count < 2, Disqualified iff count >= 4, Lockout between |
| BackgroundProperties.ClassifiersMonotone | background.js:596-607 | both classifiers are monotone in the count |
| BackgroundProperties.StatusTracksSeverity | background.js:596-607 | Disqualified iff critical, Warning iff low |
| BackgroundProperties.ExtendedSessionOutlivesTtl | background.js:5 | a session whose expiry was slid at `now` is not expired at any time before now + TTL |
| BackgroundProperties.SweepDropsOnlyExpired | background.js:466-487 | the sweep removes exactly the expired sessions, copies the rest, and never removes one without expiry |
| BackgroundProperties.SweepIdempotent | background.js:251-253 | sweeping twice at one instant is sweeping once |
| BackgroundProperties.SweepLaterSubsumes | background.js:466-487 | a later sweep after an earlier one is the later sweep alone |
| BackgroundProperties.RecordViolationEffect | background.js:265-274 | a counted report sets the count to max(prev + 1, supplied), clears `clearedAt`, slides the expiry, and keeps id and submitted flag |
| BackgroundProperties.RecordViolationHistory | background.js:276-282 | one entry is appended and the newest 50 are kept, oldest dropped first |
| BackgroundProperties.ReportEffect | background.js:265-303 | an unsubmitted report stores the recorded session under its key, replies with its count and expiry, persists, and relays the log built from the recorded session |
| BackgroundProperties.ReportIgnoredAfterSubmission | background.js:260-263 | a submitted session makes a report reply `ignored` and change nothing |
| BackgroundProperties.FirstReportCountsSuppliedPlusOne | background.js:255-266 | a first report on an unseen form records the supplied count plus one |
| BackgroundProperties.ReportsWithinWindowCountEach | background.js:251-282 | n reports each within one TTL of the previous keep the session alive and unsubmitted and raise its count by at least n |
| BackgroundProperties.AutoSubmitEffect | background.js:306-337 | auto-submit marks the session submitted, never lowers the count (nor below the supplied final count), slides the expiry and persists |
| BackgroundProperties.InitMergesIdentity | background.js:173-220 | init on a known session keeps id, count, history and clearance, merges name and e-mail, and only raises the submitted flag, sliding expiry when it does |
| BackgroundProperties.ClearanceResets | background.js:363-370 | a positive clearance sets count 0, empty history and the clearance stamp, and persists |
| BackgroundProperties.NoClearanceKeepsCount | background.js:410-411 | without clearance the count and every known session stay; an unseen form still gets a fresh session; the reply is `clearStatus: null` |
| BackgroundProperties.OneProviderAtATime | background.js:356-409 | the configured provider alone decides; the other provider's answer is never read |
| BackgroundProperties.ClearanceNeedsPositiveAnswer | background.js:356-402 | clearance happens iff the configured provider answers positively |
| BackgroundProperties.UpdateTouchesOnly | background.js:284 | writing one key of the map leaves every other key as it was |
| BackgroundProperties.ReportTouchesOnlyItsKey | background.js:245-304 | a report changes at most its own form's session |
| BackgroundProperties.StepTouchesOnlyItsKey | background.js:173-412 | every handler changes at most its own form's session |
| BackgroundProperties.HandlersPreserveSessions | background.js:173-412 | no handler step deletes a session of the swept map, un-submits one, moves an expiry earlier or changes an id; only a clearance lowers a count (the sweep before the step does delete expired sessions) |
| BackgroundStore.FailedLoadOverwritesStorage | background.js:448-464 | after a failed first load, a persisted report leaves storage holding at most its own form |
| BackgroundStore.SessionStore.PersistSessionStore | background.js:504-513 | storage receives the map only once it is loaded and the write succeeds |
| BackgroundStore.SessionStore.CleanupExpiredSessions | background.js:466-487 | the loop leaves exactly `Sweep` of the map and writes storage only when it deleted something |
| BackgroundStore.SessionStore.EnsureSessionStore | background.js:448-464 | the first call loads storage (or an empty map on a failed read) and sweeps; later calls change nothing |
| BackgroundStore.SessionStore.LoadAndSweep | background.js:251-253 | the map becomes the sweep of what was loaded, as one sweep |
| BackgroundStore.SessionStore.InitOnStore | background.js:183-219 | on the loaded store, map and reply are those of `InitStep`; storage receives the new map only when the step persists and the write succeeds |
| BackgroundStore.SessionStore.HandleInitSession | background.js:173-220 | `Handled`: an empty key is the initialization error with no state change; otherwise the store is loaded and swept, and map, reply and storage are those of `InitStep` on the swept map |
| BackgroundStore.SessionStore.CountOnStore | background.js:232-242 | the stored form's count (with its expiry, submitted flag and clearance), or count 0 for an unknown form; nothing changes |
| BackgroundStore.SessionStore.HandleGetViolationCount | background.js:222-243 | `Handled`: an empty key answers count 0 with no state change; otherwise load and sweep, then `CountStep`'s reply with the map only swept |
| BackgroundStore.SessionStore.ReportOnStore | background.js:255-303 | on the loaded store, map, reply and relayed log are those of the report step (`ReportStep`); storage receives the new map only when the step persists and the write succeeds |
| BackgroundStore.SessionStore.HandleReportViolation | background.js:245-304 | `Handled`: an empty key is the violation error with no relay and no state change; otherwise map, reply, relayed log and storage are those of `ReportStep` on the swept map |
| BackgroundStore.SessionStore.AutoSubmitOnStore | background.js:316-336 | on the loaded store, map and reply are those of `AutoSubmitStep`, which always persists |
| BackgroundStore.SessionStore.HandleAutoSubmit | background.js:306-337 | `Handled`: an empty key is the auto-submit error with no state change; otherwise map, reply and storage are those of `AutoSubmitStep` on the swept map |
| BackgroundStore.SessionStore.ClearanceOnStore | background.js:349-411 | on the loaded store and given the provider's verdict, map and reply are those of `ClearStep`; storage changes only on a clearance whose write succeeds |
| BackgroundStore.SessionStore.HandleCheckClearStatus | background.js:339-412 | `Handled`: an empty key is a failure reply with no state change; otherwise map, reply and storage are those of `ClearStep` with the provider's verdict |
| BackgroundStore.RequestTypeOf | background.js:65-81 | each of the six `type` strings selects its own case, and every other value is unknown |
| BackgroundStore.SessionStore.HandleMessage | background.js:58-84 | `INIT_SESSION`, `GET_VIOLATION_COUNT`, `REPORT_VIOLATION`, `AUTO_SUBMIT` and `CHECK_CLEAR_STATUS` each do exactly what their handler does (`Handled` with that type's step and missing-key reply); `HEARTBEAT` answers alive with the time and leaves the store alone; an unknown type answers "Unknown message type: …" and changes nothing; only reports relay a log |
| BackgroundRetry.BackoffDelay | background.js:117-120 | a delay is the scaled exponential value or the 30 s cap, never above the cap |
| BackgroundRetry.BackoffGrows | background.js:117-120 | with the same jitter a later attempt never waits less |
| BackgroundRetry.WithRetry | background.js:106-129 | at most `maxRetries` calls; the first success with its 1-based attempt; otherwise every attempt failed and the last error is thrown; one capped sleep between consecutive attempts and none after the last |
| ConfigManager.Merge | config.js:33 | every key of either side, the stored value winning, the default filling the rest |
| ConfigManager.MergeIdempotent | config.js:33 | merging the defaults in again changes nothing |
| ConfigManager.GetConfigComplete | config.js:24-41 | every configuration handed out carries every default key, and the cache stays complete |
| ConfigManager.SaveConfigComplete | config.js:43-53 | a save keeps the cache complete |
| ConfigManager.CacheHitIgnoresStorage | config.js:26-28 | a fresh cache answers without reading storage and changes nothing |
| ConfigManager.SaveThenGet | config.js:43-53 | a successful save is what every read in the next five minutes returns; a failed save changes nothing |
| ConfigManager.MissWithoutStoredConfig | config.js:30-40 | with nothing stored or an unreadable store the defaults come back and the cache stays as it was |
| ConfigManager.ConfigService.GetConfig | config.js:24-41 | result and new cache state are those of `GetConfigStep` |
| ConfigManager.ConfigService.SaveConfig | config.js:43-53 | result and new cache state are those of `SaveConfigStep` |
| ConfigManager.LogViolationWithRetry | config.js:116-159 | 1 to 3 attempts; the first delivery wins; otherwise the third failure's error is thrown; waits of 2000 then 4000 ms between attempts and none after the last |
| ConfigManager.CheckClearStatus | config.js:162-185 | a delivered body is returned; a thrown error or a non-OK status becomes `{success:false, error}` |
| ConfigManager.ClearFailureNamesStatus | config.js:177 | a non-OK answer's error names exactly that status |
| ConfigManager.OnMessage | config.js:187-232 | each action's reply and cache effect; `logViolation` replies with the first delivered attempt's body, every earlier attempt having failed, or with the third failure's error when all three fail; an unknown action and a missing tab id are failures that change nothing |
| ContentRules.FormatTimeReadsBack | content.js:2188-2192 | `m:ss` where `m` reads back as s div 60, `ss` as s mod 60, and m·60 + ss = s |
| ContentRules.ViolationSeverity | content.js:1303-1314 | never critical; low iff keyboard or mouse; high iff devtools or time_exceeded; medium otherwise |
| ContentRules.LowerAscii | content.js:1685 | same length, upper-case ASCII letters lowered, everything else kept |
| ContentRules.AnyMatches | content.js:1792-1800 | true iff some combination in the list matches the keystroke |
| ContentRules.ExtraModifiersStillBlocked | content.js:1792-1800 | holding more modifiers never unblocks a blocked keystroke |
| ContentRules.BlockedByEntry | content.js:1792-1800 | a keystroke matched by any entry of the list is blocked |
| ContentRules.SystemShortcutBlocked | content.js:1714-1721 | every system-shortcut entry blocks what it matches |
| ContentRules.CtrlTBlockedWithoutShift | content.js:1718-1719 | Ctrl+T is blocked with or without Shift |
| ContentRules.DevtoolsLettersBlockedWithoutShift | content.js:1728-1743 | every developer-tools letter is blocked with Ctrl alone, whatever else is held |
| ContentRules.FunctionKeysBlocked | content.js:1723-1726 | F1 to F12 are blocked with any modifiers |
| ContentRules.KeyDown | content.js:1682-1834 | inactive iff not started or submitted; blocked iff active and a combination matches; otherwise disallowed only outside an input field for a key not in the allowed list |
| ContentRules.EffectiveCooldown | content.js:1269 | the configured cooldown when present and non-zero, otherwise 1500 ms |
| ContentRules.AdmitEffect | content.js:1261-1301 | counted iff not locked, not paused and the cooldown has passed; then count + 1, only this type's timestamp set to now, locked iff count >= max, remaining allowance max − count > 0; otherwise nothing changes |
| ContentRules.CooldownSpacesSameType | content.js:1267-1276 | right after a type is counted the same type is dropped until its cooldown passes |
| ContentRules.LockIsFinal | content.js:1263-1265 | once locked, every later run of violations leaves the tally unchanged |
| ContentRules.CountNeverPassesMaximum | content.js:1293-1297 | starting unlocked below the maximum, the count never exceeds it and the lock holds exactly at the maximum |
| ContentRules.CheckSubmitted | content.js:387-413 | locked iff an entry exists and is younger than one hour; an expired entry is removed and nothing else changes |
| ContentRules.MarkLocksForAnHour | content.js:415-424 | marking a form locks it for exactly the next hour and leaves other forms' answers alone |
| ContentRules.ExpiredStaysExpired | content.js:387-413 | a form found expired stays unlocked at every later check |
| ContentLockdown.ExamLockdown.constructor | content.js:41-94 | a fresh page: count 0, no timestamps, every flag false, no session or e-mail |
| ContentLockdown.ExamLockdown.PersistState | content.js:1478-1492 | when the write succeeds, storage keeps the session, count and submitted flag, and the per-type timestamps read back empty |
| ContentLockdown.ExamLockdown.HandleExamLockout | content.js:1336-1353 | the exam locks and a critical `exam_lockout` report carries the current count |
| ContentLockdown.ExamLockdown.HandleViolation | content.js:1261-1301 | the tally and verdict are `Admit`'s; a counted violation is persisted and reported with its severity and count, then the lockout report when it reaches the maximum |
| ContentLockdown.ExamLockdown.CurrentFormUrl | content.js:381-385 | the key is the page's path (`PageFormKey`), and on a page with an origin it differs from the background's key for the same page |
| ContentLockdown.PageKeyIgnoresOrigin | content.js:381-385 | two pages with the same path share one `submittedForms` key whatever their origin, query and fragment, while the background keys them apart when their origins differ |
| ContentLockdown.PageKeyIsNotBackgroundKey | content.js:381-385 | on a page with an origin, the page's key is not the background's key for that page |
| ContentLockdown.BackgroundKeyOfOrigin | content.js:381-385 | on a page with an origin, the background's key is the origin followed by the page's key |
| ContentLockdown.ExamLockdown.IsFormUrlSubmitted | content.js:387-413 | the answer is `CheckSubmitted`'s on a readable store and false otherwise; the expired entry is removed when storage allows |
| ContentLockdown.ExamLockdown.MarkFormUrlAsSubmitted | content.js:415-424 | only this key is set to `now`, and only when read and write succeed |
| ContentLockdown.ExamLockdown.RemoveExpiredFormSubmission | content.js:426-435 | only this key is deleted, and only when read and write succeed |
| ContentLockdown.ExamLockdown.FinishExam | content.js:1089-1117 | submitted and in-progress flags hold iff the submission succeeds; the exam is no longer started; the form lock and the persisted submitted state stay after a failure; the background is told only on success |
| ContentLockdown.ExamLockdown.ClearCheckTick | content.js:437-502 | cleared iff a non-empty session id and e-mail exist and the background or webhook says so; then this form's lock is deleted, count and timestamps reset, state persisted, and the lock kept |
| ContentLockdown.ExamLockdown.SubmissionExpiryTick | content.js:102-132 | re-opens iff the form is no longer locked: not submitted, not started, persisted, setup overlay shown, grace period on; count and lock kept |
| ContentLockdown.ExamLockdown.ReturnGraceElapsed | content.js:123 | the grace period ends and nothing else changes |
| ContentLockdown.ExamLockdown.OnFullscreenChange | content.js:1658-1678 | leaving fullscreen during a running, unsubmitted exam outside the grace period is a `visibilitychange` violation with an overlay shown; entering fullscreen removes the overlay |
| ContentLockdown.ExamLockdown.OnKeyDown | content.js:1680-1834 | the action is `KeyDown`'s on the lower-cased key; a blocked or disallowed key is a `keyboard` violation |
| ContentLockdown.ExamLockdown.OnKeyUp | content.js:1836-1846 | releasing Tab, Escape or a function key during a running exam is a `keyboard` violation |

## Left out

- The DOM and UI. This covers overlays (beyond whether one is current),
  notifications, the lockout blur, the countdown timer, the finish button and
  CSS. It is presentation.
- Chrome API plumbing. This covers the promise/callback storage wrappers,
  `chrome.runtime` messaging, keep-alive ports and script injection. Storage
  is a field, and a write can fail.
- Network I/O and JSON parsing. Every answer is a parameter.
- Timers and concurrency. This covers `setInterval`, `setTimeout`, history
  instrumentation, the `MutationObserver` and interleavings across tabs. Each
  handler and poll tick is one atomic step.
- Devtools detection. It relies on window-size heuristics and the `toString`
  trick, which depend on the browser.
- Page-monitor bootstrap. This covers `loadConfig`, `initExamLockdown`, the
  form-submission listener, the heartbeat, the integrity check and
  `sessionInfo.examSubmitted`. They are plumbing around the modelled state.
- `clearExamSessionState`. It clears localStorage, cookies and IndexedDB in
  another tab, so its result is an input to `OnMessage`.
- `generateSessionId`. It is random, so the new id is a parameter.
- The background `getConfig` used by the clearance check. The clearance
  configuration is a parameter.
- BackgroundRetry.WithRetry: the jitter is an integer per-mille factor, and
  the float product and rounding of the source are not modelled.
- BackgroundStore.SessionStore.LoadAndSweep: storage loading and the
  handler's sweep use the same `now`. In the source they are two `Date.now()`
  readings a few milliseconds apart.
- BackgroundSessions.NormalizeFormUrl: the URL parser's canonicalisation is
  not modelled. The input is split into origin, path, query and fragment as
  the parser would give them, and its text is their concatenation. So the
  model does not capture: the `/` added to an empty path, lower-casing of
  scheme and host, removal of a default port, removal of user info, and the
  origin `null` of `file:` and other opaque URLs.
- BackgroundStore.FailedLoadOverwritesStorage: states at most the one form
  rather than exactly it, and only for a report that persists.
- ContentRules.LowerAscii: lowers ASCII letters only. `toLowerCase` on other
  Unicode letters is not modelled.
- ContentLockdown.ExamLockdown.HandleViolation: a configuration without
  `maxViolations` (the comparison with `undefined`, which never locks) is not
  modelled; the maximum is an integer.
- `formatTime` on negative or fractional seconds is not modelled.
- Logging, console output and the payload fields that are only timestamps
  or free text.
