# SAC Event Registration Reminder — the reminder batch pass, in Dafny

This project models the core of the SAC event registration reminder: the
controller `EventRegistrationReminderController` that is called over HTTP
(`GET /_event_registration_reminder/{sid}`) or by cron. It checks a shared
secret and a kill switch. It then walks the calendar → user grouping of
registrations still in state "not confirmed" and sends each user a reminder
notification. The number of attempts per request is capped. Each successful
reminder is recorded in the table `tl_event_registration_reminder_notification`,
which keeps one row per (user, calendar) pair.

Files:

- `wrappers.dfy` — `Option`, for lookups that may find nothing.
- `ledger.dfy` — module `NotificationLedger`. It holds the reminder table as a
  value (`Table`: rows in insertion order plus the auto-increment counter), the
  insert and the prune `DELETE ... WHERE id != ? AND user = ? AND calendar = ?`
  as functions, and the class `Ledger` whose methods change the table in place.
- `reminder_controller.dfy` — module `ReminderController`:
  - the input the data collector returns (`CalendarEntry`, `Users`, `UserEntry`);
  - the collaborators as an `Env` value;
  - `GetNotification`;
  - the pass as a fold over the traversal (`VisitUser`, `VisitAll`, `Flatten`);
  - `RunSpec` / `InvokeSpec`, what one invocation returns and leaves behind;
  - the lemmas about them;
  - the imperative `Controller` (`Invoke`, `Run` with its nested `while` loops and
    `break break` for PHP's `break 2`, `RemindUser` for the inner loop's body);
  - `NotificationHelper`, whose `Send` also logs every call it receives.
- `scenarios.dfy` — module `ReminderScenarios`: worked examples, proved about
  the model, on a small data set.

`Controller.Run` is proved equal to `RunSpec`: its outer loop keeps
"`VisitAll` from the current counters, ledger and sends over the rest of the
traversal equals the final result". The inner loop keeps the same invariant,
with the remaining users of the current calendar in front. The lemmas then state
the properties of the pass on `VisitAll` and `RunSpec`.

Collaborators whose code is not part of this model are parameters:

- `DataCollector::getData(SUBSCRIPTION_NOT_CONFIRMED)` is `Env.data`.
- `NotificationGenerator::generate` is `Env.generate`.
- `NotificationHelper::send` is `Env.deliver`.
- The column `tl_calendar.sendReminderNotification` is `Env.reminderColumn`. A
  missing calendar row is a missing key; a falsy value is `0`.
- The notification table is `Env.notifications`.
- `tl_user.name` is `Env.userNames`.

Two behaviours of the code are worth spelling out:

- The reported notification count is the attempt counter `$emailCount`. When
  the cap stops the pass it is Cap + 1, one more than the sends. On the example
  data with cap 2, 2 sends are made and 3 are reported (`ScenarioCapTwo`).
- With cap 0, the first user of a calendar with a notification ends the pass,
  and later users are not counted (`ScenarioCapZero`). A negative cap behaves
  the same way: `Cap` is the configured cap clamped at zero.

## Model

| member | source | states |
|---|---|---|
| `NotificationLedger.Inserted` | src/Controller/EventRegistrationReminderController.php:154-157 | defines the insert: the rows plus one row for the pair with the next auto-increment id; the counter advances |
| `NotificationLedger.Pruned` | src/Controller/EventRegistrationReminderController.php:160-163 | defines the prune: the rows `Survivors` keeps, the counter untouched |
| `NotificationLedger.MarkNotified` | src/Controller/EventRegistrationReminderController.php:154-163 | defines recording a reminder: the insert, then the prune keeping the inserted id |
| `NotificationLedger.RowsFor` | src/Controller/EventRegistrationReminderController.php:160-163 | the rows selected for a (user, calendar) pair are exactly the table's rows of that pair |
| `NotificationLedger.Survivors` | src/Controller/EventRegistrationReminderController.php:160-163 | after the prune, a row remains exactly when it is the kept id or belongs to another pair |
| `NotificationLedger.SurvivorsKeepOtherPairs` | src/Controller/EventRegistrationReminderController.php:160-163 | the prune leaves every other pair's rows exactly as they were |
| `NotificationLedger.MarkNotifiedKeepsOne` | src/Controller/EventRegistrationReminderController.php:154-163 | insert then prune on a well-formed table: the pair has exactly one row, the inserted one with the next id; every other pair's rows are unchanged; the table stays well-formed |
| `NotificationLedger.SurvivorsIdempotent` | src/Controller/EventRegistrationReminderController.php:160-163 | running the prune twice removes no more than running it once |
| `NotificationLedger.PruneIdempotent` | src/Controller/EventRegistrationReminderController.php:160-163 | re-running the prune right after it has run changes nothing |
| `NotificationLedger.Ledger.Insert` | src/Controller/EventRegistrationReminderController.php:154-157 | the insert appends a row with the next auto-increment id, reports one affected row, and lastInsertId is that id |
| `NotificationLedger.Ledger.DeleteOthers` | src/Controller/EventRegistrationReminderController.php:160-163 | the delete leaves exactly the rows `Survivors` describes |
| `ReminderController.GetNotification` | src/Controller/EventRegistrationReminderController.php:188-199 | a notification is returned exactly when the calendar's sendReminderNotification value exists, is non-zero, and names an existing notification; it is that notification; otherwise null |
| `ReminderController.Tag` | src/Controller/EventRegistrationReminderController.php:110-118 | a calendar's users are visited in their given order, one visit per user |
| `ReminderController.EntryVisits` | src/Controller/EventRegistrationReminderController.php:105-118 | defines the visits of one collector entry: none for a value that is not an array, otherwise its users in order |
| `ReminderController.Flatten` | src/Controller/EventRegistrationReminderController.php:105-118 | defines the traversal: the entries in the collector's order, each contributing its visits |
| `ReminderController.VisitAllAppend` | src/Controller/EventRegistrationReminderController.php:105-173 | the pass over two consecutive parts of the traversal is the pass over the first, resumed with the second unless it was stopped |
| `ReminderController.Cap` | src/Controller/EventRegistrationReminderController.php:134-135 | defines the number of sends the cap allows: the configured value, or 0 when it is negative; its contract states that it is at least the configured value and is either 0 or that value |
| `ReminderController.Delivered` | src/Controller/EventRegistrationReminderController.php:140 | defines a successful send: a non-empty array result |
| `ReminderController.Title` | src/Controller/EventRegistrationReminderController.php:141-146 | defines the ledger row's title: "Reminder sent for <name>.", with an empty name for a missing user row |
| `ReminderController.VisitUser` | src/Controller/EventRegistrationReminderController.php:113-168 | defines one turn of the inner loop: count the user; with no notification go on; otherwise count the attempt, stop when it exceeds the cap, else send and record a delivered send in the ledger |
| `ReminderController.VisitUserStep` | src/Controller/EventRegistrationReminderController.php:113-168 | one user's step: the user is counted; an attempt is counted exactly when the notification resolves; the pass stops exactly when that attempt exceeds the cap, with nothing sent; otherwise one send for this user, and the ledger changes only by recording a delivered send |
| `ReminderController.VisitAll` | src/Controller/EventRegistrationReminderController.php:105-173 | defines the pass: the user steps in traversal order, ending at the first one the cap stops |
| `ReminderController.AbortIgnoresLaterVisits` | src/Controller/EventRegistrationReminderController.php:132-136 | once the cap has stopped the pass, no later user or calendar has any effect (`break 2` leaves both loops) |
| `ReminderController.ContinueCountsEveryUser` | src/Controller/EventRegistrationReminderController.php:113-114 | a pass that is not stopped counts every visited user, with or without a notification |
| `ReminderController.AbortPoint` | src/Controller/EventRegistrationReminderController.php:113-136 | a stopped pass stopped at some user k; the users before k ran normally; user k tripped the cap and was already counted (userCount = k + 1) |
| `ReminderController.SendCapHolds` | src/Controller/EventRegistrationReminderController.php:132-138 | starting from no attempts, the sends never exceed the cap; while the pass goes on, the attempt counter equals the sends; when the cap stops it, exactly Cap sends were made and the counter is Cap + 1 |
| `ReminderController.NoSendNoWrite` | src/Controller/EventRegistrationReminderController.php:138-164 | the sends only grow, earlier ones unchanged; a pass that sends nothing leaves the ledger unchanged |
| `ReminderController.SendsFollowVisits` | src/Controller/EventRegistrationReminderController.php:120-138 | every send goes to a visited user, under a calendar whose notification resolves, with that notification, the user's generated guest list and the fallback language |
| `ReminderController.NotifiedInAppend` | src/Controller/EventRegistrationReminderController.php:138-140 | a new send marks a pair as notified exactly when it is for that pair and returned a non-empty array |
| `ReminderController.VisitUserTracksLedger` | src/Controller/EventRegistrationReminderController.php:140-164 | one user's step keeps the ledger invariant: pairs notified in the pass have exactly one new row; the other pairs have their original rows; and a step whose send failed leaves the ledger exactly as it was |
| `ReminderController.VisitAllTracksLedger` | src/Controller/EventRegistrationReminderController.php:105-173 | the ledger invariant holds after the whole pass |
| `ReminderController.WrongSidIsDenied` | src/Controller/EventRegistrationReminderController.php:73-75 | a wrong sid yields status 200 with the fixed denial text; the ledger is unchanged and nothing is sent |
| `ReminderController.Configured` | src/Controller/EventRegistrationReminderController.php:113-126 | defines the reminders owed: the visits, in traversal order, whose calendar's notification resolves |
| `ReminderController.SendsMatchConfigured` | src/Controller/EventRegistrationReminderController.php:105-173 | a pass that runs to the end makes exactly one attempt and one send per owed reminder, in traversal order, with that user's arguments, and no other send |
| `ReminderController.SendsMatchConfiguredUntilCap` | src/Controller/EventRegistrationReminderController.php:105-173 | a pass stopped at visit k made exactly one attempt and one send per owed reminder before k; visit k owed a reminder whose attempt is counted but not sent |
| `ReminderController.Recorded` | src/Controller/EventRegistrationReminderController.php:140-164 | defines what one send writes: a delivered send inserts and prunes its pair, a failed one writes nothing |
| `ReminderController.Replay` | src/Controller/EventRegistrationReminderController.php:140-164 | defines the ledger after a sequence of sends, applied in order |
| `ReminderController.LedgerFollowsSends` | src/Controller/EventRegistrationReminderController.php:105-173 | the ledger a pass leaves is its start ledger with the pass's sends replayed: only delivered sends write, each exactly its own insert and prune |
| `ReminderController.RunSpec` | src/Controller/EventRegistrationReminderController.php:84-181 | defines run: 403 "Application is disabled." with nothing done when disabled; otherwise the pass from zero counters, and 200 with its user and notification counts |
| `ReminderController.InvokeSpec` | src/Controller/EventRegistrationReminderController.php:71-78 | defines __invoke: a wrong sid gets 200 with the fixed denial text and nothing done; otherwise run |
| `ReminderController.DisabledIsForbidden` | src/Controller/EventRegistrationReminderController.php:86-88 | with `disable` set, run yields 403 "Application is disabled."; nothing is traversed or sent and the ledger is unchanged |
| `ReminderController.RunRespectsCap` | src/Controller/EventRegistrationReminderController.php:101-176 | one invocation sends at most Cap times; the reported notification count equals the sends when the pass completes, and is Cap + 1 (with exactly Cap sends) when the cap stopped it |
| `ReminderController.RunCountsUsers` | src/Controller/EventRegistrationReminderController.php:105-176 | the reported user count is the number of users in array entries when the pass completes; otherwise it is k + 1 for the user k at which the cap tripped, and the result is that of the traversal cut after k |
| `ReminderController.ZeroCapSendsNothing` | src/Controller/EventRegistrationReminderController.php:132-138 | with a cap of zero or less nothing is sent and the ledger is unchanged |
| `ReminderController.RunSendsOnlyConfigured` | src/Controller/EventRegistrationReminderController.php:121-138 | every send of an invocation is for a collected user of a calendar with a resolvable notification; users of calendars without one get no send |
| `ReminderController.RunKeepsOneRowPerNotifiedPair` | src/Controller/EventRegistrationReminderController.php:140-164 | after an invocation on a well-formed ledger, every pair successfully notified has exactly one row, inserted in this run; every other pair keeps exactly its rows |
| `ReminderController.RunSendsEveryConfigured` | src/Controller/EventRegistrationReminderController.php:105-176 | the converse of `RunSendsOnlyConfigured`: when the pass completes, every collected user of a calendar whose notification resolves gets exactly one send, in traversal order, and the reported count is their number; when the cap stops it at visit k, the same holds before k, visit k owed a reminder, and the count is the sends + 1 |
| `ReminderController.RunLedgerReplaysSends` | src/Controller/EventRegistrationReminderController.php:140-164 | the ledger one invocation leaves is its ledger with the invocation's sends replayed in order |
| `ReminderController.NotificationHelper.Send` | src/Controller/EventRegistrationReminderController.php:138 | send returns the transport's result for these arguments, and the call is logged |
| `ReminderController.Controller.constructor` | src/Controller/EventRegistrationReminderController.php:50-63 | the controller keeps its configuration and collaborators |
| `ReminderController.Controller.Invoke` | src/Controller/EventRegistrationReminderController.php:71-78 | the response, new ledger and new sends are those of `InvokeSpec`: the sid gate, then run; lastInsertId is the last inserted id, or unchanged when nothing was inserted |
| `ReminderController.Controller.Run` | src/Controller/EventRegistrationReminderController.php:84-181 | the nested loop produces exactly `RunSpec`'s response, ledger and sends; lastInsertId is the last inserted id, or unchanged when nothing was inserted |
| `ReminderController.Controller.RemindUser` | src/Controller/EventRegistrationReminderController.php:113-168 | the inner loop's body performs exactly one `VisitUser` step, reporting `stop` when the cap is exceeded; lastInsertId is the id of its insert, or unchanged when it inserted nothing |
| `ReminderScenarios.ScenarioTraversal` | src/Controller/EventRegistrationReminderController.php:105-113 | calendars in order, users in order, a non-array entry contributing no users |
| `ReminderScenarios.AnnStep` | src/Controller/EventRegistrationReminderController.php:113-164 | on the example data, the first user of calendar 1 is counted, sent a reminder and gets ledger row 1 |
| `ReminderScenarios.BenStep` | src/Controller/EventRegistrationReminderController.php:113-164 | the second user of calendar 1 is counted, sent a reminder and gets ledger row 2, beside the first row |
| `ReminderScenarios.CydStep` | src/Controller/EventRegistrationReminderController.php:113-164 | the third user of calendar 1 is counted, sent a reminder and gets ledger row 3, beside the first two |
| `ReminderScenarios.ScenarioWithinCap` | src/Controller/EventRegistrationReminderController.php:105-176 | cap 10, two calendars (3 users with a notification, 2 without): 5 users, 3 notifications, one ledger row per notified user |
| `ReminderScenarios.ScenarioCapTwo` | src/Controller/EventRegistrationReminderController.php:132-136 | cap 2 on the same data: 2 sends, but the summary reports 3 users and 3 notifications, and calendar 2 is never reached |
| `ReminderScenarios.ScenarioCapZero` | src/Controller/EventRegistrationReminderController.php:132-136 | cap 0: the first user trips the cap; summary 1 user, 1 notification; nothing sent or written |
| `ReminderScenarios.ScenarioWrongSid` | src/Controller/EventRegistrationReminderController.php:73-75 | a wrong sid on the same data is denied with the fixed text |

## Left out

- Exceptions from the database layer and from `sprintf` (Doctrine `Exception`, `StringsException`) are not modelled. Every store operation succeeds.
- `Ledger.Insert` always reports one affected row. Doctrine signals a failed insert by exception, so the branch for `$affectedRows` being 0 is kept in `RemindUser` but is never taken.
- `framework->initialize()` and the adapter lookup of the notification model are not modelled. The notification table is `Env.notifications`.
- `time()` is not modelled. This covers the runtime part of the summary and the `tstamp` and `addedOn` columns of a ledger row.
- The summary is the pair (users, notifications). Its sprintf text is not modelled.
- The optional logger (`log`, lines 201-209) is not modelled.
- Symfony `Response` objects are reduced to (status, body).
- `allowWebScope` is kept in `Settings` but never read, as in the source.
- The internals of `DataCollector::getData`, `NotificationGenerator::generate` and `NotificationHelper::send` are not part of this model. They are an input sequence and two total functions. As a consequence, two sends with identical arguments get the same result.
- The model does not require calendar or user keys to be distinct. PHP array keys are distinct, but no property depends on it.
- Overlapping runs and a crash between the insert and the prune are not modelled, since the pass is modelled sequentially. The source has no lock and no transaction around these steps.
- src/DependencyInjection/Compiler/AddCronSchedulePass.php is not part of this model: it only re-tags the cron service in the container.
- src/Resources/contao/languages/en/modules.php is not part of this model: it only holds backend labels.
