# Subscription tracker: a verified model of its core

This project models the core of an Express/Mongoose service that tracks paid
subscriptions and mails renewal reminders:

- the two document schemas, with their casts, setters, validators, defaults
  and the subscription's `pre('save')` hook;
- the subscription endpoints: create, list, update, delete, cancel all, and
  the upcoming-renewals report;
- the account endpoints: read, deactivate, delete permanently, reactivate;
- the reminder mail: template lookup, price line, and the guards of
  `sendReminderEmail`;
- the durable reminder workflow `sendReminders`.

The database is a `Database` object holding two maps, users by id and
subscriptions by id. The controllers are methods that update it in place.
Each method is tied by its postcondition to a pure function of the old
state, and the properties are proved as lemmas about those functions.

Time is a count of milliseconds and a day is 86 400 000 ms.
`bcrypt.compare` is a boolean parameter. The mail transport's outcome is a
boolean parameter. A fault parameter says which store write throws, so the
all-or-nothing claims about transactions have something to rule out.

The workflow runs against an explicit run log, `RunState`. The log holds:
- the results recorded by completed `context.run` steps;
- the completed `context.sleepUntil` steps;
- the current time;
- what was observed from outside: sleeps and mails.

The model assumes, without proof, that `@upstash/workflow` skips a step
already recorded in the log and returns its recorded result. Its code is
not part of this model. Each workflow operation has a spec function
(`Fetch`, `SleepUntil`, `Trigger`, `Turn`, `Loop`, `Handler`). It also has
a method of `WorkflowContext` that updates the log in place and is proved
equal to that spec function. The plan of an uninterrupted run, `Plan`, is
an independent description of its sleeps and mails. The lemmas relate runs
to that plan.

Where the code and its written description disagree, the model follows the
code:
- the offsets are visited in the order 5, 7, 2, 1, not latest first;
- the subscription's status is read once and not checked again between
  reminders.

## Model

| member | source | states |
|---|---|---|
| Text.Trim | models/subscription.model.js:7 | the `trim` setter: the result has no surrounding white space (every ECMAScript white-space and line-terminator character, Unicode space separators included) and is the input with white space removed at both ends only |
| Text.TrimIdempotent | models/user.model.js:8 | trimming twice is trimming once |
| Text.ToLower | models/user.model.js:17 | the `lowercase` setter: same length, all lower case, each capital A to Z becomes the letter 32 code points above it, and every other character is kept |
| Text.NatToStringRoundTrip | utils/email-template.js:111 | the decimal text of a price reads back as the same number |
| Text.IntToStringInjective | utils/email-template.js:111 | distinct prices print as distinct texts |
| Time.AddDays | models/subscription.model.js:79-80 | adding a positive number of days moves a date strictly forward, zero days keeps it, a negative number moves it back |
| Time.CeilDays | controllers/subscription.controller.js:229 | `Math.ceil` of a duration in days: the least whole number of days covering it |
| Time.CeilDaysWithinWeek | controllers/subscription.controller.js:226-229 | a renewal within the coming week has 0 to 7 days left, and 0 only when it is now |
| UserModel.NormalizeEmail | models/user.model.js:16-17 | the email setters leave the address trimmed and lower case |
| UserModel.Validated | models/user.model.js:5-45 | accepted exactly when the name has 5 to 20 characters, the email matches the pattern and the password has at least 8 characters; the values are kept and the defaults are active, not deactivated and not marked for deletion |
| UserModel.NewUser | models/user.model.js:3-45 | the same acceptance after the setters, and the result is well formed and carries the defaults |
| UserModel.NormalizedIsFixed | models/user.model.js:16-17 | a trimmed, lower-case address is kept as it is |
| UserModel.NewUserOfWellFormed | models/user.model.js:5-45 | creating a user from a well-formed user's own values gives that user back |
| UserModel.ValidatedOfWellFormed | models/user.model.js:5-45 | the validators accept a well-formed user's values unchanged |
| UserModel.NewUserStable | models/user.model.js:5-25 | saving a stored user's own values again gives the same record |
| SubscriptionModel.ParseCurrency | models/subscription.model.js:16-20 | the currency enum accepts exactly the names of the four currencies |
| SubscriptionModel.ParseCategory | models/subscription.model.js:21-24 | the category enum accepts exactly the five category names |
| SubscriptionModel.ParseStatus | models/subscription.model.js:30-34 | the status enum accepts exactly active, inactive and expired |
| SubscriptionModel.ParseFrequency | models/subscription.model.js:54-58 | the frequency enum accepts exactly the four frequency names |
| SubscriptionModel.CheckName | models/subscription.model.js:4-10 | a name is accepted exactly when its trimmed text has 2 to 50 characters, and the trimmed text is stored |
| SubscriptionModel.CheckPrice | models/subscription.model.js:11-15 | a price is accepted exactly when it casts to a number that is not negative; the cast number is stored, and a refusal names the price path |
| SubscriptionModel.CheckCurrency | models/subscription.model.js:16-20 | a currency is accepted exactly when the cast text is the name of one, and the accepted value is the one named; anything else is refused as an invalid currency |
| SubscriptionModel.CheckCategory | models/subscription.model.js:21-24 | a category is accepted exactly when the cast text is the name of one, and the accepted value is the one named; anything else is refused as an invalid category |
| SubscriptionModel.CheckPaymentMethod | models/subscription.model.js:25-29 | a payment method is accepted exactly when its trimmed text is not empty, and the trimmed text is stored |
| SubscriptionModel.CheckStatus | models/subscription.model.js:30-34 | a status is accepted exactly when the cast text is the name of one, and the accepted value is the one named; anything else is refused as an invalid status |
| SubscriptionModel.CheckFrequency | models/subscription.model.js:54-58 | a frequency is accepted exactly when the cast text is the name of one, and the accepted value is the one named; anything else is refused as an invalid frequency |
| SubscriptionModel.CheckStartDate | models/subscription.model.js:35-44 | a start date (a millisecond number, or a non-empty string the date parser reads) is accepted exactly when it casts to an instant not after now, and that instant is stored; `""` casts to `null` and fails `required` |
| SubscriptionModel.CheckRenewDate | models/subscription.model.js:45-53 | a given renewal date is accepted exactly when it casts to `null` (the empty string) or to an instant strictly after the start; `null` is stored as none, an instant as itself |
| SubscriptionModel.CheckCancelledAt | models/subscription.model.js:65-68 | a given cancellation time is accepted exactly when it casts; the empty string is stored as `null`, an instant as itself |
| SubscriptionModel.IdentityOf | models/subscription.model.js:3-34 | accepted exactly when name, price and payment method are present and every given descriptive path passes its check; each stored path is the cast and set value of the body, or the default (currency NAIRA, status active, no category) |
| SubscriptionModel.ScheduleOf | models/subscription.model.js:35-68 | accepted exactly when start date and frequency are present and every given date and period path passes its check, the renewal date against the cast start; each stored path is the cast value, an absent or `null` date none |
| SubscriptionModel.Assemble | models/subscription.model.js:3-69 | accepted exactly when both groups of paths are; the document passes every validator, is owned by the given user and holds the value of every path of the body |
| SubscriptionModel.Draft | controllers/subscription.controller.js:7-10 | creation from a body: accepted exactly when every required key is present and every given key passes its check; the document is admissible, owned by the caller, holds the body's values and the defaults for absent keys |
| SubscriptionModel.DerivedRenewDate | models/subscription.model.js:72-81 | the derived renewal date is the start plus 1, 7, 30 or 365 days, so it lies strictly after the start and passes the renewal-date validator |
| SubscriptionModel.AfterSaveHook | models/subscription.model.js:71-86 | a given renewal date is kept and an absent one derived; the status becomes expired exactly when the renewal lies before now; nothing else changes; a valid document is then fit to be stored |
| SubscriptionModel.SavedDraftPersisted | models/subscription.model.js:71-86 | every created document satisfies, once its hook has run, what all stored documents satisfy |
| SubscriptionModel.SubscriptionDocument.PreSave | models/subscription.model.js:71-86 | the hook updates the document's own paths in place to what `AfterSaveHook` describes |
| SubscriptionModel.EmptyDateIsNull | models/subscription.model.js:35-53 | an empty-string start date is refused, an empty-string renewal date is derived by the save hook, and an empty-string cancellation time is stored as none |
| SubscriptionBody.EnumNamesParse | models/subscription.model.js:16-58 | each enum accepts every one of its own names back |
| SubscriptionBody.DraftOfBody | models/subscription.model.js:3-69 | an admissible subscription sent back as a body by its owner is created unchanged |
| SubscriptionBody.DraftIgnoresBodyUser | controllers/subscription.controller.js:7-10 | the body's own `user` key never changes what is created: the owner is the caller |
| SubscriptionUpdate.CheckChanges | controllers/subscription.controller.js:111-115 | the update is accepted exactly when every path the body has passes its own check; it changes exactly the paths the body has, each to its cast value: the trimmed name (2 to 50 characters), the cast price (not negative), the named currency, category, status and frequency, the trimmed non-blank payment method; a refused name is reported first |
| SubscriptionUpdate.Merge | controllers/subscription.controller.js:111-115 | `$set` of the changes: each of the seven paths takes the given value when there is one and keeps the stored one otherwise; the dates, the owner and the cancellation time are never touched |
| SubscriptionUpdate.Patch | controllers/subscription.controller.js:111-115 | the update succeeds exactly when every given path passes its check; it never touches the dates, the owner or the cancellation time, and keeps every document valid and fit to be stored |
| SubscriptionUpdate.PatchNothing | controllers/subscription.controller.js:111-115 | an empty update changes nothing |
| SubscriptionUpdate.PatchIdempotent | controllers/subscription.controller.js:111-115 | applying the same update twice equals applying it once |
| SubscriptionUpdate.PatchSetsGivenPaths | controllers/subscription.controller.js:111-115 | each of the seven paths the body sets is stored as its cast and checked value, whatever was there |
| SubscriptionUpdate.PatchKeepsAbsentPaths | controllers/subscription.controller.js:111-115 | each of the seven paths the body leaves out keeps its stored value |
| Store.Find | controllers/subscription.controller.js:171-174 | `find` returns exactly the documents matching the owner and status filter, each once, in insertion order |
| Store.FindCount | controllers/subscription.controller.js:38-44 | the length of a `find` answer is the number of matching documents, so no document is listed twice |
| Store.FindOwnedCount | controllers/subscription.controller.js:38-44 | in a valid store, `find({ user })` answers as many documents as the owner has |
| Store.SetStatusOwned | controllers/user.controller.js:76-80 | `updateMany` by owner sets the status of exactly the owner's documents and leaves all others alone |
| Store.CancelActive | controllers/subscription.controller.js:184-187 | exactly the owner's active documents become inactive with the cancellation time; all others are untouched |
| Store.DeleteOwned | controllers/user.controller.js:139 | `deleteMany` removes exactly the owner's documents and keeps the rest unchanged |
| Store.Populate | controllers/workflow.controller.js:53-56 | populating keeps the document and brings the owner's name and email, or nothing when the owner no longer exists |
| Store.PopulateAll | controllers/subscription.controller.js:39-41 | the populated list has one entry per found id, in order |
| Store.InsertKeepsValid | controllers/subscription.controller.js:7-10 | inserting a saved document under the next id keeps the store's invariant |
| Store.Database.Commit | controllers/user.controller.js:82 | a commit writes both collections at once and keeps the store's invariant |
| Store.Database.WriteSubscriptions | controllers/user.controller.js:180-183 | a bulk write outside a transaction replaces the subscriptions only |
| Store.Database.Insert | controllers/subscription.controller.js:7-10 | the document is stored under a fresh id and nothing else changes |
| Store.CancelActiveLeavesNoneActive | controllers/subscription.controller.js:184-187 | after a cancellation the owner has no active subscription |
| Store.CancelledAreListedInactive | controllers/subscription.controller.js:184-192 | every subscription that was active is afterwards listed among the owner's inactive ones |
| Store.BulkUpdatesKeepPersisted | controllers/subscription.controller.js:184-187 | the bulk updates and deletes keep every stored document valid |
| Store.SetStatusOwnedLastWins | controllers/user.controller.js:175-183 | a later status update of the owner's documents overrides an earlier one |
| Store.DeleteOwnedLeavesNone | controllers/user.controller.js:139-140 | after `deleteMany` the owner has no subscription left, and no other owner lost one |
| SubscriptionController.CreateSubscription | controllers/subscription.controller.js:5-29 | a refused body changes nothing; otherwise the saved document is inserted under a fresh id, and the creation fails after the insert when the workflow trigger throws |
| SubscriptionController.GetSubscription | controllers/subscription.controller.js:31-51 | 403 for anyone but the user; the listing holds only that user's documents, each populated with its owner's contact from the store, every one of them listed, and as many entries (`count`) as the user has documents |
| SubscriptionController.Authorized | controllers/subscription.controller.js:78-89 | 404 when the document is missing, 403 when it is someone else's, and the document otherwise |
| SubscriptionController.UpdateOutcome | controllers/subscription.controller.js:73-115 | 404, 403 and then 400 for a key outside the whitelist, before any write; an accepted update keeps the owner, the dates and the cancellation time |
| SubscriptionController.AllowedBodyLeavesSchedule | controllers/subscription.controller.js:91-104 | a body that passes the whitelist sets no date, no cancellation time and no owner |
| SubscriptionController.UpdateSubscription | controllers/subscription.controller.js:73-125 | a failure changes nothing; a success stores exactly the updated document |
| SubscriptionController.DeleteSubscription | controllers/subscription.controller.js:127-157 | the same guards; a success removes exactly that document and reports its id and name |
| SubscriptionController.Summaries | controllers/subscription.controller.js:189-192 | the selection keeps name, price and frequency of each listed document, in order |
| SubscriptionController.CancelAllSubscriptions | controllers/subscription.controller.js:159-205 | 403 for another user; nothing active answers `cancelledCount` 0 and changes nothing; otherwise exactly the active ones are cancelled, the count is how many were active, and the listing is every inactive one afterwards |
| SubscriptionController.CancelListsEarlierInactive | controllers/subscription.controller.js:189-192 | a subscription that was already inactive is not counted but is listed |
| Renewals.UpcomingDues | controllers/subscription.controller.js:215-222 | exactly the owner's active subscriptions renewing between now and seven days on, both ends included |
| Renewals.InsertDue | controllers/subscription.controller.js:224 | insertion adds the entry and keeps all others |
| Renewals.InsertDueSorted | controllers/subscription.controller.js:224 | insertion keeps the list sorted by renewal date |
| Renewals.SortedUpcoming | controllers/subscription.controller.js:215-224 | the query result is a permutation of the matching documents, sorted by renewal date, each document once |
| Renewals.InsertDueDistinct | controllers/subscription.controller.js:224 | inserting a document not yet listed keeps every document listed once |
| Renewals.EntriesOf | controllers/subscription.controller.js:226-235 | one entry per found document, in order, with the ceiling of the days left |
| Renewals.WithKeyMembers | controllers/subscription.controller.js:237-244 | a group holds only renewals with its key, and all of them |
| Renewals.GroupRenewals | controllers/subscription.controller.js:237-244 | the grouping loop, for any key function (the endpoint passes `KeyOf`, the text `in_<days>_days`), makes one group per key that occurs, holding that key's renewals in order |
| Renewals.GroupsBelowGrouped | controllers/subscription.controller.js:238-243 | pushing the renewals one by one, creating a missing group first, leaves under each key exactly that key's renewals in order, and no empty group |
| Renewals.GroupsSound | controllers/subscription.controller.js:226-244 | every listed renewal is an upcoming subscription of the owner, with 0 to 7 days left, under its own key |
| Renewals.GroupsComplete | controllers/subscription.controller.js:237-244 | every matching document is listed under its key |
| Renewals.WithKeyBelowInOrder | controllers/subscription.controller.js:238-243 | taking the renewals of one key out of a list in query order keeps that order |
| Renewals.EntriesInOrder | controllers/subscription.controller.js:224-235 | the entries of the sorted query list the documents soonest renewal first, each once |
| Renewals.GroupsInOrder | controllers/subscription.controller.js:224-244 | every group lists its renewals soonest renewal first, each document once |
| Renewals.GetUpcomingRenewals | controllers/subscription.controller.js:207-261 | the total is the number of matching documents; every listed entry is truthful and under its own key, and every matching document is listed; each group is soonest renewal first with each document once; the reported range is the instants now and seven days on (not their UTC day strings) |
| UserController.GetUser | controllers/user.controller.js:15-27 | 404 exactly for an unknown id; otherwise every field of the account (name, email, active flag, deactivation time, deletion mark and scheduled deletion) and no password |
| UserController.OwnerCheck | controllers/user.controller.js:45-63 | passes exactly for an existing account of the caller with a matching password; otherwise 404, 403 and 401, in that order |
| UserController.DeactivationCheck | controllers/user.controller.js:39-63 | a missing password is 400 before anything else; then the owner checks |
| UserController.DeletionCheck | controllers/user.controller.js:106-136 | 400 without a password, 400 unless the confirmation is exactly the phrase, both before the lookup; then the owner checks |
| UserController.DeactivationAllOrNothing | controllers/user.controller.js:30-95 | a deactivation fails and changes nothing, or sets exactly isActive false, deactivatedAt now and markedForDeletion false on the account and exactly status inactive on every subscription of the owner, with the key sets and every other record unchanged |
| UserController.DeletionAllOrNothing | controllers/user.controller.js:97-155 | a deletion fails and changes nothing, or leaves exactly the other accounts, unchanged, and exactly the subscriptions of other owners, unchanged |
| UserController.ReactivationCutoff | controllers/user.controller.js:165-172 | refused exactly when the account was deactivated more than 30 days ago; exactly 30 days and no deactivation time are accepted |
| UserController.ReactivationEffect | controllers/user.controller.js:157-193 | accepted exactly for a known account within the window; refusals change nothing; a success sets exactly isActive true and deactivatedAt none on the account and status active on every subscription of the owner, even expired or cancelled ones, with the key sets and every other record unchanged |
| UserController.ReactivationNotAtomic | controllers/user.controller.js:175-183 | as written, a failing subscription write leaves the account active with its subscriptions still inactive |
| UserController.ReactivationAtomicAllOrNothing | controllers/user.controller.js:175-183 | with both writes in one transaction a reactivation is all or nothing, and without a fault it does what the code does |
| UserController.DeactivateThenReactivate | controllers/user.controller.js:66-183 | deactivating and reactivating within 30 days leaves the account active and every subscription of the owner active |
| UserController.DeactivateUser | controllers/user.controller.js:30-95 | the endpoint's answer and the new store are those of `Deactivation` |
| UserController.DeleteUserPermanently | controllers/user.controller.js:97-155 | the endpoint's answer and the new store are those of `Deletion` |
| UserController.ReactivateUser | controllers/user.controller.js:157-193 | the endpoint's answer and the new store are those of `Reactivation`, writes reaching the store one by one |
| EmailTemplate.GenerateSubject | utils/email-template.js:4 | every subject contains the subscription's name, right after the template's head |
| EmailTemplate.FindTemplate | utils/email-template.js:105-107 | `find` answers a template with the given label exactly when one exists |
| EmailTemplate.TemplateLabels | utils/email-template.js:3-78 | there are exactly four templates, labelled 5, 7, 2 and 1 days before, with distinct labels |
| EmailTemplate.FindByOwnLabel | utils/email-template.js:105-107 | with distinct labels the lookup finds the one template with the label asked for |
| EmailTemplate.GetEmailTemplateExact | utils/email-template.js:105-107 | the lookup answers exactly for the four labels, each with its own template |
| EmailTemplate.FormatPriceInjective | utils/email-template.js:110-112 | the price line tells currency, price and frequency apart |
| SendEmail.SendReminderEmail | utils/send-email.js:5-41 | a missing recipient, type or subscription throws first, an unknown type next, a missing owner next; a mail goes out exactly when all pass and the transport delivers, from the fixed sender to the recipient, of the requested type, with the price line, names and payment method of the subscription |
| SendEmail.MailPriceIdentifies | utils/send-email.js:16-22 | two reminder mails with the same price line are for the same currency, price and frequency |
| Workflow.Label | controllers/workflow.controller.js:44 | every step name starts with the offset's digits |
| Workflow.LabelInjective | controllers/workflow.controller.js:44 | distinct offsets have distinct step names |
| Workflow.LabelNotFetch | controllers/workflow.controller.js:51 | no offset step is named like the fetch step |
| Workflow.Fetch | controllers/workflow.controller.js:50-58 | the fetch step replays its recorded result, or reads the populated document (or nothing) and records it |
| Workflow.SleepUntil | controllers/workflow.controller.js:60-63 | a recorded sleep is skipped; otherwise it is recorded and logged and the clock moves on to its target |
| Workflow.Trigger | controllers/workflow.controller.js:65-78 | a recorded step is replayed without effect; a failing step leaves the log as it was; the clock and sleeps are never changed |
| Workflow.TriggerOutcome | controllers/workflow.controller.js:65-78 | a new step throws without an owner; an unknown type or a transport failure throws and changes nothing; otherwise it records the step and logs one mail to the owner's email, of the step's type, whose subject names the subscription |
| Workflow.Turn | controllers/workflow.controller.js:29-45 | a turn only moves the clock forward, only appends to the log and only adds records |
| Workflow.Loop | controllers/workflow.controller.js:29-45 | the same for the whole loop |
| Workflow.Handler | controllers/workflow.controller.js:11-48 | the run stops with no effect beyond the fetch exactly when the document is missing or not active, or when the renewal date has passed |
| Workflow.WorkflowContext.FetchSubscription | controllers/workflow.controller.js:50-58 | updates the log in place as `Fetch` says |
| Workflow.WorkflowContext.SleepUntilReminder | controllers/workflow.controller.js:60-63 | updates the log in place as `SleepUntil` says |
| Workflow.WorkflowContext.TriggerReminder | controllers/workflow.controller.js:65-78 | updates the log in place as `Trigger` says |
| Workflow.WorkflowContext.RemindOne | controllers/workflow.controller.js:30-44 | one pass of the loop updates the log in place as `Turn` says |
| Workflow.WorkflowContext.RemindEach | controllers/workflow.controller.js:29-45 | the `for ... of` loop updates the log as `Loop` says |
| Workflow.WorkflowContext.SendReminders | controllers/workflow.controller.js:11-48 | the handler updates the log and ends as `Handler` says |
| Workflow.OffsetLabels | controllers/workflow.controller.js:9 | the step names of 5, 7, 2 and 1 are the four template labels |
| Workflow.OffsetTemplates | utils/email-template.js:105-107 | a step name has a template exactly when its offset is 5, 7, 2 or 1 |
| Workflow.WorkflowLabelsHaveTemplates | controllers/workflow.controller.js:9 | every offset the workflow visits names a template, and the offsets are distinct |
| Workflow.RemindersDistinct | controllers/workflow.controller.js:9 | no offset is visited twice |
| Workflow.TurnSucceeds | controllers/workflow.controller.js:30-44 | a fresh deliverable turn succeeds, records exactly its own step, adds no sleep but its own, leaves the clock at the later of now and its date, and logs the optional sleep followed by one mail sent at that time |
| Workflow.TurnFollowsPlan | controllers/workflow.controller.js:29-45 | the timeline of a fresh deliverable turn is the plan's head: a sleep exactly when its date lies ahead, then one mail |
| Workflow.LoopFollowsPlan | controllers/workflow.controller.js:29-45 | a loop over fresh, distinct, deliverable offsets completes and logs exactly the plan's sleeps and mails |
| Workflow.PlanSendTimes | controllers/workflow.controller.js:29-45 | the plan mails once per offset, in order, the mail of each offset when the date of the smallest offset visited so far is reached, or at once when it has passed |
| Workflow.PlanNaps | controllers/workflow.controller.js:30-40 | the plan sleeps only until dates ahead of the start, each for an offset smaller than every earlier one |
| Workflow.SevenDayStepNeverSleeps | controllers/workflow.controller.js:9 | as written, the 7-day step never sleeps |
| Workflow.SevenDayReminderLate | controllers/workflow.controller.js:9 | as written, the 7-day reminder goes out 5 days before renewal, right after the 5-day one |
| Workflow.DecreasingOnTime | controllers/workflow.controller.js:29-45 | with offsets in decreasing order every reminder is mailed on its own date, or at once when that has passed |
| Workflow.IntendedRemindersOnTime | controllers/workflow.controller.js:9 | with the offsets 7, 5, 2, 1 every reminder is mailed on its own date |
| Workflow.ReplayChangesNothing | controllers/workflow.controller.js:29-45 | replaying a loop whose steps are all recorded changes nothing and mails nobody |
| Workflow.LoopCompletesDone | controllers/workflow.controller.js:29-45 | a loop that completes leaves every step recorded, and each sleep recorded or its date passed |
| Workflow.LoopIdempotent | controllers/workflow.controller.js:29-45 | running a completed loop again from its own log changes nothing |
| Workflow.SnapshotReused | controllers/workflow.controller.js:13 | once the fetch is recorded the run no longer depends on the store |
| Workflow.FreshRunFollowsPlan | controllers/workflow.controller.js:11-48 | a first run for an active subscription with a future renewal and a reachable owner completes and logs exactly the plan for 5, 7, 2, 1 |
| Workflow.PlanAtRenewal | controllers/workflow.controller.js:29-45 | with the renewal at the current instant every reminder date has passed: the plan is the four mails at once, with no sleep |
| Workflow.RenewalAtNowMailsAtOnce | controllers/workflow.controller.js:20-45 | read as written (renewal at the current instant), a first run completes and mails the 5, 7, 2 and 1 day reminders at once |

## Left out

- Network, database and mail I/O are left out. The store is two maps, the mail transport a delivered flag, and `bcrypt.compare` a boolean parameter.
- Authentication and the rate limiter are left out; the caller's id is trusted input. The reactivation route has no `authorize` (routes/user.routes.js:18), so any caller may reactivate any account. The model's `ReactivateUser` therefore takes no caller.
- `getUpcomingRenewals` is modelled, but no route reaches it: `/upcoming-renewal` is routed to `getUserSubscriptions` (routes/subscription.routes.js:21).
- `getUsers` and `getUserSubscriptions` are plain listings without guards and are left out.
- Dates are integer milliseconds with a fixed 86 400 000 ms day. The daylight-saving behaviour of `setDate` and dayjs's `"MMM D, YYYY"` formatting are not modelled. The mail carries the renewal timestamp.
- HTML bodies are kept abstract: the model records which template rendered which data.
- The `createdAt` and `updatedAt` timestamps and the sort of `getUserSubscriptions` are left out.
- Mongoose's aggregation of several validation errors is left out: the first failing path in schema order is reported. Cast errors of malformed ids are left out: ids are natural numbers.
- JSON `null` in a body is not modelled: a body value is a string or a number. Prices are integers; fractional prices are not modelled.
- Concurrency between requests is not modelled: each operation runs alone on the store.
- The internals of Upstash durable execution are not modelled: retries, real timers, and what happens when a step's code throws after a partial effect. Skipping a recorded step on replay is an assumption, not a proof. The workflow's clock advances only through its sleeps, and `dayjs()` reads that clock. The sleep and the run step of one offset share the label `<n>_days_before` (controllers/workflow.controller.js:35-44); the model keeps sleeps and run steps in two separate logs, so how Upstash tells apart two steps with one label is not modelled.
- The workflow reads `subscription.renewalDate`, but the schema's path is `renewDate`. The model takes the renewal date as a parameter. The as-written value, `dayjs(undefined)`, is the current instant; Workflow.RenewalAtNowMailsAtOnce states what a run then does when the guard reads the same instant. When the guard's reading is a millisecond later, the run stops at the guard.
- The reminder workflow started by `createSubscription` is not connected to the workflow model: the trigger is modelled only by whether it answers a run id.
- Renewals.GetUpcomingRenewals: the total is tied to the number of matching documents, every document is listed under its own key, and each group is in query order with each document once. That the group sizes add up to the total is not stated separately.
- SubscriptionController.CreateSubscription: the new document always gets the next store id. In the source the body is spread into `Subscription.create`, so a body `_id` that is a valid ObjectId would choose the id of the new document; ids as the body names them are not part of this model.
- Renewals.GetUpcomingRenewals: the `dateRange` it reports is kept as the two instants `now` and seven days on, not as the UTC calendar-day strings `toISOString().split("T")[0]` makes of them; date formatting is not part of this model.
- SubscriptionModel.CastDate: the empty string is cast to `null` and a number is taken as milliseconds, as Mongoose does; any other string is read by a parser given as a parameter, because JavaScript's `Date` parsing is not part of this model. A number is not checked against JavaScript's Date range of 8.64e15 ms either side of 1970; the source refuses a number outside that range.
- SubscriptionModel.CheckStartDate, SubscriptionModel.CheckRenewDate, SubscriptionModel.CheckCancelledAt: these share both gaps of SubscriptionModel.CastDate. Which non-empty strings are dates is left to the parser, and an out-of-range number is accepted.
- SubscriptionModel.CastNumber: only a non-empty string of decimal digits is cast. JavaScript's `Number` also accepts surrounding white space, a sign, a fraction, an exponent (`"1e3"`) and hexadecimal (`"0x1A"`); the model refuses all of these.
- Text.ToLower: only the ASCII capitals A to Z are lowered. JavaScript's `toLowerCase` also maps non-ASCII capitals (such as U+00C0 or the Kelvin sign U+212A), which the model keeps unchanged.
- SubscriptionModel.NameLengthOk, UserModel.Validated, UserModel.NewUser: the length validators count Unicode code points. JavaScript counts UTF-16 code units, so a character outside the Basic Multilingual Plane counts once here and twice in the source.
- Workflow.Trigger: its contract states only its frame (replay, no change on failure, clock and sleeps kept). What it mails is stated by Workflow.TriggerOutcome.

## Findings

| source | as written | input that shows it | evidently intended | confidence | as-written member | corrected member |
|---|---|---|---|---|---|---|
| controllers/workflow.controller.js:9 | the offsets are visited as 5, 7, 2, 1, and each turn first sleeps until its own date if that lies ahead | a renewal more than 5 days ahead: the run sleeps until 5 days before, mails the 5-day reminder, then finds the 7-day date already past and mails the 7-day reminder at once | each reminder goes out on its own date, 7 days before first | not executed | Workflow.SevenDayReminderLate | Workflow.IntendedRemindersOnTime |
| controllers/user.controller.js:175-183 | reactivation writes the user and then the subscriptions without a session, unlike the other two account operations | the subscription `updateMany` throws after the user update: the account is active while its subscriptions stay inactive | both writes commit together or not at all | not executed | UserController.ReactivationNotAtomic | UserController.ReactivationAtomicAllOrNothing |
