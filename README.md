# Human verifier — a verified model of its decision logic

The app runs on Reddit as a Devvit app. Moderators ask flagged users to prove they are human. A user answers a
challenge form. The app then acts on whatever that user posts, according to their verification status.

This project models the decision logic inside the app's forms, menus and triggers:

- **Verification record and scoring** (`UserConfirmation.dfy`):
  - the per-user record and its store;
  - the "Confirm Human" entry path, which handles the token, timeouts and the done form;
  - the answer scorer, which checks every rule and collects failures;
  - the confirm-form submit handler;
  - the token and decoy-username generators.
- **Enforcement on new posts and comments** (`ContentTriggers.dfy`):
  - the remove, spam or report choice;
  - the removal note and the notice thread;
  - the timeout ban;
  - the find-or-create of the "Custom Reason" removal reason;
  - content-id prefix stripping.
- **Moderator controls** (`ModControl.dfy`):
  - the request transition and the request's modmail thread;
  - the status form's flags, labels and consequence bullets;
  - the override options and override transitions.
- **Helpers** (`RedditUtils.dfy`):
  - user-agent platform detection;
  - app-version comparison;
  - the moderator-permission check;
  - the hostname step of the main-domain helper;
  - the incremental author breakdown: the fold over mod notes, the totals, the merged user notes and the cache key list.

Supporting modules:

- `Optional` has the option type.
- `JsString` has the JavaScript string built-ins used by the source: `trim`, ASCII `toLowerCase` and `toUpperCase`, `indexOf`, `includes`, `replace` of a string pattern, and `split` on one character.
- `Settings` has `AppSettings` from `src/main.ts`.
- `Directives` has the external calls, as values.

Modelling conventions:

- **The store.** Redis becomes the class `UserConfirmation.RecordStore`, a `map` from username to record.
- **External calls.** Reddit calls (remove, report, ban, modmail, removal reasons) are not performed. Each handler returns them as a sequence of `Directive` values, in the order the source issues them.
- **Inputs.** API answers, such as a new conversation id or whether the content could be fetched, are parameters. So are random picks and the clock, with timestamps as integer milliseconds.

Where the prose design and the code disagree, the model follows the code:

- **Token check.** The code compares the token by trimmed, lower-cased equality, so it is sensitive to character order (`UserConfirmation.TokenCheckIsOrderSensitive`).
- **Timeout test.** It runs only when the user opens the confirm form, and never for a pending user (`UserConfirmation.PendingNeverTimesOutAtEntry`).
- **No token at request time.** A request does not generate a token, so a new pending user has none (`ModControl.FirstRequestLeavesNoToken`).
- **AI rule.** The AI-usage rule reads a setting that `AppSettings` does not have, so it is never enforced.

## Model

| member | source | states |
|---|---|---|
| UserConfirmation.NewRecord | src/ModControl.ts:263-268 | a first record holds only the username: no status and no notice thread |
| UserConfirmation.Lookup | src/UserConfirmation.ts:342-347 | a record is found exactly when one is stored under the name, and it is that record |
| UserConfirmation.RecordStore.constructor | src/UserConfirmation.ts:342-356 | the store starts empty, with every record keyed by its own username |
| UserConfirmation.RecordStore.Get | src/UserConfirmation.ts:342-347 | reading gives the stored record or nothing (the source's `false`) |
| UserConfirmation.RecordStore.Put | src/UserConfirmation.ts:349-351 | writing replaces exactly the one entry; a record written under its own username keeps every record under its own username |
| UserConfirmation.RecordStore.Delete | src/UserConfirmation.ts:353-356 | deleting removes exactly the one entry and keeps every record under its own username |
| UserConfirmation.CheckUsernameEntry | src/UserConfirmation.ts:188-194 | true exactly when the entry is the username, or "u/" followed by it; case-sensitive, and only one "u/" stripped |
| UserConfirmation.CheckTokenEntry | src/UserConfirmation.ts:195-200 | equal tokens pass; a pass never pairs a present token with an absent one |
| UserConfirmation.AddFailure | src/UserConfirmation.ts:125-154 | one rule check: a broken rule's entry is added, earlier entries stay, the report stays in rule order, and it is empty only when nothing broke |
| UserConfirmation.ReportAnswerChecks | src/UserConfirmation.ts:125-138 | the checkbox, AI and username rules: each broken one has its entry, in rule order, and the part is empty exactly when all four hold |
| UserConfirmation.BuildReport | src/UserConfirmation.ts:125-154 | every broken rule has its entry, in rule order, and the report is empty exactly when all rules hold |
| UserConfirmation.ScoreAnswers | src/UserConfirmation.ts:115-160 | passed exactly when every rule holds; no short-circuit, so every violated rule is in the report with the submitted values, entries in rule order, and the report is empty exactly when passed |
| UserConfirmation.SubmitConfirmation | src/UserConfirmation.ts:99-185 | an absent record changes nothing; otherwise answers are recorded and status becomes verified or failed by the rules (AI rule off); a ban is issued exactly on failure with ban-on-failure on |
| UserConfirmation.TokenCheckIgnoresPadding | src/UserConfirmation.ts:195-200 | whitespace around the typed token does not change the verdict |
| UserConfirmation.TokenCheckIgnoresCase | src/UserConfirmation.ts:195-200 | tokens equal up to ASCII case match |
| UserConfirmation.TokenCheckIsOrderSensitive | src/UserConfirmation.ts:195-200 | a transposed token ("3AB" for "AB3") fails |
| UserConfirmation.TokenCheckIsCaseInsensitiveEquality | src/UserConfirmation.ts:195-200 | for whitespace-free tokens the check passes exactly when they are equal up to ASCII case |
| UserConfirmation.RealOptionPassesUsernameCheck | src/UserConfirmation.ts:108-112 | selecting the option built for the user passes the username rule |
| UserConfirmation.HonestAnswersPass | src/UserConfirmation.ts:115-160 | human ticked, no bot, AI answered no, own name, right token, empty honeypot, understood: all rules hold |
| UserConfirmation.HoneypotForcesFailure | src/UserConfirmation.ts:145-148 | a honeypot with any non-whitespace fails the submission whatever else was answered |
| UserConfirmation.TimedOutInMilliseconds | src/UserConfirmation.ts:321-324 | the seconds-based timeout test equals: positive timeout and more than minutes × 60000 ms since notification |
| UserConfirmation.TimedOutSinceNotified | src/UserConfirmation.ts:321-324 | a timeout needs a positive limit, a notification time, and a clock past it |
| UserConfirmation.StartConfirmation | src/UserConfirmation.ts:299-337 | verified or failed: the done form and no write, exactly; pending keeps its status with a new token and start time; other statuses time out exactly under the timeout test; otherwise (not timed out since the request) the confirm form is shown with the new token, status kept, start time kept if set; no field other than token, start time and status ever changes |
| UserConfirmation.ConfirmHumanEntry | src/UserConfirmation.ts:276-296 | no user: nothing; not notified while notification required: nothing; verified/failed/timeout: done form, no write; past the gates the process starts on the stored or newly created record (the StartConfirmation result), which is always written and shows the confirm form unless it times out; a new record starts with the token and start time |
| UserConfirmation.PendingNeverTimesOutAtEntry | src/UserConfirmation.ts:313-329 | a pending user stays pending through the menu however late |
| UserConfirmation.ConfirmHuman | src/UserConfirmation.ts:276-296 | the menu handler shows the form and writes the record that ConfirmHumanEntry gives |
| UserConfirmation.StartHumanConfirmationProcess | src/UserConfirmation.ts:299-340 | creates the record if absent, then writes the StartConfirmation result, and nothing when that result has no record |
| UserConfirmation.DoneHeadline | src/UserConfirmation.ts:228-247 | the verified, failed and timed-out headlines exactly for those statuses; "unknown" for every other status |
| UserConfirmation.HelpTextAsWritten | src/UserConfirmation.ts:249-269 | as written: no help text exactly for statuses other than verified, failed and timed out; a timed-out user is told "blocked" exactly when the timeout action is not remove; "still" exactly when the pending action removes |
| UserConfirmation.HelpText | src/UserConfirmation.ts:249-269 | verified: not blocked; failed: blocked; timeout: blocked exactly when the timeout action is remove; it differs from the code as written exactly for timeout |
| UserConfirmation.AlphabetChar | src/UserConfirmation.ts:387 | every alphabet character is a letter or a digit |
| UserConfirmation.AlphabetCharInjective | src/UserConfirmation.ts:387-391 | the 62 picks name 62 distinct characters |
| UserConfirmation.GenerateRandomToken | src/UserConfirmation.ts:384-394 | 3 to 5 characters, each the alphanumeric character picked at its position |
| UserConfirmation.UnshuffledOptions | src/UserConfirmation.ts:369-375 | six options, the user's own first |
| UserConfirmation.Shuffle | src/UserConfirmation.ts:377-380 | the in-place Fisher-Yates swaps leave the same options, as a multiset |
| UserConfirmation.GenerateUsernameOptions | src/UserConfirmation.ts:369-382 | six options, a permutation of the built list, containing the user's option, exactly once and the only one with its value when no decoy token is the username |
| UserConfirmation.UniqueRealOption | src/UserConfirmation.ts:369-375 | when no decoy token equals the username, the user's option occurs once and is the only one with value "user_"+username |
| ContentTriggers.ChosenAction | src/ContentTriggers.ts:59-79 | failed: spam or remove by the spam setting; timeout and pending: their configured action; nothing else acts |
| ContentTriggers.ReasonAsWritten | src/ContentTriggers.ts:59-79 | the reason as computed: the failed text for a failed user, "" for anyone not failed, timed out or pending |
| ContentTriggers.RemovalSubject | src/ContentTriggers.ts:59-79 | the notice subject names the status (failed, timed out, else pending) and whether a post or a comment was removed |
| ContentTriggers.ReasonAsWrittenIsEmpty | src/ContentTriggers.ts:66-79 | as written, the mod-note reason for a timed-out or pending user is always empty |
| ContentTriggers.Reason | src/ContentTriggers.ts:59-79 | failed: the failed text; timeout and pending: their text, followed by ", please review" exactly when reporting; differs from the as-written reason for those statuses |
| ContentTriggers.FindReason | src/ContentTriggers.ts:151-152 | absent exactly when no reason has the title; otherwise the id of the first reason with it |
| ContentTriggers.CustomReasonId | src/ContentTriggers.ts:145-159 | creates nothing exactly when a "Custom Reason" exists and returns its id; otherwise creates exactly one and returns the new id |
| ContentTriggers.CustomReasonIdIsStable | src/ContentTriggers.ts:145-159 | once created, a second call finds the same id and creates nothing |
| ContentTriggers.FirstReasonIsUnique | src/ContentTriggers.ts:151-152 | the returned id is that of the first reason with the title |
| ContentTriggers.IdWithoutKind | src/ContentTriggers.ts:51-52 | absent exactly when the fullname has no '_' |
| ContentTriggers.IdWithoutKindOfFullname | src/ContentTriggers.ts:51-52 | "t3_abc" style fullnames give the id after the kind ("abc") |
| ContentTriggers.Enforcement | src/ContentTriggers.ts:43-143 | other statuses or unfetched content: no call; removal exactly for remove/spam, spam flag only for spam, logged with a note under the "Custom Reason" reason carrying the reason as computed; report exactly for report, with that reason; timeout ban exactly for timeout with ban on and an acting action; never a failed-verification ban; a notice only when removals are notified, by reply and archive in an existing thread, otherwise a new thread whose id is saved; the content action is the first call; a due ban is the last call, the only ban, addressed to the content's author id; a report is the report call, then the ban if due, and nothing else |
| ContentTriggers.ActOnContent | src/ContentTriggers.ts:87-129 | the first call is the content action; no ban; the removal branch is RemovalOutcome, the report branch exactly the report |
| ContentTriggers.WithTimeoutBan | src/ContentTriggers.ts:131-141 | the ban on the content's author id is appended exactly when the timeout ban is due; the saved record is unchanged |
| ContentTriggers.EnforcedOrder | src/ContentTriggers.ts:86-141 | the content action comes first; a due ban comes last, alone and on the author id; without one there is no ban |
| ContentTriggers.EnforcedRemoval | src/ContentTriggers.ts:87-124 | removed with the chosen spam flag and nothing else removed, the note logged, never reported, notified exactly as configured |
| ContentTriggers.EnforcedReport | src/ContentTriggers.ts:126-141 | the report with the reason as computed, then the ban if due, and nothing else |
| ContentTriggers.RemovalOutcome | src/ContentTriggers.ts:87-124 | the content is removed (spam flag as chosen) and nothing else is removed; the removal note is logged; no report and no ban; notify off: no modmail call and no write; notify on: the notice of Notice |
| ContentTriggers.RemovalCalls | src/ContentTriggers.ts:88-96 | the removal, then the "Custom Reason" lookup (creating it if missing), then the removal note under its id |
| ContentTriggers.Notice | src/ContentTriggers.ts:102-123 | a user with a thread gets a reply and archive there and nothing is saved; a user without one gets a new thread with the removal subject, it is archived, and its id is saved |
| ContentTriggers.HandlerSendsEmptyReason | src/ContentTriggers.ts:66-79 | for timed-out and pending users the removal note and the report carry "", while the intended reason is not empty |
| ContentTriggers.RemoveAndNotify | src/ContentTriggers.ts:87-124 | issues exactly the calls of RemovalOutcome and writes the record back only when a new thread id was saved |
| ContentTriggers.FailedContentIsRemoved | src/ContentTriggers.ts:59-88 | a failed user's fetched content is always removed, as spam by the setting |
| ContentTriggers.NothingActionSuppressesTimeoutBan | src/ContentTriggers.ts:81-86 | with the timeout action "nothing" no call is made, even with ban-on-timeout on |
| ContentTriggers.HelpTextAsWrittenMisleads | src/UserConfirmation.ts:259-267 | as written, a timed-out user whose content is removed is told they are not blocked |
| ContentTriggers.TimeoutHelpTextMatchesEnforcement | src/UserConfirmation.ts:259-267 | the corrected help text says "blocked" to a timed-out user exactly when their content is removed |
| ContentTriggers.OnContentSubmit | src/ContentTriggers.ts:6-41 | no author or no record: no call and no write; otherwise the calls and the write of Enforcement, with the reason as the source computes it |
| ModControl.RequestSubject | src/ModControl.ts:167-217 | one subject per status, each stated as an iff: unverified or absent the request, pending the reminder, timeout the timed-out new request, failed the try-again, verified the new request |
| ModControl.SendRequest | src/ModControl.ts:143-242 | an existing thread gets a reply and is archived, no write; otherwise a thread is created with the status subject and its id stored |
| ModControl.RequestOutcome | src/ModControl.ts:39-66 | a present record becomes pending, marked notified with the time when notification is on, thread id never replaced, no other field changed; with notification on the calls are exactly those of SendRequest (reply and archive in the user's thread, or a new thread); an absent record is never written |
| ModControl.SecondRequestReusesThread | src/ModControl.ts:219-238 | a second request replies in the thread the first opened |
| ModControl.RequestOpensTheGate | src/ModControl.ts:52-57 | after a notified request, the user may open the confirm form |
| ModControl.FirstRequestLeavesNoToken | src/ModControl.ts:52-64 | a first request leaves the user pending with no token |
| ModControl.SendVerificationRequest | src/ModControl.ts:143-242 | calls and write are those of SendRequest |
| ModControl.SubmitVerifyForm | src/ModControl.ts:39-66 | override box ticked: override form, no change; otherwise the calls and write of RequestOutcome |
| ModControl.VerificationDetails | src/ModControl.ts:303-425 | the banner of the status; "Send Reminder" exactly for pending, "Request Verification" exactly for unverified, "Request Verification Again" exactly for verified, timed out and failed; banned: not removing, not reporting, no content bullets; pending: no consequences block; a block that is shown lists something, each list starting with "until complete" |
| ModControl.StatusBanner | src/ModControl.ts:332-337 | one banner per status, "Not Verified" exactly for unverified or absent |
| ModControl.ButtonLabel | src/ModControl.ts:339-343 | reminder exactly for pending, first request exactly for unverified or absent, new request exactly for verified, timed out and failed |
| ModControl.DetailsMatchEnforcement | src/ModControl.ts:349-350 | for pending and timed-out users the removing/reporting flags match what the triggers do |
| ModControl.FailedRemovalNotShown | src/ModControl.ts:349-350 | for a failed user with both actions "nothing", content is removed but the form says it is not |
| ModControl.OpenStatusForm | src/ModControl.ts:244-301 | no author: nothing; otherwise a missing record is created and the details of the status are shown |
| ModControl.NewUserShowsNotVerified | src/ModControl.ts:335-338 | a new user is shown with "Request Verification" |
| ModControl.ContentActionNoteMatchesEnforcement | src/ModControl.ts:446-450 | the "stops removing" note appears exactly when the triggers remove, the "stops reporting" note exactly when they report |
| ModControl.ContentActionNote | src/ModControl.ts:444-450 | the note is "stops removing", "stops reporting" or none; always "stops removing" for a failed user; none for verified or unverified users |
| ModControl.OverrideOptions | src/ModControl.ts:461-480 | two or three distinct options whose values are, in this order, verified unless verified, unverified unless unverified or absent, failed unless failed |
| ModControl.OverrideOptionsOfferOtherStatuses | src/ModControl.ts:461-480 | each override value is offered exactly when the user is not already in that status |
| ModControl.OverrideAsWritten | src/ModControl.ts:111-141 | as written, the handler leaves the store unchanged |
| ModControl.OverrideOutcome | src/ModControl.ts:116-138 | unverified deletes the record; verified or failed sets that status and the override flag, nothing else; other users and other selections untouched |
| ModControl.OfferedOverridesChangeStatus | src/ModControl.ts:461-480 | every offered option changes the user's status |
| ModControl.OverrideAsWrittenIsIneffective | src/ModControl.ts:111-117 | marking unverified, as written, keeps the record; as intended, it deletes it |
| ModControl.SubmitOverrideForm | src/ModControl.ts:116-138 | the store becomes OverrideOutcome |
| RedditUtils.RedditPlatform | src/RedditUtils.ts:26-40 | the keyword found is the first in the order ios, shreddit, android, newreddit, oldreddit, web; unknown exactly when none is in the lower-cased agent |
| RedditUtils.PlatformIgnoresCase | src/RedditUtils.ts:27 | an agent and its lower-cased form are classified alike |
| RedditUtils.GroupOf | src/RedditUtils.ts:47-52 | app exactly for ios and android; web exactly for the four web-family platforms |
| RedditUtils.RedditPlatformGroup | src/RedditUtils.ts:47-52 | the group is unknown exactly when the agent contains none of the platform keywords |
| RedditUtils.IsRedditApp | src/RedditUtils.ts:26-56 | the app group means "ios", or "android" without "shreddit", in the lower-cased agent |
| RedditUtils.SuffixStart | src/RedditUtils.ts:68 | where the suffix-stripping regular expression starts its match |
| RedditUtils.ParseVersion | src/RedditUtils.ts:68 | one component per dot-separated part, at least one |
| RedditUtils.IsNewerVersionAvailable | src/RedditUtils.ts:64-78 | newer exactly when, at the first of the three positions where the versions differ, the new one is greater, with undefined never greater |
| RedditUtils.NewerIsIrreflexive | src/RedditUtils.ts:64-78 | equal versions are never newer |
| RedditUtils.NewerIsAsymmetric | src/RedditUtils.ts:64-78 | of two versions at most one is newer |
| RedditUtils.DecimalRoundTrip | src/RedditUtils.ts:68 | reading back a decimal numeral gives the number |
| RedditUtils.ComponentIgnoresSuffix | src/RedditUtils.ts:68 | "3-beta" style parts read as their leading number |
| RedditUtils.ParseVersionString | src/RedditUtils.ts:68 | "a.b.c" parses to [a, b, c] |
| RedditUtils.NewerVersionIsLexicographic | src/RedditUtils.ts:70-77 | on three-part versions: newer exactly when (major, minor, patch) is lexicographically greater |
| RedditUtils.ShortVersionHidesPatch | src/RedditUtils.ts:70-77 | from "a.b" to "a.b.c" is never newer: the missing patch is undefined |
| RedditUtils.NoRequirementAlwaysPasses | src/RedditUtils.ts:111-118 | an empty requirement always passes |
| RedditUtils.CheckForModPerms | src/RedditUtils.ts:111-118 | fails exactly when "all" is not held and some required permission is missing |
| RedditUtils.AllGrantsEverything | src/RedditUtils.ts:113-114 | "all" passes every requirement |
| RedditUtils.ModPermsMonotone | src/RedditUtils.ts:111-118 | more permissions or fewer requirements never turn a pass into a failure |
| RedditUtils.MissingPermissionFails | src/RedditUtils.ts:116-117 | without "all", one missing required permission fails |
| RedditUtils.MainDomainIsSecondToLast | src/RedditUtils.ts:472-480 | a hostname of two or more dot-free labels ("google.com", "www.google.com") gives its second-to-last label |
| RedditUtils.MainDomain | src/RedditUtils.ts:469-484 | the main domain is a single label: it holds no dot |
| RedditUtils.MainDomainOfSingleLabel | src/RedditUtils.ts:472-482 | a single-label hostname is returned as is |
| RedditUtils.CachedOf | src/RedditUtils.ts:294-307 | the cached note keeps id, time and text, and the label or "" when it has none; the display text is the label's prefix followed by the text, and equals the text exactly when there is no label |
| RedditUtils.DisplayPrefix | src/RedditUtils.ts:297-298 | a label with an emoji gets the emoji and a space; another non-empty label gets "⍰ "; the prefix is empty exactly when the label is |
| RedditUtils.ContentKey | src/RedditUtils.ts:285 | the action's target id when there is one, otherwise the note's own id |
| RedditUtils.ModType | src/RedditUtils.ts:287 | the upper-cased action type, else the upper-cased note type, else "UNKNOWN" |
| RedditUtils.ModTypeIsUpperCase | src/RedditUtils.ts:287 | the recorded type never holds a lower-case ASCII letter, so the comparisons with "NOTE", "SPAM", "BAN" and the others see one spelling |
| RedditUtils.Step | src/RedditUtils.ts:282-309 | a note no newer than the last check changes nothing; a fresh one sets its content id's state to its type and leaves the other ids alone; new notes only grow, by at most one |
| RedditUtils.Fold | src/RedditUtils.ts:282-309 | no content id is lost; new notes only grow, by at most one per note |
| RedditUtils.FoldKeepsLastModType | src/RedditUtils.ts:282-289 | a content id's final state is the type of the last fresh note about it |
| RedditUtils.FoldLeavesOtherContent | src/RedditUtils.ts:282-289 | content ids no fresh note mentions keep their cached state |
| RedditUtils.FoldSkipsSeenNotes | src/RedditUtils.ts:283 | notes no newer than the last check change nothing |
| RedditUtils.FoldAppendsFreshUserNotes | src/RedditUtils.ts:292-308 | new notes are the earlier ones followed by the cached forms of the fresh user notes, in order |
| RedditUtils.FreshUserNotesAreSound | src/RedditUtils.ts:292-308 | every collected note comes from a fresh user note |
| RedditUtils.FreshUserNotesAreComplete | src/RedditUtils.ts:292-308 | every fresh user note is collected |
| RedditUtils.FoldModNotes | src/RedditUtils.ts:275-309 | the loop computes the fold of the sorted notes from the cached state |
| RedditUtils.CountTotals | src/RedditUtils.ts:314-327 | removals, bans and mutes are the numbers of content ids whose final state is SPAM/REMOVE/REMOVAL, BAN, MUTE |
| RedditUtils.TotalsAtMostContentIds | src/RedditUtils.ts:314-327 | the three totals together never exceed the number of content ids |
| RedditUtils.InsertBy | src/RedditUtils.ts:273 | insertion keeps the order and adds exactly the one element |
| RedditUtils.SortBy | src/RedditUtils.ts:273 | the sort is ordered by the key and a permutation |
| RedditUtils.DedupById | src/RedditUtils.ts:331 | ids unique; an element is kept exactly when it is the first with its id |
| RedditUtils.MergeNotes | src/RedditUtils.ts:330-333 | at most 200 notes, and empty exactly when there were no notes at all |
| RedditUtils.PermutationKeepsUniqueIds | src/RedditUtils.ts:331-332 | sorting keeps ids unique |
| RedditUtils.MergedNotesProperties | src/RedditUtils.ts:330-333 | merged notes: unique ids, newest first, at most 200, each the first with its id (cached before new) |
| RedditUtils.MergeKeepsEveryIdUnderCap | src/RedditUtils.ts:330-333 | under the cap no id is lost |
| RedditUtils.MergeKeepsNewest | src/RedditUtils.ts:330-333 | a first-with-its-id note left out of the cache means the cache is full (200) and the note is no newer than any cached note: the newest are kept |
| RedditUtils.UpdateBreakdown | src/RedditUtils.ts:247-344 | the new cache: fold of the sorted notes from the cached state, its totals, the merged notes, the new check time |
| RedditUtils.BreakdownKey | src/RedditUtils.ts:218 | keys carry the "authorBreakdown:" prefix |
| RedditUtils.BreakdownKeyInjective | src/RedditUtils.ts:218 | different users have different keys |
| RedditUtils.BreakdownStore.constructor | src/RedditUtils.ts:224-226 | no breakdowns and an empty key list |
| RedditUtils.BreakdownStore.SetLastAuthorBreakdown | src/RedditUtils.ts:213-232 | the breakdown is stored; its key is appended only if absent, so the list never holds duplicates |

## Left out

- Devvit forms, menus, toasts and logging are left out. Only the state changes and the calls they make are modelled.
- Message and description text bodies are left out. The model keeps only which subject, headline, label or bullet is chosen.
- Redis storage, JSON encoding and the revival of dates are left out; the store is a map.
  - As a result, `timeNotified` is not modelled as staying a string after a reload. `parseConfirmationResultsWithDates` revives only `timeStarted` and `timeCompleted`.
- UserConfirmation.StartConfirmation: its timeout transition is taken from a stored record, but the source's is not. The record is always read back from Redis, so `timeNotified` is a string there. With a positive timeout and `timeNotified` set, `timeNotified.getTime()` (src/UserConfirmation.ts:324) throws a TypeError before any write, so the source never records the timeout at this point. The model follows the evident intent, a `Date`.
- `Math.random`, `new Date()` and Reddit API answers are parameters.
  - The API answers are: fetched content, the removal reasons, new ids, the moderator's permissions, mod notes and the banned state.
- `getModPerms`, which looks up the moderator by a case-insensitive name, is left out. `RedditUtils.CheckForModPerms` takes the permission list it returns.
- `new URL(...)` parsing in `getMainDomain` is library code and is left out. Only the hostname split is modelled.
- The repeat-offender flag, account age, and the breakdown text built from the totals are left out. They are presentation.
- Read-modify-write races between concurrent handlers are left out. The source has no guard.
  - The source does not await `sendVerificationRequest`. The model lets it finish before the record is written.
- Minimum completion times are left out. They are only a TODO in the source and never checked.
- UserConfirmation.SubmitConfirmation: the AI-usage rule is always off. The setting it reads does not exist in `AppSettings`.
- JsString.ToLower and JsString.ToUpper: only ASCII letters are case-mapped; JavaScript's full Unicode case mapping is not modelled. This affects the token check (`toLowerCase`) and RedditUtils.ModType (`toUpperCase`).
- RedditUtils.ComponentValue: `Number(...)` is modelled only on digit strings.
  - Remainders that still hold other characters count as 0 here. In JavaScript, for example, `Number(" 12")` is 12. This can only happen when a line terminator follows the part.
  - Numbers beyond 2^53 keep their exact value here, but are rounded in JavaScript.
- RedditUtils.SortBy: proved ordered and a permutation, but stability is not stated. `Array.prototype.sort` is stable, and so is the insertion order of the definition.
- RedditUtils.CachedNote: `createdAt` is kept in milliseconds rather than as an ISO string. The round trip through `toISOString` is exact at millisecond precision.
- ContentTriggers.Enforcement: the timeout ban is addressed to the content's author id (a "t2_" id), as written, rather than to a username. The model keeps the id.

## Findings

| source | as written | input that shows it | evidently intended | confidence | as-written member | corrected member |
|---|---|---|---|---|---|---|
| src/ContentTriggers.ts:69-76 | the reason is built as text + action compared to 'report' before the ternary applies, because `+` binds tighter than `===`; the comparison is always false, so the reason is always '' | a timed-out user with action "remove": the note's reason is "" | the status text, followed by ", please review" when reporting | high (not executed) | ContentTriggers.ReasonAsWrittenIsEmpty | ContentTriggers.Reason |
| src/ModControl.ts:112 | the override handler reads `values.status`, but the form has no such field, so `values.status.substring(...)` throws on undefined before any change | selecting "mark_unverified" for any user: the record remains | apply the selected override to the user's record | high (not executed) | ModControl.OverrideAsWrittenIsIneffective | ModControl.OverrideOutcome |
| src/UserConfirmation.ts:260-267 | for a timed-out user, the help text says "blocked" when the timeout action is not remove, and "not blocked" when it is remove | timed out, timeout action "remove": told they are not blocked while their posts are removed | "blocked" exactly when the timeout action removes | medium (not executed) | ContentTriggers.HelpTextAsWrittenMisleads | UserConfirmation.HelpText |
