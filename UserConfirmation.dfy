/** The per-user verification record (`ConfirmationResults`), the store that
    holds one record per username, the "Confirm Human" entry path, the scoring
    of a submitted challenge, and the generators of the challenge material
    (src/UserConfirmation.ts). */
module UserConfirmation {
  import opened Optional
  import opened JsString
  import opened Settings
  import opened Directives

  datatype Status = Verified | Pending | Timeout | Failed | Unverified

  /** The answer to "Do you use Chat-GPT or other AI tools ...". */
  datatype AiAnswer = Yes | Sometimes | No

  /** One user's stored record. Every field except the username may be absent.
      Times are milliseconds since the epoch; `timeLapseSeconds` is the
      completion time in seconds, as the source computes it (ms / 1000). */
  datatype Record = Record(
    username: string,
    timeStarted: Option<int>,
    notified: Option<bool>,
    timeNotified: Option<int>,
    notificationModmailId: Option<string>,
    human: Option<bool>,
    bot: Option<bool>,
    chatgpt: Option<AiAnswer>,
    usernameConfirm: Option<string>,
    tokenDisplayed: Option<string>,
    tokenEntered: Option<string>,
    fakeTokenEntered: Option<string>,
    understand: Option<bool>,
    timeCompleted: Option<int>,
    timeLapseSeconds: Option<real>,
    verificationStatus: Option<Status>,
    modOverridenStatus: Option<bool>)

  /** The record `{ username }` the source writes when it first meets a user. */
  function NewRecord(username: string): (r: Record)
    ensures r.username == username && r.verificationStatus.None? && r.notificationModmailId.None?
  {
    Record(username, None, None, None, None, None, None, None, None, None, None, None, None, None, None, None, None)
  }

  /** `confirmationResults.notified` is truthy. */
  predicate WasNotified(r: Record) {
    r.notified == Some(true)
  }

  /** `confirmationResults.notificationModmailId` is truthy (present and non-empty). */
  predicate HasModmailId(r: Record) {
    r.notificationModmailId.Some? && r.notificationModmailId.value != ""
  }

  function Lookup(records: map<string, Record>, username: string): (r: Option<Record>)
    ensures r.Some? <==> username in records
    ensures r.Some? ==> r.value == records[username]
  {
    if username in records then Some(records[username]) else None
  }

  /** The store after a handler writes `saved` under `username` (no write when `saved` is None). */
  function Write(records: map<string, Record>, username: string, saved: Option<Record>): map<string, Record> {
    if saved.Some? then records[username := saved.value] else records
  }

  /** The records kept under the keys 'ConfirmationResults:<username>'. */
  class RecordStore {
    var records: map<string, Record>

    /** Every record is stored under its own username. */
    ghost predicate Valid()
      reads this
    {
      forall u :: u in records ==> records[u].username == u
    }

    constructor ()
      ensures Valid() && records == map[]
    {
      records := map[];
    }

    /** `getConfirmationResults`: the record, or nothing (the source returns `false`). */
    method Get(username: string) returns (r: Option<Record>)
      ensures r == Lookup(records, username)
    {
      r := Lookup(records, username);
    }

    /** `setConfirmationResults`. */
    method Put(username: string, r: Record)
      modifies this
      ensures records == old(records)[username := r]
      ensures old(Valid()) && r.username == username ==> Valid()
    {
      records := records[username := r];
    }

    /** `deleteConfirmationResults`. */
    method Delete(username: string)
      modifies this
      ensures records == old(records) - {username}
      ensures old(Valid()) ==> Valid()
    {
      records := records - {username};
    }
  }

  // ---------------------------------------------------------------------------
  // Scoring a submitted challenge (confirmForm submit)
  // ---------------------------------------------------------------------------

  /** The values of the submitted confirm form. `realTokenChallenge` is the
      field labelled "Leave this field blank!" (the honeypot) and
      `fakeTokenChallenge` is the field the token is actually typed into.
      `usernameSelected` is the value of the chosen option ('user_<name>'). */
  datatype Answers = Answers(
    human: bool,
    bot: bool,
    chatgpt: Option<AiAnswer>,
    usernameSelected: string,
    realTokenChallenge: Option<string>,
    fakeTokenChallenge: Option<string>,
    understand: bool)

  /** One entry of the failure report, in the order the rules are checked. */
  datatype Failure =
    | HumanNotSelected
    | BotSelected
    | AiUsage(answer: Option<AiAnswer>)
    | UsernameMismatch(actual: string, selected: string)
    | TokenMismatch(entered: Option<string>, displayed: Option<string>)
    | HoneypotFilled(value: string)
    | UnderstandNotSelected

  function Rank(f: Failure): nat {
    match f
    case HumanNotSelected => 0
    case BotSelected => 1
    case AiUsage(_) => 2
    case UsernameMismatch(_, _) => 3
    case TokenMismatch(_, _) => 4
    case HoneypotFilled(_) => 5
    case UnderstandNotSelected => 6
  }

  /** The username the option value stands for: the first 'user_' is removed. */
  function SelectedUsername(value: string): string {
    ReplaceFirst(value, "user_", "")
  }

  /** `checkUsernameEntry`: one leading "u/" is stripped, then the names must be equal. */
  function CheckUsernameEntry(username: string, usernameConfirm: string): (ok: bool)
    ensures ok <==> (usernameConfirm == "u/" + username
                     || (usernameConfirm == username && !StartsWith(username, "u/")))
  {
    var entry := if StartsWith(usernameConfirm, "u/") then usernameConfirm[2..] else usernameConfirm;
    assert StartsWith(usernameConfirm, "u/") ==> usernameConfirm == "u/" + usernameConfirm[2..];
    username == entry
  }

  /** What `checkTokenEntry` compares: a present token lower-cased and trimmed, an absent one as is. */
  function NormalizedToken(t: Option<string>): Option<string> {
    if t.Some? then Some(Trim(ToLower(t.value))) else None
  }

  /** `checkTokenEntry`. */
  function CheckTokenEntry(entered: Option<string>, expected: Option<string>): (ok: bool)
    ensures entered == expected ==> ok
    ensures ok ==> (entered.Some? <==> expected.Some?)
  {
    NormalizedToken(entered) == NormalizedToken(expected)
  }

  /** The honeypot is blank: absent, or only whitespace. */
  predicate HoneypotBlank(v: Option<string>) {
    v.None? || Trim(v.value) == ""
  }

  predicate HumanRuleHolds(a: Answers) { a.human && !a.bot }

  predicate AiRuleHolds(a: Answers, failIfAiUsed: bool) { !failIfAiUsed || a.chatgpt == Some(No) }

  predicate UsernameRuleHolds(rec: Record, a: Answers) {
    CheckUsernameEntry(rec.username, SelectedUsername(a.usernameSelected))
  }

  predicate TokenRuleHolds(rec: Record, a: Answers) {
    CheckTokenEntry(a.fakeTokenChallenge, rec.tokenDisplayed)
  }

  /** Every rule of the challenge holds. */
  predicate AllChecksHold(rec: Record, a: Answers, failIfAiUsed: bool) {
    && HumanRuleHolds(a)
    && AiRuleHolds(a, failIfAiUsed)
    && UsernameRuleHolds(rec, a)
    && TokenRuleHolds(rec, a)
    && HoneypotBlank(a.realTokenChallenge)
    && a.understand
  }

  /** Which of the rules that inspect text hold, computed once per submission. */
  datatype Verdicts = Verdicts(aiOk: bool, usernameOk: bool, tokenOk: bool, honeypotOk: bool)

  function Judge(rec: Record, a: Answers, failIfAiUsed: bool): Verdicts {
    Verdicts(AiRuleHolds(a, failIfAiUsed), UsernameRuleHolds(rec, a), TokenRuleHolds(rec, a),
             HoneypotBlank(a.realTokenChallenge))
  }

  /** The report entry `f` describes a rule that `v` marks as broken, with the submission's own values. */
  predicate ExplainedBy(f: Failure, rec: Record, a: Answers, v: Verdicts) {
    match f
    case HumanNotSelected => !a.human
    case BotSelected => a.bot
    case AiUsage(ans) => !v.aiOk && ans == a.chatgpt
    case UsernameMismatch(actual, selected) =>
      !v.usernameOk && actual == rec.username && selected == SelectedUsername(a.usernameSelected)
    case TokenMismatch(entered, displayed) =>
      !v.tokenOk && entered == a.fakeTokenChallenge && displayed == rec.tokenDisplayed
    case HoneypotFilled(value) => !v.honeypotOk && value == a.realTokenChallenge.GetOr("")
    case UnderstandNotSelected => !a.understand
  }

  /** The report entry `f` describes a rule that the submission breaks. */
  predicate Explains(f: Failure, rec: Record, a: Answers, failIfAiUsed: bool) {
    ExplainedBy(f, rec, a, Judge(rec, a, failIfAiUsed))
  }

  /** `report` lists only broken rules, in rank order, each ranked below `bound`. */
  ghost predicate OrderedReport(report: seq<Failure>, rec: Record, a: Answers, v: Verdicts, bound: nat) {
    && (forall i :: 0 <= i < |report| ==> ExplainedBy(report[i], rec, a, v) && Rank(report[i]) < bound)
    && (forall i, j :: 0 <= i < j < |report| ==> Rank(report[i]) < Rank(report[j]))
  }

  /** One rule's check: when `broken`, its entry `f` is added to the report. */
  method AddFailure(report: seq<Failure>, broken: bool, f: Failure, ghost rank: nat, ghost next: nat,
                    ghost rec: Record, ghost a: Answers, ghost v: Verdicts) returns (r: seq<Failure>)
    requires Rank(f) == rank && next == rank + 1 && OrderedReport(report, rec, a, v, rank)
    requires broken ==> ExplainedBy(f, rec, a, v)
    ensures OrderedReport(r, rec, a, v, next)
    ensures broken ==> f in r
    ensures forall g :: g in report ==> g in r
    ensures r == [] <==> report == [] && !broken
  {
    r := report;
    if broken {
      r := report + [f];
    }
    assert forall i :: 0 <= i < |report| ==> Rank(report[i]) < Rank(f);
  }

  /** The first four rules' part of the report: the checkbox, AI and username rules. */
  method ReportAnswerChecks(rec: Record, a: Answers, v: Verdicts) returns (report: seq<Failure>)
    ensures OrderedReport(report, rec, a, v, 4)
    ensures report == [] <==> a.human && !a.bot && v.aiOk && v.usernameOk
    ensures !a.human ==> HumanNotSelected in report
    ensures a.bot ==> BotSelected in report
    ensures !v.aiOk ==> AiUsage(a.chatgpt) in report
    ensures !v.usernameOk ==> UsernameMismatch(rec.username, SelectedUsername(a.usernameSelected)) in report
  {
    report := [];
    report := AddFailure(report, !a.human, HumanNotSelected, 0, 1, rec, a, v);
    report := AddFailure(report, a.bot, BotSelected, 1, 2, rec, a, v);
    report := AddFailure(report, !v.aiOk, AiUsage(a.chatgpt), 2, 3, rec, a, v);
    report := AddFailure(report, !v.usernameOk, UsernameMismatch(rec.username, SelectedUsername(a.usernameSelected)),
                         3, 4, rec, a, v);
  }

  /** The report for given rule outcomes `v`: one entry per broken rule, in the order the rules are checked. */
  method BuildReport(rec: Record, a: Answers, v: Verdicts) returns (report: seq<Failure>)
    ensures OrderedReport(report, rec, a, v, 7)
    ensures report == [] <==> a.human && !a.bot && v.aiOk && v.usernameOk && v.tokenOk && v.honeypotOk && a.understand
    ensures !a.human ==> HumanNotSelected in report
    ensures a.bot ==> BotSelected in report
    ensures !v.aiOk ==> AiUsage(a.chatgpt) in report
    ensures !v.usernameOk ==> UsernameMismatch(rec.username, SelectedUsername(a.usernameSelected)) in report
    ensures !v.tokenOk ==> TokenMismatch(a.fakeTokenChallenge, rec.tokenDisplayed) in report
    ensures !v.honeypotOk ==> HoneypotFilled(a.realTokenChallenge.GetOr("")) in report
    ensures !a.understand ==> UnderstandNotSelected in report
  {
    report := ReportAnswerChecks(rec, a, v);
    report := AddFailure(report, !v.tokenOk, TokenMismatch(a.fakeTokenChallenge, rec.tokenDisplayed), 4, 5, rec, a, v);
    report := AddFailure(report, !v.honeypotOk, HoneypotFilled(a.realTokenChallenge.GetOr("")), 5, 6, rec, a, v);
    report := AddFailure(report, !a.understand, UnderstandNotSelected, 6, 7, rec, a, v);
  }

  /** The scoring block of the confirm form: every rule is checked, none stops
      the others, and each broken rule adds its entry to the report. The
      submission passes when no rule was broken. */
  method ScoreAnswers(rec: Record, a: Answers, failIfAiUsed: bool) returns (passed: bool, report: seq<Failure>)
    ensures passed <==> AllChecksHold(rec, a, failIfAiUsed)
    ensures passed <==> report == []
    ensures forall f :: f in report ==> Explains(f, rec, a, failIfAiUsed)
    ensures !a.human ==> HumanNotSelected in report
    ensures a.bot ==> BotSelected in report
    ensures !AiRuleHolds(a, failIfAiUsed) ==> AiUsage(a.chatgpt) in report
    ensures !UsernameRuleHolds(rec, a) ==> UsernameMismatch(rec.username, SelectedUsername(a.usernameSelected)) in report
    ensures !TokenRuleHolds(rec, a) ==> TokenMismatch(a.fakeTokenChallenge, rec.tokenDisplayed) in report
    ensures !HoneypotBlank(a.realTokenChallenge) ==> HoneypotFilled(a.realTokenChallenge.value) in report
    ensures !a.understand ==> UnderstandNotSelected in report
    ensures forall i, j :: 0 <= i < j < |report| ==> Rank(report[i]) < Rank(report[j])
  {
    var v := Verdicts(!failIfAiUsed || a.chatgpt == Some(No),
                      CheckUsernameEntry(rec.username, SelectedUsername(a.usernameSelected)),
                      CheckTokenEntry(a.fakeTokenChallenge, rec.tokenDisplayed),
                      HoneypotBlank(a.realTokenChallenge));
    assert v == Judge(rec, a, failIfAiUsed);
    report := BuildReport(rec, a, v);
    passed := report == [];
    forall f | f in report ensures Explains(f, rec, a, failIfAiUsed) {
      var i :| 0 <= i < |report| && report[i] == f;
    }
  }

  /** The completion time in seconds: from `timeStarted` (or from now, when absent) to now. */
  function LapseSeconds(timeStarted: Option<int>, now: int): real {
    (now - timeStarted.GetOr(now)) as real / 1000.0
  }

  /** The record after a submission: the answers are recorded and the status is set. */
  function Answered(rec: Record, a: Answers, now: int, status: Status): Record {
    rec.(timeCompleted := Some(now),
         timeLapseSeconds := Some(LapseSeconds(rec.timeStarted, now)),
         human := Some(a.human),
         bot := Some(a.bot),
         chatgpt := a.chatgpt,
         usernameConfirm := Some(SelectedUsername(a.usernameSelected)),
         tokenEntered := a.fakeTokenChallenge,
         fakeTokenEntered := a.realTokenChallenge,
         verificationStatus := Some(status))
  }

  /** The confirm form's submit handler for the user `currentUser`. The AI rule
      reads a setting that `AppSettings` does not have, so it is always off. A
      user without a record makes the handler fail before it writes anything. */
  method SubmitConfirmation(store: RecordStore, currentUser: string, a: Answers, settings: AppSettings, now: int)
    returns (directives: seq<Directive>)
    requires store.Valid()
    modifies store
    ensures store.Valid()
    ensures currentUser !in old(store.records) ==> store.records == old(store.records) && directives == []
    ensures currentUser in old(store.records) ==>
      var rec := old(store.records)[currentUser];
      var passed := AllChecksHold(rec, a, false);
      && store.records == old(store.records)[currentUser := Answered(rec, a, now, if passed then Verified else Failed)]
      && directives == (if !passed && settings.banOnFailedVerification
                        then [BanUser(currentUser, FailedVerificationBan)] else [])
  {
    directives := [];
    var found := store.Get(currentUser);
    if found.None? {
      return;
    }
    var rec := found.value;
    rec := rec.(timeCompleted := Some(now));
    rec := rec.(timeLapseSeconds := Some(LapseSeconds(rec.timeStarted, now)));
    rec := rec.(human := Some(a.human), bot := Some(a.bot), chatgpt := a.chatgpt);
    rec := rec.(usernameConfirm := Some(SelectedUsername(a.usernameSelected)));
    rec := rec.(tokenEntered := a.fakeTokenChallenge, fakeTokenEntered := a.realTokenChallenge);
    // `appSettings.failVerificationIfChatGPTUsed` is not a field of AppSettings: it reads as undefined.
    var passed, _ := ScoreAnswers(found.value, a, false);
    rec := rec.(verificationStatus := Some(if passed then Verified else Failed));
    store.Put(rec.username, rec);
    if !passed && settings.banOnFailedVerification {
      directives := [BanUser(rec.username, FailedVerificationBan)];
    }
  }

  /** Whitespace around the typed token does not matter. */
  lemma TokenCheckIgnoresPadding(pre: string, s: string, post: string, expected: Option<string>)
    requires AllWhitespace(pre) && AllWhitespace(post)
    ensures CheckTokenEntry(Some(pre + s + post), expected) == CheckTokenEntry(Some(s), expected)
  {
    assert ToLower(pre + s + post) == ToLower(pre) + ToLower(s) + ToLower(post);
    assert ToLower(pre) == pre;
    assert ToLower(post) == post;
    TrimIgnoresPadding(pre, ToLower(s), post);
  }

  /** Letter case of the typed token does not matter. */
  lemma TokenCheckIgnoresCase(s: string, t: string)
    requires ToLower(s) == ToLower(t)
    ensures CheckTokenEntry(Some(s), Some(t))
  {
  }

  /** The comparison is not order-insensitive: a transposed token fails. */
  lemma TokenCheckIsOrderSensitive()
    ensures !CheckTokenEntry(Some("3AB"), Some("AB3"))
  {
    assert ToLower("3AB")[0] == '3';
    assert ToLower("AB3")[0] == 'a';
  }

  /** For tokens without whitespace, such as the generated ones, the check is
      exactly equality up to ASCII letter case. */
  lemma TokenCheckIsCaseInsensitiveEquality(s: string, t: string)
    requires forall k :: 0 <= k < |s| ==> !IsWhitespace(s[k])
    requires forall k :: 0 <= k < |t| ==> !IsWhitespace(t[k])
    ensures CheckTokenEntry(Some(s), Some(t)) <==> ToLower(s) == ToLower(t)
  {
    var ls, lt := ToLower(s), ToLower(t);
    LowerTrimmed(s);
    LowerTrimmed(t);
    assert NormalizedToken(Some(s)) == Some(ls);
    assert NormalizedToken(Some(t)) == Some(lt);
  }

  /** Lower-casing a string that holds no whitespace gives one that trimming leaves as is. */
  lemma LowerTrimmed(s: string)
    requires forall k :: 0 <= k < |s| ==> !IsWhitespace(s[k])
    ensures Trim(ToLower(s)) == ToLower(s)
  {
    var l := ToLower(s);
    assert forall k :: 0 <= k < |l| ==> l[k] == LowerChar(s[k]);
    assert forall k :: 0 <= k < |l| ==> !IsWhitespace(l[k]);
    assert TrimStart(l) == l;
    assert TrimEnd(l) == l;
  }

  /** Selecting the option built for the user passes the username rule
      (Reddit usernames never contain '/'). */
  lemma RealOptionPassesUsernameCheck(username: string)
    requires '/' !in username
    ensures CheckUsernameEntry(username, SelectedUsername("user_" + username))
  {
    ReplaceFirstOfPrefix("user_", username);
    if |username| >= 2 {
      assert username[1] in username;
    }
  }

  /** An attentive human passes: human ticked, bot not, AI answered 'no', own
      username selected, displayed token typed into the token field, honeypot
      left blank, understand ticked. */
  lemma HonestAnswersPass(rec: Record, a: Answers, failIfAiUsed: bool)
    requires '/' !in rec.username
    requires a.human && !a.bot && a.chatgpt == Some(No) && a.understand
    requires a.usernameSelected == "user_" + rec.username
    requires a.fakeTokenChallenge == rec.tokenDisplayed
    requires a.realTokenChallenge == None || a.realTokenChallenge == Some("")
    ensures AllChecksHold(rec, a, failIfAiUsed)
  {
    RealOptionPassesUsernameCheck(rec.username);
  }

  /** A honeypot holding anything besides whitespace fails the submission, whatever else was answered. */
  lemma HoneypotForcesFailure(rec: Record, a: Answers, failIfAiUsed: bool, v: string)
    requires a.realTokenChallenge == Some(v) && Trim(v) != ""
    ensures !AllChecksHold(rec, a, failIfAiUsed)
  {
  }

  // ---------------------------------------------------------------------------
  // Timeouts and the "Confirm Human" entry path
  // ---------------------------------------------------------------------------

  /** The timeout test of startHumanConfirmationProcess: a positive timeout,
      a notification time, and more than minutes * 60 seconds since then. */
  function TimedOutSinceNotified(minutes: int, timeNotified: Option<int>, now: int): (timedOut: bool)
    ensures timedOut ==> minutes > 0 && timeNotified.Some? && now > timeNotified.value
  {
    && minutes > 0
    && timeNotified.Some?
    && (now - timeNotified.value) as real / 1000.0 > (minutes * 60) as real
  }

  /** The same test on whole milliseconds. */
  lemma TimedOutInMilliseconds(minutes: int, notifiedAt: int, now: int)
    ensures TimedOutSinceNotified(minutes, Some(notifiedAt), now) <==> minutes > 0 && now - notifiedAt > minutes * 60000
  {
    var elapsed := (now - notifiedAt) as real;
    assert elapsed / 1000.0 > (minutes * 60) as real <==> elapsed > (minutes * 60000) as real;
  }

  datatype EntryOutcome = NoCurrentUser | MustWaitForRequest | ShowDoneForm | ShowConfirmForm

  /** startHumanConfirmationProcess on an existing (or just created) record:
      the form to show and the record written, if any. */
  function StartConfirmation(r0: Record, minutes: int, now: int, token: string): (r: (EntryOutcome, Option<Record>))
    ensures r.1.Some? ==> r.1.value.username == r0.username
    ensures r.1.Some? ==> r.1.value.notificationModmailId == r0.notificationModmailId
    ensures r.1.Some? ==> r.1.value.verificationStatus in {r0.verificationStatus, Some(Timeout)}
    ensures r.0 == ShowConfirmForm ==> r.1.Some? && r.1.value.tokenDisplayed == Some(token)
    ensures r.0 == ShowDoneForm ==> r.1.None? || r.1.value.verificationStatus == Some(Timeout)
    ensures r0.verificationStatus == Some(Pending) ==>
      && r.0 == ShowConfirmForm && r.1.value.verificationStatus == Some(Pending)
      && r.1.value.timeStarted == Some(now)
    ensures r.1.Some? && r.1.value.verificationStatus == Some(Timeout) <==>
      || (r0.verificationStatus == Some(Timeout))
      || (r0.verificationStatus !in {Some(Verified), Some(Failed), Some(Pending)}
          && TimedOutSinceNotified(minutes, r0.timeNotified, now))
    ensures r.0 == ShowConfirmForm && r0.verificationStatus != Some(Pending) ==>
      r.1.value.timeStarted == (if r0.timeStarted.Some? then r0.timeStarted else Some(now))
    ensures r0.verificationStatus in {Some(Verified), Some(Failed)} <==> r == (ShowDoneForm, None)
    // Otherwise, unless the limit has passed since the request, the form is shown with a fresh token.
    ensures (r0.verificationStatus !in {Some(Verified), Some(Failed), Some(Pending)}
             && !TimedOutSinceNotified(minutes, r0.timeNotified, now)) ==> r.0 == ShowConfirmForm
    // Only the token, the start time and the status may change.
    ensures r.1.Some? ==> r.1.value == r0.(tokenDisplayed := r.1.value.tokenDisplayed,
                                           timeStarted := r.1.value.timeStarted,
                                           verificationStatus := r.1.value.verificationStatus)
  {
    if r0.verificationStatus == Some(Verified) || r0.verificationStatus == Some(Failed) then
      (ShowDoneForm, None)
    else if r0.verificationStatus == Some(Pending) then
      (ShowConfirmForm, Some(r0.(timeStarted := Some(now), tokenDisplayed := Some(token))))
    else if TimedOutSinceNotified(minutes, r0.timeNotified, now) then
      (ShowDoneForm, Some(r0.(verificationStatus := Some(Timeout))))
    else
      (ShowConfirmForm, Some(r0.(tokenDisplayed := Some(token), timeStarted := Some(r0.timeStarted.GetOr(now)))))
  }

  /** The menu gate refuses: confirming needs a moderator request, and none was sent. */
  predicate MustWait(settings: AppSettings, rec: Option<Record>) {
    !settings.allowConfirmingWithoutNotification && (rec.None? || !WasNotified(rec.value))
  }

  /** The status is final for the current challenge: the done form is shown. */
  predicate IsDone(rec: Option<Record>) {
    rec.Some? && rec.value.verificationStatus in {Some(Verified), Some(Failed), Some(Timeout)}
  }

  /** The "Confirm Human" menu item followed by startHumanConfirmationProcess:
      the form shown and the record finally written. `creationToken` is the
      token a new record is created with; `token` the one generated afterwards. */
  function ConfirmHumanEntry(rec: Option<Record>, username: string, settings: AppSettings, now: int,
                             creationToken: string, token: string): (r: (EntryOutcome, Option<Record>))
    ensures username == "" ==> r == (NoCurrentUser, None)
    ensures username != "" && MustWait(settings, rec) ==> r == (MustWaitForRequest, None)
    ensures username != "" && !MustWait(settings, rec) && IsDone(rec) ==> r == (ShowDoneForm, None)
    ensures r.1.Some? ==> username != "" && !MustWait(settings, rec) && !IsDone(rec)
    ensures rec.None? && r.1.Some? ==>
      r == (ShowConfirmForm, Some(NewRecord(username).(timeStarted := Some(now), tokenDisplayed := Some(token))))
    // Past the gates the process starts: on the stored record, or on a record just created.
    ensures username != "" && !MustWait(settings, rec) && !IsDone(rec) ==>
      && r == StartConfirmation(EntryRecord(rec, username, now, creationToken),
                                settings.pendingConfirmationTimeoutMinutes, now, token)
      && r.1.Some? && (r.0 == ShowConfirmForm || r.1.value.verificationStatus == Some(Timeout))
  {
    if username == "" then (NoCurrentUser, None)
    else if MustWait(settings, rec) then (MustWaitForRequest, None)
    else if IsDone(rec) then (ShowDoneForm, None)
    else StartConfirmation(EntryRecord(rec, username, now, creationToken),
                           settings.pendingConfirmationTimeoutMinutes, now, token)
  }

  /** The record the process starts on: the stored one, or a new one created
      with its start time and `creationToken`. */
  function EntryRecord(rec: Option<Record>, username: string, now: int, creationToken: string): Record {
    if rec.Some? then rec.value
    else NewRecord(username).(timeStarted := Some(now), tokenDisplayed := Some(creationToken))
  }

  /** Through the "Confirm Human" menu, a pending user never times out, however late. */
  lemma PendingNeverTimesOutAtEntry(rec: Record, username: string, settings: AppSettings, now: int,
                                    creationToken: string, token: string)
    requires rec.verificationStatus == Some(Pending)
    ensures var r := ConfirmHumanEntry(Some(rec), username, settings, now, creationToken, token);
            r.1.Some? ==> r.1.value.verificationStatus == Some(Pending)
  {
  }

  /** The "Confirm Human" menu handler for the current user `username`. */
  method ConfirmHuman(store: RecordStore, username: string, settings: AppSettings, now: int,
                      creationToken: string, token: string) returns (outcome: EntryOutcome)
    requires store.Valid()
    modifies store
    ensures store.Valid()
    ensures var r := ConfirmHumanEntry(Lookup(old(store.records), username), username, settings, now, creationToken, token);
            outcome == r.0 && store.records == Write(old(store.records), username, r.1)
  {
    if username == "" {
      return NoCurrentUser;
    }
    var found := store.Get(username);
    if !settings.allowConfirmingWithoutNotification && (found.None? || !WasNotified(found.value)) {
      return MustWaitForRequest;
    }
    if found.Some? && found.value.verificationStatus in {Some(Verified), Some(Failed), Some(Timeout)} {
      return ShowDoneForm;
    }
    outcome := StartHumanConfirmationProcess(store, username, found, settings.pendingConfirmationTimeoutMinutes,
                                             now, creationToken, token);
  }

  method StartHumanConfirmationProcess(store: RecordStore, username: string, found: Option<Record>,
                                       minutes: int, now: int, creationToken: string, token: string)
    returns (outcome: EntryOutcome)
    requires store.Valid() && found == Lookup(store.records, username)
    modifies store
    ensures store.Valid()
    ensures var r0 := if found.Some? then found.value
                      else NewRecord(username).(timeStarted := Some(now), tokenDisplayed := Some(creationToken));
            var r := StartConfirmation(r0, minutes, now, token);
            outcome == r.0 && store.records == Write(if found.None? then old(store.records)[username := r0]
                                                     else old(store.records), username, r.1)
  {
    var rec: Record;
    if found.None? {
      rec := NewRecord(username).(timeStarted := Some(now), tokenDisplayed := Some(creationToken));
      store.Put(username, rec);
    } else {
      rec := found.value;
    }
    if rec.verificationStatus == Some(Verified) || rec.verificationStatus == Some(Failed) {
      return ShowDoneForm;
    }
    if rec.verificationStatus == Some(Pending) {
      rec := rec.(timeStarted := Some(now));
      rec := rec.(tokenDisplayed := Some(token));
      store.Put(username, rec);
    } else {
      if TimedOutSinceNotified(minutes, rec.timeNotified, now) {
        rec := rec.(verificationStatus := Some(Timeout));
        store.Put(username, rec);
        return ShowDoneForm;
      }
      rec := rec.(tokenDisplayed := Some(token));
      if rec.timeStarted.None? {
        rec := rec.(timeStarted := Some(now));
      }
      store.Put(username, rec);
    }
    outcome := ShowConfirmForm;
  }

  // ---------------------------------------------------------------------------
  // The done form: headline and help text
  // ---------------------------------------------------------------------------

  datatype Headline = VerifiedHeadline | FailedHeadline | TimedOutHeadline | UnknownHeadline

  /** `getUserVerificationStatus`: which headline the done form shows. */
  function DoneHeadline(rec: Record): (h: Headline)
    ensures h == VerifiedHeadline <==> rec.verificationStatus == Some(Verified)
    ensures h == FailedHeadline <==> rec.verificationStatus == Some(Failed)
    ensures h == TimedOutHeadline <==> rec.verificationStatus == Some(Timeout)
    ensures h == UnknownHeadline <==> rec.verificationStatus !in {Some(Verified), Some(Failed), Some(Timeout)}
  {
    match rec.verificationStatus
    case Some(Verified) => VerifiedHeadline
    case Some(Failed) => FailedHeadline
    case Some(Timeout) => TimedOutHeadline
    case _ => UnknownHeadline
  }

  /** The help line under the headline. `still` is the word "still " in
      "You are still blocked from posting/commenting". */
  datatype HelpLine = NotBlockedText | BlockedText(still: bool) | NoHelpText

  /** `getUserVerificationHelpText` as written: for a timed-out user it says
      "blocked" exactly when the timeout action is NOT 'remove'. */
  function HelpTextAsWritten(settings: AppSettings, rec: Record): (h: HelpLine)
    ensures h == NoHelpText <==> rec.verificationStatus !in {Some(Verified), Some(Failed), Some(Timeout)}
    ensures rec.verificationStatus == Some(Timeout) ==> (h.BlockedText? <==> settings.actionOnTimeoutVerification != Remove)
    ensures h.BlockedText? ==> h.still == (settings.actionOnPendingVerification == Remove)
  {
    var still := settings.actionOnPendingVerification == Remove;
    match rec.verificationStatus
    case Some(Verified) => NotBlockedText
    case Some(Failed) => BlockedText(still)
    case Some(Timeout) => if settings.actionOnTimeoutVerification != Remove then BlockedText(still) else NotBlockedText
    case _ => NoHelpText
  }

  /** The help text with the timeout branch the right way round: a timed-out
      user is told they are blocked exactly when the timeout action removes content. */
  function HelpText(settings: AppSettings, rec: Record): (h: HelpLine)
    ensures rec.verificationStatus == Some(Timeout) ==> (h.BlockedText? <==> settings.actionOnTimeoutVerification == Remove)
    ensures rec.verificationStatus == Some(Failed) ==> h.BlockedText?
    ensures rec.verificationStatus == Some(Verified) ==> h == NotBlockedText
    ensures h == HelpTextAsWritten(settings, rec) <==> rec.verificationStatus != Some(Timeout)
  {
    var still := settings.actionOnPendingVerification == Remove;
    match rec.verificationStatus
    case Some(Verified) => NotBlockedText
    case Some(Failed) => BlockedText(still)
    case Some(Timeout) => if settings.actionOnTimeoutVerification == Remove then BlockedText(still) else NotBlockedText
    case _ => NoHelpText
  }

  // ---------------------------------------------------------------------------
  // Challenge material
  // ---------------------------------------------------------------------------

  predicate IsAlphanumeric(c: char) {
    ('A' <= c <= 'Z') || ('a' <= c <= 'z') || ('0' <= c <= '9')
  }

  /** The k-th character of the token alphabet 'A'..'Z', 'a'..'z', '0'..'9'. */
  function AlphabetChar(k: nat): (c: char)
    requires k < 62
    ensures IsAlphanumeric(c)
  {
    if k < 26 then ('A' as int + k) as char
    else if k < 52 then ('a' as int + (k - 26)) as char
    else ('0' as int + (k - 52)) as char
  }

  /** The 62 picks name 62 different characters. */
  lemma AlphabetCharInjective(j: nat, k: nat)
    requires j < 62 && k < 62 && j != k
    ensures AlphabetChar(j) != AlphabetChar(k)
  {
  }

  /** `generateRandomToken`. `lengthPick` is `Math.floor(Math.random() * 3)` and
      `charPicks[i]` is `Math.floor(Math.random() * 62)` for the i-th character. */
  method GenerateRandomToken(lengthPick: nat, charPicks: seq<nat>) returns (token: string)
    requires lengthPick < 3 && |charPicks| == lengthPick + 3
    requires forall i :: 0 <= i < |charPicks| ==> charPicks[i] < 62
    ensures 3 <= |token| <= 5 && |token| == lengthPick + 3
    ensures forall i :: 0 <= i < |token| ==> IsAlphanumeric(token[i])
    ensures forall i :: 0 <= i < |token| ==> token[i] == AlphabetChar(charPicks[i])
  {
    var length := lengthPick + 3;
    token := "";
    var i := 0;
    while i < length
      invariant 0 <= i <= length && |token| == i
      invariant forall k :: 0 <= k < i ==> token[k] == AlphabetChar(charPicks[k]) && IsAlphanumeric(token[k])
    {
      token := token + [AlphabetChar(charPicks[i])];
      i := i + 1;
    }
  }

  /** One entry of the username select: what is shown, and what is submitted. */
  datatype UsernameOption = UsernameOption(text: string, value: string)

  function RealOption(username: string): UsernameOption {
    UsernameOption("u/" + username, "user_" + username)
  }

  /** The options before shuffling: the user's own, then five decoys. A decoy's
      label and value come from two different random tokens. */
  function UnshuffledOptions(username: string, labelTokens: seq<string>, valueTokens: seq<string>): (s: seq<UsernameOption>)
    requires |labelTokens| == 5 && |valueTokens| == 5
    ensures |s| == 6 && s[0] == RealOption(username)
  {
    [RealOption(username)]
      + seq(5, k requires 0 <= k < 5 => UsernameOption("u/" + labelTokens[k], "user_" + valueTokens[k]))
  }

  /** `generateUsernameOptions`: the user's option and five decoys, shuffled by
      Fisher-Yates. `swapPicks[n]` is the `j` drawn when `i` is `5 - n`. */
  method GenerateUsernameOptions(username: string, labelTokens: seq<string>, valueTokens: seq<string>, swapPicks: seq<nat>)
    returns (options: seq<UsernameOption>)
    requires |labelTokens| == 5 && |valueTokens| == 5 && |swapPicks| == 5
    requires forall n :: 0 <= n < 5 ==> swapPicks[n] <= 5 - n
    ensures |options| == 6
    ensures multiset(options) == multiset(UnshuffledOptions(username, labelTokens, valueTokens))
    ensures RealOption(username) in options
    ensures (forall k :: 0 <= k < 5 ==> valueTokens[k] != username) ==>
      && multiset(options)[RealOption(username)] == 1
      && forall i :: 0 <= i < 6 && options[i].value == "user_" + username ==> options[i] == RealOption(username)
  {
    var built := UnshuffledOptions(username, labelTokens, valueTokens);
    var a := new UsernameOption[6](_ => RealOption(username));
    a[0] := RealOption(username);
    var i := 0;
    while i < 5
      invariant 0 <= i <= 5
      invariant forall k :: 0 <= k <= i ==> a[k] == built[k]
    {
      a[i + 1] := UsernameOption("u/" + labelTokens[i], "user_" + valueTokens[i]);
      i := i + 1;
    }
    assert a[..] == built;
    Shuffle(a, swapPicks);
    options := a[..];
    assert RealOption(username) in multiset(built);
    if forall k :: 0 <= k < 5 ==> valueTokens[k] != username {
      UniqueRealOption(username, labelTokens, valueTokens);
      forall i | 0 <= i < 6 && options[i].value == "user_" + username
        ensures options[i] == RealOption(username)
      {
        assert options[i] in multiset(built);
      }
    }
  }

  /** The Fisher-Yates loop of `generateUsernameOptions`: for `i` from 5 down to 1
      it swaps `a[i]` with `a[j]`, where `j` is `swapPicks[5 - i]`. */
  method Shuffle(a: array<UsernameOption>, swapPicks: seq<nat>)
    requires a.Length == 6 && |swapPicks| == 5
    requires forall n :: 0 <= n < 5 ==> swapPicks[n] <= 5 - n
    modifies a
    ensures multiset(a[..]) == multiset(old(a[..]))
  {
    var n := 5;
    while n > 0
      invariant 0 <= n <= 5
      invariant multiset(a[..]) == multiset(old(a[..]))
    {
      var j := swapPicks[5 - n];
      a[n], a[j] := a[j], a[n];
      n := n - 1;
    }
  }

  /** When no decoy token is the username, the unshuffled list holds the user's
      option once and no other option submits the user's value. */
  lemma UniqueRealOption(username: string, labelTokens: seq<string>, valueTokens: seq<string>)
    requires |labelTokens| == 5 && |valueTokens| == 5
    requires forall k :: 0 <= k < 5 ==> valueTokens[k] != username
    ensures multiset(UnshuffledOptions(username, labelTokens, valueTokens))[RealOption(username)] == 1
    ensures forall o :: o in UnshuffledOptions(username, labelTokens, valueTokens) && o.value == "user_" + username
                        ==> o == RealOption(username)
  {
    var s := UnshuffledOptions(username, labelTokens, valueTokens);
    var decoys := s[1..];
    assert s == [s[0]] + decoys;
    forall k | 0 <= k < 5 ensures decoys[k].value != "user_" + username {
      assert decoys[k].value == "user_" + valueTokens[k];
      assert ("user_" + valueTokens[k])[5..] == valueTokens[k];
      assert ("user_" + username)[5..] == username;
    }
    assert RealOption(username) !in decoys;
  }
}
