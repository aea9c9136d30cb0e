/** The moderator side: the "Check Human Status" menu items, the status form
    that sends a verification request, the override form, and the text those
    forms are built from (src/ModControl.ts). */
module ModControl {
  import opened Optional
  import opened JsString
  import opened Settings
  import opened Directives
  import opened UserConfirmation
  import opened ContentTriggers

  // ---------------------------------------------------------------------------
  // Verification requests (verifyForm submit and sendVerificationRequest)
  // ---------------------------------------------------------------------------

  /** The subject of a new request thread, by the status before the request
      (`verificationStatus || 'unverified'`). */
  function RequestSubject(status: Option<Status>): (s: Subject)
    ensures s == VerificationRequested <==> status in {None, Some(Unverified)}
    ensures s == CompleteReminder <==> status == Some(Pending)
    ensures s == TimedOutNewRequest <==> status == Some(Timeout)
    ensures s == FailedTryAgain <==> status == Some(Failed)
    ensures s == NewVerificationRequest <==> status == Some(Verified)
  {
    match status
    case Some(Pending) => CompleteReminder
    case Some(Timeout) => TimedOutNewRequest
    case Some(Failed) => FailedTryAgain
    case Some(Verified) => NewVerificationRequest
    case _ => VerificationRequested
  }

  /** sendVerificationRequest on a stored record: reply in the user's existing
      thread, or open one and remember its id; then archive the thread. */
  function SendRequest(rec: Record, username: string, newConversationId: string): (r: Outcome)
    ensures HasModmailId(rec) ==> r == Outcome([ReplyModmail(rec.notificationModmailId.value),
                                                ArchiveModmail(rec.notificationModmailId.value)], None)
    ensures !HasModmailId(rec) ==>
      && r.directives == [CreateModmail(username, RequestSubject(rec.verificationStatus)), ArchiveModmail(newConversationId)]
      && r.saved == Some(rec.(notificationModmailId := Some(newConversationId)))
  {
    if HasModmailId(rec) then
      var id := rec.notificationModmailId.value;
      Outcome([ReplyModmail(id), ArchiveModmail(id)], None)
    else
      Outcome([CreateModmail(username, RequestSubject(rec.verificationStatus)), ArchiveModmail(newConversationId)],
              Some(rec.(notificationModmailId := Some(newConversationId))))
  }

  /** The verify form's submit without the override box ticked, for the
      content author `username` and their record `rec`. Without a record the
      handler fails on its first assignment to it: only the thread opened by
      the request it started survives. */
  function RequestOutcome(rec: Option<Record>, username: string, settings: AppSettings, now: int,
                          newConversationId: string): (r: Outcome)
    ensures rec.None? ==> r.saved.None?
    ensures rec.None? ==> r.directives == (if settings.notifyUserOnVerificationRequest
                                           then [CreateModmail(username, VerificationRequested)] else [])
    ensures rec.Some? ==> r.saved.Some? && r.saved.value.username == rec.value.username
    // Every request leaves the user pending.
    ensures rec.Some? ==> r.saved.value.verificationStatus == Some(Pending)
    ensures rec.Some? && settings.notifyUserOnVerificationRequest ==>
      WasNotified(r.saved.value) && r.saved.value.timeNotified == Some(now)
    ensures rec.Some? && !settings.notifyUserOnVerificationRequest ==>
      r == Outcome([], Some(rec.value.(verificationStatus := Some(Pending))))
    // With notification on, the request reaches the user through SendRequest's calls.
    ensures rec.Some? && settings.notifyUserOnVerificationRequest ==>
      r.directives == SendRequest(rec.value, username, newConversationId).directives
    // A thread id already on the record is never replaced, and no new thread is opened.
    ensures rec.Some? && HasModmailId(rec.value) ==>
      && r.saved.value.notificationModmailId == rec.value.notificationModmailId
      && forall s :: CreateModmail(username, s) !in r.directives
    ensures rec.Some? && !HasModmailId(rec.value) && settings.notifyUserOnVerificationRequest ==>
      r.saved.value.notificationModmailId == Some(newConversationId)
    // Only the subject, the thread and the four request fields change.
    ensures rec.Some? ==> r.saved.value.(notificationModmailId := rec.value.notificationModmailId,
                                         notified := rec.value.notified, timeNotified := rec.value.timeNotified,
                                         verificationStatus := rec.value.verificationStatus) == rec.value
  {
    if rec.None? then
      Outcome(if settings.notifyUserOnVerificationRequest then [CreateModmail(username, VerificationRequested)] else [], None)
    else if settings.notifyUserOnVerificationRequest then
      var sent := SendRequest(rec.value, username, newConversationId);
      var r1 := sent.saved.GetOr(rec.value);
      Outcome(sent.directives, Some(r1.(notified := Some(true), timeNotified := Some(now), verificationStatus := Some(Pending))))
    else
      Outcome([], Some(rec.value.(verificationStatus := Some(Pending))))
  }

  /** A second request reaches the user in the thread the first one opened. */
  lemma SecondRequestReusesThread(rec: Record, username: string, settings: AppSettings, now: int, later: int,
                                  firstId: string, secondId: string)
    requires settings.notifyUserOnVerificationRequest && firstId != ""
    ensures var first := RequestOutcome(Some(rec), username, settings, now, firstId);
            var second := RequestOutcome(first.saved, username, settings, later, secondId);
            var id := first.saved.value.notificationModmailId.value;
            && second.directives == [ReplyModmail(id), ArchiveModmail(id)]
            && (!HasModmailId(rec) ==> id == firstId)
  {
  }

  /** After a request the user may open the confirm form, whatever the
      "allow confirming without notification" setting says. */
  lemma RequestOpensTheGate(rec: Record, username: string, settings: AppSettings, now: int, newConversationId: string)
    requires settings.notifyUserOnVerificationRequest
    ensures !MustWait(settings, RequestOutcome(Some(rec), username, settings, now, newConversationId).saved)
  {
  }

  /** A user requested for the first time is pending without a token: the
      token is set when they open the confirm form. */
  lemma FirstRequestLeavesNoToken(username: string, settings: AppSettings, now: int, newConversationId: string)
    ensures var r := RequestOutcome(Some(NewRecord(username)), username, settings, now, newConversationId).saved.value;
            r.verificationStatus == Some(Pending) && r.tokenDisplayed.None?
  {
  }

  /** sendVerificationRequest. `rec` is the author's record, as read by the caller. */
  method SendVerificationRequest(store: RecordStore, username: string, rec: Record, newConversationId: string)
    returns (directives: seq<Directive>, updated: Record)
    requires store.Valid() && rec.username in store.records && store.records[rec.username] == rec
    modifies store
    ensures store.Valid()
    ensures var r := SendRequest(rec, username, newConversationId);
            directives == r.directives && updated == r.saved.GetOr(rec)
            && store.records == Write(old(store.records), rec.username, r.saved)
  {
    var status := rec.verificationStatus;
    var subject := RequestSubject(status);
    updated := rec;
    if rec.notificationModmailId.Some? && rec.notificationModmailId.value != "" {
      var conversationId := rec.notificationModmailId.value;
      directives := [ReplyModmail(conversationId), ArchiveModmail(conversationId)];
    } else {
      directives := [CreateModmail(username, subject)];
      updated := updated.(notificationModmailId := Some(newConversationId));
      store.Put(updated.username, updated);
      directives := directives + [ArchiveModmail(newConversationId)];
    }
  }

  /** The verify form's submit handler for the content author `author`. With
      the override box ticked it only opens the override form. The request is
      started before the handler's own updates and is modelled as finishing
      first. */
  method SubmitVerifyForm(store: RecordStore, author: string, overrideChecked: bool, settings: AppSettings, now: int,
                          newConversationId: string) returns (directives: seq<Directive>, showOverrideForm: bool)
    requires store.Valid()
    modifies store
    ensures store.Valid()
    ensures overrideChecked ==> showOverrideForm && directives == [] && store.records == old(store.records)
    ensures !overrideChecked ==>
      var r := RequestOutcome(Lookup(old(store.records), author), author, settings, now, newConversationId);
      !showOverrideForm && directives == r.directives && store.records == Write(old(store.records), author, r.saved)
  {
    directives := [];
    showOverrideForm := false;
    var found := store.Get(author);
    if overrideChecked {
      showOverrideForm := true;
      return;
    }
    if found.None? {
      if settings.notifyUserOnVerificationRequest {
        directives := [CreateModmail(author, VerificationRequested)];
      }
      return;
    }
    var rec := found.value;
    if settings.notifyUserOnVerificationRequest {
      directives, rec := SendVerificationRequest(store, author, rec, newConversationId);
      rec := rec.(notified := Some(true), timeNotified := Some(now));
    }
    rec := rec.(verificationStatus := Some(Pending));
    store.Put(author, rec);
  }

  // ---------------------------------------------------------------------------
  // The "Check Human Status" menu items
  // ---------------------------------------------------------------------------

  /** The status banner (the form's title). */
  datatype Banner = VerifiedBanner | PendingBanner | TimedOutBanner | FailedBanner | NotVerifiedBanner

  /** A bullet under "Content Will (Continue Being) Auto-Removed/Reported:". */
  datatype Bullet = UntilComplete | IfTimesOut | IfFails

  /** A bullet under "User Will Be Banned:". */
  datatype BanBullet = StaysBanned | BannedIfFails

  /** The "If you proceed:" section. */
  datatype Consequences = Consequences(removeBullets: seq<Bullet>, reportBullets: seq<Bullet>, banBullets: seq<BanBullet>)

  /** What `getVerificationDetails` puts on the status form. */
  datatype Details = Details(
    username: string,
    banner: Banner,
    buttonLabel: string,
    banned: bool,                       // "User is banned from posting" is listed
    removingNow: bool,                  // "Content is currently being removed" is listed
    reportingNow: bool,                 // "Content is currently being reported" is listed
    consequences: Option<Consequences>) // None: no "If you proceed:" section

  const RequestAgainLabel: string := "Request Verification Again"
  const ReminderLabel: string := "Send Reminder"
  const RequestLabel: string := "Request Verification"

  /** The banner: one per status, "Not Verified" for an unverified or absent status. */
  function StatusBanner(status: Option<Status>): (b: Banner)
    ensures b == VerifiedBanner <==> status == Some(Verified)
    ensures b == PendingBanner <==> status == Some(Pending)
    ensures b == TimedOutBanner <==> status == Some(Timeout)
    ensures b == FailedBanner <==> status == Some(Failed)
    ensures b == NotVerifiedBanner <==> status in {None, Some(Unverified)}
  {
    match status
    case Some(Verified) => VerifiedBanner
    case Some(Pending) => PendingBanner
    case Some(Timeout) => TimedOutBanner
    case Some(Failed) => FailedBanner
    case _ => NotVerifiedBanner
  }

  /** The button: a reminder for a pending user, a first request for an
      unverified one, a new request for everyone else. */
  function ButtonLabel(status: Option<Status>): (text: string)
    ensures text == ReminderLabel <==> status == Some(Pending)
    ensures text == RequestLabel <==> status in {None, Some(Unverified)}
    ensures text == RequestAgainLabel <==> status in {Some(Verified), Some(Timeout), Some(Failed)}
  {
    match status
    case Some(Verified) => RequestAgainLabel
    case Some(Pending) => ReminderLabel
    case Some(Timeout) => RequestAgainLabel
    case Some(Failed) => RequestAgainLabel
    case _ => RequestLabel
  }

  /** `getVerificationDetails(appSettings, username, status || 'unverified', banned)`. */
  function VerificationDetails(settings: AppSettings, username: string, status: Option<Status>, banned: bool): (d: Details)
    ensures d.buttonLabel == ReminderLabel <==> status == Some(Pending)
    ensures d.buttonLabel == RequestLabel <==> status in {None, Some(Unverified)}
    ensures d.buttonLabel == RequestAgainLabel <==> status in {Some(Verified), Some(Timeout), Some(Failed)}
    ensures d.banner == VerifiedBanner <==> status == Some(Verified)
    ensures d.banner == PendingBanner <==> status == Some(Pending)
    ensures d.banner == TimedOutBanner <==> status == Some(Timeout)
    ensures d.banner == FailedBanner <==> status == Some(Failed)
    ensures d.banner == NotVerifiedBanner <==> status in {None, Some(Unverified)}
    ensures d.username == username && d.banned == banned
    ensures banned ==> !d.removingNow && !d.reportingNow
    ensures banned && d.consequences.Some? ==> d.consequences.value.removeBullets == [] && d.consequences.value.reportBullets == []
    ensures status == Some(Pending) ==> d.consequences.None?
    ensures d.consequences.Some? ==> |d.consequences.value.removeBullets| + |d.consequences.value.reportBullets|
                                     + |d.consequences.value.banBullets| > 0
    ensures d.consequences.Some? && d.consequences.value.removeBullets != [] ==> d.consequences.value.removeBullets[0] == UntilComplete
    ensures d.consequences.Some? && d.consequences.value.reportBullets != [] ==> d.consequences.value.reportBullets[0] == UntilComplete
  {
    var pending := status == Some(Pending);
    var timeout := status == Some(Timeout);
    var failed := status == Some(Failed);
    var removePending := settings.actionOnPendingVerification == Remove;
    var reportPending := settings.actionOnPendingVerification == Report;
    var removeTimeout := settings.actionOnTimeoutVerification == Remove;
    var reportTimeout := settings.actionOnTimeoutVerification == Report;
    var banner := StatusBanner(status);
    var button := ButtonLabel(status);
    var removingNow := !banned && ((pending && removePending) || (timeout && removeTimeout)
                                   || (failed && (removePending || removeTimeout)));
    var reportingNow := !banned && ((pending && reportPending) || (timeout && reportTimeout)
                                    || (failed && (reportPending || reportTimeout)));
    var removeBullets :=
      if !banned && (removePending || removeTimeout) then
        [UntilComplete] + (if timeout && removeTimeout then [IfTimesOut] else [])
        + (if failed && (removePending || removeTimeout) then [IfFails] else [])
      else [];
    var reportBullets :=
      if !banned && (reportPending || reportTimeout) then
        [UntilComplete] + (if timeout && reportTimeout then [IfTimesOut] else [])
        + (if failed && (reportPending || reportTimeout) then [IfFails] else [])
      else [];
    var banBullets :=
      if settings.banOnFailedVerification then
        (if banned then [StaysBanned] else if failed then [BannedIfFails] else [])
      else [];
    var consequences :=
      if pending || (removeBullets == [] && reportBullets == [] && banBullets == []) then None
      else Some(Consequences(removeBullets, reportBullets, banBullets));
    Details(username, banner, button, banned, removingNow, reportingNow, consequences)
  }

  /** For a pending or timed-out user who is not banned, the form's "currently
      being removed/reported" lines say what the content triggers do. */
  lemma DetailsMatchEnforcement(settings: AppSettings, username: string, status: Option<Status>)
    requires status == Some(Pending) || status == Some(Timeout)
    ensures var d := VerificationDetails(settings, username, status, false);
            && (d.removingNow <==> Removes(ChosenAction(status, settings)))
            && (d.reportingNow <==> ChosenAction(status, settings) == ReportAction)
  {
  }

  /** For a failed user the form reads the pending and timeout settings,
      while the triggers remove a failed user's content regardless of them:
      with both set to 'nothing' the form says nothing is being removed. */
  lemma FailedRemovalNotShown(settings: AppSettings, username: string)
    requires settings.actionOnPendingVerification == Nothing && settings.actionOnTimeoutVerification == Nothing
    ensures Removes(ChosenAction(Some(Failed), settings))
    ensures !VerificationDetails(settings, username, Some(Failed), false).removingNow
  {
  }

  /** The "Check Human Status" menu item on a post or comment by `authorName`
      (the author's username, '' when it cannot be found): a record is created
      for a user seen for the first time, and the status form is shown. */
  method OpenStatusForm(store: RecordStore, authorName: string, settings: AppSettings, banned: bool)
    returns (form: Option<Details>)
    requires store.Valid()
    modifies store
    ensures store.Valid()
    ensures authorName == "" ==> form.None? && store.records == old(store.records)
    ensures authorName != "" ==>
      && store.records == (if authorName in old(store.records) then old(store.records)
                           else old(store.records)[authorName := NewRecord(authorName)])
      && form == Some(VerificationDetails(settings, authorName, store.records[authorName].verificationStatus, banned))
  {
    if authorName == "" {
      return None;
    }
    var found := store.Get(authorName);
    var rec: Record;
    if found.None? {
      rec := NewRecord(authorName);
      store.Put(authorName, rec);
    } else {
      rec := found.value;
    }
    form := Some(VerificationDetails(settings, rec.username, rec.verificationStatus, banned));
  }

  /** Opening the status form for a new user shows them as not verified, with "Request Verification". */
  lemma NewUserShowsNotVerified(settings: AppSettings, username: string, banned: bool)
    ensures var d := VerificationDetails(settings, username, NewRecord(username).verificationStatus, banned);
            d.banner == NotVerifiedBanner && d.buttonLabel == RequestLabel
  {
  }

  // ---------------------------------------------------------------------------
  // The override form
  // ---------------------------------------------------------------------------

  const StopsRemovingNote: string := " (Stops Removing Content)"
  const StopsReportingNote: string := " (Stops Reporting Content)"
  const BansUserNote: string := " (Bans User)"
  const StartsRemovingNote: string := " (Starts Removing New Content)"

  /** One option of the override select (the label without its leading emoji). */
  datatype OverrideOption = OverrideOption(text: string, value: string)

  /** What overriding stops: removal, reporting, or nothing. */
  function ContentActionNote(settings: AppSettings, status: Option<Status>): (note: string)
    ensures note in {StopsRemovingNote, StopsReportingNote, ""}
    ensures status == Some(Failed) ==> note == StopsRemovingNote
    ensures status !in {Some(Pending), Some(Timeout), Some(Failed)} ==> note == ""
  {
    var pending := status == Some(Pending);
    var timeout := status == Some(Timeout);
    if (pending && settings.actionOnPendingVerification == Remove)
       || (timeout && settings.actionOnTimeoutVerification == Remove)
       || status == Some(Failed) then StopsRemovingNote
    else if (pending && settings.actionOnPendingVerification == Report)
            || (timeout && settings.actionOnTimeoutVerification == Report) then StopsReportingNote
    else ""
  }

  /** The note says which enforcement the content triggers currently apply. */
  lemma ContentActionNoteMatchesEnforcement(settings: AppSettings, status: Option<Status>)
    ensures ContentActionNote(settings, status) == StopsRemovingNote <==> Removes(ChosenAction(status, settings))
    ensures ContentActionNote(settings, status) == StopsReportingNote <==> ChosenAction(status, settings) == ReportAction
  {
  }

  /** The submitted values of the options, in order. */
  function Values(options: seq<OverrideOption>): seq<string> {
    seq(|options|, i requires 0 <= i < |options| => options[i].value)
  }

  predicate Offers(options: seq<OverrideOption>, value: string) {
    exists i :: 0 <= i < |options| && options[i].value == value
  }

  /** `getOverrideOptions(appSettings, status || 'unverified')`: every status
      except the current one, in the order verified, unverified, failed. */
  function OverrideOptions(settings: AppSettings, status: Option<Status>): (options: seq<OverrideOption>)
    ensures forall i :: 0 <= i < |options| ==> options[i].value in {"mark_verified", "mark_unverified", "mark_failed"}
    ensures forall i, j :: 0 <= i < j < |options| ==> options[i].value != options[j].value
    ensures 2 <= |options| <= 3
    ensures Values(options) == (if status != Some(Verified) then ["mark_verified"] else [])
                               + (if status !in {None, Some(Unverified)} then ["mark_unverified"] else [])
                               + (if status != Some(Failed) then ["mark_failed"] else [])
  {
    var note := ContentActionNote(settings, status);
    var failNote := if settings.banOnFailedVerification then BansUserNote else StartsRemovingNote;
    var again := if status == Some(Timeout) || status == Some(Failed) then " Again" else "";
    (if status != Some(Verified) then [OverrideOption("Mark as Verified" + note, "mark_verified")] else [])
    + (if status !in {None, Some(Unverified)} then [OverrideOption("Mark as Unverified" + note, "mark_unverified")] else [])
    + (if status != Some(Failed) then [OverrideOption("Mark as Failed" + again + failNote, "mark_failed")] else [])
  }

  /** The form offers exactly the statuses the user is not in. */
  lemma OverrideOptionsOfferOtherStatuses(settings: AppSettings, status: Option<Status>)
    ensures var options := OverrideOptions(settings, status);
            && (Offers(options, "mark_verified") <==> status != Some(Verified))
            && (Offers(options, "mark_unverified") <==> status !in {None, Some(Unverified)})
            && (Offers(options, "mark_failed") <==> status != Some(Failed))
  {
    var note := ContentActionNote(settings, status);
    var failNote := if settings.banOnFailedVerification then BansUserNote else StartsRemovingNote;
    var again := if status == Some(Timeout) || status == Some(Failed) then " Again" else "";
    var verified := if status != Some(Verified) then [OverrideOption("Mark as Verified" + note, "mark_verified")] else [];
    var unverified := if status !in {None, Some(Unverified)} then [OverrideOption("Mark as Unverified" + note, "mark_unverified")] else [];
    var failed := if status != Some(Failed) then [OverrideOption("Mark as Failed" + again + failNote, "mark_failed")] else [];
    assert OverrideOptions(settings, status) == verified + unverified + failed;
    forall v | v in {"mark_verified", "mark_unverified", "mark_failed"}
      ensures Offers(verified + unverified + failed, v)
              <==> Offers(verified, v) || Offers(unverified, v) || Offers(failed, v)
    {
      OffersConcat(verified, unverified, v);
      OffersConcat(verified + unverified, failed, v);
    }
    OffersSingle(verified, "mark_verified");
    OffersSingle(unverified, "mark_unverified");
    OffersSingle(failed, "mark_failed");
  }

  /** A list of at most one option offers its value and nothing else. */
  lemma OffersSingle(options: seq<OverrideOption>, value: string)
    requires |options| <= 1 && forall i :: 0 <= i < |options| ==> options[i].value == value
    ensures forall v :: Offers(options, v) <==> options != [] && v == value
  {
    if options != [] {
      assert options[0].value == value;
    }
  }

  /** An option list made of two parts offers what either part offers. */
  lemma OffersConcat(a: seq<OverrideOption>, b: seq<OverrideOption>, v: string)
    ensures Offers(a + b, v) <==> Offers(a, v) || Offers(b, v)
  {
    if Offers(a + b, v) {
      var i :| 0 <= i < |a + b| && (a + b)[i].value == v;
      if i >= |a| {
        assert b[i - |a|].value == v;
      }
    }
    if Offers(a, v) {
      var i :| 0 <= i < |a| && a[i].value == v;
      assert (a + b)[i].value == v;
    }
    if Offers(b, v) {
      var i :| 0 <= i < |b| && b[i].value == v;
      assert (a + b)[|a| + i].value == v;
    }
  }

  /** The submitted values of the override form: its fields are named
      `authorBreakdown` and `verifyOverride`. */
  datatype OverrideValues = OverrideValues(authorBreakdown: string, verifyOverride: seq<string>)

  /** The override submit handler as written: it reads the username from
      `values.status`, a field the form does not have, so `substring` is called
      on undefined and the handler throws before it reads or writes anything. */
  function OverrideAsWritten(records: map<string, Record>, values: OverrideValues): (m: map<string, Record>)
    ensures m == records
  {
    records
  }

  /** The store's status for `username`; None when there is no record. */
  function StatusIn(records: map<string, Record>, username: string): Option<Status> {
    if username in records then records[username].verificationStatus else None
  }

  /** The override submit handler as evidently intended, for the user whose
      record the form was opened on: the first selected value decides. */
  function OverrideOutcome(records: map<string, Record>, username: string, selection: seq<string>): (m: map<string, Record>)
    // No other user's record changes.
    ensures forall u :: u != username ==> (u in m <==> u in records) && (u in m ==> m[u] == records[u])
    ensures selection != [] && selection[0] == "mark_unverified" ==> username !in m
    ensures selection != [] && selection[0] in {"mark_verified", "mark_failed"} && username in records ==>
      && username in m
      && m[username].verificationStatus == Some(if selection[0] == "mark_verified" then Verified else Failed)
      && m[username].modOverridenStatus == Some(true)
      && m[username].(verificationStatus := records[username].verificationStatus,
                      modOverridenStatus := records[username].modOverridenStatus) == records[username]
    // Without a record or a recognised selection, nothing changes.
    ensures (selection == [] || selection[0] !in {"mark_verified", "mark_failed", "mark_unverified"}) ==> m == records
    ensures username !in records && (selection == [] || selection[0] != "mark_unverified") ==> m == records
  {
    if selection == [] then records
    else if selection[0] == "mark_unverified" then records - {username}
    else if selection[0] == "mark_verified" && username in records then
      records[username := records[username].(verificationStatus := Some(Verified), modOverridenStatus := Some(true))]
    else if selection[0] == "mark_failed" && username in records then
      records[username := records[username].(verificationStatus := Some(Failed), modOverridenStatus := Some(true))]
    else records
  }

  /** Every option the override form offers changes the user's status. */
  lemma OfferedOverridesChangeStatus(settings: AppSettings, records: map<string, Record>, username: string)
    requires username in records
    ensures var options := OverrideOptions(settings, records[username].verificationStatus);
            forall i :: 0 <= i < |options| ==>
              StatusIn(OverrideOutcome(records, username, [options[i].value]), username) != StatusIn(records, username)
  {
  }

  /** As written, no override ever takes effect; as intended, marking a user unverified removes their record. */
  lemma OverrideAsWrittenIsIneffective(rec: Record, breakdown: string)
    ensures var records := map[rec.username := rec];
            && OverrideAsWritten(records, OverrideValues(breakdown, ["mark_unverified"])) == records
            && OverrideOutcome(records, rec.username, ["mark_unverified"]) != records
  {
    var records := map[rec.username := rec];
    assert rec.username !in OverrideOutcome(records, rec.username, ["mark_unverified"]);
  }

  /** The override form's submit handler, as evidently intended. */
  method SubmitOverrideForm(store: RecordStore, username: string, selection: seq<string>)
    requires store.Valid()
    modifies store
    ensures store.Valid()
    ensures store.records == OverrideOutcome(old(store.records), username, selection)
  {
    var found := store.Get(username);
    if selection == [] {
      return;
    }
    if selection[0] == "mark_unverified" {
      store.Delete(username);
      return;
    }
    if selection[0] == "mark_verified" {
      if found.Some? {
        var rec := found.value.(verificationStatus := Some(Verified));
        rec := rec.(modOverridenStatus := Some(true));
        store.Put(username, rec);
      }
      return;
    }
    if selection[0] == "mark_failed" {
      if found.Some? {
        var rec := found.value.(verificationStatus := Some(Failed));
        rec := rec.(modOverridenStatus := Some(true));
        store.Put(username, rec);
      }
      return;
    }
  }
}
