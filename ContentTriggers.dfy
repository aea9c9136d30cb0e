/** The PostSubmit and CommentSubmit triggers: what happens to new content
    from a user whose verification failed, timed out or is pending
    (src/ContentTriggers.ts). */
module ContentTriggers {
  import opened Optional
  import opened JsString
  import opened Settings
  import opened Directives
  import opened UserConfirmation

  /** The `action` variable of handlePostOrComment; `Unset` is its initial ''. */
  datatype Action = Unset | RemoveAction | SpamAction | ReportAction | NothingAction

  function FromSetting(s: SettingAction): Action {
    match s
    case Remove => RemoveAction
    case Report => ReportAction
    case Nothing => NothingAction
  }

  /** The action for the user's status: failed users' content is always
      removed (as spam if so configured); timed-out and pending users get the
      configured action; anyone else gets none. */
  function ChosenAction(status: Option<Status>, settings: AppSettings): (a: Action)
    ensures status == Some(Failed) ==> a == (if settings.spamFailedVerification then SpamAction else RemoveAction)
    ensures status == Some(Timeout) ==> a == FromSetting(settings.actionOnTimeoutVerification)
    ensures status == Some(Pending) ==> a == FromSetting(settings.actionOnPendingVerification)
    ensures status !in {Some(Failed), Some(Timeout), Some(Pending)} <==> a == Unset
  {
    match status
    case Some(Failed) => if settings.spamFailedVerification then SpamAction else RemoveAction
    case Some(Timeout) => FromSetting(settings.actionOnTimeoutVerification)
    case Some(Pending) => FromSetting(settings.actionOnPendingVerification)
    case _ => Unset
  }

  /** The actions that make the handler fetch the content and act on it. */
  predicate Enforces(a: Action) {
    a == RemoveAction || a == SpamAction || a == ReportAction
  }

  predicate Removes(a: Action) {
    a == RemoveAction || a == SpamAction
  }

  /** The text of `action` when it came from a setting. */
  function ActionText(a: Action): string {
    match a
    case Unset => ""
    case RemoveAction => "remove"
    case SpamAction => "spam"
    case ReportAction => "report"
    case NothingAction => "nothing"
  }

  const FailedReason: string := "Human verification failed"
  const TimedOutReason: string := "Human verification timed out"
  const PendingReason: string := "Human verification pending"
  const ReviewSuffix: string := ", please review"

  /** The reason as the source computes it for a timed-out or pending user:
      `prefix + action === 'report' ? ', please review' : ''`, where `+` binds
      tighter than `===` and `===` tighter than `?:`. */
  function ReasonAsWritten(status: Option<Status>, a: Action): (r: string)
    ensures status == Some(Failed) ==> r == FailedReason
    ensures status !in {Some(Failed), Some(Timeout), Some(Pending)} ==> r == ""
  {
    match status
    case Some(Failed) => FailedReason
    case Some(Timeout) => if TimedOutReason + ActionText(a) == "report" then ReviewSuffix else ""
    case Some(Pending) => if PendingReason + ActionText(a) == "report" then ReviewSuffix else ""
    case _ => ""
  }

  /** As written, the mod note of a timed-out or pending user is always empty. */
  lemma ReasonAsWrittenIsEmpty(status: Option<Status>, a: Action)
    requires status == Some(Timeout) || status == Some(Pending)
    ensures ReasonAsWritten(status, a) == ""
  {
    assert (TimedOutReason + ActionText(a))[0] == 'H';
    assert (PendingReason + ActionText(a))[0] == 'H';
  }

  /** The reason the source evidently means: the status text, followed by
      ', please review' when the content is reported. */
  function Reason(status: Option<Status>, a: Action): (r: string)
    ensures status == Some(Failed) ==> r == FailedReason
    ensures status == Some(Timeout) ==> StartsWith(r, TimedOutReason) && (|r| > |TimedOutReason| <==> a == ReportAction)
    ensures status == Some(Pending) ==> StartsWith(r, PendingReason) && (|r| > |PendingReason| <==> a == ReportAction)
    ensures status in {Some(Timeout), Some(Pending)} ==> r != ReasonAsWritten(status, a)
    ensures status !in {Some(Failed), Some(Timeout), Some(Pending)} ==> r == ""
  {
    match status
    case Some(Failed) => FailedReason
    case Some(Timeout) => TimedOutReason + (if a == ReportAction then ReviewSuffix else "")
    case Some(Pending) => PendingReason + (if a == ReportAction then ReviewSuffix else "")
    case _ => ""
  }

  /** The subject of the removal notice. Only failed, timed-out and pending users get one. */
  function RemovalSubject(status: Option<Status>, isPost: bool): (s: Subject)
    ensures (s.RemovedFailed? || s.RemovedTimedOut? || s.RemovedPending?) && s.isPost == isPost
    ensures s.RemovedFailed? <==> status == Some(Failed)
    ensures s.RemovedTimedOut? <==> status == Some(Timeout)
  {
    match status
    case Some(Failed) => RemovedFailed(isPost)
    case Some(Timeout) => RemovedTimedOut(isPost)
    case _ => RemovedPending(isPost)
  }

  /** One of the subreddit's removal reasons. */
  datatype RemovalReason = RemovalReason(id: string, title: string)

  const CustomReasonTitle: string := "Custom Reason"

  /** `reasons.find(r => r.title === title)?.id`: the first reason with that title. */
  function FindReason(reasons: seq<RemovalReason>, title: string): (r: Option<string>)
    ensures r.None? <==> forall i :: 0 <= i < |reasons| ==> reasons[i].title != title
    ensures r.Some? ==> exists i :: 0 <= i < |reasons| && reasons[i].title == title && reasons[i].id == r.value
                                    && forall k :: 0 <= k < i ==> reasons[k].title != title
  {
    if reasons == [] then None
    else if reasons[0].title == title then Some(reasons[0].id)
    else
      var rest := FindReason(reasons[1..], title);
      if rest.Some? then
        ghost var i :| 0 <= i < |reasons[1..]| && reasons[1..][i].title == title && reasons[1..][i].id == rest.value
                       && forall k :: 0 <= k < i ==> reasons[1..][k].title != title;
        assert reasons[i + 1] == reasons[1..][i];
        assert forall k :: 1 <= k < i + 1 ==> reasons[k] == reasons[1..][k - 1];
        rest
      else
        assert forall i :: 1 <= i < |reasons| ==> reasons[i] == reasons[1..][i - 1];
        rest
  }

  /** `getOrCreateCustomReasonId`: the id of the 'Custom Reason' removal reason,
      and the call creating it when there is none; `newId` is the id Reddit
      gives the created reason. */
  function CustomReasonId(reasons: seq<RemovalReason>, newId: string): (r: (string, seq<Directive>))
    ensures r.1 == [] <==> exists i :: 0 <= i < |reasons| && reasons[i].title == CustomReasonTitle
    ensures r.1 == [] ==> exists i :: 0 <= i < |reasons| && reasons[i] == RemovalReason(r.0, CustomReasonTitle)
    ensures r.1 != [] ==> r == (newId, [AddRemovalReason(CustomReasonTitle)])
  {
    var found := FindReason(reasons, CustomReasonTitle);
    if found.Some? then (found.value, []) else (newId, [AddRemovalReason(CustomReasonTitle)])
  }

  /** Once the reason exists, asking again finds it and creates nothing. */
  lemma CustomReasonIdIsStable(reasons: seq<RemovalReason>, newId: string, laterId: string)
    ensures var first := CustomReasonId(reasons, newId);
            var again := CustomReasonId(reasons + [RemovalReason(first.0, CustomReasonTitle)], laterId);
            again == (first.0, [])
  {
    var first := CustomReasonId(reasons, newId);
    var extended := reasons + [RemovalReason(first.0, CustomReasonTitle)];
    assert forall i :: 0 <= i < |reasons| ==> extended[i] == reasons[i];
    assert extended[|reasons|].title == CustomReasonTitle;
    var again := FindReason(extended, CustomReasonTitle);
    if first.1 == [] {
      var i :| 0 <= i < |extended| && extended[i].title == CustomReasonTitle && extended[i].id == again.value
               && forall k :: 0 <= k < i ==> extended[k].title != CustomReasonTitle;
      var j :| 0 <= j < |reasons| && reasons[j] == RemovalReason(first.0, CustomReasonTitle);
      FirstReasonIsUnique(reasons, CustomReasonTitle, first.0);
      assert extended[j].title == CustomReasonTitle;
      assert i < |reasons|;
      assert extended[i] == reasons[i];
    } else {
      var i :| 0 <= i < |extended| && extended[i].title == CustomReasonTitle && extended[i].id == again.value
               && forall k :: 0 <= k < i ==> extended[k].title != CustomReasonTitle;
      assert i == |reasons|;
    }
  }

  /** The id `FindReason` returns is the id of the first reason with the title. */
  lemma FirstReasonIsUnique(reasons: seq<RemovalReason>, title: string, id: string)
    requires FindReason(reasons, title) == Some(id)
    ensures forall i :: (0 <= i < |reasons| && reasons[i].title == title &&
                         (forall k :: 0 <= k < i ==> reasons[k].title != title)) ==> reasons[i].id == id
  {
  }

  /** `split("_")[1]` of a fullname such as 't3_abc': the part after the first
      '_' up to the next one; absent when there is no '_'. */
  function IdWithoutKind(fullname: string): (r: Option<string>)
    ensures r.None? <==> '_' !in fullname
  {
    var parts := Split(fullname, '_');
    if |parts| > 1 then
      assert '_' in fullname by {
        JoinSplit(fullname, '_');
        assert fullname == parts[0] + ['_'] + Join(parts[1..], '_');
        assert fullname[|parts[0]|] == '_';
      }
      Some(parts[1])
    else
      assert '_' !in fullname by {
        JoinSplit(fullname, '_');
        assert Join(parts, '_') == parts[0];
      }
      None
  }

  lemma IdWithoutKindOfFullname(kind: string, id: string)
    requires '_' !in kind && '_' !in id
    ensures IdWithoutKind(kind + "_" + id) == Some(id)
  {
    SplitAfterFirst(kind, '_', id);
    SplitWithoutSeparator(id, '_');
  }

  /** The content fetched with getPostById/getCommentById. */
  datatype Content = Content(authorId: Option<string>)

  /** What the Reddit API answers during one run of the handler. */
  datatype ApiReplies = ApiReplies(
    content: Option<Content>,          // the fetched post or comment, None when Reddit returns none
    reasons: seq<RemovalReason>,       // the subreddit's removal reasons
    newReasonId: string,               // the id of a newly created removal reason
    newConversationId: string)         // `modmail.conversation.id || ''` of a new conversation

  /** The calls handlePostOrComment makes, and the record it writes (if any). */
  datatype Outcome = Outcome(directives: seq<Directive>, saved: Option<Record>)

  /** handlePostOrComment for the author's record `rec`. The mod-note and
      report reason is the one the source computes (`ReasonAsWritten`). */
  function Enforcement(isPost: bool, contentId: string, rec: Record, settings: AppSettings, replies: ApiReplies)
    : (r: Outcome)
    // Nothing happens to a user who is not failed, timed out or pending.
    ensures rec.verificationStatus !in {Some(Failed), Some(Timeout), Some(Pending)} ==> r == Outcome([], None)
    // Nothing happens without the content.
    ensures replies.content.None? ==> r == Outcome([], None)
    // The content is removed exactly when the action removes it, as spam exactly when the action is 'spam'.
    ensures (exists s :: RemoveContent(contentId, s) in r.directives)
            <==> replies.content.Some? && Removes(ChosenAction(rec.verificationStatus, settings))
    ensures RemoveContent(contentId, true) in r.directives ==> ChosenAction(rec.verificationStatus, settings) == SpamAction
    // A removal is logged with a note under the "Custom Reason" removal reason.
    ensures replies.content.Some? && Removes(ChosenAction(rec.verificationStatus, settings)) ==>
            AddRemovalNote(contentId, CustomReasonId(replies.reasons, replies.newReasonId).0,
                           ReasonAsWritten(rec.verificationStatus, ChosenAction(rec.verificationStatus, settings)))
            in r.directives
    // The content is reported exactly when the action is 'report'.
    ensures ReportContent(contentId, ReasonAsWritten(rec.verificationStatus, ChosenAction(rec.verificationStatus, settings)))
            in r.directives
            <==> replies.content.Some? && ChosenAction(rec.verificationStatus, settings) == ReportAction
    // Only a timed-out user is banned, and only while their content is being acted on.
    ensures (exists u :: BanUser(u, TimeoutBan) in r.directives) <==> BansOnTimeout(rec, settings, replies)
    // The content action comes first; the ban, addressed to the content's author id, comes last.
    ensures replies.content.Some? && Enforces(ChosenAction(rec.verificationStatus, settings)) ==>
            |r.directives| > 0 && r.directives[0] == ContentAction(contentId, rec.verificationStatus, settings)
    ensures BansOnTimeout(rec, settings, replies) ==>
            && r.directives[|r.directives| - 1] == BanUser(replies.content.value.authorId.GetOr(""), TimeoutBan)
            && forall k :: 0 <= k < |r.directives| - 1 ==> !r.directives[k].BanUser?
    // A report is the report call, then the ban if one is due, and nothing else.
    ensures replies.content.Some? && ChosenAction(rec.verificationStatus, settings) == ReportAction ==>
            r == Outcome([ContentAction(contentId, rec.verificationStatus, settings)]
                         + (if BansOnTimeout(rec, settings, replies)
                            then [BanUser(replies.content.value.authorId.GetOr(""), TimeoutBan)] else []),
                         None)
    ensures forall u :: BanUser(u, FailedVerificationBan) !in r.directives
    // The user hears about a removal only when removals are notified: in their
    // thread when they have one, otherwise in a new thread whose id is saved.
    ensures !(replies.content.Some? && Removes(ChosenAction(rec.verificationStatus, settings))
              && settings.notifyUserPostAndCommentRemovals) ==>
            r.saved.None? && forall d :: d in r.directives ==> !d.CreateModmail? && !d.ReplyModmail? && !d.ArchiveModmail?
    ensures replies.content.Some? && Removes(ChosenAction(rec.verificationStatus, settings))
            && settings.notifyUserPostAndCommentRemovals ==>
            NoticeSent(rec, isPost, replies, r)
  {
    var action := ChosenAction(rec.verificationStatus, settings);
    if !Enforces(action) || replies.content.None? then Outcome([], None)
    else
      EnforcedOrder(isPost, contentId, rec, settings, replies);
      if Removes(action) then
        EnforcedRemoval(isPost, contentId, rec, settings, replies);
        WithTimeoutBan(ActOnContent(isPost, contentId, rec, settings, replies), rec, settings, replies)
      else
        EnforcedReport(isPost, contentId, rec, settings, replies);
        WithTimeoutBan(ActOnContent(isPost, contentId, rec, settings, replies), rec, settings, replies)
  }

  /** Whatever the action, the content action comes first and a due timeout ban comes last, alone. */
  lemma EnforcedOrder(isPost: bool, contentId: string, rec: Record, settings: AppSettings, replies: ApiReplies)
    requires replies.content.Some? && Enforces(ChosenAction(rec.verificationStatus, settings))
    ensures var r := WithTimeoutBan(ActOnContent(isPost, contentId, rec, settings, replies), rec, settings, replies);
            && |r.directives| > 0 && r.directives[0] == ContentAction(contentId, rec.verificationStatus, settings)
            && (BansOnTimeout(rec, settings, replies) ==>
                  && r.directives[|r.directives| - 1] == BanUser(replies.content.value.authorId.GetOr(""), TimeoutBan)
                  && forall k :: 0 <= k < |r.directives| - 1 ==> !r.directives[k].BanUser?)
            && (!BansOnTimeout(rec, settings, replies) ==> forall d :: d in r.directives ==> !d.BanUser?)
            && forall d :: d in r.directives && d.BanUser? ==> d == BanUser(replies.content.value.authorId.GetOr(""), TimeoutBan)
  {
    var acted := ActOnContent(isPost, contentId, rec, settings, replies);
    var r := WithTimeoutBan(acted, rec, settings, replies);
    if BansOnTimeout(rec, settings, replies) {
      forall k | 0 <= k < |r.directives| - 1 ensures !r.directives[k].BanUser? {
        assert r.directives[k] == acted.directives[k];
        assert acted.directives[k] in acted.directives;
      }
    }
  }

  /** The removal branch as enforced: removed, noted, never reported, and notified as configured. */
  lemma EnforcedRemoval(isPost: bool, contentId: string, rec: Record, settings: AppSettings, replies: ApiReplies)
    requires replies.content.Some? && Removes(ChosenAction(rec.verificationStatus, settings))
    ensures var action := ChosenAction(rec.verificationStatus, settings);
            var r := WithTimeoutBan(ActOnContent(isPost, contentId, rec, settings, replies), rec, settings, replies);
            && RemoveContent(contentId, action == SpamAction) in r.directives
            && (forall d :: d in r.directives && d.RemoveContent? ==> d == RemoveContent(contentId, action == SpamAction))
            && AddRemovalNote(contentId, CustomReasonId(replies.reasons, replies.newReasonId).0,
                              ReasonAsWritten(rec.verificationStatus, action)) in r.directives
            && (forall d :: d in r.directives ==> !d.ReportContent?)
            && (!settings.notifyUserPostAndCommentRemovals ==>
                  r.saved.None? && forall d :: d in r.directives ==> !d.CreateModmail? && !d.ReplyModmail? && !d.ArchiveModmail?)
            && (settings.notifyUserPostAndCommentRemovals ==> NoticeSent(rec, isPost, replies, r))
  {
    var acted := ActOnContent(isPost, contentId, rec, settings, replies);
    var r := WithTimeoutBan(acted, rec, settings, replies);
    assert forall d :: d in r.directives ==> d in acted.directives || d.BanUser?;
    assert forall d :: d in acted.directives ==> d in r.directives;
  }

  /** The report branch as enforced: the report, then the ban if one is due, and nothing else. */
  lemma EnforcedReport(isPost: bool, contentId: string, rec: Record, settings: AppSettings, replies: ApiReplies)
    requires replies.content.Some? && ChosenAction(rec.verificationStatus, settings) == ReportAction
    ensures var r := WithTimeoutBan(ActOnContent(isPost, contentId, rec, settings, replies), rec, settings, replies);
            && r == Outcome([ContentAction(contentId, rec.verificationStatus, settings)]
                            + (if BansOnTimeout(rec, settings, replies)
                               then [BanUser(replies.content.value.authorId.GetOr(""), TimeoutBan)] else []),
                            None)
            && ReportContent(contentId, ReasonAsWritten(rec.verificationStatus, ReportAction)) in r.directives
            && forall d :: d in r.directives ==> d.ReportContent? || d.BanUser?
  {
  }

  /** The content action of handlePostOrComment: the removal branch, or the report. */
  function ActOnContent(isPost: bool, contentId: string, rec: Record, settings: AppSettings, replies: ApiReplies)
    : (r: Outcome)
    requires Enforces(ChosenAction(rec.verificationStatus, settings))
    ensures |r.directives| > 0 && r.directives[0] == ContentAction(contentId, rec.verificationStatus, settings)
    ensures forall d :: d in r.directives ==> !d.BanUser?
    ensures Removes(ChosenAction(rec.verificationStatus, settings)) ==>
            r == RemovalOutcome(isPost, contentId, rec, settings, replies,
                                ChosenAction(rec.verificationStatus, settings) == SpamAction,
                                ReasonAsWritten(rec.verificationStatus, ChosenAction(rec.verificationStatus, settings)))
    ensures !Removes(ChosenAction(rec.verificationStatus, settings)) ==>
            r == Outcome([ContentAction(contentId, rec.verificationStatus, settings)], None)
  {
    var action := ChosenAction(rec.verificationStatus, settings);
    var reason := ReasonAsWritten(rec.verificationStatus, action);
    if Removes(action) then RemovalOutcome(isPost, contentId, rec, settings, replies, action == SpamAction, reason)
    else Outcome([ReportContent(contentId, reason)], None)
  }

  /** The content action followed, for a timed-out user under the ban setting, by the ban of the content's author. */
  function WithTimeoutBan(acted: Outcome, rec: Record, settings: AppSettings, replies: ApiReplies): (r: Outcome)
    requires replies.content.Some? && Enforces(ChosenAction(rec.verificationStatus, settings))
    ensures r.saved == acted.saved
    ensures BansOnTimeout(rec, settings, replies) ==>
            r.directives == acted.directives + [BanUser(replies.content.value.authorId.GetOr(""), TimeoutBan)]
    ensures !BansOnTimeout(rec, settings, replies) ==> r == acted
  {
    if rec.verificationStatus == Some(Timeout) && settings.banOnConfirmationTimeout then
      Outcome(acted.directives + [BanUser(replies.content.value.authorId.GetOr(""), TimeoutBan)], acted.saved)
    else
      acted
  }

  /** A timed-out user is banned when the settings say so and their fetched content is acted on. */
  predicate BansOnTimeout(rec: Record, settings: AppSettings, replies: ApiReplies) {
    && rec.verificationStatus == Some(Timeout) && settings.banOnConfirmationTimeout
    && replies.content.Some? && Enforces(ChosenAction(rec.verificationStatus, settings))
  }

  /** The first call on the content: remove it (as spam for 'spam'), or report it with the reason as written. */
  function ContentAction(contentId: string, status: Option<Status>, settings: AppSettings): Directive {
    var action := ChosenAction(status, settings);
    if Removes(action) then RemoveContent(contentId, action == SpamAction)
    else ReportContent(contentId, ReasonAsWritten(status, action))
  }

  /** A removal notice was sent: a user with a thread gets a reply there and
      nothing is saved; a user without one gets a new thread with the removal
      subject, and the record is saved with the new thread's id. Either way the
      thread is archived. */
  predicate NoticeSent(rec: Record, isPost: bool, replies: ApiReplies, r: Outcome) {
    if HasModmailId(rec) then
      && r.saved.None?
      && ReplyModmail(rec.notificationModmailId.value) in r.directives
      && ArchiveModmail(rec.notificationModmailId.value) in r.directives
      && forall d :: d in r.directives ==> !d.CreateModmail?
    else
      && r.saved == Some(rec.(notificationModmailId := Some(replies.newConversationId)))
      && CreateModmail(rec.username, RemovalSubject(rec.verificationStatus, isPost)) in r.directives
      && ArchiveModmail(replies.newConversationId) in r.directives
      && forall d :: d in r.directives ==> !d.ReplyModmail?
  }

  /** The removal branch of handlePostOrComment: remove, log the removal
      note, and (when configured) notify the user in their thread. */
  function RemovalOutcome(isPost: bool, contentId: string, rec: Record, settings: AppSettings, replies: ApiReplies,
                          spam: bool, reason: string): (r: Outcome)
    ensures RemoveContent(contentId, spam) in r.directives && r.directives[0] == RemoveContent(contentId, spam)
    ensures forall d :: d in r.directives && d.RemoveContent? ==> d == RemoveContent(contentId, spam)
    ensures forall d :: d in r.directives ==> !d.ReportContent? && !d.BanUser?
    ensures AddRemovalNote(contentId, CustomReasonId(replies.reasons, replies.newReasonId).0, reason) in r.directives
    ensures !settings.notifyUserPostAndCommentRemovals ==>
            r.saved.None? && forall d :: d in r.directives ==> !d.CreateModmail? && !d.ReplyModmail? && !d.ArchiveModmail?
    ensures settings.notifyUserPostAndCommentRemovals ==> NoticeSent(rec, isPost, replies, r)
  {
    var removal := RemovalCalls(contentId, replies, spam, reason);
    if !settings.notifyUserPostAndCommentRemovals then Outcome(removal, None)
    else
      var notice := Notice(rec, isPost, replies);
      Outcome(removal + notice.directives, notice.saved)
  }

  /** The notice of a removal: a reply in the user's thread, or a new thread
      whose id is saved on the record; then the thread is archived. */
  function Notice(rec: Record, isPost: bool, replies: ApiReplies): (r: Outcome)
    ensures NoticeSent(rec, isPost, replies, r)
    ensures forall d :: d in r.directives ==> d.CreateModmail? || d.ReplyModmail? || d.ArchiveModmail?
  {
    if HasModmailId(rec) then
      var id := rec.notificationModmailId.value;
      Outcome([ReplyModmail(id), ArchiveModmail(id)], None)
    else
      Outcome([CreateModmail(rec.username, RemovalSubject(rec.verificationStatus, isPost)),
               ArchiveModmail(replies.newConversationId)],
              Some(rec.(notificationModmailId := Some(replies.newConversationId))))
  }

  /** The calls that remove the content and log the removal note, creating
      the "Custom Reason" removal reason first when it is missing. */
  function RemovalCalls(contentId: string, replies: ApiReplies, spam: bool, reason: string): (ds: seq<Directive>)
    ensures RemoveContent(contentId, spam) in ds && ds[0] == RemoveContent(contentId, spam)
    ensures AddRemovalNote(contentId, CustomReasonId(replies.reasons, replies.newReasonId).0, reason) in ds
    ensures forall d :: d in ds && d.RemoveContent? ==> d == RemoveContent(contentId, spam)
    ensures forall d :: d in ds ==> d.RemoveContent? || d.AddRemovalReason? || d.AddRemovalNote?
  {
    var (reasonId, created) := CustomReasonId(replies.reasons, replies.newReasonId);
    [RemoveContent(contentId, spam)] + created + [AddRemovalNote(contentId, reasonId, reason)]
  }

  /** As written, a timed-out or pending user's removal note and report carry
      an empty reason, where the intended reason names the status. */
  lemma HandlerSendsEmptyReason(isPost: bool, contentId: string, rec: Record, settings: AppSettings,
                                replies: ApiReplies)
    requires rec.verificationStatus == Some(Timeout) || rec.verificationStatus == Some(Pending)
    requires replies.content.Some?
    ensures var action := ChosenAction(rec.verificationStatus, settings);
            var r := Enforcement(isPost, contentId, rec, settings, replies);
            && (action == ReportAction ==> ReportContent(contentId, "") in r.directives)
            && (Removes(action) ==>
                  AddRemovalNote(contentId, CustomReasonId(replies.reasons, replies.newReasonId).0, "") in r.directives)
            && (Enforces(action) ==> Reason(rec.verificationStatus, action) != "")
  {
    ReasonAsWrittenIsEmpty(rec.verificationStatus, ChosenAction(rec.verificationStatus, settings));
  }

  /** A failed user's fetched content is always removed, whatever the settings. */
  lemma FailedContentIsRemoved(isPost: bool, contentId: string, rec: Record, settings: AppSettings, replies: ApiReplies)
    requires rec.verificationStatus == Some(Failed) && replies.content.Some?
    ensures RemoveContent(contentId, settings.spamFailedVerification) in Enforcement(isPost, contentId, rec, settings, replies).directives
  {
  }

  /** With the timeout action set to 'nothing', a timed-out user is never banned from a trigger,
      even when banning on timeout is on. */
  lemma NothingActionSuppressesTimeoutBan(isPost: bool, contentId: string, rec: Record, settings: AppSettings,
                                          replies: ApiReplies)
    requires rec.verificationStatus == Some(Timeout) && settings.actionOnTimeoutVerification == Nothing
    ensures Enforcement(isPost, contentId, rec, settings, replies) == Outcome([], None)
  {
  }

  /** As written, a timed-out user whose content is being removed is told
      they are not blocked. */
  lemma HelpTextAsWrittenMisleads(isPost: bool, contentId: string, rec: Record, settings: AppSettings,
                                  replies: ApiReplies)
    requires rec.verificationStatus == Some(Timeout) && replies.content.Some?
    requires settings.actionOnTimeoutVerification == Remove
    ensures HelpTextAsWritten(settings, rec) == NotBlockedText
    ensures RemoveContent(contentId, false) in Enforcement(isPost, contentId, rec, settings, replies).directives
  {
  }

  /** A timed-out user is told the truth by the corrected help text: it says
      "blocked" exactly when their fetched content is removed. */
  lemma TimeoutHelpTextMatchesEnforcement(isPost: bool, contentId: string, rec: Record, settings: AppSettings,
                                          replies: ApiReplies)
    requires rec.verificationStatus == Some(Timeout) && replies.content.Some?
    ensures HelpText(settings, rec).BlockedText?
            <==> exists s :: RemoveContent(contentId, s) in Enforcement(isPost, contentId, rec, settings, replies).directives
  {
  }

  /** The PostSubmit (`isPost`) and CommentSubmit triggers for content by `author`. */
  method OnContentSubmit(store: RecordStore, isPost: bool, contentId: string, author: string, settings: AppSettings,
                         replies: ApiReplies) returns (directives: seq<Directive>)
    requires store.Valid()
    modifies store
    ensures store.Valid()
    ensures author == "" || author !in old(store.records) ==> directives == [] && store.records == old(store.records)
    ensures author != "" && author in old(store.records) ==>
      var r := Enforcement(isPost, contentId, old(store.records)[author], settings, replies);
      directives == r.directives && store.records == Write(old(store.records), author, r.saved)
  {
    directives := [];
    if author == "" {
      return;
    }
    var found := store.Get(author);
    if found.None? {
      return;
    }
    var rec := found.value;
    var action := ChosenAction(rec.verificationStatus, settings);
    var reason := ReasonAsWritten(rec.verificationStatus, action);
    if !Enforces(action) {
      return;
    }
    if replies.content.None? {
      return;
    }
    if action == RemoveAction || action == SpamAction {
      directives := RemoveAndNotify(store, isPost, contentId, rec, settings, replies, action == SpamAction, reason);
    } else if action == ReportAction {
      directives := [ReportContent(contentId, reason)];
    }
    if rec.verificationStatus == Some(Timeout) && settings.banOnConfirmationTimeout {
      directives := directives + [BanUser(replies.content.value.authorId.GetOr(""), TimeoutBan)];
    }
  }

  /** The removal branch as the handler runs it, for the author's stored record `rec`. */
  method RemoveAndNotify(store: RecordStore, isPost: bool, contentId: string, rec: Record, settings: AppSettings,
                         replies: ApiReplies, spam: bool, reason: string) returns (directives: seq<Directive>)
    requires store.Valid() && rec.username in store.records && store.records[rec.username] == rec
    modifies store
    ensures store.Valid()
    ensures var r := RemovalOutcome(isPost, contentId, rec, settings, replies, spam, reason);
            directives == r.directives && store.records == Write(old(store.records), rec.username, r.saved)
  {
    directives := [RemoveContent(contentId, spam)];
    var (reasonId, created) := CustomReasonId(replies.reasons, replies.newReasonId);
    directives := directives + created + [AddRemovalNote(contentId, reasonId, reason)];
    if settings.notifyUserPostAndCommentRemovals {
      var conversationId := "";
      if rec.notificationModmailId.Some? && rec.notificationModmailId.value != "" {
        conversationId := rec.notificationModmailId.value;
        directives := directives + [ReplyModmail(conversationId)];
      } else {
        directives := directives + [CreateModmail(rec.username, RemovalSubject(rec.verificationStatus, isPost))];
        conversationId := replies.newConversationId;
        store.Put(rec.username, rec.(notificationModmailId := Some(conversationId)));
      }
      directives := directives + [ArchiveModmail(conversationId)];
    }
  }
}
