/** The calls the handlers make on the Reddit API, as values. A handler returns
    the list of calls it makes, in order; whatever the API answers (a new
    conversation id, a new removal-reason id, the fetched content) is passed
    into the handler as a parameter. */
module Directives {

  /** The subject line a new modmail conversation is opened with. */
  datatype Subject =
    // src/ContentTriggers.ts: 'Notification: <Post|Comment> Removed Due to ... Human Verification'
    | RemovedFailed(isPost: bool)
    | RemovedTimedOut(isPost: bool)
    | RemovedPending(isPost: bool)
    // src/ModControl.ts, sendVerificationRequest
    | VerificationRequested     // 'Verification requested'
    | CompleteReminder          // 'Reminder: Complete verification'
    | TimedOutNewRequest        // 'Verification timed out — new request'
    | FailedTryAgain            // 'Verification failed — try again'
    | NewVerificationRequest    // 'New verification request'

  datatype BanReason =
    | FailedVerificationBan     // 'Failed human verification, banned automatically'
    | TimeoutBan                // 'Failure to complete human verification in time, banned automatically'

  datatype Directive =
    | RemoveContent(contentId: string, isSpam: bool)
    | ReportContent(contentId: string, reportReason: string)
    | AddRemovalReason(title: string)
    | AddRemovalNote(contentId: string, reasonId: string, modNote: string)
    | CreateModmail(to: string, subject: Subject)
    | ReplyModmail(conversationId: string)
    | ArchiveModmail(conversationId: string)
    | BanUser(username: string, banReason: BanReason)
}
