/** The app's installation settings (`AppSettings` in src/main.ts), read once per
    event and passed into every handler. */
module Settings {

  /** The three choices of the "Action During Pending/Timeout Verification" selects. */
  datatype SettingAction = Remove | Report | Nothing

  /** The choices of "Chat GPT / AI Human Usage Allowed". No handler reads it. */
  datatype AiUsagePolicy = AllUsage | SomeUsage | TranslationsOnly | NoUsage

  datatype AppSettings = AppSettings(
    trackVerificationInModNotes: bool,
    banOnFailedVerification: bool,
    spamFailedVerification: bool,
    notifyUserOnVerificationRequest: bool,
    actionOnPendingVerification: SettingAction,
    actionOnTimeoutVerification: SettingAction,
    notifyUserPostAndCommentRemovals: bool,
    pendingConfirmationTimeoutMinutes: int,
    banOnConfirmationTimeout: bool,
    minHumanTimeToOpenConfirmForm: int,
    minHumanTimeToConfirmHuman: int,
    allowConfirmingWithoutNotification: bool,
    chatGPTUsageAllowed: AiUsagePolicy,
    repeatOffenderRemovalThreshold: int,
    repeatOffenderBanThreshold: int,
    repeatOffenderMuteThreshold: int,
    socialMedialFlaggedDomains: string
  )

  /** The setting value as the select stores it ('remove', 'report', 'nothing'). */
  function SettingActionText(a: SettingAction): string {
    match a
    case Remove => "remove"
    case Report => "report"
    case Nothing => "nothing"
  }
}
