/**
 * Pure helpers of the app: the user-agent platform classification, the
 * app-version comparison, the moderator-permission check, the hostname
 * step of the main-domain helper, and the incremental author breakdown
 * (fold over mod notes, totals, merged user notes, cached key list).
 */
module RedditUtils {
  import opened Optional
  import opened JsString

  // ---------------------------------------------------------------------
  // Platform classification
  // ---------------------------------------------------------------------

  /** The `RedditPlatform` union; `App` is declared but never detected. */
  datatype Platform = Ios | Android | Shreddit | NewReddit | OldReddit | Web | App | UnknownPlatform

  /** The keyword whose presence in the user agent selects a platform. */
  function Keyword(p: Platform): string {
    match p
    case Ios => "ios"
    case Shreddit => "shreddit"
    case Android => "android"
    case NewReddit => "newreddit"
    case OldReddit => "oldreddit"
    case Web => "web"
    case _ => ""
  }

  /** Position of a platform in the order the keywords are tried; 6 for the rest. */
  function DetectionRank(p: Platform): nat {
    match p
    case Ios => 0
    case Shreddit => 1
    case Android => 2
    case NewReddit => 3
    case OldReddit => 4
    case Web => 5
    case _ => 6
  }

  predicate Detectable(p: Platform) {
    DetectionRank(p) < 6
  }

  /** The first `devvit-user-agent` value, lower-cased, or "" when there is none. */
  function UserAgentText(userAgent: Option<string>): string {
    ToLower(userAgent.GetOr(""))
  }

  /** `getRedditPlatform`: the first keyword found wins. */
  function RedditPlatform(userAgent: Option<string>): (p: Platform)
    ensures p == UnknownPlatform || Detectable(p)
    ensures Detectable(p) ==> Includes(UserAgentText(userAgent), Keyword(p))
    ensures forall q :: Detectable(q) && DetectionRank(q) < DetectionRank(p) ==>
      !Includes(UserAgentText(userAgent), Keyword(q))
  {
    var ua := UserAgentText(userAgent);
    if Includes(ua, "ios") then Ios
    else if Includes(ua, "shreddit") then Shreddit
    else if Includes(ua, "android") then Android
    else if Includes(ua, "newreddit") then NewReddit
    else if Includes(ua, "oldreddit") then OldReddit
    else if Includes(ua, "web") then Web
    else UnknownPlatform
  }

  /** Detection is case-insensitive: an agent and its lower-cased form agree. */
  lemma PlatformIgnoresCase(userAgent: string)
    ensures RedditPlatform(Some(userAgent)) == RedditPlatform(Some(ToLower(userAgent)))
  {
    ToLowerIdempotent(userAgent);
  }

  datatype PlatformGroup = AppGroup | WebGroup | UnknownGroup

  /** `getRedditPlatformGroup` applied to an already detected platform. */
  function GroupOf(p: Platform): (g: PlatformGroup)
    ensures g == AppGroup <==> p == Ios || p == Android
    ensures g == WebGroup <==> p == Shreddit || p == NewReddit || p == OldReddit || p == Web
  {
    if p == Ios || p == Android then AppGroup
    else if p == Shreddit || p == NewReddit || p == OldReddit || p == Web then WebGroup
    else UnknownGroup
  }

  /** `getRedditPlatformGroup`: unknown exactly when the agent names none of the platforms. */
  function RedditPlatformGroup(userAgent: Option<string>): (g: PlatformGroup)
    ensures g == UnknownGroup <==>
      forall p :: Detectable(p) ==> !Includes(UserAgentText(userAgent), Keyword(p))
  {
    GroupOf(RedditPlatform(userAgent))
  }

  /**
   * `isRedditApp`. An agent counts as the mobile app exactly when it mentions
   * "ios", or mentions "android" but not "shreddit": a Shreddit agent on
   * Android is web.
   */
  function IsRedditApp(userAgent: Option<string>): (app: bool)
    ensures var ua := UserAgentText(userAgent);
      app <==> Includes(ua, "ios") || (Includes(ua, "android") && !Includes(ua, "shreddit"))
  {
    RedditPlatformGroup(userAgent) == AppGroup
  }

  // ---------------------------------------------------------------------
  // Version comparison
  // ---------------------------------------------------------------------

  predicate IsDigit(c: char) {
    '0' <= c <= '9'
  }

  predicate AllDigits(s: string) {
    forall k :: 0 <= k < |s| ==> IsDigit(s[k])
  }

  /** The characters `.` in a JavaScript regular expression refuses to match. */
  predicate IsLineTerminator(c: char) {
    c == '\n' || c == '\r' || c == '\U{2028}' || c == '\U{2029}'
  }

  /**
   * Where `/\D.*$/` first matches at or after `from`: a non-digit followed by
   * no line terminator up to the end of the string; `|s|` when it never does.
   */
  function SuffixStart(s: string, from: nat): (k: nat)
    requires from <= |s|
    ensures from <= k <= |s|
    decreases |s| - from
  {
    if from == |s| then |s|
    else if !IsDigit(s[from]) && forall j :: from < j < |s| ==> !IsLineTerminator(s[j]) then from
    else SuffixStart(s, from + 1)
  }

  /** The value of a string of decimal digits. */
  function DigitsValue(s: string): nat
    requires AllDigits(s)
  {
    if s == [] then 0 else DigitsValue(s[..|s| - 1]) * 10 + (s[|s| - 1] as int - '0' as int)
  }

  /**
   * `Number(p.replace(/\D.*$/, '')) || 0` for one dot-separated part. What
   * remains after the replacement is all digits unless a line terminator
   * follows it; those remainders count as 0 here.
   */
  function ComponentValue(part: string): nat {
    var kept := part[..SuffixStart(part, 0)];
    if AllDigits(kept) then DigitsValue(kept) else 0
  }

  /** `parseVersion`: one number per dot-separated part. */
  function ParseVersion(v: string): (cs: seq<nat>)
    ensures |cs| == |Split(v, '.')| >= 1
  {
    var parts := Split(v, '.');
    seq(|parts|, i requires 0 <= i < |parts| => ComponentValue(parts[i]))
  }

  /** A destructured component: absent (`undefined`) past the end of the array. */
  function Component(cs: seq<nat>, i: nat): Option<nat> {
    if i < |cs| then Some(cs[i]) else None
  }

  /** `>` on numbers that may be `undefined`: any comparison with `undefined` is false. */
  predicate Greater(a: Option<nat>, b: Option<nat>) {
    a.Some? && b.Some? && a.value > b.value
  }

  /** `isNewerVersionAvailable(current, newVersion)`. */
  function IsNewerVersionAvailable(current: string, newVersion: string): (newer: bool)
    ensures var c, n := ParseVersion(current), ParseVersion(newVersion);
      newer <==> exists k :: 0 <= k < 3 && Greater(Component(n, k), Component(c, k))
                             && forall j :: 0 <= j < k ==> Component(n, j) == Component(c, j)
  {
    var c := ParseVersion(current);
    var n := ParseVersion(newVersion);
    Greater(Component(n, 0), Component(c, 0))
    || (Component(n, 0) == Component(c, 0) && Greater(Component(n, 1), Component(c, 1)))
    || (Component(n, 0) == Component(c, 0) && Component(n, 1) == Component(c, 1)
        && Greater(Component(n, 2), Component(c, 2)))
  }

  /** A version is never newer than itself. */
  lemma NewerIsIrreflexive(v: string)
    ensures !IsNewerVersionAvailable(v, v)
  {
  }

  /** Of two versions at most one is newer than the other. */
  lemma NewerIsAsymmetric(a: string, b: string)
    ensures IsNewerVersionAvailable(a, b) ==> !IsNewerVersionAvailable(b, a)
  {
  }

  function DigitChar(d: nat): char
    requires d < 10
  {
    ('0' as int + d) as char
  }

  /** The decimal spelling of a natural number, without leading zeros. */
  function Decimal(n: nat): (s: string)
    ensures |s| >= 1 && AllDigits(s)
  {
    if n < 10 then [DigitChar(n)] else Decimal(n / 10) + [DigitChar(n % 10)]
  }

  lemma {:induction false} DecimalRoundTrip(n: nat)
    ensures DigitsValue(Decimal(n)) == n
  {
    if n >= 10 {
      DecimalRoundTrip(n / 10);
      var s := Decimal(n);
      assert s[..|s| - 1] == Decimal(n / 10);
    }
  }

  /** The regular expression leaves `s[from..]` alone while it scans digits up to `k`. */
  lemma {:induction false} SuffixStartAfterDigits(s: string, from: nat, k: nat)
    requires from <= k <= |s|
    requires forall j :: from <= j < k ==> IsDigit(s[j])
    requires k < |s| ==> !IsDigit(s[k]) && forall j :: k < j < |s| ==> !IsLineTerminator(s[j])
    ensures SuffixStart(s, from) == k
    decreases k - from
  {
    if from < k {
      SuffixStartAfterDigits(s, from + 1, k);
    }
  }

  /** A number followed by a pre-release tag such as "-beta" is read as the number. */
  lemma ComponentIgnoresSuffix(n: nat, suffix: string)
    requires suffix != [] && !IsDigit(suffix[0])
    requires forall j :: 0 <= j < |suffix| ==> !IsLineTerminator(suffix[j])
    ensures ComponentValue(Decimal(n) + suffix) == n
  {
    var s := Decimal(n) + suffix;
    SuffixStartAfterDigits(s, 0, |Decimal(n)|);
    assert s[..|Decimal(n)|] == Decimal(n);
    DecimalRoundTrip(n);
  }

  lemma ComponentOfDecimal(n: nat)
    ensures ComponentValue(Decimal(n)) == n
  {
    var s := Decimal(n);
    SuffixStartAfterDigits(s, 0, |s|);
    assert s[..|s|] == s;
    DecimalRoundTrip(n);
  }

  lemma NoDotInDecimal(n: nat)
    ensures '.' !in Decimal(n)
  {
    var s := Decimal(n);
    forall k | 0 <= k < |s| ensures s[k] != '.' {
      assert IsDigit(s[k]);
    }
  }

  /** "major.minor.patch" spelled in decimal. */
  function VersionString(major: nat, minor: nat, patch: nat): string {
    Decimal(major) + "." + Decimal(minor) + "." + Decimal(patch)
  }

  lemma SplitVersionString(major: nat, minor: nat, patch: nat)
    ensures Split(VersionString(major, minor, patch), '.') == [Decimal(major), Decimal(minor), Decimal(patch)]
  {
    NoDotInDecimal(major);
    NoDotInDecimal(minor);
    NoDotInDecimal(patch);
    var tail := Decimal(minor) + "." + Decimal(patch);
    assert VersionString(major, minor, patch) == Decimal(major) + ['.'] + tail;
    SplitAfterFirst(Decimal(major), '.', tail);
    SplitAfterFirst(Decimal(minor), '.', Decimal(patch));
    SplitWithoutSeparator(Decimal(patch), '.');
  }

  lemma ParseVersionString(major: nat, minor: nat, patch: nat)
    ensures ParseVersion(VersionString(major, minor, patch)) == [major, minor, patch]
  {
    SplitVersionString(major, minor, patch);
    ComponentOfDecimal(major);
    ComponentOfDecimal(minor);
    ComponentOfDecimal(patch);
  }

  /**
   * On three-part versions the check is strict lexicographic order on
   * (major, minor, patch): true exactly when the new triple is greater.
   */
  lemma NewerVersionIsLexicographic(major: nat, minor: nat, patch: nat,
                                    newMajor: nat, newMinor: nat, newPatch: nat)
    ensures IsNewerVersionAvailable(VersionString(major, minor, patch),
                                    VersionString(newMajor, newMinor, newPatch))
      <==> newMajor > major
           || (newMajor == major && newMinor > minor)
           || (newMajor == major && newMinor == minor && newPatch > patch)
  {
    ParseVersionString(major, minor, patch);
    ParseVersionString(newMajor, newMinor, newPatch);
  }

  /** "major.minor" spelled in decimal. */
  function ShortVersionString(major: nat, minor: nat): string {
    Decimal(major) + "." + Decimal(minor)
  }

  /**
   * A missing patch number is `undefined`, and comparisons with it are
   * false: moving from "a.b" to "a.b.c" is never reported as newer.
   */
  lemma ShortVersionHidesPatch(major: nat, minor: nat, patch: nat)
    ensures !IsNewerVersionAvailable(ShortVersionString(major, minor), VersionString(major, minor, patch))
  {
    NoDotInDecimal(major);
    NoDotInDecimal(minor);
    assert ShortVersionString(major, minor) == Decimal(major) + ['.'] + Decimal(minor);
    SplitAfterFirst(Decimal(major), '.', Decimal(minor));
    SplitWithoutSeparator(Decimal(minor), '.');
    ComponentOfDecimal(major);
    ComponentOfDecimal(minor);
    ParseVersionString(major, minor, patch);
  }

  // ---------------------------------------------------------------------
  // Moderator permissions
  // ---------------------------------------------------------------------

  /** `checkForModPerms` once the moderator's permissions are known. */
  function CheckForModPerms(perms: seq<string>, required: seq<string>): (ok: bool)
    ensures !ok <==> "all" !in perms && exists i :: 0 <= i < |required| && required[i] !in perms
  {
    "all" in perms || forall p :: p in required ==> p in perms
  }

  /** Nothing required: every moderator passes, even one with no permissions. */
  lemma NoRequirementAlwaysPasses(perms: seq<string>)
    ensures CheckForModPerms(perms, [])
  {
  }

  /** "all" grants every requirement. */
  lemma AllGrantsEverything(perms: seq<string>, required: seq<string>)
    requires "all" in perms
    ensures CheckForModPerms(perms, required)
  {
  }

  /** Gaining permissions never makes the check fail; requiring fewer never does either. */
  lemma ModPermsMonotone(perms: seq<string>, more: seq<string>, required: seq<string>, fewer: seq<string>)
    requires forall p :: p in perms ==> p in more
    requires forall p :: p in fewer ==> p in required
    ensures CheckForModPerms(perms, required) ==> CheckForModPerms(more, fewer)
  {
  }

  /** Without "all", one missing required permission fails the check. */
  lemma MissingPermissionFails(perms: seq<string>, required: seq<string>, p: string)
    requires "all" !in perms && p in required && p !in perms
    ensures !CheckForModPerms(perms, required)
  {
  }

  // ---------------------------------------------------------------------
  // Main domain of a hostname
  // ---------------------------------------------------------------------

  /** The hostname step of `getMainDomain`: the second-to-last label, else the hostname. */
  function MainDomain(hostname: string): (domain: string)
    ensures '.' !in domain
  {
    var parts := Split(hostname, '.');
    if |parts| >= 2 then parts[|parts| - 2]
    else
      assert '.' !in hostname by {
        JoinSplit(hostname, '.');
      }
      hostname
  }

  /**
   * A hostname made of dot-free labels has the second-to-last label as its
   * main domain: "www.google.com" and "google.com" both give "google".
   */
  lemma MainDomainIsSecondToLast(labels: seq<string>)
    requires |labels| >= 2
    requires forall k :: 0 <= k < |labels| ==> '.' !in labels[k]
    ensures MainDomain(Join(labels, '.')) == labels[|labels| - 2]
  {
    var hostname := Join(labels, '.');
    SplitJoin(labels, '.');
    assert Split(hostname, '.') == labels;
  }

  /** A single-label hostname such as "localhost" is its own main domain. */
  lemma MainDomainOfSingleLabel(hostname: string)
    requires '.' !in hostname
    ensures MainDomain(hostname) == hostname
  {
    SplitWithoutSeparator(hostname, '.');
  }

  // ---------------------------------------------------------------------
  // Author breakdown
  // ---------------------------------------------------------------------

  /** The parts of a mod note's `modAction` that the breakdown reads. */
  datatype ModActionInfo = ModActionInfo(actionType: Option<string>, targetId: Option<string>)

  /** The parts of a mod note's `userNote` that the breakdown reads. */
  datatype UserNoteInfo = UserNoteInfo(noteLabel: Option<string>, note: Option<string>)

  /** A mod note as returned by the API; `createdAt` in milliseconds. */
  datatype ModNote = ModNote(id: string, createdAt: int, noteType: Option<string>,
                             modAction: Option<ModActionInfo>, userNote: Option<UserNoteInfo>)

  /** `CachedNote`; `createdAt` is kept in milliseconds rather than as an ISO string. */
  datatype CachedNote = CachedNote(id: string, noteLabel: string, text: string, displayText: string, createdAt: int)

  /** `AuthorBreakdownCache`. */
  datatype BreakdownCache = BreakdownCache(username: string, removals: nat, bans: nat, mutes: nat,
                                           lastCheckedAt: int, userNotes: seq<CachedNote>,
                                           finalStateByContent: map<string, string>)

  /** `modNoteLabelEmojiMap`. */
  const LabelEmoji: map<string, string> := map[
    "HELPFUL_USER" := "\U{1F64C}",
    "SOLID_CONTRIBUTOR" := "\U{2705}",
    "SPAM_WATCH" := "\U{1F440}",
    "SPAM_WARNING" := "\U{26A0}\U{FE0F}",
    "ABUSE_WARNING" := "\U{2757}",
    "BAN" := "\U{1F6AB}",
    "PERMA_BAN" := "\U{26D4}",
    "BOT_BAN" := "\U{1F916}\U{1F6AB}"
  ]

  /** The marker shown before the text of a note whose label has no emoji. */
  const UnknownLabelMarker: string := "\U{2370} "

  /** `modAction?.target?.id ?? note.id`. */
  function ContentKey(note: ModNote): (key: string)
    ensures note.modAction.Some? && note.modAction.value.targetId.Some? ==> key == note.modAction.value.targetId.value
    ensures key == note.id || (note.modAction.Some? && note.modAction.value.targetId == Some(key))
  {
    if note.modAction.Some? && note.modAction.value.targetId.Some? then note.modAction.value.targetId.value
    else note.id
  }

  /** `modAction?.type?.toUpperCase() ?? note.type?.toUpperCase() ?? 'UNKNOWN'`. */
  function ModType(note: ModNote): (modType: string)
    ensures note.modAction.Some? && note.modAction.value.actionType.Some? ==>
            modType == ToUpper(note.modAction.value.actionType.value)
    ensures !(note.modAction.Some? && note.modAction.value.actionType.Some?) && note.noteType.Some? ==>
            modType == ToUpper(note.noteType.value)
    ensures !(note.modAction.Some? && note.modAction.value.actionType.Some?) && note.noteType.None? ==>
            modType == "UNKNOWN"
  {
    if note.modAction.Some? && note.modAction.value.actionType.Some? then ToUpper(note.modAction.value.actionType.value)
    else if note.noteType.Some? then ToUpper(note.noteType.value)
    else "UNKNOWN"
  }

  /** The type a note is recorded under never holds a lower-case ASCII letter. */
  lemma ModTypeIsUpperCase(note: ModNote)
    ensures forall k :: 0 <= k < |ModType(note)| ==> !('a' <= ModType(note)[k] <= 'z')
  {
    var t := ModType(note);
    if t != "UNKNOWN" {
      var raw := if note.modAction.Some? && note.modAction.value.actionType.Some? then note.modAction.value.actionType.value
                 else note.noteType.value;
      assert t == ToUpper(raw);
      assert forall k :: 0 <= k < |t| ==> t[k] == UpperChar(raw[k]);
    }
  }

  /** A note of type NOTE whose user-note text is truthy (present and non-empty). */
  predicate IsUserNote(note: ModNote) {
    ModType(note) == "NOTE" && note.userNote.Some? && note.userNote.value.note.Some?
    && note.userNote.value.note.value != ""
  }

  /** The emoji of a known label and a space, the marker for another label, nothing for none. */
  function DisplayPrefix(noteLabel: string): (prefix: string)
    ensures noteLabel in LabelEmoji && LabelEmoji[noteLabel] != "" ==> prefix == LabelEmoji[noteLabel] + " "
    ensures noteLabel != "" && (noteLabel !in LabelEmoji || LabelEmoji[noteLabel] == "") ==> prefix == UnknownLabelMarker
    ensures prefix == "" <==> noteLabel == ""
  {
    if noteLabel in LabelEmoji && LabelEmoji[noteLabel] != "" then LabelEmoji[noteLabel] + " "
    else if noteLabel != "" then UnknownLabelMarker
    else ""
  }

  /** The cached form of a user note. */
  function CachedOf(note: ModNote): (c: CachedNote)
    requires IsUserNote(note)
    ensures c.id == note.id && c.createdAt == note.createdAt
    ensures c.text == note.userNote.value.note.value
    ensures |c.text| <= |c.displayText| && c.displayText[|c.displayText| - |c.text|..] == c.text
    ensures c.noteLabel == note.userNote.value.noteLabel.GetOr("")
    ensures c.displayText == DisplayPrefix(c.noteLabel) + c.text
    ensures c.displayText == c.text <==> c.noteLabel == ""
  {
    var tag := note.userNote.value.noteLabel.GetOr("");
    var text := note.userNote.value.note.value;
    var shown := DisplayPrefix(tag) + text;
    assert shown[|shown| - |text|..] == text;
    CachedNote(note.id, tag, text, shown, note.createdAt)
  }

  /** A note the loop processes: strictly newer than the last check. */
  predicate IsFresh(note: ModNote, lastCheckedAt: int) {
    note.createdAt > lastCheckedAt
  }

  /** The loop's state: `finalStateByContent` and `newNotes`. */
  datatype Tally = Tally(finalState: map<string, string>, newNotes: seq<CachedNote>)

  /** One iteration of the loop over the sorted notes. */
  function Step(t: Tally, note: ModNote, lastCheckedAt: int): (r: Tally)
    ensures !IsFresh(note, lastCheckedAt) ==> r == t
    ensures IsFresh(note, lastCheckedAt) ==>
      && r.finalState.Keys == t.finalState.Keys + {ContentKey(note)}
      && r.finalState[ContentKey(note)] == ModType(note)
      && forall key :: key in t.finalState && key != ContentKey(note) ==> r.finalState[key] == t.finalState[key]
    ensures |t.newNotes| <= |r.newNotes| <= |t.newNotes| + 1 && r.newNotes[..|t.newNotes|] == t.newNotes
  {
    if !IsFresh(note, lastCheckedAt) then t
    else Tally(t.finalState[ContentKey(note) := ModType(note)], t.newNotes + Collected(note, lastCheckedAt))
  }

  /** The loop over `notes`, in order, from `init`. */
  function Fold(notes: seq<ModNote>, lastCheckedAt: int, init: Tally): (r: Tally)
    ensures init.finalState.Keys <= r.finalState.Keys
    ensures |init.newNotes| <= |r.newNotes| <= |init.newNotes| + |notes|
    ensures r.newNotes[..|init.newNotes|] == init.newNotes
  {
    if notes == [] then init
    else Step(Fold(notes[..|notes| - 1], lastCheckedAt, init), notes[|notes| - 1], lastCheckedAt)
  }

  /**
   * The last fresh note about a content id decides its final state: later
   * notes about other content do not disturb it.
   */
  lemma {:induction false} FoldKeepsLastModType(notes: seq<ModNote>, lastCheckedAt: int, init: Tally, i: nat)
    requires i < |notes| && IsFresh(notes[i], lastCheckedAt)
    requires forall j :: i < j < |notes| && IsFresh(notes[j], lastCheckedAt) ==>
      ContentKey(notes[j]) != ContentKey(notes[i])
    ensures ContentKey(notes[i]) in Fold(notes, lastCheckedAt, init).finalState
    ensures Fold(notes, lastCheckedAt, init).finalState[ContentKey(notes[i])] == ModType(notes[i])
    decreases |notes|
  {
    var n := |notes| - 1;
    if i < n {
      FoldKeepsLastModType(notes[..n], lastCheckedAt, init, i);
    }
  }

  /** A content id no fresh note mentions keeps its cached state, or stays absent. */
  lemma {:induction false} FoldLeavesOtherContent(notes: seq<ModNote>, lastCheckedAt: int, init: Tally, key: string)
    requires forall j :: 0 <= j < |notes| && IsFresh(notes[j], lastCheckedAt) ==> ContentKey(notes[j]) != key
    ensures key in Fold(notes, lastCheckedAt, init).finalState <==> key in init.finalState
    ensures key in init.finalState ==> Fold(notes, lastCheckedAt, init).finalState[key] == init.finalState[key]
    decreases |notes|
  {
    if notes != [] {
      FoldLeavesOtherContent(notes[..|notes| - 1], lastCheckedAt, init, key);
    }
  }

  /** Notes no newer than the last check change nothing. */
  lemma {:induction false} FoldSkipsSeenNotes(notes: seq<ModNote>, lastCheckedAt: int, init: Tally)
    requires forall j :: 0 <= j < |notes| ==> !IsFresh(notes[j], lastCheckedAt)
    ensures Fold(notes, lastCheckedAt, init) == init
    decreases |notes|
  {
    if notes != [] {
      FoldSkipsSeenNotes(notes[..|notes| - 1], lastCheckedAt, init);
    }
  }

  /** What one note contributes to `newNotes`. */
  function Collected(note: ModNote, lastCheckedAt: int): seq<CachedNote> {
    if IsFresh(note, lastCheckedAt) && IsUserNote(note) then [CachedOf(note)] else []
  }

  /** The cached forms of the fresh user notes among `notes`, in order. */
  function FreshUserNotes(notes: seq<ModNote>, lastCheckedAt: int): seq<CachedNote> {
    if notes == [] then []
    else FreshUserNotes(notes[..|notes| - 1], lastCheckedAt) + Collected(notes[|notes| - 1], lastCheckedAt)
  }

  /** The loop only appends to `newNotes`, and what it appends are the fresh user notes. */
  lemma {:induction false} FoldAppendsFreshUserNotes(notes: seq<ModNote>, lastCheckedAt: int, init: Tally)
    ensures Fold(notes, lastCheckedAt, init).newNotes == init.newNotes + FreshUserNotes(notes, lastCheckedAt)
    decreases |notes|
  {
    if notes != [] {
      FoldAppendsFreshUserNotes(notes[..|notes| - 1], lastCheckedAt, init);
    }
  }

  /** Every collected note is the cached form of a fresh user note. */
  lemma {:induction false} FreshUserNotesAreSound(notes: seq<ModNote>, lastCheckedAt: int, c: CachedNote)
    requires c in FreshUserNotes(notes, lastCheckedAt)
    ensures exists j :: 0 <= j < |notes| && c in Collected(notes[j], lastCheckedAt)
    decreases |notes|
  {
    var n := |notes| - 1;
    if c in FreshUserNotes(notes[..n], lastCheckedAt) {
      FreshUserNotesAreSound(notes[..n], lastCheckedAt, c);
      var j :| 0 <= j < n && c in Collected(notes[..n][j], lastCheckedAt);
      assert notes[j] == notes[..n][j];
    } else {
      assert c in Collected(notes[n], lastCheckedAt);
    }
  }

  /** Every fresh user note is collected. */
  lemma FreshUserNotesAreComplete(notes: seq<ModNote>, lastCheckedAt: int, j: nat)
    requires j < |notes| && IsFresh(notes[j], lastCheckedAt) && IsUserNote(notes[j])
    ensures CachedOf(notes[j]) in FreshUserNotes(notes, lastCheckedAt)
  {
    CollectedIsKept(notes, lastCheckedAt, j);
    assert Collected(notes[j], lastCheckedAt) == [CachedOf(notes[j])];
  }

  /** What any one note contributes is among the collected notes. */
  lemma {:induction false} CollectedIsKept(notes: seq<ModNote>, lastCheckedAt: int, j: nat)
    requires j < |notes|
    ensures forall c :: c in Collected(notes[j], lastCheckedAt) ==> c in FreshUserNotes(notes, lastCheckedAt)
    decreases |notes|
  {
    var n := |notes| - 1;
    if j < n {
      assert notes[..n][j] == notes[j];
      CollectedIsKept(notes[..n], lastCheckedAt, j);
    }
  }

  /** The loop over the sorted notes (`for (const note of modNotes)`). */
  method FoldModNotes(notes: seq<ModNote>, lastCheckedAt: int, cached: map<string, string>)
    returns (finalState: map<string, string>, newNotes: seq<CachedNote>)
    ensures Tally(finalState, newNotes) == Fold(notes, lastCheckedAt, Tally(cached, []))
  {
    finalState := cached;
    newNotes := [];
    var i := 0;
    while i < |notes|
      invariant 0 <= i <= |notes|
      invariant Tally(finalState, newNotes) == Fold(notes[..i], lastCheckedAt, Tally(cached, []))
    {
      var note := notes[i];
      assert notes[..i + 1][..i] == notes[..i];
      if note.createdAt > lastCheckedAt {
        finalState := finalState[ContentKey(note) := ModType(note)];
        if IsUserNote(note) {
          newNotes := newNotes + [CachedOf(note)];
        }
      }
      i := i + 1;
    }
    assert notes[..i] == notes;
  }

  /** Mod types counted as removals, bans and mutes. */
  const RemovalTypes: set<string> := {"SPAM", "REMOVE", "REMOVAL"}
  const BanTypes: set<string> := {"BAN"}
  const MuteTypes: set<string> := {"MUTE"}

  /** The ids among `keys` whose final state is one of `types`. */
  function Matching(m: map<string, string>, keys: set<string>, types: set<string>): set<string> {
    set k | k in keys && k in m && m[k] in types
  }

  lemma MatchingStep(m: map<string, string>, done: set<string>, k: string, types: set<string>)
    requires k !in done
    ensures |Matching(m, done + {k}, types)| ==
      |Matching(m, done, types)| + if k in m && m[k] in types then 1 else 0
  {
    if k in m && m[k] in types {
      assert Matching(m, done + {k}, types) == Matching(m, done, types) + {k};
    } else {
      assert Matching(m, done + {k}, types) == Matching(m, done, types);
    }
  }

  /** The counting loop over `finalStateByContent`: each content id counts once, by its final state. */
  method CountTotals(finalState: map<string, string>) returns (removals: nat, bans: nat, mutes: nat)
    ensures removals == |Matching(finalState, finalState.Keys, RemovalTypes)|
    ensures bans == |Matching(finalState, finalState.Keys, BanTypes)|
    ensures mutes == |Matching(finalState, finalState.Keys, MuteTypes)|
  {
    removals, bans, mutes := 0, 0, 0;
    var remaining := finalState.Keys;
    while remaining != {}
      invariant remaining <= finalState.Keys
      invariant removals == |Matching(finalState, finalState.Keys - remaining, RemovalTypes)|
      invariant bans == |Matching(finalState, finalState.Keys - remaining, BanTypes)|
      invariant mutes == |Matching(finalState, finalState.Keys - remaining, MuteTypes)|
      decreases |remaining|
    {
      var contentId :| contentId in remaining;
      ghost var done := finalState.Keys - remaining;
      MatchingStep(finalState, done, contentId, RemovalTypes);
      MatchingStep(finalState, done, contentId, BanTypes);
      MatchingStep(finalState, done, contentId, MuteTypes);
      var modType := finalState[contentId];
      if modType == "SPAM" || modType == "REMOVE" || modType == "REMOVAL" {
        removals := removals + 1;
      } else if modType == "BAN" {
        bans := bans + 1;
      } else if modType == "MUTE" {
        mutes := mutes + 1;
      }
      remaining := remaining - {contentId};
      assert finalState.Keys - remaining == done + {contentId};
    }
    assert finalState.Keys - remaining == finalState.Keys;
  }

  /** The three totals never exceed the number of content ids tracked. */
  lemma TotalsAtMostContentIds(m: map<string, string>)
    ensures |Matching(m, m.Keys, RemovalTypes)| + |Matching(m, m.Keys, BanTypes)|
            + |Matching(m, m.Keys, MuteTypes)| <= |m|
  {
    var r := Matching(m, m.Keys, RemovalTypes);
    var b := Matching(m, m.Keys, BanTypes);
    var u := Matching(m, m.Keys, MuteTypes);
    assert r * b == {} && (r + b) * u == {};
    var all := r + b + u;
    assert |all| == |r| + |b| + |u|;
    assert all <= m.Keys;
    assert m.Keys == all + (m.Keys - all);
    assert |m.Keys| == |all| + |m.Keys - all|;
  }

  // Stable insertion sort, by an integer key

  predicate SortedBy<T>(s: seq<T>, key: T -> int) {
    forall i, j :: 0 <= i < j < |s| ==> key(s[i]) <= key(s[j])
  }

  /** Inserts `x` after every element whose key is not greater, keeping equal keys in arrival order. */
  function InsertBy<T>(x: T, s: seq<T>, key: T -> int): (r: seq<T>)
    requires SortedBy(s, key)
    ensures SortedBy(r, key)
    ensures multiset(r) == multiset(s) + multiset{x}
  {
    if s == [] then [x]
    else if key(s[|s| - 1]) <= key(x) then s + [x]
    else
      var init := s[..|s| - 1];
      var last := s[|s| - 1];
      var r0 := InsertBy(x, init, key);
      assert s == init + [last];
      assert forall i :: 0 <= i < |init| ==> key(init[i]) <= key(last);
      KeysBounded(r0, init, x, key, key(last));
      AppendKeepsSorted(r0, last, key);
      r0 + [last]
  }

  /** Every element of a sequence holding `s` and `x` is keyed at most `bound` when they all are. */
  lemma KeysBounded<T>(r: seq<T>, s: seq<T>, x: T, key: T -> int, bound: int)
    requires multiset(r) == multiset(s) + multiset{x}
    requires key(x) <= bound && forall i :: 0 <= i < |s| ==> key(s[i]) <= bound
    ensures forall i :: 0 <= i < |r| ==> key(r[i]) <= bound
  {
    forall i | 0 <= i < |r| ensures key(r[i]) <= bound {
      assert r[i] in multiset(r);
      if r[i] != x {
        assert r[i] in multiset(s);
        var k :| 0 <= k < |s| && s[k] == r[i];
      }
    }
  }

  /** Appending an element keyed at least as high as all others keeps a sequence sorted. */
  lemma AppendKeepsSorted<T>(s: seq<T>, last: T, key: T -> int)
    requires SortedBy(s, key) && forall i :: 0 <= i < |s| ==> key(s[i]) <= key(last)
    ensures SortedBy(s + [last], key)
  {
    var r := s + [last];
    forall i, j | 0 <= i < j < |r| ensures key(r[i]) <= key(r[j]) {
      assert r[i] == s[i];
      if j < |s| {
        assert r[j] == s[j];
      }
    }
  }

  /** A stable sort ascending by `key`: the array `sort` with a key-difference comparator. */
  function SortBy<T>(s: seq<T>, key: T -> int): (r: seq<T>)
    ensures SortedBy(r, key)
    ensures multiset(r) == multiset(s)
  {
    if s == [] then []
    else
      var init := s[..|s| - 1];
      assert s == init + [s[|s| - 1]];
      InsertBy(s[|s| - 1], SortBy(init, key), key)
  }

  // Merge of cached and new user notes

  /** No earlier element of `s` has the id of `s[i]`. */
  predicate FirstWithId(s: seq<CachedNote>, i: nat)
    requires i < |s|
  {
    forall j :: 0 <= j < i ==> s[j].id != s[i].id
  }

  predicate UniqueIds(s: seq<CachedNote>) {
    forall i, j :: 0 <= i < j < |s| ==> s[i].id != s[j].id
  }

  /** `filter((v, i, a) => a.findIndex(t => t.id === v.id) === i)`. */
  function DedupById(s: seq<CachedNote>): (r: seq<CachedNote>)
    ensures UniqueIds(r)
    ensures forall c :: c in r <==> exists i :: 0 <= i < |s| && s[i] == c && FirstWithId(s, i)
  {
    if s == [] then []
    else
      var n := |s| - 1;
      var r0 := DedupById(s[..n]);
      assert forall i :: 0 <= i < n ==> s[..n][i] == s[i];
      assert forall i :: 0 <= i < n ==> (FirstWithId(s[..n], i) <==> FirstWithId(s, i));
      if exists j :: 0 <= j < n && s[j].id == s[n].id then
        r0
      else
        assert forall c :: c in r0 ==> c.id != s[n].id;
        r0 + [s[n]]
  }

  function NewestFirstKey(c: CachedNote): int {
    -c.createdAt
  }

  /** The user notes kept in the cache. */
  const MaxCachedNotes: nat := 200

  /** `[...userNotes, ...newNotes]` de-duplicated, sorted newest first, and cut to 200. */
  function MergeNotes(userNotes: seq<CachedNote>, newNotes: seq<CachedNote>): (r: seq<CachedNote>)
    ensures |r| <= MaxCachedNotes
    ensures r == [] <==> userNotes + newNotes == []
  {
    var all := userNotes + newNotes;
    var sorted := SortBy(DedupById(all), NewestFirstKey);
    assert all != [] ==> all[0] in multiset(sorted) by {
      if all != [] {
        assert all[0] in DedupById(all);
      }
    }
    if |sorted| <= MaxCachedNotes then sorted else sorted[..MaxCachedNotes]
  }

  /** With unique ids, no note occurs twice. */
  lemma {:induction false} UniqueIdsOccurOnce(s: seq<CachedNote>, c: CachedNote)
    requires UniqueIds(s)
    ensures multiset(s)[c] <= 1
    decreases |s|
  {
    if s != [] {
      var n := |s| - 1;
      assert s == s[..n] + [s[n]];
      UniqueIdsOccurOnce(s[..n], c);
    }
  }

  /** A note at two positions occurs twice. */
  lemma OccursTwice(t: seq<CachedNote>, i: nat, j: nat)
    requires i < j < |t| && t[i] == t[j]
    ensures multiset(t)[t[i]] >= 2
  {
    assert t == t[..j] + t[j..];
    assert t[i] == t[..j][i];
    assert t[j] == t[j..][0];
  }

  /** A permutation of a sequence with unique ids has unique ids. */
  lemma PermutationKeepsUniqueIds(s: seq<CachedNote>, t: seq<CachedNote>)
    requires UniqueIds(s) && multiset(s) == multiset(t)
    ensures UniqueIds(t)
  {
    forall i, j | 0 <= i < j < |t| ensures t[i].id != t[j].id {
      if t[i] == t[j] {
        OccursTwice(t, i, j);
        UniqueIdsOccurOnce(s, t[i]);
      } else {
        assert t[i] in multiset(s) && t[j] in multiset(s);
        var a :| 0 <= a < |s| && s[a] == t[i];
        var b :| 0 <= b < |s| && s[b] == t[j];
        assert a != b;
        if a < b {
          assert s[a].id != s[b].id;
        } else {
          assert s[b].id != s[a].id;
        }
      }
    }
  }

  /**
   * The merged notes have unique ids, run newest first, hold at most 200
   * entries, and each is the first note with its id in cached-then-new order.
   */
  lemma MergedNotesProperties(userNotes: seq<CachedNote>, newNotes: seq<CachedNote>)
    ensures var r := MergeNotes(userNotes, newNotes);
      UniqueIds(r)
      && (forall i, j :: 0 <= i < j < |r| ==> r[i].createdAt >= r[j].createdAt)
      && |r| <= MaxCachedNotes
      && forall c :: c in r ==>
           exists i :: 0 <= i < |userNotes + newNotes| && (userNotes + newNotes)[i] == c
                       && FirstWithId(userNotes + newNotes, i)
  {
    var d := DedupById(userNotes + newNotes);
    var sorted := SortBy(d, NewestFirstKey);
    PermutationKeepsUniqueIds(d, sorted);
    var n := if |sorted| <= MaxCachedNotes then |sorted| else MaxCachedNotes;
    var r := MergeNotes(userNotes, newNotes);
    assert r == sorted[..n];
    PrefixKeepsOrder(sorted, n);
    forall c | c in r
      ensures exists i :: 0 <= i < |userNotes + newNotes| && (userNotes + newNotes)[i] == c
                          && FirstWithId(userNotes + newNotes, i)
    {
      assert c in multiset(sorted);
      assert c in d;
    }
  }

  /** Cutting a sorted sequence with unique ids keeps both properties and adds nothing. */
  lemma PrefixKeepsOrder(s: seq<CachedNote>, n: nat)
    requires n <= |s| && UniqueIds(s) && SortedBy(s, NewestFirstKey)
    ensures UniqueIds(s[..n])
    ensures forall i, j :: 0 <= i < j < n ==> s[..n][i].createdAt >= s[..n][j].createdAt
    ensures forall c :: c in s[..n] ==> c in s
  {
    assert forall i, j :: 0 <= i < j < n ==> NewestFirstKey(s[i]) <= NewestFirstKey(s[j]);
  }

  /**
   * Over the cap, the newest notes are the ones kept: a note that is the first
   * with its id but did not make it into the cache is no newer than every
   * cached note.
   */
  lemma MergeKeepsNewest(userNotes: seq<CachedNote>, newNotes: seq<CachedNote>, i: nat)
    requires i < |userNotes + newNotes| && FirstWithId(userNotes + newNotes, i)
    requires (userNotes + newNotes)[i] !in MergeNotes(userNotes, newNotes)
    ensures var r := MergeNotes(userNotes, newNotes);
      |r| == MaxCachedNotes && forall c :: c in r ==> (userNotes + newNotes)[i].createdAt <= c.createdAt
  {
    var all := userNotes + newNotes;
    var d := DedupById(all);
    var sorted := SortBy(d, NewestFirstKey);
    assert all[i] in d;
    assert all[i] in multiset(sorted);
    var k :| 0 <= k < |sorted| && sorted[k] == all[i];
    assert |sorted| > MaxCachedNotes;
    var r := MergeNotes(userNotes, newNotes);
    assert r == sorted[..MaxCachedNotes];
    assert k >= MaxCachedNotes;
    PrefixIsNewer(sorted, MaxCachedNotes, k);
  }

  /** In a newest-first sequence, no element past a cut is newer than an element before it. */
  lemma PrefixIsNewer(s: seq<CachedNote>, n: nat, k: nat)
    requires n <= k < |s| && SortedBy(s, NewestFirstKey)
    ensures forall c :: c in s[..n] ==> s[k].createdAt <= c.createdAt
  {
    forall c | c in s[..n] ensures s[k].createdAt <= c.createdAt {
      var j :| 0 <= j < n && s[..n][j] == c;
      assert NewestFirstKey(s[j]) <= NewestFirstKey(s[k]);
    }
  }

  /** Until the cap is reached, no note is lost: every id shows up once. */
  lemma MergeKeepsEveryIdUnderCap(userNotes: seq<CachedNote>, newNotes: seq<CachedNote>, i: nat)
    requires i < |userNotes + newNotes| && FirstWithId(userNotes + newNotes, i)
    requires |DedupById(userNotes + newNotes)| <= MaxCachedNotes
    ensures (userNotes + newNotes)[i] in MergeNotes(userNotes, newNotes)
  {
    var d := DedupById(userNotes + newNotes);
    assert (userNotes + newNotes)[i] in d;
    assert (userNotes + newNotes)[i] in multiset(SortBy(d, NewestFirstKey));
  }

  // The whole incremental update

  function PriorState(cache: Option<BreakdownCache>): map<string, string> {
    if cache.Some? then cache.value.finalStateByContent else map[]
  }

  function PriorNotes(cache: Option<BreakdownCache>): seq<CachedNote> {
    if cache.Some? then cache.value.userNotes else []
  }

  /** `cache?.lastCheckedAt ? new Date(cache.lastCheckedAt) : new Date(0)`. */
  function LastChecked(cache: Option<BreakdownCache>): int {
    if cache.Some? then cache.value.lastCheckedAt else 0
  }

  function CreatedAt(note: ModNote): int {
    note.createdAt
  }

  /**
   * The cache-updating part of `getAuthorBreakdown`: sort the notes oldest
   * first, fold the fresh ones into the cached state, count, merge the notes.
   */
  method UpdateBreakdown(cache: Option<BreakdownCache>, username: string, modNotes: seq<ModNote>, now: int)
    returns (updated: BreakdownCache)
    ensures var t := Fold(SortBy(modNotes, CreatedAt), LastChecked(cache), Tally(PriorState(cache), []));
      updated == BreakdownCache(username,
                                |Matching(t.finalState, t.finalState.Keys, RemovalTypes)|,
                                |Matching(t.finalState, t.finalState.Keys, BanTypes)|,
                                |Matching(t.finalState, t.finalState.Keys, MuteTypes)|,
                                now, MergeNotes(PriorNotes(cache), t.newNotes), t.finalState)
  {
    var sorted := SortBy(modNotes, CreatedAt);
    var finalState, newNotes := FoldModNotes(sorted, LastChecked(cache), PriorState(cache));
    var removals, bans, mutes := CountTotals(finalState);
    updated := BreakdownCache(username, removals, bans, mutes, now,
                              MergeNotes(PriorNotes(cache), newNotes), finalState);
  }

  // Cached breakdowns and their key list

  /** `authorBreakdown:${username}`. */
  function BreakdownKey(username: string): (key: string)
    ensures StartsWith(key, "authorBreakdown:")
  {
    "authorBreakdown:" + username
  }

  /** Different users never share a cache key. */
  lemma BreakdownKeyInjective(a: string, b: string)
    requires a != b
    ensures BreakdownKey(a) != BreakdownKey(b)
  {
  }

  /** The stored breakdowns and the `authorBreakdownKeys` list. */
  class BreakdownStore {
    var caches: map<string, BreakdownCache>
    var keys: seq<string>

    /** The key list has no duplicates and names only stored breakdowns. */
    ghost predicate Valid()
      reads this
    {
      (forall i, j :: 0 <= i < j < |keys| ==> keys[i] != keys[j])
      && forall k :: k in keys ==> k in caches
    }

    constructor()
      ensures Valid() && caches == map[] && keys == []
    {
      caches := map[];
      keys := [];
    }

    /** `setLastAuthorBreakdown`: store the breakdown, then add its key if it is new. */
    method SetLastAuthorBreakdown(username: string, breakdown: BreakdownCache)
      requires Valid()
      modifies this
      ensures Valid()
      ensures caches == old(caches)[BreakdownKey(username) := breakdown]
      ensures keys == if BreakdownKey(username) in old(keys) then old(keys) else old(keys) + [BreakdownKey(username)]
    {
      var key := BreakdownKey(username);
      caches := caches[key := breakdown];
      if key !in keys {
        keys := keys + [key];
      }
    }
  }
}
