/**
 * The auto-fix agent's failure rule table: thirteen detectors, each a test
 * on the text of a failed job's log, tried in a fixed order by
 * `BuildFailureAnalyzer.analyze_and_fix`; the first detector that reports a
 * fix wins.
 *
 * The detectors that run host commands (removing a CocoaPods repository,
 * deleting stale keychains, counting Unity processes, probing SSH) receive
 * the outcome of those commands as a `HostProbe`.
 */
module FixRules {
  import opened Wrappers
  import opened Text

  /** The issue a detector recognised; its texts are given by IssueText,
      ActionText and NoteText below. */
  datatype Issue =
    | DuplicateCocoapodsRepos
    | DeveloperDirCommandLineTools
    | ProvisioningProfileMissing
    | KeychainLocked
    | UnityTerminatedConflict(unityProcesses: nat)
    | UnityTerminatedTransient
    | CocoapodsCdnError
    | GitTransient
    | GitKeyInvalid
    | CertificateMissing
    | NetworkTransient
    | WindowsUnityMissing
    | WindowsIl2cppBuild
    | VisualStudioMissing
    | WindowsDiskSpaceLow

  /** A detector's verdict (the dictionary the source returns). An absent
      `delay` reads as 0, as in `fix_result.get('delay', 0)`. */
  datatype Fix = Fix(
    issue: Issue,
    retry: bool,
    delay: nat,
    investigationNeeded: bool,
    manualInterventionNeeded: bool)

  /** What the host commands run by the detectors report. */
  datatype HostProbe = HostProbe(
    // the directory ~/.cocoapods/repos/cocoapods exists
    cocoapodsRepoPresent: bool,
    // removing that directory raised no error
    cocoapodsRepoRemoved: bool,
    // the keychain clean-up pipeline finished within its 10 s timeout
    keychainCleanupFinished: bool,
    // output of the Unity process count; None when the command timed out
    // or printed something that is not an integer
    unityProcessCount: Option<nat>,
    // whether `ssh -T git@github.com` printed "successfully authenticated";
    // None when it timed out
    sshAuthenticated: Option<bool>)

  /** The detectors, one per `_fix_*` method of the analyzer. */
  datatype Rule =
    | CocoapodsDuplicateRepos
    | XcodeCommandLineTools
    | ProvisioningProfileNotFound
    | KeychainTimeout
    | UnityTerminated
    | PodInstallFailure
    | GitAuthentication
    | CertificateNotFound
    | TransientNetworkError
    | WindowsUnityNotFound
    | WindowsIl2cppFailure
    | WindowsVisualStudioMissing
    | WindowsDiskSpace

  /** The order in which `analyze_and_fix` tries the detectors. */
  const Rules: seq<Rule> := [
    CocoapodsDuplicateRepos,
    XcodeCommandLineTools,
    ProvisioningProfileNotFound,
    KeychainTimeout,
    UnityTerminated,
    PodInstallFailure,
    GitAuthentication,
    CertificateNotFound,
    TransientNetworkError,
    WindowsUnityNotFound,
    WindowsIl2cppFailure,
    WindowsVisualStudioMissing,
    WindowsDiskSpace
  ]

  const NetworkErrors: seq<string> := [
    "connection refused",
    "connection timeout",
    "network is unreachable",
    "temporary failure in name resolution",
    "could not resolve host"
  ]

  const Il2cppErrors: seq<string> := [
    "il2cpp error",
    "il2cpp.exe did not run properly",
    "buildFailedException: il2cpp",
    "c++ compiler not found",
    "msvc"
  ]

  /** A fix that asks for an immediate retry and nothing else. */
  function Retry(issue: Issue): Fix
  {
    Fix(issue, true, 0, false, false)
  }

  /** A fix that needs a person on the build machine; no retry. */
  function Manual(issue: Issue): Fix
  {
    Fix(issue, false, 0, false, true)
  }

  /** The `issue` text of each verdict. */
  function IssueText(issue: Issue): string
  {
    match issue
    case DuplicateCocoapodsRepos => "CocoaPods duplicate repos"
    case DeveloperDirCommandLineTools => "DEVELOPER_DIR pointing to CommandLineTools"
    case ProvisioningProfileMissing => "Provisioning profile not found"
    case KeychainLocked => "Keychain locked/timeout"
    case UnityTerminatedConflict(_) => "Unity terminated (possible conflict)"
    case UnityTerminatedTransient => "Unity terminated (transient)"
    case CocoapodsCdnError => "CocoaPods CDN network error"
    case GitTransient => "Git authentication (transient)"
    case GitKeyInvalid => "Git SSH key invalid"
    case CertificateMissing => "Code signing certificate not found"
    case NetworkTransient => "Transient network error"
    case WindowsUnityMissing => "Unity not found on Windows runner"
    case WindowsIl2cppBuild => "IL2CPP build failure (Windows)"
    case VisualStudioMissing => "Visual Studio Build Tools missing"
    case WindowsDiskSpaceLow => "Windows runner disk space low"
  }

  /** The `action` text of each verdict. */
  function ActionText(issue: Issue): string
  {
    match issue
    case DuplicateCocoapodsRepos => "Removed ~/. cocoapods/repos/cocoapods"
    case DeveloperDirCommandLineTools => "Already fixed in workflow (DEVELOPER_DIR set at job level)"
    case ProvisioningProfileMissing => "Check Fastlane Match configuration"
    case KeychainLocked => "Cleaned up stale keychains"
    case UnityTerminatedConflict(_) => "Multiple Unity instances detected"
    case UnityTerminatedTransient => "No obvious cause - safe to retry"
    case CocoapodsCdnError => "Transient network issue"
    case GitTransient => "SSH key is valid - retry"
    case GitKeyInvalid => "SSH key verification failed"
    case CertificateMissing => "Fastlane Match may need to re-sync"
    case NetworkTransient => "Network connectivity issue"
    case WindowsUnityMissing => "Install Unity via Hub on the Windows build server"
    case WindowsIl2cppBuild => "Verify Visual Studio Build Tools with C++ workload are installed on Windows runner"
    case VisualStudioMissing => "Install Visual Studio Build Tools with C++ workload on Windows runner"
    case WindowsDiskSpaceLow => "Clean old builds from C:\\Builds and Unity Library cache"
  }

  /** The `note` text, for the verdicts that carry one. */
  function NoteText(issue: Issue): Option<string>
  {
    match issue
    case UnityTerminatedConflict(n) => Some(NatToDecimal(n) + " Unity processes running")
    case CertificateMissing => Some("Certificate may not have been installed to keychain properly")
    case WindowsIl2cppBuild => Some("IL2CPP requires Visual Studio with \"Desktop development with C++\" workload")
    case WindowsDiskSpaceLow => Some("Consider running disk cleanup on the Windows build server")
    case _ => None
  }

  /** The printed `issue` text tells the verdicts apart: only the Unity
      conflict verdicts, which differ in their process count, share one. */
  lemma IssueTextIdentifiesIssue(a: Issue, b: Issue)
    requires IssueText(a) == IssueText(b)
    ensures a == b || (a.UnityTerminatedConflict? && b.UnityTerminatedConflict?)
  {
    assert |IssueText(a)| == |IssueText(b)| && IssueText(a)[0] == IssueText(b)[0];
    match a
    case DuplicateCocoapodsRepos =>
    case DeveloperDirCommandLineTools =>
    case ProvisioningProfileMissing =>
    case KeychainLocked =>
    case UnityTerminatedConflict(_) =>
    case UnityTerminatedTransient =>
    case CocoapodsCdnError =>
    case GitTransient =>
    case GitKeyInvalid =>
    case CertificateMissing =>
    case NetworkTransient =>
    case WindowsUnityMissing =>
    case WindowsIl2cppBuild =>
    case VisualStudioMissing =>
    case WindowsDiskSpaceLow =>
  }

  /** Exactly four verdicts carry a note; the Unity conflict note is the
      process count followed by " Unity processes running", and its leading
      digits read back as that count. */
  lemma NotesReportTheirIssue(issue: Issue)
    ensures NoteText(issue).Some? <==>
              issue.UnityTerminatedConflict? || issue == CertificateMissing
              || issue == WindowsIl2cppBuild || issue == WindowsDiskSpaceLow
    ensures issue.UnityTerminatedConflict? ==>
              var digits := NatToDecimal(issue.unityProcesses);
              var note := NoteText(issue).value;
              note == digits + " Unity processes running" && DecimalValue(note[..|digits|]) == issue.unityProcesses
  {
    if issue.UnityTerminatedConflict? {
      var digits := NatToDecimal(issue.unityProcesses);
      DecimalRoundTrip(issue.unityProcesses);
      assert (digits + " Unity processes running")[..|digits|] == digits;
    }
  }

  /** A verdict as the dictionary a detector returns: its texts and flags.
      An absent `delay` is 0 and an absent flag is false. */
  datatype VerdictRecord = VerdictRecord(
    issue: string,
    action: string,
    retry: bool,
    delay: nat,
    note: Option<string>,
    investigationNeeded: bool,
    manualInterventionNeeded: bool)

  function Record(fix: Fix): VerdictRecord
  {
    VerdictRecord(IssueText(fix.issue), ActionText(fix.issue), fix.retry, fix.delay,
                  NoteText(fix.issue), fix.investigationNeeded, fix.manualInterventionNeeded)
  }

  /** The dictionary determines the verdict: two fixes with the same
      dictionary are the same fix, down to the Unity process count. */
  lemma RecordIdentifiesFix(f: Fix, g: Fix)
    requires Record(f) == Record(g)
    ensures f == g
  {
    IssueTextIdentifiesIssue(f.issue, g.issue);
    if f.issue.UnityTerminatedConflict? && g.issue.UnityTerminatedConflict? {
      var n, m := f.issue.unityProcesses, g.issue.unityProcesses;
      NotesReportTheirIssue(f.issue);
      NotesReportTheirIssue(g.issue);
      var suffix := " Unity processes running";
      assert NatToDecimal(n) + suffix == NatToDecimal(m) + suffix;
      assert NatToDecimal(n) == (NatToDecimal(n) + suffix)[..|NatToDecimal(n)|];
      assert NatToDecimal(m) == (NatToDecimal(m) + suffix)[..|NatToDecimal(m)|];
      DecimalRoundTrip(n);
      DecimalRoundTrip(m);
    }
  }

  // Each detector below tests the log text `logs`; tests on `folded` (the
  // lower-cased log) are case-insensitive, tests on `logs` case-sensitive.

  function FixCocoapodsDuplicateRepos(logs: string, probe: HostProbe): Option<Fix>
  {
    var folded := Lower(logs);
    if (Contains(folded, "duplicate sources") || Contains(folded, "cocoapods/repos/cocoapods"))
       && probe.cocoapodsRepoPresent && probe.cocoapodsRepoRemoved
    then Some(Retry(DuplicateCocoapodsRepos))
    else None
  }

  function FixXcodeCommandLineTools(logs: string): Option<Fix>
  {
    if Contains(logs, "requires Xcode, but active developer directory") && Contains(logs, "CommandLineTools")
    then Some(Retry(DeveloperDirCommandLineTools))
    else None
  }

  function FixProvisioningProfileNotFound(logs: string): Option<Fix>
  {
    if Contains(logs, "No provisioning profile found after match")
    then Some(Fix(ProvisioningProfileMissing, true, 0, true, false))
    else None
  }

  function FixKeychainTimeout(logs: string, probe: HostProbe): Option<Fix>
  {
    var folded := Lower(logs);
    if Contains(folded, "keychain") && (Contains(folded, "locked") || Contains(folded, "timeout"))
       && probe.keychainCleanupFinished
    then Some(Retry(KeychainLocked))
    else None
  }

  function FixUnityTerminated(logs: string, probe: HostProbe): Option<Fix>
  {
    if (Contains(logs, "Terminated: 15") || Contains(logs, "exit code 143")) && probe.unityProcessCount.Some? then
      var count := probe.unityProcessCount.value;
      if count > 2 then
        Some(Retry(UnityTerminatedConflict(count)))
      else
        Some(Retry(UnityTerminatedTransient))
    else None
  }

  function FixPodInstallFailure(logs: string): Option<Fix>
  {
    var folded := Lower(logs);
    if Contains(folded, "pod install") && (Contains(folded, "error") || Contains(folded, "failed"))
       && Contains(logs, "cdn.cocoapods.org")
    then Some(Fix(CocoapodsCdnError, true, 60, false, false))
    else None
  }

  function FixGitAuthentication(logs: string, probe: HostProbe): Option<Fix>
  {
    if (Contains(logs, "Permission denied (publickey)") || Contains(logs, "Authentication failed"))
       && probe.sshAuthenticated.Some?
    then
      if probe.sshAuthenticated.value
      then Some(Retry(GitTransient))
      else Some(Manual(GitKeyInvalid))
    else None
  }

  function FixCertificateNotFound(logs: string): Option<Fix>
  {
    var folded := Lower(logs);
    // Python's `and` binds tighter than `or`
    if Contains(folded, "no local code signing identities")
       || (Contains(folded, "certificate") && Contains(folded, "not found"))
    then Some(Retry(CertificateMissing))
    else None
  }

  function FixTransientNetworkError(logs: string): Option<Fix>
  {
    var folded := Lower(logs);
    if ContainsAny(folded, NetworkErrors)
    then Some(Fix(NetworkTransient, true, 30, false, false))
    else None
  }

  function FixWindowsUnityNotFound(logs: string): Option<Fix>
  {
    var folded := Lower(logs);
    if Contains(folded, "no unity installation found")
       || (Contains(folded, "unity.exe") && Contains(folded, "not found"))
    then Some(Manual(WindowsUnityMissing))
    else None
  }

  function FixWindowsIl2cppFailure(logs: string): Option<Fix>
  {
    var folded := Lower(logs);
    if ContainsAny(folded, Il2cppErrors)
    then Some(Retry(WindowsIl2cppBuild))
    else None
  }

  function FixWindowsVisualStudioMissing(logs: string): Option<Fix>
  {
    var folded := Lower(logs);
    if Contains(folded, "visual studio") && (Contains(folded, "not found") || Contains(folded, "not installed"))
    then Some(Manual(VisualStudioMissing))
    else None
  }

  function FixWindowsDiskSpace(logs: string): Option<Fix>
  {
    var folded := Lower(logs);
    if Contains(folded, "not enough space") || Contains(folded, "disk full") || Contains(folded, "no space left")
    then Some(Retry(WindowsDiskSpaceLow))
    else None
  }

  /** One detector applied to the log text `logs`. */
  function Detect(rule: Rule, logs: string, probe: HostProbe): Option<Fix>
  {
    match rule
    case CocoapodsDuplicateRepos => FixCocoapodsDuplicateRepos(logs, probe)
    case XcodeCommandLineTools => FixXcodeCommandLineTools(logs)
    case ProvisioningProfileNotFound => FixProvisioningProfileNotFound(logs)
    case KeychainTimeout => FixKeychainTimeout(logs, probe)
    case UnityTerminated => FixUnityTerminated(logs, probe)
    case PodInstallFailure => FixPodInstallFailure(logs)
    case GitAuthentication => FixGitAuthentication(logs, probe)
    case CertificateNotFound => FixCertificateNotFound(logs)
    case TransientNetworkError => FixTransientNetworkError(logs)
    case WindowsUnityNotFound => FixWindowsUnityNotFound(logs)
    case WindowsIl2cppFailure => FixWindowsIl2cppFailure(logs)
    case WindowsVisualStudioMissing => FixWindowsVisualStudioMissing(logs)
    case WindowsDiskSpace => FixWindowsDiskSpace(logs)
  }

  // ---------------------------------------------------------------------
  // The rule table, stated declaratively: each detector's log signature is
  // a list of alternatives, each alternative a list of patterns that must
  // all occur. `Folded` patterns are matched against the lower-cased log.

  datatype Pattern = Folded(text: string) | Exact(text: string)

  predicate PatternHolds(p: Pattern, logs: string)
  {
    match p
    case Folded(t) => Contains(Lower(logs), t)
    case Exact(t) => Contains(logs, t)
  }

  /** Every pattern of the conjunction occurs. */
  predicate AllHold(conjunction: seq<Pattern>, logs: string)
  {
    conjunction == [] || (PatternHolds(conjunction[0], logs) && AllHold(conjunction[1..], logs))
  }

  /** Some alternative of the signature holds. */
  predicate SignatureHolds(signature: seq<seq<Pattern>>, logs: string)
  {
    signature != [] && (AllHold(signature[0], logs) || SignatureHolds(signature[1..], logs))
  }

  /** One single-pattern alternative per entry of a pattern list. */
  function AnyFolded(patterns: seq<string>): (sig: seq<seq<Pattern>>)
    ensures |sig| == |patterns|
    ensures forall k :: 0 <= k < |patterns| ==> sig[k] == [Folded(patterns[k])]
  {
    seq(|patterns|, k requires 0 <= k < |patterns| => [Folded(patterns[k])])
  }

  function Signature(rule: Rule): seq<seq<Pattern>>
  {
    match rule
    case CocoapodsDuplicateRepos =>
      [[Folded("duplicate sources")], [Folded("cocoapods/repos/cocoapods")]]
    case XcodeCommandLineTools =>
      [[Exact("requires Xcode, but active developer directory"), Exact("CommandLineTools")]]
    case ProvisioningProfileNotFound =>
      [[Exact("No provisioning profile found after match")]]
    case KeychainTimeout =>
      [[Folded("keychain"), Folded("locked")], [Folded("keychain"), Folded("timeout")]]
    case UnityTerminated =>
      [[Exact("Terminated: 15")], [Exact("exit code 143")]]
    case PodInstallFailure =>
      [[Folded("pod install"), Folded("error"), Exact("cdn.cocoapods.org")],
       [Folded("pod install"), Folded("failed"), Exact("cdn.cocoapods.org")]]
    case GitAuthentication =>
      [[Exact("Permission denied (publickey)")], [Exact("Authentication failed")]]
    case CertificateNotFound =>
      [[Folded("no local code signing identities")], [Folded("certificate"), Folded("not found")]]
    case TransientNetworkError =>
      AnyFolded(NetworkErrors)
    case WindowsUnityNotFound =>
      [[Folded("no unity installation found")], [Folded("unity.exe"), Folded("not found")]]
    case WindowsIl2cppFailure =>
      AnyFolded(Il2cppErrors)
    case WindowsVisualStudioMissing =>
      [[Folded("visual studio"), Folded("not found")], [Folded("visual studio"), Folded("not installed")]]
    case WindowsDiskSpace =>
      [[Folded("not enough space")], [Folded("disk full")], [Folded("no space left")]]
  }

  /** What the host must report for a detector whose signature matched to
      return a fix (a failed or timed-out command makes it return None). */
  predicate ProbeAllows(rule: Rule, probe: HostProbe)
  {
    match rule
    case CocoapodsDuplicateRepos => probe.cocoapodsRepoPresent && probe.cocoapodsRepoRemoved
    case KeychainTimeout => probe.keychainCleanupFinished
    case UnityTerminated => probe.unityProcessCount.Some?
    case GitAuthentication => probe.sshAuthenticated.Some?
    case _ => true
  }

  lemma {:induction false} SingletonAlternatives(patterns: seq<string>, logs: string)
    ensures SignatureHolds(AnyFolded(patterns), logs) <==> ContainsAny(Lower(logs), patterns)
  {
    var sig := AnyFolded(patterns);
    if patterns != [] {
      assert sig[0] == [Folded(patterns[0])];
      assert AllHold(sig[0], logs) <==> Contains(Lower(logs), patterns[0]);
      assert sig[1..] == AnyFolded(patterns[1..]);
      SingletonAlternatives(patterns[1..], logs);
    }
  }

  lemma OneAlternative(a: seq<Pattern>, logs: string)
    ensures SignatureHolds([a], logs) <==> AllHold(a, logs)
  {
    assert [a][1..] == [];
  }

  lemma TwoAlternatives(a: seq<Pattern>, b: seq<Pattern>, logs: string)
    ensures SignatureHolds([a, b], logs) <==> AllHold(a, logs) || AllHold(b, logs)
  {
    assert [a, b][1..] == [b];
    OneAlternative(b, logs);
  }

  lemma ThreeAlternatives(a: seq<Pattern>, b: seq<Pattern>, c: seq<Pattern>, logs: string)
    ensures SignatureHolds([a, b, c], logs) <==> AllHold(a, logs) || AllHold(b, logs) || AllHold(c, logs)
  {
    assert [a, b, c][1..] == [b, c];
    TwoAlternatives(b, c, logs);
  }

  lemma OnePattern(p: Pattern, logs: string)
    ensures AllHold([p], logs) <==> PatternHolds(p, logs)
  {
    assert [p][1..] == [];
  }

  lemma TwoPatterns(p: Pattern, q: Pattern, logs: string)
    ensures AllHold([p, q], logs) <==> PatternHolds(p, logs) && PatternHolds(q, logs)
  {
    assert [p, q][1..] == [q];
    OnePattern(q, logs);
  }

  lemma ThreePatterns(p: Pattern, q: Pattern, r: Pattern, logs: string)
    ensures AllHold([p, q, r], logs) <==> PatternHolds(p, logs) && PatternHolds(q, logs) && PatternHolds(r, logs)
  {
    assert [p, q, r][1..] == [q, r];
    TwoPatterns(q, r, logs);
  }

  /** Each detector reports a fix exactly when its declared signature
      matches the log and the host commands it runs succeed. */
  lemma DetectMatchesSignature(rule: Rule, logs: string, probe: HostProbe)
    ensures Detect(rule, logs, probe).Some? <==> SignatureHolds(Signature(rule), logs) && ProbeAllows(rule, probe)
  {
    match rule
    case CocoapodsDuplicateRepos =>
      TwoAlternatives([Folded("duplicate sources")], [Folded("cocoapods/repos/cocoapods")], logs);
      OnePattern(Folded("duplicate sources"), logs);
      OnePattern(Folded("cocoapods/repos/cocoapods"), logs);
    case XcodeCommandLineTools =>
      OneAlternative([Exact("requires Xcode, but active developer directory"), Exact("CommandLineTools")], logs);
      TwoPatterns(Exact("requires Xcode, but active developer directory"), Exact("CommandLineTools"), logs);
    case ProvisioningProfileNotFound =>
      OneAlternative([Exact("No provisioning profile found after match")], logs);
      OnePattern(Exact("No provisioning profile found after match"), logs);
    case KeychainTimeout =>
      TwoAlternatives([Folded("keychain"), Folded("locked")], [Folded("keychain"), Folded("timeout")], logs);
      TwoPatterns(Folded("keychain"), Folded("locked"), logs);
      TwoPatterns(Folded("keychain"), Folded("timeout"), logs);
    case UnityTerminated =>
      TwoAlternatives([Exact("Terminated: 15")], [Exact("exit code 143")], logs);
      OnePattern(Exact("Terminated: 15"), logs);
      OnePattern(Exact("exit code 143"), logs);
    case PodInstallFailure =>
      TwoAlternatives([Folded("pod install"), Folded("error"), Exact("cdn.cocoapods.org")],
                      [Folded("pod install"), Folded("failed"), Exact("cdn.cocoapods.org")], logs);
      ThreePatterns(Folded("pod install"), Folded("error"), Exact("cdn.cocoapods.org"), logs);
      ThreePatterns(Folded("pod install"), Folded("failed"), Exact("cdn.cocoapods.org"), logs);
    case GitAuthentication =>
      TwoAlternatives([Exact("Permission denied (publickey)")], [Exact("Authentication failed")], logs);
      OnePattern(Exact("Permission denied (publickey)"), logs);
      OnePattern(Exact("Authentication failed"), logs);
    case CertificateNotFound =>
      TwoAlternatives([Folded("no local code signing identities")],
                      [Folded("certificate"), Folded("not found")], logs);
      OnePattern(Folded("no local code signing identities"), logs);
      TwoPatterns(Folded("certificate"), Folded("not found"), logs);
    case TransientNetworkError =>
      SingletonAlternatives(NetworkErrors, logs);
    case WindowsUnityNotFound =>
      TwoAlternatives([Folded("no unity installation found")], [Folded("unity.exe"), Folded("not found")], logs);
      OnePattern(Folded("no unity installation found"), logs);
      TwoPatterns(Folded("unity.exe"), Folded("not found"), logs);
    case WindowsIl2cppFailure =>
      SingletonAlternatives(Il2cppErrors, logs);
    case WindowsVisualStudioMissing =>
      TwoAlternatives([Folded("visual studio"), Folded("not found")],
                      [Folded("visual studio"), Folded("not installed")], logs);
      TwoPatterns(Folded("visual studio"), Folded("not found"), logs);
      TwoPatterns(Folded("visual studio"), Folded("not installed"), logs);
    case WindowsDiskSpace =>
      ThreeAlternatives([Folded("not enough space")], [Folded("disk full")], [Folded("no space left")], logs);
      OnePattern(Folded("not enough space"), logs);
      OnePattern(Folded("disk full"), logs);
      OnePattern(Folded("no space left"), logs);
  }

  // ---------------------------------------------------------------------
  // analyze_and_fix

  /** The first fix reported by `rules`, tried in order. */
  function FirstHit(rules: seq<Rule>, logs: string, probe: HostProbe): Option<Fix>
  {
    if rules == [] then None
    else if Detect(rules[0], logs, probe).Some? then Detect(rules[0], logs, probe)
    else FirstHit(rules[1..], logs, probe)
  }

  /** What `analyze_and_fix` returns for the fetched log: nothing for a
      missing or empty log, otherwise the first detector's fix. */
  function Analyze(logs: Option<string>, probe: HostProbe): Option<Fix>
  {
    if logs.None? || logs.value == "" then None else FirstHit(Rules, logs.value, probe)
  }

  /** FirstHit is first-match-wins: it is None iff no rule fires, and
      otherwise it is the fix of a rule that fires after none of the rules
      before it did. */
  lemma {:induction false} FirstHitIsFirstMatch(rules: seq<Rule>, logs: string, probe: HostProbe)
    ensures FirstHit(rules, logs, probe).None? <==>
            forall k :: 0 <= k < |rules| ==> Detect(rules[k], logs, probe).None?
    ensures FirstHit(rules, logs, probe).Some? ==>
            exists k :: 0 <= k < |rules| && Detect(rules[k], logs, probe) == FirstHit(rules, logs, probe)
                        && forall j :: 0 <= j < k ==> Detect(rules[j], logs, probe).None?
  {
    if rules != [] && Detect(rules[0], logs, probe).None? {
      FirstHitIsFirstMatch(rules[1..], logs, probe);
      assert forall k :: 1 <= k < |rules| ==> rules[k] == rules[1..][k - 1];
      if FirstHit(rules, logs, probe).Some? {
        var k :| 0 <= k < |rules[1..]| && Detect(rules[1..][k], logs, probe) == FirstHit(rules, logs, probe)
                 && forall j :: 0 <= j < k ==> Detect(rules[1..][j], logs, probe).None?;
        assert Detect(rules[k + 1], logs, probe) == FirstHit(rules, logs, probe);
      }
    } else if rules != [] {
      assert Detect(rules[0], logs, probe) == FirstHit(rules, logs, probe);
    }
  }

  /** No log, or an empty one, yields no fix whatever the host reports. */
  lemma EmptyLogsYieldNoFix(probe: HostProbe)
    ensures Analyze(None, probe) == None && Analyze(Some(""), probe) == None
  {
  }

  /** The IL2CPP entry "buildFailedException: il2cpp" has upper-case letters
      and is compared with the lower-cased log, so it never matches. */
  lemma Il2cppExceptionPatternNeverMatches(logs: string)
    ensures !Contains(Lower(logs), Il2cppErrors[2])
  {
    var p := Il2cppErrors[2];
    assert p[5] == 'F';
    if Contains(Lower(logs), p) {
      ContainedInLowerHasNoUpper(logs, p);
    }
  }

  /** Hence the IL2CPP detector behaves as if that entry were absent. */
  lemma Il2cppDetectorIgnoresExceptionPattern(logs: string)
    ensures ContainsAny(Lower(logs), Il2cppErrors) ==
            ContainsAny(Lower(logs), Il2cppErrors[..2] + Il2cppErrors[3..])
  {
    Il2cppExceptionPatternNeverMatches(logs);
    var rest := Il2cppErrors[..2] + Il2cppErrors[3..];
    assert rest == [Il2cppErrors[0], Il2cppErrors[1], Il2cppErrors[3], Il2cppErrors[4]];
    ContainsAnyIffSome(Lower(logs), Il2cppErrors);
    ContainsAnyIffSome(Lower(logs), rest);
    if ContainsAny(Lower(logs), Il2cppErrors) {
      var k :| 0 <= k < |Il2cppErrors| && Contains(Lower(logs), Il2cppErrors[k]);
      assert k != 2;
      assert Contains(Lower(logs), rest[if k < 2 then k else k - 1]);
    }
  }

  /** Any log that mentions "msvc" in any letter case gets a fix: the IL2CPP
      detector fires on it, so some detector at or before it wins. */
  lemma MsvcAlwaysYieldsAFix(logs: string, probe: HostProbe)
    requires Contains(Lower(logs), "msvc")
    ensures Analyze(Some(logs), probe).Some?
  {
    assert Contains(Lower(logs), Il2cppErrors[4]);
    ContainsAnyIffSome(Lower(logs), Il2cppErrors);
    assert Detect(Rules[10], logs, probe).Some?;
    FirstHitIsFirstMatch(Rules, logs, probe);
  }

  /** Across the whole table: a fix that asks for manual intervention never
      asks for a retry and vice versa; only the CocoaPods CDN rule waits 60 s
      and only the network rule waits 30 s before a retry. */
  lemma FixFlagsAreConsistent(rule: Rule, logs: string, probe: HostProbe)
    requires Detect(rule, logs, probe).Some?
    ensures Detect(rule, logs, probe).value.manualInterventionNeeded <==> !Detect(rule, logs, probe).value.retry
    ensures Detect(rule, logs, probe).value.delay == (
              if rule == PodInstallFailure then 60 else if rule == TransientNetworkError then 30 else 0)
    ensures Detect(rule, logs, probe).value.retry <==>
              !(rule == WindowsUnityNotFound || rule == WindowsVisualStudioMissing ||
                (rule == GitAuthentication && !probe.sshAuthenticated.value))
    ensures rule == UnityTerminated ==>
              (Detect(rule, logs, probe).value.issue.UnityTerminatedConflict? <==> probe.unityProcessCount.value > 2)
  {
    match rule
    case CocoapodsDuplicateRepos =>
    case XcodeCommandLineTools =>
    case ProvisioningProfileNotFound =>
    case KeychainTimeout =>
    case UnityTerminated =>
    case PodInstallFailure =>
    case GitAuthentication =>
    case CertificateNotFound =>
    case TransientNetworkError =>
    case WindowsUnityNotFound =>
    case WindowsIl2cppFailure =>
    case WindowsVisualStudioMissing =>
    case WindowsDiskSpace =>
  }

  /** The same for whatever `analyze_and_fix` returns. */
  lemma {:induction false} FirstHitFlagsAreConsistent(rules: seq<Rule>, logs: string, probe: HostProbe)
    requires FirstHit(rules, logs, probe).Some?
    ensures FirstHit(rules, logs, probe).value.manualInterventionNeeded <==> !FirstHit(rules, logs, probe).value.retry
    ensures FirstHit(rules, logs, probe).value.delay in {0, 30, 60}
  {
    if Detect(rules[0], logs, probe).Some? {
      FixFlagsAreConsistent(rules[0], logs, probe);
    } else {
      FirstHitFlagsAreConsistent(rules[1..], logs, probe);
    }
  }

  /**
   * One analysis of one failed job (the source's BuildFailureAnalyzer).
   */
  class BuildFailureAnalyzer {
    const app: string
    const runId: int
    const jobName: string
    var logs: Option<string>
    var fixApplied: Option<Fix>

    constructor (app: string, runId: int, jobName: string)
      ensures this.app == app && this.runId == runId && this.jobName == jobName
      ensures logs == None && fixApplied == None
    {
      this.app := app;
      this.runId := runId;
      this.jobName := jobName;
      logs := None;
      fixApplied := None;
    }

    /** `fetch_logs`: `reply` is the standard output of `gh run view --log`,
        or None when the command failed or raised. */
    method FetchLogs(reply: Option<string>) returns (ok: bool)
      modifies this`logs
      ensures ok <==> reply.Some?
      ensures logs == if ok then reply else old(logs)
    {
      ok := reply.Some?;
      if ok {
        logs := reply;
      }
    }

    /** `analyze_and_fix`: try the detectors in order; the first fix is
        returned and remembered in `fixApplied`. */
    method AnalyzeAndFix(probe: HostProbe) returns (r: Option<Fix>)
      modifies this`fixApplied
      ensures r == Analyze(logs, probe)
      ensures (logs == None || logs == Some("")) ==> r == None
      ensures r.Some? ==> exists k :: 0 <= k < |Rules| && Detect(Rules[k], logs.value, probe) == r
                                      && forall j :: 0 <= j < k ==> Detect(Rules[j], logs.value, probe).None?
      ensures fixApplied == if r.Some? then r else old(fixApplied)
    {
      if logs.None? || logs.value == "" {
        return None;
      }
      var text := logs.value;
      var i := 0;
      while i < |Rules|
        invariant 0 <= i <= |Rules|
        invariant forall j :: 0 <= j < i ==> Detect(Rules[j], text, probe).None?
        invariant FirstHit(Rules[i..], text, probe) == FirstHit(Rules, text, probe)
        invariant fixApplied == old(fixApplied)
      {
        var result := Detect(Rules[i], text, probe);
        assert Rules[i..][1..] == Rules[i + 1..];
        if result.Some? {
          fixApplied := result;
          return result;
        }
        i := i + 1;
      }
      r := None;
    }
  }
}
