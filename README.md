# Build dashboard and auto-fix agent — a Dafny model

This project models the decision logic of a small build-monitoring system
for a family of mobile/desktop game apps whose builds run on GitHub Actions:

- **The auto-fix agent** (`build-fix-agent.py`). For every failed job of a
  completed, failed run it fetches the log, tries thirteen failure
  detectors in a fixed order (CocoaPods duplicate repositories, Xcode
  developer directory, provisioning profile, keychain, Unity SIGTERM, pod
  install CDN error, Git authentication, certificates, transient network
  errors, and four Windows runner problems), records the attempt under
  "app:run_id" so the run is not analysed again, and asks for an iOS
  rebuild when the fix says retry. While any run of the app is queued,
  running or waiting, it does nothing.
- **The Python dashboard server** (`server.py`): the workflow-file map, the
  manual trigger (platform input map, cache invalidation) and
  `get_build_status`, which classifies the jobs of the newest three runs
  into iOS / AAB / Amazon entries and caches the result for 30 seconds.
- **The Node dashboard server** (`server.js`): `getBuildStatus`, which
  classifies the runs by display title and workflow name into iOS / AAB /
  Amazon / Windows entries and caches the result for 30 000 ms.

Files:

| file | module | contents |
|---|---|---|
| `wrappers.dfy` | `Wrappers` | `Option` |
| `text.dfy` | `Text` | substring search (`in`, `includes`), ASCII lower-casing |
| `fix_rules.dfy` | `FixRules` | the detectors, `analyze_and_fix`, the `BuildFailureAnalyzer` class |
| `fix_agent.dfy` | `FixAgent` | `check_app_failures`, the `attempted_fixes` table, `trigger_rebuild`'s map |
| `py_server.dfy` | `PyServer` | `server.py`: workflow map, trigger, status classification and cache |
| `js_server.dfy` | `JsServer` | `server.js`: status classification and cache |

Each imperative piece of the source is a method proved against a
specification function: `AnalyzeAndFix` against `Analyze`,
`CheckAppFailures` against `CheckOutcome`, the Python job loop against
`ClassifyJobs`, the two `GetBuildStatus` methods against `StatusReport` /
`JsStatusReport`. The properties are then proved about those functions.
Everything the programs learn from outside (the `gh` command results, the
host commands the detectors run, the clock) is a parameter.

A notable consequence of the code as written: the IL2CPP detector's list
contains "buildFailedException: il2cpp", but it is compared with the
lower-cased log, so that entry can never match
(`FixRules.Il2cppExceptionPatternNeverMatches`); the detector behaves as if
the entry were absent. Conversely, any log mentioning "msvc" in any case
gets some fix.

## Model

| member | source | states |
|---|---|---|
| Text.ContainsIffOccurs | build-fix-agent.py:74 | substring search: `Contains(s, p)` holds exactly when `p` occurs in `s` at some position (Python `in`, JavaScript `includes`) |
| Text.ContainsAnyIffSome | build-fix-agent.py:233-234 | a log matches a pattern list exactly when it contains one of the listed patterns |
| Text.Lower | build-fix-agent.py:74 | lower-casing keeps the length and maps every character through the ASCII case fold, leaving no upper-case letter |
| Text.NatToDecimal | build-fix-agent.py:158 | the f-string rendering of the Unity process count: decimal digits only, at least one, and no leading zero |
| Text.DecimalRoundTrip | build-fix-agent.py:150-158 | reading the rendered count back as `int` does gives the count |
| FixRules.FixCocoapodsDuplicateRepos | build-fix-agent.py:72-92 | the CocoaPods duplicate repositories detector; when it fires is stated by `FixRules.DetectMatchesSignature`, its verdict flags by `FixRules.FixFlagsAreConsistent` |
| FixRules.FixXcodeCommandLineTools | build-fix-agent.py:94-105 | the Xcode developer directory detector; when it fires is stated by `FixRules.DetectMatchesSignature`, its verdict flags by `FixRules.FixFlagsAreConsistent` |
| FixRules.FixProvisioningProfileNotFound | build-fix-agent.py:107-118 | the provisioning profile not found detector; when it fires is stated by `FixRules.DetectMatchesSignature`, its verdict flags by `FixRules.FixFlagsAreConsistent` |
| FixRules.FixKeychainTimeout | build-fix-agent.py:120-138 | the keychain timeout detector; when it fires is stated by `FixRules.DetectMatchesSignature`, its verdict flags by `FixRules.FixFlagsAreConsistent` |
| FixRules.FixUnityTerminated | build-fix-agent.py:140-168 | the Unity terminated by SIGTERM detector; when it fires is stated by `FixRules.DetectMatchesSignature`; by `FixRules.FixFlagsAreConsistent` it always retries, and its verdict is a process conflict exactly when more than 2 Unity processes run |
| FixRules.FixPodInstallFailure | build-fix-agent.py:170-182 | the pod install CDN failure detector; when it fires is stated by `FixRules.DetectMatchesSignature`, its verdict flags by `FixRules.FixFlagsAreConsistent` |
| FixRules.FixGitAuthentication | build-fix-agent.py:184-209 | the Git authentication detector; when it fires is stated by `FixRules.DetectMatchesSignature`; by `FixRules.FixFlagsAreConsistent` it retries exactly when SSH authenticates and asks for manual intervention otherwise |
| FixRules.FixCertificateNotFound | build-fix-agent.py:211-221 | the signing certificate not found detector; when it fires is stated by `FixRules.DetectMatchesSignature`, its verdict flags by `FixRules.FixFlagsAreConsistent` |
| FixRules.FixTransientNetworkError | build-fix-agent.py:223-243 | the transient network error detector; when it fires is stated by `FixRules.DetectMatchesSignature`, its verdict flags by `FixRules.FixFlagsAreConsistent` |
| FixRules.FixWindowsUnityNotFound | build-fix-agent.py:245-255 | the Unity missing on the Windows runner detector; when it fires is stated by `FixRules.DetectMatchesSignature`, its verdict flags by `FixRules.FixFlagsAreConsistent` |
| FixRules.FixWindowsIl2cppFailure | build-fix-agent.py:257-275 | the IL2CPP / MSVC failure on Windows detector; when it fires is stated by `FixRules.DetectMatchesSignature`, its verdict flags by `FixRules.FixFlagsAreConsistent` |
| FixRules.FixWindowsVisualStudioMissing | build-fix-agent.py:277-287 | the Visual Studio missing on Windows detector; when it fires is stated by `FixRules.DetectMatchesSignature`, its verdict flags by `FixRules.FixFlagsAreConsistent` |
| FixRules.FixWindowsDiskSpace | build-fix-agent.py:289-299 | the Windows disk space detector; when it fires is stated by `FixRules.DetectMatchesSignature`, its verdict flags by `FixRules.FixFlagsAreConsistent` |
| FixRules.Detect | build-fix-agent.py:48-62 | runs the detector a table entry names; specified by `FixRules.DetectMatchesSignature` |
| FixRules.FirstHit | build-fix-agent.py:64-70 | the detector loop, first fix wins; specified by `FixRules.FirstHitIsFirstMatch` |
| FixRules.Analyze | build-fix-agent.py:42-70 | `analyze_and_fix` on a fetched log; specified by `FixRules.EmptyLogsYieldNoFix` and `FixRules.FirstHitIsFirstMatch` |
| FixRules.IssueText | build-fix-agent.py:86-296 | the `issue` text of each verdict dictionary, printed by the agent; used by `FixRules.Record` and specified by `FixRules.IssueTextIdentifiesIssue` |
| FixRules.ActionText | build-fix-agent.py:87-296 | the `action` text of each verdict dictionary, printed by the agent; used by `FixRules.Record` |
| FixRules.NoteText | build-fix-agent.py:158-297 | the `note` text, present on four verdicts; specified by `FixRules.NotesReportTheirIssue` |
| FixRules.IssueTextIdentifiesIssue | build-fix-agent.py:86-296 | two verdicts with the same printed issue text are the same verdict, except Unity conflict verdicts with different process counts |
| FixRules.NotesReportTheirIssue | build-fix-agent.py:155-297 | exactly the Unity conflict, certificate, IL2CPP and disk-space verdicts carry a note; the Unity conflict note is the process count followed by " Unity processes running", and its digits read back as that count |
| FixRules.Record | build-fix-agent.py:85-298 | the dictionary a detector returns: issue and action texts, retry, delay, note and the two flags; specified by `FixRules.RecordIdentifiesFix` |
| FixRules.RecordIdentifiesFix | build-fix-agent.py:85-298 | the dictionary determines the verdict: two fixes with equal dictionaries are equal, down to the Unity process count |
| FixRules.DetectMatchesSignature | build-fix-agent.py:72-299 | each of the thirteen detectors reports a fix exactly when its declared pattern signature (case-folded or exact substrings, in disjunctive form) matches the log and the host commands it runs succeed |
| FixRules.FixFlagsAreConsistent | build-fix-agent.py:72-299 | every detector's fix asks for manual intervention exactly when it does not ask for a retry; it retries unless the rule is Unity missing on Windows, Visual Studio missing, or Git authentication with SSH not authenticating; only the CocoaPods CDN fix waits 60 s and only the network fix waits 30 s; the Unity termination verdict is a conflict exactly when more than 2 Unity processes run |
| FixRules.FirstHitIsFirstMatch | build-fix-agent.py:64-68 | the detectors are tried in order and the first fix wins: no fix iff no detector fires, otherwise the fix of a detector all of whose predecessors gave none |
| FixRules.FirstHitFlagsAreConsistent | build-fix-agent.py:64-68 | the fix `analyze_and_fix` returns has manual intervention iff no retry, and a delay of 0, 30 or 60 s |
| FixRules.EmptyLogsYieldNoFix | build-fix-agent.py:44-45 | a missing or empty log yields no fix whatever the host reports |
| FixRules.Il2cppExceptionPatternNeverMatches | build-fix-agent.py:259-267 | the entry "buildFailedException: il2cpp" never occurs in a lower-cased log |
| FixRules.Il2cppDetectorIgnoresExceptionPattern | build-fix-agent.py:259-267 | the IL2CPP detector fires on exactly the logs it would fire on without that entry |
| FixRules.MsvcAlwaysYieldsAFix | build-fix-agent.py:259-275 | every log containing "msvc" in any letter case gets a fix from `analyze_and_fix` |
| FixRules.BuildFailureAnalyzer.constructor | build-fix-agent.py:22-27 | a new analyzer has its app, run and job, and neither logs nor an applied fix |
| FixRules.BuildFailureAnalyzer.FetchLogs | build-fix-agent.py:29-40 | succeeds exactly when the log command exits with code 0, and its standard output, even when empty, becomes the analyzer's log; otherwise the log is unchanged |
| FixRules.BuildFailureAnalyzer.AnalyzeAndFix | build-fix-agent.py:42-70 | returns the first fix of the detector table on the fetched log (none for a missing or empty log) and remembers it in `fixApplied`, which is unchanged when there is none |
| FixAgent.RebuildWorkflow | build-fix-agent.py:414-421 | `trigger_rebuild`'s workflow map; specified by `FixAgent.RebuildWorkflowAgreesWithDashboard` |
| FixAgent.JobStep | build-fix-agent.py:372-404 | one job of a failed run: analysed when it failed and its log was fetched; specified by `FixAgent.JobStepRecords` and `FixAgent.JobStepRebuilds` |
| FixAgent.AnalyzeJobs | build-fix-agent.py:372-404 | the job loop of one run; specified by `FixAgent.AnalyzeJobsRecords`, `FixAgent.AnalyzeJobsTouchesOnlyKey` and `FixAgent.AnalyzeJobsRebuilds` |
| FixAgent.ScanRuns | build-fix-agent.py:350-404 | the run loop with the skip of recorded keys; specified by `FixAgent.ScanKeepsEarlierAttempts`, `FixAgent.NewAttemptsAreFailedRuns`, `FixAgent.KnownFailuresAreSkipped`, `FixAgent.ScanSettlesRuns`, `FixAgent.SettledRunsAreSkipped`, `FixAgent.RebuildsNeedRetry` and `FixAgent.RetryingFailureIsRebuilt` |
| FixAgent.CheckOutcome | build-fix-agent.py:330-406 | the whole check; specified by `FixAgent.ActiveRunBlocksAnalysis` and the scan lemmas, and implemented by `FixAgent.Agent.CheckAppFailures` |
| FixAgent.RebuildWorkflowAgreesWithDashboard | build-fix-agent.py:414-421 | the agent's rebuild workflow map and the dashboard's workflow map name the same file for every app |
| FixAgent.ActiveRunBlocksAnalysis | build-fix-agent.py:345-348 | while any listed run is queued, in progress or waiting, the check records nothing and requests no rebuild |
| FixAgent.KnownFailuresAreSkipped | build-fix-agent.py:356-360 | when every completed failure already has an attempt recorded, the check changes nothing |
| FixAgent.AnalyzeJobsTouchesOnlyKey | build-fix-agent.py:372-406 | the job loop of one run writes only that run's key and only appends rebuild requests |
| FixAgent.ScanKeepsEarlierAttempts | build-fix-agent.py:350-406 | attempts recorded earlier are never removed or changed, and earlier rebuild requests stay as they were |
| FixAgent.NewAttemptsAreFailedRuns | build-fix-agent.py:356-406 | every newly recorded key is this app and the id of a listed run that completed with conclusion "failure"; the converse is `FixAgent.ScanSettlesRuns` |
| FixAgent.AnalyzeJobsRebuilds | build-fix-agent.py:372-399 | every rebuild a run's jobs request is this app's workflow for iOS after 0, 30 or 60 s; there is none when no failed job's fix says retry and at least one when some failed job's fix does |
| FixAgent.JobStepRebuilds | build-fix-agent.py:392-399 | one job adds at most one rebuild request, this app's workflow for "ios" after 0, 30 or 60 s: exactly one when it failed and its fix says retry, none otherwise |
| FixAgent.JobStepRecords | build-fix-agent.py:373-406 | a failed job whose log was fetched records, under the run's key and stamped with the current time, the fix its analysis returns (None when no rule fires), replacing what the key held; any other job changes nothing |
| FixAgent.LastAnalysis | build-fix-agent.py:372-379 | the last job of a run that the agent analyses: None exactly when no job failed with a fetched log, otherwise such a job of the list |
| FixAgent.AnalyzeJobsRecords | build-fix-agent.py:372-406 | the job loop leaves the state unchanged when no job is analysed, and otherwise leaves under the run's key the attempt of the last analysed job, stamped with the current time |
| FixAgent.RetryingFailureIsRebuilt | build-fix-agent.py:356-399 | a completed failure not yet recorded, whose listed jobs include a failed job whose fix says retry, gets at least one rebuild request, when no earlier run shares its id and no earlier completed failure's job list is unparsable |
| FixAgent.ScanSettlesRuns | build-fix-agent.py:356-406 | when no completed failure's job list is unparsable, every completed failure with a failed job whose log was fetched ends recorded under its key, and every listed run ends in a state a later check skips |
| FixAgent.SettledRunsAreSkipped | build-fix-agent.py:356-406 | a check over runs that are all recorded, not failed, unlistable or without an analysable job changes nothing and requests no rebuild |
| FixAgent.CheckTwiceChangesNothing | build-fix-agent.py:330-406 | when no completed failure's job list is unparsable, running the check again on the same run list, at any later time, changes nothing and requests no rebuild |
| FixAgent.RebuildsNeedRetry | build-fix-agent.py:356-399 | across the whole check, rebuild requests dispatch this app's workflow for "ios" with a 0, 30 or 60 s wait, and exist only when a failed job of an analysed run (a completed failure not yet recorded whose jobs were listed) has a fix that says retry; runs already recorded or not failed cause none; the converse is `FixAgent.RetryingFailureIsRebuilt` |
| FixAgent.Agent.constructor | build-fix-agent.py:17 | the attempts table starts empty |
| FixAgent.Agent.CheckAppFailures | build-fix-agent.py:330-408 | the new table and the rebuild requests are those of `CheckOutcome`; with an active run nothing changes; earlier attempts are kept unchanged; every request is this app's workflow for "ios" |
| PyServer.WorkflowFile | server.py:30-36 | "kenocasino" maps to "keno-builds.yml", "blackjack21" to "blackjack-builds.yml", and every other app to its own name followed by "-builds.yml" |
| PyServer.PlatformInput | server.py:44-51 | the platform input differs from the platform exactly for "all", which expands to "ios,aab,amazon" |
| PyServer.AcceptedPlatformInputs | server.py:202-204 | for each platform the trigger route accepts, the workflow input is one of "ios,aab,amazon", "ios", "aab", "amazon" |
| PyServer.AcceptedPlatformInputNamesIos | server.py:202-204 | among the accepted platforms, the workflow input names iOS exactly for "all" and "ios" |
| PyServer.DispatchFor | server.py:40-53 | the dispatch request names a "-builds.yml" workflow, and for an accepted platform its input is one of the four known inputs and names iOS exactly for "all" and "ios" |
| PyServer.JobTarget | server.py:114-122 | the if/elif chain; specified by `PyServer.ClassifyJobChangesAtMostOne` and `PyServer.FilledIosFallsThroughToAab` |
| PyServer.ClassifyJob | server.py:106-122 | one job: a null name raises, "setup" is skipped, otherwise the chain; specified by `PyServer.SetupJobIsSkipped` and `PyServer.ClassifyJobChangesAtMostOne` |
| PyServer.ClassifyJobs | server.py:105-124 | the job loop of one run; specified by `PyServer.ClassifyJobsIsAssign` and the `ClassifyJobs` lemmas, and implemented by `PyServer.ClassifyRunJobs` |
| PyServer.ScanRuns | server.py:93-124 | the run loop over the newest three runs; specified by `PyServer.ScanRunsIsAssign` and the `ScanRuns` lemmas |
| PyServer.StatusReport | server.py:67-132 | the value `get_build_status` computes when it fetches; specified by `PyServer.EachPlatformTakesItsFirstJob`, `PyServer.ScannedReportIsConsistent` and `PyServer.OnlyNewestThreeRunsMatter` |
| PyServer.JobStatus | server.py:107 | the status reported for a job is never empty: a missing or empty value reads "unknown" |
| PyServer.BuildPrefixIsRedundant | server.py:114-122 | a job name matches a platform exactly when it contains the bare platform word; the "build-" alternatives add nothing |
| PyServer.FirstThree | server.py:93 | at most three runs are scanned: the first three, or all when there are fewer |
| PyServer.SetupNamesNoPlatform | server.py:110-122 | the name "setup" matches none of the platforms |
| PyServer.SetupJobIsSkipped | server.py:110-111 | a job named "setup" in any letter case leaves the status unchanged |
| PyServer.ClassifyJobChangesAtMostOne | server.py:114-122 | one job changes at most one platform, only one that had no run, giving it this job's status and run id |
| PyServer.FilledIosFallsThroughToAab | server.py:114-119 | a job naming both iOS and AAB fills AAB when iOS already has a run and AAB has none |
| PyServer.ClassifyJobsKeepsFilled | server.py:105-122 | within a run's jobs, a platform that has a run is never overwritten |
| PyServer.ScanRunsKeepsFilled | server.py:93-124 | across runs, a platform that has a run is never overwritten |
| PyServer.ClassifyJobsConsistent | server.py:105-122 | the job loop keeps the slot invariant: no run means "pending", and no status is empty |
| PyServer.ScanRunsConsistent | server.py:93-124 | the run loop keeps the same slot invariant |
| PyServer.ClassifyJobsRunIds | server.py:105-122 | a slot changed by a run's jobs carries that run's id |
| PyServer.ScanRunsRunIds | server.py:93-124 | every changed slot carries the id of one of the scanned runs |
| PyServer.FirstNamingIsFirst | server.py:114-122 | the reference search returns the first job naming the platform that is not already taken, and none when every such job is taken |
| PyServer.ClassifyJobsIsAssign | server.py:105-122 | a run's job loop is the if/elif chain applied, in order, to the jobs it examines: setup jobs and the jobs from a raising name on are not examined |
| PyServer.ScanRunsIsAssign | server.py:93-124 | a completed run loop is the chain applied to the examined jobs of all scanned runs in scan order; runs whose jobs are unavailable or malformed contribute none |
| PyServer.AssignMatchesTakers | server.py:105-122 | from the all-pending start the chain gives iOS the first job naming iOS, AAB the first naming AAB other than the iOS taker, Amazon the first naming Amazon other than both takers, and "pending" to a platform no job takes |
| PyServer.EachPlatformTakesItsFirstJob | server.py:83-128 | each platform of a scanned report holds the status and run of its taker among the newest three runs' examined jobs, or "pending" with no run |
| PyServer.ScannedReportIsConsistent | server.py:83-128 | a scanned report satisfies the slot invariant and every run id in it is one of the newest three runs' ids |
| PyServer.OnlyNewestThreeRunsMatter | server.py:93 | runs after the third do not affect the report |
| PyServer.ClassifyRunJobs | server.py:105-124 | the job loop of one run computes `ClassifyJobs`: setup jobs skipped, the if/elif chain, and a job whose name raises abandoning the rest of the run |
| PyServer.PyStatusServer.constructor | server.py:15-16 | both cache tables start empty |
| PyServer.PyStatusServer.GetBuildStatus | server.py:67-132 | a report less than 30 s old is served from the cache unchanged; otherwise the report is `StatusReport` of the replies, written to both tables only when the scan completed, and the failure paths leave the cache untouched |
| PyServer.PyStatusServer.TriggerAppBuild | server.py:38-65 | issues the dispatch request; on success removes exactly this app's entries from both tables so the next status request fetches; on failure reports stderr (or stdout) or the exception and changes nothing |
| JsServer.RunStatus | server.js:51 | a run's status value, its conclusion once completed; used by `JsServer.TryPlatformEffect` |
| JsServer.PlatformTest | server.js:54-66 | one platform's title and workflow-name test, reading the workflow name only when the title test fails; specified by `JsServer.JsStepThrowsIff` |
| JsServer.TryPlatform | server.js:54-69 | one `if` of the callback; specified by `JsServer.TryPlatformEffect` |
| JsServer.JsStep | server.js:49-70 | the `forEach` callback on one run; specified by `JsServer.JsStepFillsEachMatchingPlatform` and `JsServer.JsStepThrowsIff`, and implemented by `JsServer.ClassifyRun` |
| JsServer.JsScan | server.js:49-70 | the `forEach` over all runs; specified by `JsServer.JsScanKeepsFilled`, `JsServer.JsScanUnmatchedUnchanged` and `JsServer.JsScanFirstMatch` |
| JsServer.JsStatusReport | server.js:28-78 | the value `getBuildStatus` resolves to when it fetches; specified by `JsServer.ScannedReportIsFirstMatch` |
| JsServer.TryPlatformEffect | server.js:54-69 | one platform test changes only its own platform, and only when that platform is unfilled and the run matches |
| JsServer.JsStepFillsEachMatchingPlatform | server.js:49-70 | the four tests are independent: a run fills every unfilled platform it matches, possibly several, and leaves the others as they were |
| JsServer.JsStepThrowsIff | server.js:50-66 | the callback throws exactly when the title is missing, or the workflow name is missing and has to be read for an unfilled iOS or Windows entry whose title test failed |
| JsServer.JsScanKeepsFilled | server.js:49-70 | a platform whose run id is truthy is never overwritten |
| JsServer.JsScanUnmatchedUnchanged | server.js:49-70 | a platform no run matches keeps its entry |
| JsServer.JsScanFirstMatch | server.js:49-70 | with truthy run ids, each unfilled platform ends with the status and id of the first run, in list order, that matches it |
| JsServer.ScannedReportIsFirstMatch | server.js:37-70 | in a scanned report each platform holds its first matching run (truthy ids), and a platform no run matches is "pending" with a null run |
| JsServer.ClassifyRun | server.js:49-70 | the `forEach` callback throws or updates the result exactly as `JsStep` says |
| JsServer.JsStatusServer.constructor | server.js:16-17 | both cache tables start empty |
| JsServer.JsStatusServer.GetBuildStatus | server.js:19-81 | a cached report with a truthy fetch time less than 30 000 ms old is served unchanged; otherwise the report is `JsStatusReport` of the reply, cached only after a full scan; an exec error, a parse error or a throwing callback gives all-pending and leaves the cache untouched |

## Left out

- HTTP handlers, routing, CORS, serving the dashboard page and server start-up are not modelled; only the trigger route's platform whitelist appears, as `PyServer.AcceptedPlatform`.
- Running `gh`, `ps`, `ssh`, `security` and file-system calls: their outcomes are inputs (`RunsQuery`, `JobsQuery`, `AgentJob.logs`, `HostProbe`, `RunsReply`, `JobsReply`, `DispatchOutcome`, `ExecReply`), and parsing JSON is replaced by those datatypes.
- The detectors' side effects (removing the CocoaPods repository, deleting keychains) are not performed; only whether they succeeded, as `HostProbe`, decides the verdict.
- The verdict texts (`issue`, `action`, `note`) are functions of the `Issue` value, assembled with the flags by `FixRules.Record`; the key `workflow_update_needed` (always false) is not carried.
- `trigger_rebuild` is represented by the request it would dispatch (`Rebuild`); the `time.sleep(delay)` before it, its success or failure (only printed) and the monitoring loop with its 30 s sleep are not modelled.
- Printing and logging are left out.
- Clocks: each call takes one `now`; where the source reads the clock twice (the freshness test and the cache write, or each attempt of one check), the model uses the same instant.
- Concurrency: the servers' handlers may run on several threads sharing the cache dictionaries; the model treats each call as atomic.
- Lower-casing covers ASCII letters only; Python's and JavaScript's full Unicode case mapping is not modelled.
- FixAgent.RetryingFailureIsRebuilt: asks that no earlier completed failure has an unparsable job list at all, where the check would only stop at one whose key is not yet recorded.
- FixAgent.ScanSettlesRuns: asks that no completed failure's job list is unparsable; after an unparsable one the check stops, and the runs after it are left for the next check.
- FixAgent.CheckTwiceChangesNothing: asks the same, for the same reason.
- FixAgent.Agent.CheckAppFailures: exceptions other than an unparsable job list (a run without "status" or "databaseId", a job list that is not a list) are not modelled; run ids and statuses are always present.
- PyServer.PyStatusServer.GetBuildStatus: a job that is not a JSON object, or a `databaseId` that is null, are not modelled separately; a null job name is the one per-job exception, and a missing `databaseId` gives the all-pending answer.
- JsServer.JsStatusServer.GetBuildStatus: the status value of a run is kept as an optional string; JSON values of other types in `status`, `conclusion` or `databaseId` are not modelled.
- The key "app:run_id" is modelled as the pair (app, run id); the app names never contain ':', so the two coincide.
- Behaviour the code does not have is not modelled: an adaptive cache lifetime, a rate-limit cooldown, signals from a local runner, a fallback for skipped runs, and a check for an already running build before a trigger.
