/**
 * The Python dashboard server (server.py): the workflow-file map, the
 * manual trigger with its cache invalidation, and the build-status
 * derivation with its 30-second cache.
 *
 * `get_build_status` scans the newest three runs, asks for each run's jobs
 * and classifies every job by its lower-cased name through an if/elif chain
 * (iOS first, then AAB, then Amazon); a platform, once given a run, is never
 * overwritten.  The `gh` command results are inputs (`RunsReply`,
 * `JobsReply`, `DispatchOutcome`); `time.time()` is the parameter `now`.
 */
module PyServer {
  import opened Wrappers
  import opened Text

  // ---------------------------------------------------------------------
  // Workflow file and platform input

  /** `get_workflow_file`: two apps have their own workflow names, every
      other app uses "<app>-builds.yml". */
  function WorkflowFile(app: string): (w: string)
    ensures |w| >= 11 && w[|w| - 11..] == "-builds.yml"
    ensures app == "kenocasino" ==> w == "keno-builds.yml"
    ensures app == "blackjack21" ==> w == "blackjack-builds.yml"
    ensures app != "kenocasino" && app != "blackjack21" ==> w[..|w| - 11] == app
  {
    if app == "kenocasino" then "keno-builds.yml"
    else if app == "blackjack21" then "blackjack-builds.yml"
    else app + "-builds.yml"
  }

  /** `trigger_app_build`'s platform map: "all" expands to the three
      platforms, anything else passes through. */
  function PlatformInput(platform: string): (r: string)
    ensures r == platform <==> platform != "all"
    ensures platform == "all" ==> r == "ios,aab,amazon"
  {
    if platform == "all" then "ios,aab,amazon" else platform
  }

  /** The platforms the trigger route accepts. */
  predicate AcceptedPlatform(platform: string)
  {
    platform == "all" || platform == "ios" || platform == "aab" || platform == "amazon"
  }

  /** For every platform the route accepts, the workflow input names only
      the three known platforms. */
  lemma AcceptedPlatformInputs(platform: string)
    ensures AcceptedPlatform(platform) ==> PlatformInput(platform) in {"ios,aab,amazon", "ios", "aab", "amazon"}
  {
  }

  /** Among the accepted platforms, the workflow input names iOS exactly
      for "all" and "ios". */
  lemma AcceptedPlatformInputNamesIos(platform: string)
    ensures AcceptedPlatform(platform) ==>
              (Contains(PlatformInput(platform), "ios") <==> platform == "all" || platform == "ios")
  {
    if platform == "all" {
      assert "ios,aab,amazon"[..3] == "ios";
    } else if platform == "ios" {
      assert "ios"[..3] == "ios";
    } else if platform == "aab" || platform == "amazon" {
      NotContainedWithoutFirstChar(platform, "ios");
    }
  }

  /** The `gh workflow run` request: workflow, repository and the
      build_platforms input. */
  datatype Dispatch = Dispatch(workflow: string, repo: string, buildPlatforms: string)

  /** The request `trigger_app_build` issues: the app's workflow in the
      app's repository, with the platform input the map gives. */
  function DispatchFor(app: string, platform: string): (d: Dispatch)
    ensures |d.workflow| >= 11 && d.workflow[|d.workflow| - 11..] == "-builds.yml"
    ensures AcceptedPlatform(platform) ==> d.buildPlatforms in {"ios,aab,amazon", "ios", "aab", "amazon"}
    ensures AcceptedPlatform(platform) ==> (Contains(d.buildPlatforms, "ios") <==> platform == "all" || platform == "ios")
  {
    AcceptedPlatformInputs(platform);
    AcceptedPlatformInputNamesIos(platform);
    Dispatch(WorkflowFile(app), "LuckyJackpotCasino/" + app, PlatformInput(platform))
  }

  /** What running the dispatch command gave. */
  datatype DispatchOutcome =
    | Accepted                                   // exit code 0
    | Rejected(stderr: string, stdout: string)   // non-zero exit code
    | Raised(message: string)                    // the call raised (a timeout, say)

  datatype TriggerResult = Triggered(app: string, platform: string) | TriggerFailed(error: string)

  // ---------------------------------------------------------------------
  // Build status

  datatype Platform = Ios | Aab | Amazon

  /** One platform's entry: its status text and the run it came from
      (`None` is Python's `None`). */
  datatype PySlot = PySlot(status: string, run: Option<int>)

  datatype PyStatus = PyStatus(ios: PySlot, aab: PySlot, amazon: PySlot)

  /** What `get_build_status` returns: the short all-pending map of the
      failure paths, or the full map of a completed scan. */
  datatype PyReport = AllPending | Scanned(status: PyStatus)

  const Pending := PySlot("pending", None)

  const InitialStatus := PyStatus(Pending, Pending, Pending)

  function Slot(st: PyStatus, p: Platform): PySlot
  {
    match p
    case Ios => st.ios
    case Aab => st.aab
    case Amazon => st.amazon
  }

  function WithSlot(st: PyStatus, p: Platform, s: PySlot): (r: PyStatus)
    ensures Slot(r, p) == s
    ensures forall q :: q != p ==> Slot(r, q) == Slot(st, q)
  {
    match p
    case Ios => st.(ios := s)
    case Aab => st.(aab := s)
    case Amazon => st.(amazon := s)
  }

  /** `status['<p>Run'] is not None`. */
  predicate Filled(st: PyStatus, p: Platform)
  {
    Slot(st, p).run.Some?
  }

  /** A job as `gh run view --json jobs` lists it.  `name` is None when the
      JSON value is null (its `lower()` raises); a missing name is "". */
  datatype PyJob = PyJob(name: Option<string>, status: Option<string>, conclusion: Option<string>)

  datatype JobsReply =
    | JobsUnavailable        // non-zero exit code or blank output: the run is skipped
    | JobsMalformed          // not a JSON object: the per-run handler skips the run
    | JobsTimedOut           // the command raised: the outer handler gives up
    | Jobs(jobs: seq<PyJob>)

  /** A listed run; `id` is None when "databaseId" is missing. */
  datatype PyRun = PyRun(id: Option<int>, jobs: JobsReply)

  datatype RunsReply =
    | RunsUnavailable        // non-zero exit code or blank output
    | RunsRaised             // unparsable output, or the command raised
    | Runs(runs: seq<PyRun>)

  /** A job's status text: its conclusion once completed, else its status;
      a missing or empty value reads "unknown". */
  function JobStatus(job: PyJob): (s: string)
    ensures s != ""
  {
    var raw := if job.status == Some("completed") then job.conclusion else job.status;
    if raw.Some? && raw.value != "" then raw.value else "unknown"
  }

  predicate NamesIos(name: string)
  {
    Contains(name, "build-ios") || Contains(name, "ios")
  }

  predicate NamesAab(name: string)
  {
    Contains(name, "build-aab") || Contains(name, "aab")
  }

  predicate NamesAmazon(name: string)
  {
    Contains(name, "build-amazon") || Contains(name, "amazon")
  }

  /** The "build-<p>" alternatives add nothing: a name matches a platform
      exactly when it contains the bare platform word. */
  lemma BuildPrefixIsRedundant(name: string)
    ensures NamesIos(name) <==> Contains(name, "ios")
    ensures NamesAab(name) <==> Contains(name, "aab")
    ensures NamesAmazon(name) <==> Contains(name, "amazon")
  {
    if Contains(name, "build-ios") {
      assert "build-ios" == "build-" + "ios";
      ContainsSuffixOf(name, "build-", "ios");
    }
    if Contains(name, "build-aab") {
      assert "build-aab" == "build-" + "aab";
      ContainsSuffixOf(name, "build-", "aab");
    }
    if Contains(name, "build-amazon") {
      assert "build-amazon" == "build-" + "amazon";
      ContainsSuffixOf(name, "build-", "amazon");
    }
  }

  /** The if/elif chain: the first branch whose name test holds and whose
      platform is still unfilled. */
  function JobTarget(name: string, st: PyStatus): Option<Platform>
  {
    if NamesIos(name) && !Filled(st, Ios) then Some(Ios)
    else if NamesAab(name) && !Filled(st, Aab) then Some(Aab)
    else if NamesAmazon(name) && !Filled(st, Amazon) then Some(Amazon)
    else None
  }

  /** One job of run `runId`; None when reading its name raises. */
  function ClassifyJob(runId: int, job: PyJob, st: PyStatus): Option<PyStatus>
  {
    if job.name.None? then None
    else
      var name := Lower(job.name.value);
      if name == "setup" then Some(st)
      else match JobTarget(name, st)
        case None => Some(st)
        case Some(p) => Some(WithSlot(st, p, PySlot(JobStatus(job), Some(runId))))
  }

  /** The job loop of one run; an exception abandons the rest of the run's
      jobs and keeps what was filled so far. */
  function ClassifyJobs(runId: int, jobs: seq<PyJob>, st: PyStatus): PyStatus
  {
    if jobs == [] then st
    else match ClassifyJob(runId, jobs[0], st)
      case None => st
      case Some(next) => ClassifyJobs(runId, jobs[1..], next)
  }

  /** The run loop; None when the outer handler would catch an exception. */
  function ScanRuns(runs: seq<PyRun>, st: PyStatus): Option<PyStatus>
  {
    if runs == [] then Some(st)
    else if runs[0].id.None? then None
    else match runs[0].jobs
      case JobsTimedOut => None
      case Jobs(jobs) => ScanRuns(runs[1..], ClassifyJobs(runs[0].id.value, jobs, st))
      case _ => ScanRuns(runs[1..], st)
  }

  /** `runs[:3]`. */
  function FirstThree(runs: seq<PyRun>): (r: seq<PyRun>)
    ensures |r| <= 3 && |r| <= |runs| && r == runs[..|r|]
    ensures |runs| >= 3 ==> |r| == 3
    ensures |runs| < 3 ==> r == runs
  {
    if |runs| < 3 then runs else runs[..3]
  }

  /** The value `get_build_status` computes from the `gh` replies. */
  function StatusReport(reply: RunsReply): PyReport
  {
    match reply
    case Runs(runs) =>
      var r := ScanRuns(FirstThree(runs), InitialStatus);
      if r.Some? then Scanned(r.value) else AllPending
    case _ => AllPending
  }

  // ---------------------------------------------------------------------
  // Reference definition: the jobs the scan looks at

  /** A job the classifier looked at: its run, lower-cased name and status. */
  datatype Seen = Seen(runId: int, name: string, status: string)

  /** The jobs of one run the chain is tried on: up to the first job whose
      name raises, without the "setup" jobs. */
  function ExaminedJobs(runId: int, jobs: seq<PyJob>): seq<Seen>
  {
    if jobs == [] || jobs[0].name.None? then []
    else
      var name := Lower(jobs[0].name.value);
      (if name == "setup" then [] else [Seen(runId, name, JobStatus(jobs[0]))])
      + ExaminedJobs(runId, jobs[1..])
  }

  function ExaminedRuns(runs: seq<PyRun>): seq<Seen>
  {
    if runs == [] then []
    else
      (if runs[0].id.Some? && runs[0].jobs.Jobs? then ExaminedJobs(runs[0].id.value, runs[0].jobs.jobs) else [])
      + ExaminedRuns(runs[1..])
  }

  /** Whether a (lower-cased) job name mentions platform `p`. */
  predicate Names(p: Platform, name: string)
  {
    match p
    case Ios => NamesIos(name)
    case Aab => NamesAab(name)
    case Amazon => NamesAmazon(name)
  }

  /** The index, from `from` on, of the first examined job whose name
      mentions `p` and that is not one of the jobs in `taken`. */
  function FirstNaming(seen: seq<Seen>, p: Platform, taken: set<int>, from: nat): Option<nat>
    decreases |seen| - from
  {
    if from >= |seen| then None
    else if Names(p, seen[from].name) && from !in taken then Some(from)
    else FirstNaming(seen, p, taken, from + 1)
  }

  function Taken(at: Option<nat>): set<int>
  {
    if at.Some? then {at.value} else {}
  }

  /** The job that takes iOS: the first one whose name mentions iOS. */
  function IosTaker(seen: seq<Seen>): Option<nat>
  {
    FirstNaming(seen, Ios, {}, 0)
  }

  /** The job that takes AAB: the first one naming AAB, other than the job
      that took iOS. */
  function AabTaker(seen: seq<Seen>): Option<nat>
  {
    FirstNaming(seen, Aab, Taken(IosTaker(seen)), 0)
  }

  /** The job that takes Amazon: the first one naming Amazon, other than the
      jobs that took iOS and AAB. */
  function AmazonTaker(seen: seq<Seen>): Option<nat>
  {
    FirstNaming(seen, Amazon, Taken(IosTaker(seen)) + Taken(AabTaker(seen)), 0)
  }

  /** The entry a taker gives: its status and run, or "pending" when no job
      takes the platform. */
  function SlotAt(seen: seq<Seen>, at: Option<nat>): PySlot
  {
    if at.Some? && at.value < |seen| then PySlot(seen[at.value].status, Some(seen[at.value].runId)) else Pending
  }

  /** The status the examined jobs should produce. */
  function Expected(seen: seq<Seen>): PyStatus
  {
    PyStatus(SlotAt(seen, IosTaker(seen)), SlotAt(seen, AabTaker(seen)), SlotAt(seen, AmazonTaker(seen)))
  }

  /** `FirstNaming` finds the first qualifying job, and none when there is
      none. */
  lemma {:induction false} FirstNamingIsFirst(seen: seq<Seen>, p: Platform, taken: set<int>, from: nat)
    ensures var r := FirstNaming(seen, p, taken, from);
            && (r.Some? ==> from <= r.value < |seen| && Names(p, seen[r.value].name) && r.value !in taken
                            && forall k :: from <= k < r.value && Names(p, seen[k].name) ==> k in taken)
            && (r.None? ==> forall k :: from <= k < |seen| && Names(p, seen[k].name) ==> k in taken)
    decreases |seen| - from
  {
    if from < |seen| && !(Names(p, seen[from].name) && from !in taken) {
      FirstNamingIsFirst(seen, p, taken, from + 1);
    }
  }

  /** Extending the examined jobs by one: an earlier hit stands, otherwise
      the new job is the hit when it qualifies. */
  lemma {:induction false} FirstNamingSnoc(seen: seq<Seen>, x: Seen, p: Platform, taken: set<int>, from: nat)
    requires from <= |seen|
    ensures FirstNaming(seen + [x], p, taken, from)
            == if FirstNaming(seen, p, taken, from).Some? then FirstNaming(seen, p, taken, from)
               else if Names(p, x.name) && |seen| !in taken then Some(|seen|)
               else None
    decreases |seen| - from
  {
    assert (seen + [x])[from] == if from < |seen| then seen[from] else x;
    if from < |seen| {
      FirstNamingSnoc(seen, x, p, taken, from + 1);
    }
  }

  /** Only the taken indices among the examined jobs matter. */
  lemma {:induction false} FirstNamingLocal(seen: seq<Seen>, p: Platform, a: set<int>, b: set<int>, from: nat)
    requires forall k :: from <= k < |seen| ==> (k in a <==> k in b)
    ensures FirstNaming(seen, p, a, from) == FirstNaming(seen, p, b, from)
    decreases |seen| - from
  {
    if from < |seen| {
      FirstNamingLocal(seen, p, a, b, from + 1);
    }
  }

  /** One examined job through the if/elif chain. */
  function Place(x: Seen, st: PyStatus): PyStatus
  {
    match JobTarget(x.name, st)
    case None => st
    case Some(p) => WithSlot(st, p, PySlot(x.status, Some(x.runId)))
  }

  /** The examined jobs through the chain, in order. */
  function Assign(seen: seq<Seen>, st: PyStatus): PyStatus
  {
    if seen == [] then st else Assign(seen[1..], Place(seen[0], st))
  }

  lemma {:induction false} AssignAppend(a: seq<Seen>, b: seq<Seen>, st: PyStatus)
    ensures Assign(a + b, st) == Assign(b, Assign(a, st))
  {
    if a == [] {
      assert a + b == b;
    } else {
      assert (a + b)[1..] == a[1..] + b;
      AssignAppend(a[1..], b, Place(a[0], st));
    }
  }

  // ---------------------------------------------------------------------
  // Properties of the classification

  /** A platform that has a run keeps its slot through the rest of a run's
      jobs. */
  lemma {:induction false} ClassifyJobsKeepsFilled(runId: int, jobs: seq<PyJob>, st: PyStatus, p: Platform)
    requires Filled(st, p)
    ensures Slot(ClassifyJobs(runId, jobs, st), p) == Slot(st, p)
  {
    if jobs != [] {
      var next := ClassifyJob(runId, jobs[0], st);
      if next.Some? {
        assert Slot(next.value, p) == Slot(st, p);
        ClassifyJobsKeepsFilled(runId, jobs[1..], next.value, p);
      }
    }
  }

  /** Once a platform has a run, later runs never overwrite it. */
  lemma {:induction false} ScanRunsKeepsFilled(runs: seq<PyRun>, st: PyStatus, p: Platform)
    requires Filled(st, p)
    ensures ScanRuns(runs, st).Some? ==> Slot(ScanRuns(runs, st).value, p) == Slot(st, p)
  {
    if runs != [] && runs[0].id.Some? {
      match runs[0].jobs
      case JobsTimedOut =>
      case Jobs(jobs) =>
        ClassifyJobsKeepsFilled(runs[0].id.value, jobs, st, p);
        ScanRunsKeepsFilled(runs[1..], ClassifyJobs(runs[0].id.value, jobs, st), p);
      case JobsUnavailable =>
        ScanRunsKeepsFilled(runs[1..], st, p);
      case JobsMalformed =>
        ScanRunsKeepsFilled(runs[1..], st, p);
    }
  }

  /** Each job changes at most one platform, and only a platform that had
      no run, filling it with this job's status and run. */
  lemma ClassifyJobChangesAtMostOne(runId: int, job: PyJob, st: PyStatus)
    requires ClassifyJob(runId, job, st).Some?
    ensures var r := ClassifyJob(runId, job, st).value;
            forall p, q :: Slot(r, p) != Slot(st, p) && Slot(r, q) != Slot(st, q) ==> p == q
    ensures var r := ClassifyJob(runId, job, st).value;
            forall p :: Slot(r, p) != Slot(st, p) ==> !Filled(st, p) && Slot(r, p) == PySlot(JobStatus(job), Some(runId))
  {
  }

  /** The chain falls through: a job naming iOS and AAB fills AAB when iOS
      already has a run and AAB has none. */
  lemma FilledIosFallsThroughToAab(runId: int, job: PyJob, st: PyStatus)
    requires job.name.Some?
    requires Contains(Lower(job.name.value), "ios") && Contains(Lower(job.name.value), "aab")
    requires Filled(st, Ios) && !Filled(st, Aab)
    ensures ClassifyJob(runId, job, st) == Some(WithSlot(st, Aab, PySlot(JobStatus(job), Some(runId))))
  {
    SetupNamesNoPlatform();
  }

  /** "setup" names no platform. */
  lemma SetupNamesNoPlatform()
    ensures !NamesIos("setup") && !NamesAab("setup") && !NamesAmazon("setup")
  {
    NotContainedWithoutFirstChar("setup", "build-ios");
    NotContainedWithoutFirstChar("setup", "ios");
    NotContainedWithoutFirstChar("setup", "build-aab");
    NotContainedWithoutFirstChar("setup", "aab");
    NotContainedWithoutFirstChar("setup", "build-amazon");
    NotContainedWithoutFirstChar("setup", "amazon");
  }

  /** The "setup" job is never classified. */
  lemma SetupJobIsSkipped(runId: int, job: PyJob, st: PyStatus)
    requires job.name.Some? && Lower(job.name.value) == "setup"
    ensures ClassifyJob(runId, job, st) == Some(st)
  {
  }

  /** Slot invariant: a platform without a run reads "pending", and no
      status text is empty. */
  predicate Consistent(st: PyStatus)
  {
    forall p :: (Slot(st, p).run.None? ==> Slot(st, p) == Pending) && Slot(st, p).status != ""
  }

  lemma {:induction false} ClassifyJobsConsistent(runId: int, jobs: seq<PyJob>, st: PyStatus)
    requires Consistent(st)
    ensures Consistent(ClassifyJobs(runId, jobs, st))
  {
    if jobs != [] {
      var next := ClassifyJob(runId, jobs[0], st);
      if next.Some? {
        assert Consistent(next.value);
        ClassifyJobsConsistent(runId, jobs[1..], next.value);
      }
    }
  }

  lemma {:induction false} ScanRunsConsistent(runs: seq<PyRun>, st: PyStatus)
    requires Consistent(st)
    ensures ScanRuns(runs, st).Some? ==> Consistent(ScanRuns(runs, st).value)
  {
    if runs != [] && runs[0].id.Some? {
      match runs[0].jobs
      case JobsTimedOut =>
      case Jobs(jobs) =>
        ClassifyJobsConsistent(runs[0].id.value, jobs, st);
        ScanRunsConsistent(runs[1..], ClassifyJobs(runs[0].id.value, jobs, st));
      case JobsUnavailable =>
        ScanRunsConsistent(runs[1..], st);
      case JobsMalformed =>
        ScanRunsConsistent(runs[1..], st);
    }
  }

  /** Every run id a slot carries is the id of one of the scanned runs. */
  lemma {:induction false} ClassifyJobsRunIds(runId: int, jobs: seq<PyJob>, st: PyStatus)
    ensures var r := ClassifyJobs(runId, jobs, st);
            forall p :: Slot(r, p) == Slot(st, p) || Slot(r, p).run == Some(runId)
  {
    if jobs != [] {
      var next := ClassifyJob(runId, jobs[0], st);
      if next.Some? {
        ClassifyJobsRunIds(runId, jobs[1..], next.value);
      }
    }
  }

  lemma {:induction false} ScanRunsRunIds(runs: seq<PyRun>, st: PyStatus)
    ensures ScanRuns(runs, st).Some? ==>
              forall p :: Slot(ScanRuns(runs, st).value, p) == Slot(st, p)
                       || exists i :: 0 <= i < |runs| && runs[i].id == Slot(ScanRuns(runs, st).value, p).run
  {
    if runs != [] && runs[0].id.Some? {
      var next := if runs[0].jobs.Jobs? then ClassifyJobs(runs[0].id.value, runs[0].jobs.jobs, st) else st;
      if runs[0].jobs.Jobs? {
        ClassifyJobsRunIds(runs[0].id.value, runs[0].jobs.jobs, st);
      }
      if !runs[0].jobs.JobsTimedOut? {
        ScanRunsRunIds(runs[1..], next);
        var r := ScanRuns(runs, st);
        if r.Some? {
          forall p | Slot(r.value, p) != Slot(st, p)
            ensures exists i :: 0 <= i < |runs| && runs[i].id == Slot(r.value, p).run
          {
            if Slot(r.value, p) == Slot(next, p) {
              assert runs[0].id == Slot(r.value, p).run;
            } else {
              var i :| 0 <= i < |runs[1..]| && runs[1..][i].id == Slot(r.value, p).run;
              assert runs[i + 1] == runs[1..][i];
            }
          }
        }
      }
    }
  }

  /** A run's job loop is the chain applied to the jobs it examines: the
      "setup" jobs and everything from a raising name on are not. */
  lemma {:induction false} ClassifyJobsIsAssign(runId: int, jobs: seq<PyJob>, st: PyStatus)
    ensures ClassifyJobs(runId, jobs, st) == Assign(ExaminedJobs(runId, jobs), st)
  {
    if jobs != [] && jobs[0].name.Some? {
      var name := Lower(jobs[0].name.value);
      var rest := ExaminedJobs(runId, jobs[1..]);
      if name == "setup" {
        assert ExaminedJobs(runId, jobs) == rest;
        ClassifyJobsIsAssign(runId, jobs[1..], st);
      } else {
        var x := Seen(runId, name, JobStatus(jobs[0]));
        assert ExaminedJobs(runId, jobs) == [x] + rest;
        assert ([x] + rest)[1..] == rest;
        assert ClassifyJob(runId, jobs[0], st) == Some(Place(x, st));
        ClassifyJobsIsAssign(runId, jobs[1..], Place(x, st));
      }
    }
  }

  /** The run loop, when it completes, is the chain applied to the jobs of
      all scanned runs, in scan order. */
  lemma {:induction false} ScanRunsIsAssign(runs: seq<PyRun>, st: PyStatus)
    ensures ScanRuns(runs, st).Some? ==> ScanRuns(runs, st).value == Assign(ExaminedRuns(runs), st)
  {
    if runs != [] && runs[0].id.Some? && !runs[0].jobs.JobsTimedOut? {
      var head := if runs[0].jobs.Jobs? then ExaminedJobs(runs[0].id.value, runs[0].jobs.jobs) else [];
      var next := if runs[0].jobs.Jobs? then ClassifyJobs(runs[0].id.value, runs[0].jobs.jobs, st) else st;
      assert ExaminedRuns(runs) == head + ExaminedRuns(runs[1..]);
      AssignAppend(head, ExaminedRuns(runs[1..]), st);
      if runs[0].jobs.Jobs? {
        ClassifyJobsIsAssign(runs[0].id.value, runs[0].jobs.jobs, st);
      } else {
        assert Assign(head, st) == st;
      }
      assert ScanRuns(runs, st) == ScanRuns(runs[1..], next);
      ScanRunsIsAssign(runs[1..], next);
    }
  }

  /** The chain on one more job agrees with the takers of the longer list. */
  lemma ExpectedSnoc(seen: seq<Seen>, x: Seen)
    ensures Place(x, Expected(seen)) == Expected(seen + [x])
  {
    var n := |seen|;
    var longer := seen + [x];
    var i, a, m := IosTaker(seen), AabTaker(seen), AmazonTaker(seen);
    var i', a', m' := IosTaker(longer), AabTaker(longer), AmazonTaker(longer);
    FirstNamingIsFirst(seen, Ios, {}, 0);
    FirstNamingIsFirst(seen, Aab, Taken(i), 0);
    FirstNamingIsFirst(seen, Amazon, Taken(i) + Taken(a), 0);
    FirstNamingSnoc(seen, x, Ios, {}, 0);
    assert i' == if i.Some? then i else if NamesIos(x.name) then Some(n) else None;
    FirstNamingLocal(seen, Aab, Taken(i'), Taken(i), 0);
    FirstNamingSnoc(seen, x, Aab, Taken(i'), 0);
    assert a' == if a.Some? then a else if NamesAab(x.name) && n !in Taken(i') then Some(n) else None;
    FirstNamingLocal(seen, Amazon, Taken(i') + Taken(a'), Taken(i) + Taken(a), 0);
    FirstNamingSnoc(seen, x, Amazon, Taken(i') + Taken(a'), 0);
    assert m' == if m.Some? then m else if NamesAmazon(x.name) && n !in Taken(i') + Taken(a') then Some(n) else None;
    assert forall at: Option<nat> :: at.Some? && at.value < n ==> SlotAt(longer, at) == SlotAt(seen, at);
    assert SlotAt(longer, Some(n)) == PySlot(x.status, Some(x.runId));
  }

  /** From the all-pending start, the chain gives every platform the slot of
      its taker. */
  lemma {:induction false} AssignMatchesTakers(seen: seq<Seen>)
    ensures Assign(seen, InitialStatus) == Expected(seen)
    decreases |seen|
  {
    if seen == [] {
      assert IosTaker(seen) == None && AabTaker(seen) == None && AmazonTaker(seen) == None;
    } else {
      var front, x := seen[..|seen| - 1], seen[|seen| - 1];
      assert seen == front + [x];
      AssignMatchesTakers(front);
      AssignAppend(front, [x], InitialStatus);
      assert [x][1..] == [];
      ExpectedSnoc(front, x);
    }
  }

  /** Each platform of a scanned report holds its first matching job among
      the newest three runs' examined jobs: iOS the first job naming iOS,
      AAB the first naming AAB other than the job that took iOS, Amazon the
      first naming Amazon other than the jobs that took iOS and AAB; a
      platform no job takes stays "pending". */
  lemma EachPlatformTakesItsFirstJob(runs: seq<PyRun>)
    requires StatusReport(Runs(runs)).Scanned?
    ensures var seen := ExaminedRuns(FirstThree(runs));
            var st := StatusReport(Runs(runs)).status;
            && st.ios == SlotAt(seen, IosTaker(seen))
            && st.aab == SlotAt(seen, AabTaker(seen))
            && st.amazon == SlotAt(seen, AmazonTaker(seen))
  {
    var seen := ExaminedRuns(FirstThree(runs));
    ScanRunsIsAssign(FirstThree(runs), InitialStatus);
    AssignMatchesTakers(seen);
  }

  /** A scanned report is consistent, and every run id in it is the id of
      one of the newest three runs. */
  lemma ScannedReportIsConsistent(runs: seq<PyRun>)
    requires StatusReport(Runs(runs)).Scanned?
    ensures Consistent(StatusReport(Runs(runs)).status)
    ensures forall p :: Slot(StatusReport(Runs(runs)).status, p).run.Some? ==>
              exists i :: 0 <= i < |runs| && i < 3 && runs[i].id == Slot(StatusReport(Runs(runs)).status, p).run
  {
    var first := FirstThree(runs);
    ScanRunsConsistent(first, InitialStatus);
    ScanRunsRunIds(first, InitialStatus);
    var st := StatusReport(Runs(runs)).status;
    forall p | Slot(st, p).run.Some?
      ensures exists i :: 0 <= i < |runs| && i < 3 && runs[i].id == Slot(st, p).run
    {
      var i :| 0 <= i < |first| && first[i].id == Slot(st, p).run;
      assert runs[i] == first[i];
    }
  }

  /** Runs past the third do not affect the report. */
  lemma OnlyNewestThreeRunsMatter(runs: seq<PyRun>, older: seq<PyRun>)
    requires |runs| == 3
    ensures StatusReport(Runs(runs + older)) == StatusReport(Runs(runs))
  {
    assert (runs + older)[..3] == runs;
    assert FirstThree(runs + older) == runs;
    assert runs[..3] == runs;
  }

  /** The job loop of `get_build_status` for one run. */
  method ClassifyRunJobs(runId: int, jobs: seq<PyJob>, start: PyStatus) returns (status: PyStatus)
    ensures status == ClassifyJobs(runId, jobs, start)
  {
    status := start;
    var j := 0;
    while j < |jobs|
      invariant 0 <= j <= |jobs|
      invariant ClassifyJobs(runId, jobs[j..], status) == ClassifyJobs(runId, jobs, start)
    {
      var job := jobs[j];
      assert jobs[j..][1..] == jobs[j + 1..];
      if job.name.None? {
        return;
      }
      var name := Lower(job.name.value);
      if name != "setup" {
        var jobStatus := JobStatus(job);
        if NamesIos(name) && status.ios.run.None? {
          status := status.(ios := PySlot(jobStatus, Some(runId)));
        } else if NamesAab(name) && status.aab.run.None? {
          status := status.(aab := PySlot(jobStatus, Some(runId)));
        } else if NamesAmazon(name) && status.amazon.run.None? {
          status := status.(amazon := PySlot(jobStatus, Some(runId)));
        }
      }
      j := j + 1;
    }
  }

  // ---------------------------------------------------------------------
  // The server's caches

  class PyStatusServer {
    var cache: map<string, PyReport>
    var cacheTime: map<string, real>

    /** Both tables are written and deleted together, and only scanned
        reports are cached. */
    ghost predicate Valid()
      reads this
    {
      cache.Keys == cacheTime.Keys && forall app :: app in cache ==> cache[app].Scanned?
    }

    constructor ()
      ensures Valid() && cache == map[] && cacheTime == map[]
    {
      cache := map[];
      cacheTime := map[];
    }

    /** The cached report may be served: both entries exist and are less
        than 30 seconds old. */
    predicate IsFresh(app: string, now: real)
      reads this
    {
      app in cache && app in cacheTime && now - cacheTime[app] < 30.0
    }

    /** `get_build_status(app)` at time `now`; `reply` is what the `gh`
        commands would give when the cache cannot serve. */
    method GetBuildStatus(app: string, now: real, reply: RunsReply) returns (report: PyReport, fromCache: bool)
      requires Valid()
      modifies this
      ensures Valid()
      ensures fromCache <==> old(IsFresh(app, now))
      ensures fromCache ==> report == old(cache[app]) && report.Scanned? && unchanged(this)
      ensures !fromCache ==> report == StatusReport(reply)
      ensures !fromCache && report.Scanned? ==> cache == old(cache)[app := report] && cacheTime == old(cacheTime)[app := now]
      ensures !fromCache && report.AllPending? ==> unchanged(this)
    {
      if app in cache && app in cacheTime {
        if now - cacheTime[app] < 30.0 {
          return cache[app], true;
        }
      }
      fromCache := false;
      if !reply.Runs? {
        return AllPending, false;
      }
      var runs := FirstThree(reply.runs);
      var status := InitialStatus;
      var i := 0;
      while i < |runs|
        invariant 0 <= i <= |runs|
        invariant ScanRuns(runs[i..], status) == ScanRuns(runs, InitialStatus)
        invariant unchanged(this)
      {
        var run := runs[i];
        assert runs[i..][1..] == runs[i + 1..];
        if run.id.None? {
          return AllPending, false;
        }
        var runId := run.id.value;
        match run.jobs {
          case JobsTimedOut =>
            return AllPending, false;
          case JobsUnavailable =>
          case JobsMalformed =>
          case Jobs(jobs) =>
            status := ClassifyRunJobs(runId, jobs, status);
        }
        i := i + 1;
      }
      report := Scanned(status);
      cache := cache[app := report];
      cacheTime := cacheTime[app := now];
    }

    /** `trigger_app_build(app, platform)`: issues the dispatch request and,
        when it is accepted, drops this app's cache entries so that the
        next status request fetches. */
    method TriggerAppBuild(app: string, platform: string, outcome: DispatchOutcome)
      returns (request: Dispatch, result: TriggerResult)
      requires Valid()
      modifies this
      ensures Valid()
      ensures request == DispatchFor(app, platform)
      ensures result.Triggered? <==> outcome.Accepted?
      ensures outcome.Accepted? ==> result == Triggered(app, platform)
      ensures outcome.Accepted? ==> cache == old(cache) - {app} && cacheTime == old(cacheTime) - {app}
      ensures outcome.Accepted? ==> forall t :: !IsFresh(app, t)
      ensures outcome.Rejected? ==> result == TriggerFailed(if outcome.stderr != "" then outcome.stderr else outcome.stdout)
      ensures outcome.Raised? ==> result == TriggerFailed(outcome.message)
      ensures !outcome.Accepted? ==> unchanged(this)
    {
      request := Dispatch(WorkflowFile(app), "LuckyJackpotCasino/" + app, PlatformInput(platform));
      match outcome {
        case Accepted =>
          if app in cache {
            cache := cache - {app};
          }
          if app in cacheTime {
            cacheTime := cacheTime - {app};
          }
          result := Triggered(app, platform);
        case Rejected(stderr, stdout) =>
          result := TriggerFailed(if stderr != "" then stderr else stdout);
        case Raised(message) =>
          result := TriggerFailed(message);
      }
    }
  }
}
