/**
 * The auto-fix agent's per-app check (`check_app_failures`): skip the app
 * while any of its listed runs is still queued, running or waiting;
 * otherwise analyse each completed, failed run that has not been analysed
 * before, record the attempt under the key "app:run_id" in the process-wide
 * `attempted_fixes` table, and ask for a rebuild when the fix says retry.
 *
 * The `gh` command results are inputs: the run list (`RunsQuery`), each
 * run's job list (`JobsQuery`), each job's log and the host probe its
 * analysis would see (`AgentJob`).
 */
module FixAgent {
  import opened Wrappers
  import opened FixRules
  import PyServer

  /** The key "app:run_id" under which an attempt is recorded. Run ids are
      integers, whose decimal text has no ':', so the pair determines the
      key and back. */
  datatype FixKey = FixKey(app: string, runId: int)

  /** The recorded attempt: when, and the fix (None: seen, no fix known). */
  datatype Attempt = Attempt(timestamp: real, fix: Option<Fix>)

  /** A `trigger_rebuild` request: after waiting `delay` seconds, dispatch
      `workflow` with the input build_platforms="ios". */
  datatype Rebuild = Rebuild(workflow: string, platforms: string, delay: nat)

  datatype AgentJob = AgentJob(
    name: string,                // `job.get('name', 'unknown')`
    conclusion: Option<string>,
    // output of `gh run view <run> --log`, which is the whole run's log: each
    // failed job fetches it again, so every fetch that succeeds gives the
    // same text; the model lets each fetch have its own outcome.  None when
    // the fetch failed.
    logs: Option<string>,
    probe: HostProbe)            // what the detectors' host commands would report

  datatype JobsQuery =
    | JobsUnavailable            // `gh run view --json jobs` exited non-zero
    | JobsUnparsable             // its output is not JSON: the exception ends the whole check
    | JobsListed(jobs: seq<AgentJob>)

  datatype AgentRun = AgentRun(id: int, status: string, conclusion: Option<string>, jobs: JobsQuery)

  datatype RunsQuery =
    | RunsUnavailable            // `gh run list` exited non-zero
    | RunsUnparsable             // its output is not JSON
    | RunsListed(runs: seq<AgentRun>)

  /** `trigger_rebuild`'s workflow map. */
  function RebuildWorkflow(app: string): string
  {
    if app == "kenocasino" then "keno-builds.yml"
    else if app == "blackjack21" then "blackjack-builds.yml"
    else if app == "fvg-multicardkeno" then "fvg-multicardkeno-builds.yml"
    else if app == "fvg-keno" then "fvg-keno-builds.yml"
    else if app == "fvg-fourcardkeno" then "fvg-fourcardkeno-builds.yml"
    else app + "-builds.yml"
  }

  /** The agent's map and the dashboard's map name the same workflow for
      every app: the three extra entries of the agent's map are exactly what
      the default would give. */
  lemma RebuildWorkflowAgreesWithDashboard(app: string)
    ensures RebuildWorkflow(app) == PyServer.WorkflowFile(app)
  {
    if app == "fvg-multicardkeno" {
      assert "fvg-multicardkeno" + "-builds.yml" == "fvg-multicardkeno-builds.yml";
    } else if app == "fvg-keno" {
      assert "fvg-keno" + "-builds.yml" == "fvg-keno-builds.yml";
    } else if app == "fvg-fourcardkeno" {
      assert "fvg-fourcardkeno" + "-builds.yml" == "fvg-fourcardkeno-builds.yml";
    }
  }

  predicate IsActive(run: AgentRun)
  {
    run.status == "queued" || run.status == "in_progress" || run.status == "waiting"
  }

  predicate IsCompletedFailure(run: AgentRun)
  {
    run.status == "completed" && run.conclusion == Some("failure")
  }

  predicate AnyActive(runs: seq<AgentRun>)
  {
    exists i :: 0 <= i < |runs| && IsActive(runs[i])
  }

  /** The attempts table and the rebuild requests issued so far. */
  datatype AgentState = AgentState(attempted: map<FixKey, Attempt>, rebuilds: seq<Rebuild>)

  /** One job of a failed run: a failed job whose log could be fetched is
      analysed; its attempt overwrites the run's key, and a retrying fix adds
      a rebuild request. */
  function JobStep(app: string, key: FixKey, job: AgentJob, now: real, st: AgentState): AgentState
  {
    if job.conclusion != Some("failure") || job.logs.None? then st
    else
      var fix := Analyze(job.logs, job.probe);
      AgentState(
        st.attempted[key := Attempt(now, fix)],
        st.rebuilds + if fix.Some? && fix.value.retry then [Rebuild(RebuildWorkflow(app), "ios", fix.value.delay)] else [])
  }

  /** The job loop of one failed run. */
  function AnalyzeJobs(app: string, key: FixKey, jobs: seq<AgentJob>, now: real, st: AgentState): AgentState
  {
    if jobs == [] then st
    else AnalyzeJobs(app, key, jobs[1..], now, JobStep(app, key, jobs[0], now, st))
  }

  /** The run loop: completed failures whose key is not yet recorded are
      analysed; an unparsable job list ends the check where it stands. */
  function ScanRuns(app: string, runs: seq<AgentRun>, now: real, st: AgentState): AgentState
  {
    if runs == [] then st
    else
      var run := runs[0];
      var key := FixKey(app, run.id);
      if !IsCompletedFailure(run) || key in st.attempted then ScanRuns(app, runs[1..], now, st)
      else match run.jobs
        case JobsUnavailable => ScanRuns(app, runs[1..], now, st)
        case JobsUnparsable => st
        case JobsListed(jobs) => ScanRuns(app, runs[1..], now, AnalyzeJobs(app, key, jobs, now, st))
  }

  /** The whole of `check_app_failures` on the state `st`. */
  function CheckOutcome(app: string, query: RunsQuery, now: real, st: AgentState): AgentState
  {
    if !query.RunsListed? || AnyActive(query.runs) then st
    else ScanRuns(app, query.runs, now, st)
  }

  // ---------------------------------------------------------------------
  // Properties of the check

  /** While some listed run is queued, running or waiting, nothing is
      analysed, recorded or rebuilt. */
  lemma ActiveRunBlocksAnalysis(app: string, runs: seq<AgentRun>, now: real, st: AgentState)
    requires exists i :: 0 <= i < |runs| && IsActive(runs[i])
    ensures CheckOutcome(app, RunsListed(runs), now, st) == st
  {
  }

  /** Predicate: `after` keeps every attempt of `before` unchanged, may add
      only `key`, and extends the rebuild requests. */
  ghost predicate OnlyKeyAdded(before: AgentState, after: AgentState, key: FixKey)
  {
    && (forall k :: k in before.attempted ==> k != key ==> k in after.attempted && after.attempted[k] == before.attempted[k])
    && (forall k :: k in after.attempted ==> k in before.attempted || k == key)
    && (key in before.attempted ==> key in after.attempted)
    && |before.rebuilds| <= |after.rebuilds|
    && after.rebuilds[..|before.rebuilds|] == before.rebuilds
  }

  lemma {:induction false} AnalyzeJobsTouchesOnlyKey(app: string, key: FixKey, jobs: seq<AgentJob>, now: real, st: AgentState)
    ensures OnlyKeyAdded(st, AnalyzeJobs(app, key, jobs, now, st), key)
  {
    if jobs != [] {
      var next := JobStep(app, key, jobs[0], now, st);
      AnalyzeJobsTouchesOnlyKey(app, key, jobs[1..], now, next);
      var last := AnalyzeJobs(app, key, jobs[1..], now, next);
      assert last.rebuilds[..|next.rebuilds|] == next.rebuilds;
      assert next.rebuilds[..|st.rebuilds|] == st.rebuilds;
      assert last.rebuilds[..|st.rebuilds|] == next.rebuilds[..|st.rebuilds|];
    }
  }

  /** Attempts are only ever added: every attempt recorded before the check
      is still there afterwards, unchanged, and earlier rebuild requests
      stay as they were. */
  lemma {:induction false} ScanKeepsEarlierAttempts(app: string, runs: seq<AgentRun>, now: real, st: AgentState)
    ensures var r := ScanRuns(app, runs, now, st);
            && (forall k :: k in st.attempted ==> k in r.attempted && r.attempted[k] == st.attempted[k])
            && |st.rebuilds| <= |r.rebuilds| && r.rebuilds[..|st.rebuilds|] == st.rebuilds
  {
    if runs != [] {
      var run := runs[0];
      var key := FixKey(app, run.id);
      if !IsCompletedFailure(run) || key in st.attempted {
        ScanKeepsEarlierAttempts(app, runs[1..], now, st);
      } else if run.jobs.JobsListed? {
        var next := AnalyzeJobs(app, key, run.jobs.jobs, now, st);
        AnalyzeJobsTouchesOnlyKey(app, key, run.jobs.jobs, now, st);
        ScanKeepsEarlierAttempts(app, runs[1..], now, next);
        var r := ScanRuns(app, runs[1..], now, next);
        assert r.rebuilds[..|st.rebuilds|] == next.rebuilds[..|st.rebuilds|];
      } else if run.jobs.JobsUnavailable? {
        ScanKeepsEarlierAttempts(app, runs[1..], now, st);
      }
    }
  }

  /** Every attempt the check adds is keyed by this app and a listed run
      that completed with conclusion "failure". */
  lemma {:induction false} NewAttemptsAreFailedRuns(app: string, runs: seq<AgentRun>, now: real, st: AgentState)
    ensures forall k :: k in ScanRuns(app, runs, now, st).attempted && k !in st.attempted ==>
              k.app == app && exists i :: 0 <= i < |runs| && runs[i].id == k.runId && IsCompletedFailure(runs[i])
  {
    if runs != [] {
      var run := runs[0];
      var key := FixKey(app, run.id);
      var next := if !IsCompletedFailure(run) || key in st.attempted then st
                  else if run.jobs.JobsListed? then AnalyzeJobs(app, key, run.jobs.jobs, now, st)
                  else st;
      if IsCompletedFailure(run) && key !in st.attempted && run.jobs.JobsListed? {
        AnalyzeJobsTouchesOnlyKey(app, key, run.jobs.jobs, now, st);
      }
      if !(IsCompletedFailure(run) && key !in st.attempted && run.jobs.JobsUnparsable?) {
        NewAttemptsAreFailedRuns(app, runs[1..], now, next);
        forall k | k in ScanRuns(app, runs, now, st).attempted && k !in st.attempted
          ensures k.app == app && exists i :: 0 <= i < |runs| && runs[i].id == k.runId && IsCompletedFailure(runs[i])
        {
          if k in next.attempted {
            assert k == key;
            assert runs[0].id == k.runId && IsCompletedFailure(runs[0]);
          } else {
            var i :| 0 <= i < |runs[1..]| && runs[1..][i].id == k.runId && IsCompletedFailure(runs[1..][i]);
            assert runs[i + 1] == runs[1..][i];
          }
        }
      }
    }
  }

  /** Dedup: when every completed failure in the list is already recorded,
      the check changes nothing and asks for no rebuild. */
  lemma {:induction false} KnownFailuresAreSkipped(app: string, runs: seq<AgentRun>, now: real, st: AgentState)
    requires forall i :: 0 <= i < |runs| && IsCompletedFailure(runs[i]) ==> FixKey(app, runs[i].id) in st.attempted
    ensures ScanRuns(app, runs, now, st) == st
  {
    if runs != [] {
      assert forall i :: 1 <= i < |runs| ==> runs[i] == runs[1..][i - 1];
      KnownFailuresAreSkipped(app, runs[1..], now, st);
    }
  }

  /** A job whose analysis would ask for a retry. */
  predicate RetryingJob(job: AgentJob)
  {
    && job.conclusion == Some("failure")
    && var fix := Analyze(job.logs, job.probe);
    && fix.Some? && fix.value.retry
  }

  predicate NoRetryingJob(jobs: seq<AgentJob>)
  {
    forall j :: 0 <= j < |jobs| ==> !RetryingJob(jobs[j])
  }

  /** No run the check would analyse, given the table `attempted`, has a
      failed job whose fix says retry: runs that are not completed failures,
      runs already recorded and runs whose jobs could not be listed are not
      constrained. */
  predicate NoRetryingNewFailure(app: string, runs: seq<AgentRun>, attempted: map<FixKey, Attempt>)
  {
    forall i ::
      (0 <= i < |runs| && IsCompletedFailure(runs[i]) && FixKey(app, runs[i].id) !in attempted && runs[i].jobs.JobsListed?)
      ==> NoRetryingJob(runs[i].jobs.jobs)
  }

  /** A rebuild of this app's workflow for iOS after a 0, 30 or 60 s wait. */
  predicate IsIosRebuild(app: string, r: Rebuild)
  {
    r.workflow == RebuildWorkflow(app) && r.platforms == "ios" && r.delay in {0, 30, 60}
  }

  /** Every request in `after` beyond the first `|before|` is an iOS rebuild
      of this app. */
  predicate NewRebuildsAreIos(app: string, before: seq<Rebuild>, after: seq<Rebuild>)
  {
    forall j :: |before| <= j < |after| ==> IsIosRebuild(app, after[j])
  }

  /** One job adds at most one rebuild request, an iOS rebuild of this app,
      and none unless its fix says retry. */
  lemma JobStepRebuilds(app: string, key: FixKey, job: AgentJob, now: real, st: AgentState)
    ensures var next := JobStep(app, key, job, now, st);
            && (next.rebuilds == st.rebuilds
                || (|next.rebuilds| == |st.rebuilds| + 1 && next.rebuilds[..|st.rebuilds|] == st.rebuilds
                    && IsIosRebuild(app, next.rebuilds[|st.rebuilds|])))
            && (!RetryingJob(job) ==> next.rebuilds == st.rebuilds)
            && (RetryingJob(job) ==> |next.rebuilds| == |st.rebuilds| + 1)
  {
    var next := JobStep(app, key, job, now, st);
    if job.conclusion == Some("failure") && job.logs.Some? {
      var fix := Analyze(job.logs, job.probe);
      if fix.Some? && fix.value.retry {
        FirstHitFlagsAreConsistent(Rules, job.logs.value, job.probe);
        var added := Rebuild(RebuildWorkflow(app), "ios", fix.value.delay);
        assert fix.value.delay in {0, 30, 60};
        assert next.rebuilds == st.rebuilds + [added];
        assert next.rebuilds[|st.rebuilds|] == added;
      } else {
        assert next.rebuilds == st.rebuilds + [];
      }
    }
  }

  /** A failed job whose log was fetched is analysed, and its attempt,
      stamped `now`, replaces whatever the run's key held; any other job
      leaves the state as it was. */
  lemma JobStepRecords(app: string, key: FixKey, job: AgentJob, now: real, st: AgentState)
    ensures var next := JobStep(app, key, job, now, st);
            && (AnalysedJob(job) ==> next.attempted == st.attempted[key := Attempt(now, Analyze(job.logs, job.probe))])
            && (!AnalysedJob(job) ==> next == st)
  {
  }

  /** A job the agent analyses: it failed and its log could be fetched. */
  predicate AnalysedJob(job: AgentJob)
  {
    job.conclusion == Some("failure") && job.logs.Some?
  }

  /** The last analysed job of a run's job list, whose attempt is the one
      left under the run's key. */
  function LastAnalysis(jobs: seq<AgentJob>): (r: Option<AgentJob>)
    ensures r.None? <==> forall j :: 0 <= j < |jobs| ==> !AnalysedJob(jobs[j])
    ensures r.Some? ==> AnalysedJob(r.value) && r.value in jobs
  {
    if jobs == [] then None
    else
      var rest := LastAnalysis(jobs[1..]);
      assert forall j :: 1 <= j < |jobs| ==> jobs[j] == jobs[1..][j - 1];
      if rest.Some? then rest
      else if AnalysedJob(jobs[0]) then Some(jobs[0])
      else None
  }

  /** The job loop records exactly one attempt per run: none when no job was
      analysed (the state is then unchanged), otherwise the last analysed
      job's, stamped `now`, under the run's key. */
  lemma {:induction false} AnalyzeJobsRecords(app: string, key: FixKey, jobs: seq<AgentJob>, now: real, st: AgentState)
    ensures var r := AnalyzeJobs(app, key, jobs, now, st);
            && (LastAnalysis(jobs).None? ==> r == st)
            && (LastAnalysis(jobs).Some? ==>
                  var job := LastAnalysis(jobs).value;
                  r.attempted == st.attempted[key := Attempt(now, Analyze(job.logs, job.probe))])
  {
    if jobs != [] {
      var next := JobStep(app, key, jobs[0], now, st);
      JobStepRecords(app, key, jobs[0], now, st);
      AnalyzeJobsRecords(app, key, jobs[1..], now, next);
      var rest := LastAnalysis(jobs[1..]);
      if rest.Some? {
        var a := Attempt(now, Analyze(rest.value.logs, rest.value.probe));
        if AnalysedJob(jobs[0]) {
          var a0 := Attempt(now, Analyze(jobs[0].logs, jobs[0].probe));
          assert st.attempted[key := a0][key := a] == st.attempted[key := a];
        }
      }
    }
  }

  /** The job loop adds only iOS rebuilds of this app: none when no job's
      fix says retry, at least one when some job's does. */
  lemma {:induction false} AnalyzeJobsRebuilds(app: string, key: FixKey, jobs: seq<AgentJob>, now: real, st: AgentState)
    ensures var r := AnalyzeJobs(app, key, jobs, now, st);
            && NewRebuildsAreIos(app, st.rebuilds, r.rebuilds)
            && (NoRetryingJob(jobs) ==> r.rebuilds == st.rebuilds)
            && (!NoRetryingJob(jobs) ==> |st.rebuilds| < |r.rebuilds|)
  {
    if jobs != [] {
      var next := JobStep(app, key, jobs[0], now, st);
      JobStepRebuilds(app, key, jobs[0], now, st);
      assert !NoRetryingJob(jobs) && !RetryingJob(jobs[0]) ==> !NoRetryingJob(jobs[1..]) by {
        if !NoRetryingJob(jobs) && !RetryingJob(jobs[0]) {
          var j :| 0 <= j < |jobs| && RetryingJob(jobs[j]);
          assert jobs[1..][j - 1] == jobs[j];
        }
      }
      assert NoRetryingJob(jobs) ==> NoRetryingJob(jobs[1..]) by {
        if NoRetryingJob(jobs) {
          forall j | 0 <= j < |jobs[1..]| ensures !RetryingJob(jobs[1..][j]) {
            assert jobs[1..][j] == jobs[j + 1];
          }
        }
      }
      AnalyzeJobsRebuilds(app, key, jobs[1..], now, next);
      AnalyzeJobsTouchesOnlyKey(app, key, jobs[1..], now, next);
      var last := AnalyzeJobs(app, key, jobs[1..], now, next);
      assert last == AnalyzeJobs(app, key, jobs, now, st);
      assert last.rebuilds[..|next.rebuilds|] == next.rebuilds;
      assert NewRebuildsAreIos(app, next.rebuilds, last.rebuilds);
      forall j | |st.rebuilds| <= j < |last.rebuilds| ensures IsIosRebuild(app, last.rebuilds[j]) {
        if j < |next.rebuilds| {
          assert j == |st.rebuilds| && next.rebuilds != st.rebuilds;
          assert IsIosRebuild(app, next.rebuilds[j]);
          assert last.rebuilds[j] == last.rebuilds[..|next.rebuilds|][j] == next.rebuilds[j];
        } else {
          assert |next.rebuilds| <= j < |last.rebuilds|;
        }
      }
    }
  }

  /** Rebuilds are requested only for fixes that ask for a retry: every new
      request dispatches this app's workflow for iOS after a 0, 30 or 60 s
      wait, and when no run the check analyses (a completed failure not yet
      recorded, with listed jobs) has a failed job whose fix says retry,
      there is none. */
  lemma {:induction false} RebuildsNeedRetry(app: string, runs: seq<AgentRun>, now: real, st: AgentState)
    ensures var r := ScanRuns(app, runs, now, st);
            && |st.rebuilds| <= |r.rebuilds|
            && NewRebuildsAreIos(app, st.rebuilds, r.rebuilds)
            && (NoRetryingNewFailure(app, runs, st.attempted) ==> r.rebuilds == st.rebuilds)
  {
    ScanKeepsEarlierAttempts(app, runs, now, st);
    if runs != [] {
      var run := runs[0];
      var key := FixKey(app, run.id);
      var analysed := IsCompletedFailure(run) && key !in st.attempted;
      if !analysed || run.jobs.JobsUnavailable? {
        assert ScanRuns(app, runs, now, st) == ScanRuns(app, runs[1..], now, st);
        assert NoRetryingNewFailure(app, runs, st.attempted) ==> NoRetryingNewFailure(app, runs[1..], st.attempted) by {
          forall i | 0 <= i < |runs[1..]| ensures runs[1..][i] == runs[i + 1] { }
        }
        RebuildsNeedRetry(app, runs[1..], now, st);
      } else if run.jobs.JobsListed? {
        var next := AnalyzeJobs(app, key, run.jobs.jobs, now, st);
        assert ScanRuns(app, runs, now, st) == ScanRuns(app, runs[1..], now, next);
        AnalyzeJobsRebuilds(app, key, run.jobs.jobs, now, st);
        AnalyzeJobsTouchesOnlyKey(app, key, run.jobs.jobs, now, st);
        assert NoRetryingNewFailure(app, runs, st.attempted) ==> NoRetryingNewFailure(app, runs[1..], next.attempted) by {
          forall i | 0 <= i < |runs[1..]| ensures runs[1..][i] == runs[i + 1] { }
          assert forall k :: k in st.attempted ==> k in next.attempted;
        }
        RebuildsNeedRetry(app, runs[1..], now, next);
        ScanKeepsEarlierAttempts(app, runs[1..], now, next);
        var r := ScanRuns(app, runs[1..], now, next);
        assert r.rebuilds[..|next.rebuilds|] == next.rebuilds;
        assert NewRebuildsAreIos(app, st.rebuilds, next.rebuilds);
        assert NewRebuildsAreIos(app, next.rebuilds, r.rebuilds);
        forall j | |st.rebuilds| <= j < |r.rebuilds| ensures IsIosRebuild(app, r.rebuilds[j]) {
          if j < |next.rebuilds| {
            assert IsIosRebuild(app, next.rebuilds[j]);
            assert r.rebuilds[j] == r.rebuilds[..|next.rebuilds|][j] == next.rebuilds[j];
          } else {
            assert |next.rebuilds| <= j < |r.rebuilds|;
          }
        }
      }
    }
  }

  /** A failed run that a later check would skip: not a completed failure,
      already recorded, its jobs not listable, or listed without any job
      the agent would analyse. */
  predicate Settled(app: string, run: AgentRun, attempted: map<FixKey, Attempt>)
  {
    || !IsCompletedFailure(run)
    || FixKey(app, run.id) in attempted
    || run.jobs.JobsUnavailable?
    || (run.jobs.JobsListed? && LastAnalysis(run.jobs.jobs).None?)
  }

  /** A check over settled runs changes nothing and asks for no rebuild. */
  lemma {:induction false} SettledRunsAreSkipped(app: string, runs: seq<AgentRun>, now: real, st: AgentState)
    requires forall i :: 0 <= i < |runs| ==> Settled(app, runs[i], st.attempted)
    ensures ScanRuns(app, runs, now, st) == st
  {
    if runs != [] {
      var run := runs[0];
      var key := FixKey(app, run.id);
      if IsCompletedFailure(run) && key !in st.attempted && run.jobs.JobsListed? {
        AnalyzeJobsRecords(app, key, run.jobs.jobs, now, st);
      }
      assert forall i :: 1 <= i < |runs| ==> runs[i] == runs[1..][i - 1];
      SettledRunsAreSkipped(app, runs[1..], now, st);
    }
  }

  /** When no completed failure's job list is unparsable, every listed run
      ends settled: in particular each completed failure with a failed job
      whose log was fetched ends recorded under its key. */
  lemma {:induction false} ScanSettlesRuns(app: string, runs: seq<AgentRun>, now: real, st: AgentState)
    requires forall i :: 0 <= i < |runs| && IsCompletedFailure(runs[i]) ==> !runs[i].jobs.JobsUnparsable?
    ensures var r := ScanRuns(app, runs, now, st);
            && (forall i :: 0 <= i < |runs| ==> Settled(app, runs[i], r.attempted))
            && (forall i ::
                  (0 <= i < |runs| && IsCompletedFailure(runs[i]) && runs[i].jobs.JobsListed?
                   && LastAnalysis(runs[i].jobs.jobs).Some?)
                  ==> FixKey(app, runs[i].id) in r.attempted)
  {
    if runs != [] {
      var run := runs[0];
      var key := FixKey(app, run.id);
      var next := if IsCompletedFailure(run) && key !in st.attempted && run.jobs.JobsListed?
                  then AnalyzeJobs(app, key, run.jobs.jobs, now, st) else st;
      if IsCompletedFailure(run) && key !in st.attempted && run.jobs.JobsListed? {
        AnalyzeJobsRecords(app, key, run.jobs.jobs, now, st);
      }
      assert ScanRuns(app, runs, now, st) == ScanRuns(app, runs[1..], now, next);
      assert forall i :: 1 <= i < |runs| ==> runs[i] == runs[1..][i - 1];
      ScanSettlesRuns(app, runs[1..], now, next);
      ScanKeepsEarlierAttempts(app, runs[1..], now, next);
      assert Settled(app, run, next.attempted);
    }
  }

  /** Dedup across checks: once a check has run over a run list in which no
      completed failure's job list is unparsable, checking the same list
      again, at any later time, changes nothing and asks for no rebuild. */
  lemma CheckTwiceChangesNothing(app: string, query: RunsQuery, now: real, later: real, st: AgentState)
    requires query.RunsListed? ==>
               forall i :: 0 <= i < |query.runs| && IsCompletedFailure(query.runs[i]) ==> !query.runs[i].jobs.JobsUnparsable?
    ensures var r := CheckOutcome(app, query, now, st);
            CheckOutcome(app, query, later, r) == r
  {
    if query.RunsListed? && !AnyActive(query.runs) {
      ScanSettlesRuns(app, query.runs, now, st);
      SettledRunsAreSkipped(app, query.runs, later, CheckOutcome(app, query, now, st));
    }
  }

  /** The converse of RebuildsNeedRetry: a completed failure not yet
      recorded, with a listed job whose fix says retry, gets a rebuild
      request, provided no earlier run shares its id (which would record the
      key first) and no earlier completed failure's job list is unparsable
      (which would end the check first). */
  lemma {:induction false} RetryingFailureIsRebuilt(app: string, runs: seq<AgentRun>, i: int, now: real, st: AgentState)
    requires 0 <= i < |runs| && IsCompletedFailure(runs[i]) && FixKey(app, runs[i].id) !in st.attempted
    requires runs[i].jobs.JobsListed? && !NoRetryingJob(runs[i].jobs.jobs)
    requires forall h :: 0 <= h < i ==> runs[h].id != runs[i].id
    requires forall h :: 0 <= h < i && IsCompletedFailure(runs[h]) ==> !runs[h].jobs.JobsUnparsable?
    ensures |st.rebuilds| < |ScanRuns(app, runs, now, st).rebuilds|
  {
    var run := runs[0];
    var key := FixKey(app, run.id);
    var analysed := IsCompletedFailure(run) && key !in st.attempted && run.jobs.JobsListed?;
    var next := if analysed then AnalyzeJobs(app, key, run.jobs.jobs, now, st) else st;
    assert ScanRuns(app, runs, now, st) == ScanRuns(app, runs[1..], now, next);
    if analysed {
      AnalyzeJobsRebuilds(app, key, run.jobs.jobs, now, st);
      AnalyzeJobsTouchesOnlyKey(app, key, run.jobs.jobs, now, st);
    }
    if i == 0 {
      ScanKeepsEarlierAttempts(app, runs[1..], now, next);
    } else {
      assert runs[1..][i - 1] == runs[i];
      assert forall h :: 0 <= h < i - 1 ==> runs[1..][h] == runs[h + 1];
      RetryingFailureIsRebuilt(app, runs[1..], i - 1, now, next);
    }
  }

  /**
   * The agent's process-wide table of attempted fixes.
   */
  class Agent {
    var attemptedFixes: map<FixKey, Attempt>

    constructor ()
      ensures attemptedFixes == map[]
    {
      attemptedFixes := map[];
    }

    /** `check_app_failures(app)` at time `now`; returns the rebuild requests
        it issued, in order. */
    method CheckAppFailures(app: string, query: RunsQuery, now: real) returns (rebuilds: seq<Rebuild>)
      modifies this
      ensures AgentState(attemptedFixes, rebuilds) == CheckOutcome(app, query, now, AgentState(old(attemptedFixes), []))
      ensures query.RunsListed? && AnyActive(query.runs) ==> attemptedFixes == old(attemptedFixes) && rebuilds == []
      ensures forall k :: k in old(attemptedFixes) ==> k in attemptedFixes && attemptedFixes[k] == old(attemptedFixes)[k]
      ensures forall r :: r in rebuilds ==> r.workflow == RebuildWorkflow(app) && r.platforms == "ios"
    {
      var start := AgentState(attemptedFixes, []);
      rebuilds := [];
      if !query.RunsListed? {
        return;
      }
      var runs := query.runs;
      ScanKeepsEarlierAttempts(app, runs, now, start);
      RebuildsNeedRetry(app, runs, now, start);
      var i := 0;
      while i < |runs|
        invariant 0 <= i <= |runs|
        invariant forall j :: 0 <= j < i ==> !IsActive(runs[j])
      {
        if IsActive(runs[i]) {
          return;
        }
        i := i + 1;
      }
      assert !AnyActive(runs);
      i := 0;
      while i < |runs|
        invariant 0 <= i <= |runs|
        invariant ScanRuns(app, runs[i..], now, AgentState(attemptedFixes, rebuilds)) == ScanRuns(app, runs, now, start)
      {
        var run := runs[i];
        assert runs[i..][1..] == runs[i + 1..];
        var key := FixKey(app, run.id);
        if run.status == "completed" && run.conclusion == Some("failure") && key !in attemptedFixes {
          match run.jobs {
            case JobsUnavailable =>
            case JobsUnparsable =>
              return;
            case JobsListed(jobs) =>
              ghost var runStart := AgentState(attemptedFixes, rebuilds);
              var j := 0;
              while j < |jobs|
                invariant 0 <= j <= |jobs|
                invariant AnalyzeJobs(app, key, jobs[j..], now, AgentState(attemptedFixes, rebuilds))
                          == AnalyzeJobs(app, key, jobs, now, runStart)
              {
                var job := jobs[j];
                assert jobs[j..][1..] == jobs[j + 1..];
                ghost var before := AgentState(attemptedFixes, rebuilds);
                if job.conclusion == Some("failure") {
                  var analyzer := new BuildFailureAnalyzer(app, run.id, job.name);
                  var fetched := analyzer.FetchLogs(job.logs);
                  if fetched {
                    var fix := analyzer.AnalyzeAndFix(job.probe);
                    assert fix == Analyze(job.logs, job.probe);
                    attemptedFixes := attemptedFixes[key := Attempt(now, fix)];
                    if fix.Some? && fix.value.retry {
                      rebuilds := rebuilds + [Rebuild(RebuildWorkflow(app), "ios", fix.value.delay)];
                    } else {
                      assert rebuilds + [] == rebuilds;
                    }
                  }
                }
                assert AgentState(attemptedFixes, rebuilds) == JobStep(app, key, job, now, before);
                j := j + 1;
              }
          }
        }
        i := i + 1;
      }
    }
  }
}
