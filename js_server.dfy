/**
 * The Node dashboard server (server.js): `getBuildStatus` with its
 * 30-second cache.
 *
 * The newest runs are classified by their lower-cased display title (and,
 * for iOS and Windows, by their workflow name) into four platforms.  The
 * four tests are independent `if`s, so one run can fill several platforms;
 * a platform whose run id is truthy is never overwritten.  JavaScript's
 * truthiness is written out: a run id fills a platform only when it is
 * present and non-zero, and a `lastFetch` entry counts only when non-zero.
 * Any exception inside the classification (a missing title, a missing
 * workflow name that has to be read) yields the all-pending answer.
 *
 * The `gh` command result is the input `ExecReply`; `Date.now()` is the
 * parameter `now`, in milliseconds.
 */
module JsServer {
  import opened Wrappers
  import opened Text

  /** A run as `gh run list --json ...` lists it; None stands for a missing
      or null field. */
  datatype JsRun = JsRun(
    title: Option<string>,
    workflowName: Option<string>,
    status: Option<string>,
    conclusion: Option<string>,
    id: Option<int>)

  datatype ExecReply =
    | ExecFailed                          // the callback's `error` is set
    | Output(runs: Option<seq<JsRun>>)    // None: the output is not a JSON array

  datatype Platform = Ios | Aab | Amazon | Windows

  /** One platform's entry: its status value and its run id. */
  datatype JsSlot = JsSlot(status: Option<string>, run: Option<int>)

  datatype JsStatus = JsStatus(ios: JsSlot, aab: JsSlot, amazon: JsSlot, windows: JsSlot)

  datatype JsReport = AllPending | Scanned(status: JsStatus)

  const Pending := JsSlot(Some("pending"), None)

  const InitialStatus := JsStatus(Pending, Pending, Pending, Pending)

  function Slot(st: JsStatus, p: Platform): JsSlot
  {
    match p
    case Ios => st.ios
    case Aab => st.aab
    case Amazon => st.amazon
    case Windows => st.windows
  }

  function WithSlot(st: JsStatus, p: Platform, s: JsSlot): (r: JsStatus)
    ensures Slot(r, p) == s
    ensures forall q :: q != p ==> Slot(r, q) == Slot(st, q)
  {
    match p
    case Ios => st.(ios := s)
    case Aab => st.(aab := s)
    case Amazon => st.(amazon := s)
    case Windows => st.(windows := s)
  }

  /** `result.<p>Run` is truthy: present and non-zero. */
  predicate Filled(s: JsSlot)
  {
    s.run.Some? && s.run.value != 0
  }

  /** A run's status value: its conclusion once completed, else its status. */
  function RunStatus(run: JsRun): Option<string>
  {
    if run.status == Some("completed") then run.conclusion else run.status
  }

  /** The platform test on a run whose lower-cased title is `title`; None
      when it reads a missing workflow name and throws.  The workflow name
      is read only when the title test fails. */
  function PlatformTest(run: JsRun, title: string, p: Platform): Option<bool>
  {
    match p
    case Ios =>
      if Contains(title, "ios") then Some(true)
      else if run.workflowName.None? then None
      else Some(Contains(run.workflowName.value, "iOS"))
    case Aab => Some(Contains(title, "aab") || Contains(title, "google"))
    case Amazon => Some(Contains(title, "amazon"))
    case Windows =>
      if Contains(title, "windows") then Some(true)
      else if run.workflowName.None? then None
      else Some(Contains(run.workflowName.value, "Windows"))
  }

  /** Whether a run is one of platform `p`'s runs (a missing workflow name
      matches nothing). */
  predicate Matches(run: JsRun, p: Platform)
  {
    run.title.Some? && PlatformTest(run, Lower(run.title.value), p) == Some(true)
  }

  /** One `if` of the callback: an unfilled platform whose test holds takes
      this run's status and id. */
  function TryPlatform(run: JsRun, title: string, p: Platform, st: JsStatus): Option<JsStatus>
  {
    if Filled(Slot(st, p)) then Some(st)
    else match PlatformTest(run, title, p)
      case None => None
      case Some(hit) => Some(if hit then WithSlot(st, p, JsSlot(RunStatus(run), run.id)) else st)
  }

  /** The `forEach` callback on one run; None when it throws. */
  function JsStep(run: JsRun, st: JsStatus): Option<JsStatus>
  {
    if run.title.None? then None
    else
      var title := Lower(run.title.value);
      var s1 := TryPlatform(run, title, Ios, st);
      if s1.None? then None
      else
        var s2 := TryPlatform(run, title, Aab, s1.value);
        if s2.None? then None
        else
          var s3 := TryPlatform(run, title, Amazon, s2.value);
          if s3.None? then None
          else TryPlatform(run, title, Windows, s3.value)
  }

  /** The `forEach` over all runs; None when some callback throws. */
  function JsScan(runs: seq<JsRun>, st: JsStatus): Option<JsStatus>
  {
    if runs == [] then Some(st)
    else
      var next := JsStep(runs[0], st);
      if next.None? then None else JsScan(runs[1..], next.value)
  }

  /** The value `getBuildStatus` resolves to when it has to fetch. */
  function JsStatusReport(reply: ExecReply): JsReport
  {
    match reply
    case ExecFailed => AllPending
    case Output(parsed) =>
      if parsed.None? then AllPending
      else
        var r := JsScan(parsed.value, InitialStatus);
        if r.Some? then Scanned(r.value) else AllPending
  }

  // ---------------------------------------------------------------------
  // Properties of one callback

  /** The slot a callback gives platform `p`. */
  function StepSlot(run: JsRun, st: JsStatus, p: Platform): JsSlot
  {
    if !Filled(Slot(st, p)) && Matches(run, p) then JsSlot(RunStatus(run), run.id) else Slot(st, p)
  }

  lemma TryPlatformEffect(run: JsRun, title: string, p: Platform, st: JsStatus)
    requires run.title.Some? && title == Lower(run.title.value)
    requires TryPlatform(run, title, p, st).Some?
    ensures Slot(TryPlatform(run, title, p, st).value, p) == StepSlot(run, st, p)
    ensures forall q :: q != p ==> Slot(TryPlatform(run, title, p, st).value, q) == Slot(st, q)
  {
  }

  /** The four tests are independent: a callback that does not throw gives
      every platform whose slot is unfilled and whose test holds this run's
      status and id, and leaves every other platform as it was.  So one run
      may fill several platforms. */
  lemma JsStepFillsEachMatchingPlatform(run: JsRun, st: JsStatus)
    requires JsStep(run, st).Some?
    ensures forall p :: Slot(JsStep(run, st).value, p) == StepSlot(run, st, p)
  {
    var title := Lower(run.title.value);
    var s1 := TryPlatform(run, title, Ios, st).value;
    TryPlatformEffect(run, title, Ios, st);
    var s2 := TryPlatform(run, title, Aab, s1).value;
    TryPlatformEffect(run, title, Aab, s1);
    var s3 := TryPlatform(run, title, Amazon, s2).value;
    TryPlatformEffect(run, title, Amazon, s2);
    TryPlatformEffect(run, title, Windows, s3);
  }

  /** The callback throws exactly when the title is missing, or when the
      workflow name is missing and must be read: for an unfilled iOS or
      Windows entry whose title test failed. */
  lemma JsStepThrowsIff(run: JsRun, st: JsStatus)
    ensures JsStep(run, st).None? <==>
              run.title.None?
              || (run.workflowName.None?
                  && ((!Filled(st.ios) && !Contains(Lower(run.title.value), "ios"))
                      || (!Filled(st.windows) && !Contains(Lower(run.title.value), "windows"))))
  {
    if run.title.Some? {
      var title := Lower(run.title.value);
      var s1 := TryPlatform(run, title, Ios, st);
      if s1.Some? {
        TryPlatformEffect(run, title, Ios, st);
        var s2 := TryPlatform(run, title, Aab, s1.value);
        TryPlatformEffect(run, title, Aab, s1.value);
        var s3 := TryPlatform(run, title, Amazon, s2.value);
        TryPlatformEffect(run, title, Amazon, s2.value);
        assert s3.value.windows == st.windows;
      }
    }
  }

  // ---------------------------------------------------------------------
  // Properties of the scan

  /** A filled platform is never overwritten by later runs. */
  lemma {:induction false} JsScanKeepsFilled(runs: seq<JsRun>, st: JsStatus, p: Platform)
    requires Filled(Slot(st, p))
    ensures JsScan(runs, st).Some? ==> Slot(JsScan(runs, st).value, p) == Slot(st, p)
  {
    if runs != [] && JsStep(runs[0], st).Some? {
      JsStepFillsEachMatchingPlatform(runs[0], st);
      JsScanKeepsFilled(runs[1..], JsStep(runs[0], st).value, p);
    }
  }

  /** A platform no run matches keeps its slot; at the start of a scan
      that is "pending" with a null run. */
  lemma {:induction false} JsScanUnmatchedUnchanged(runs: seq<JsRun>, st: JsStatus, p: Platform)
    requires forall i :: 0 <= i < |runs| ==> !Matches(runs[i], p)
    ensures JsScan(runs, st).Some? ==> Slot(JsScan(runs, st).value, p) == Slot(st, p)
  {
    if runs != [] && JsStep(runs[0], st).Some? {
      JsStepFillsEachMatchingPlatform(runs[0], st);
      assert forall i :: 0 <= i < |runs[1..]| ==> runs[1..][i] == runs[i + 1];
      JsScanUnmatchedUnchanged(runs[1..], JsStep(runs[0], st).value, p);
    }
  }

  /** Every run id is present and non-zero. */
  predicate TruthyIds(runs: seq<JsRun>)
  {
    forall i :: 0 <= i < |runs| ==> runs[i].id.Some? && runs[i].id.value != 0
  }

  /** Reference definition: the first run in list order that matches `p`. */
  function FirstMatch(runs: seq<JsRun>, p: Platform): Option<JsRun>
  {
    if runs == [] then None
    else if Matches(runs[0], p) then Some(runs[0])
    else FirstMatch(runs[1..], p)
  }

  function SlotOf(first: Option<JsRun>, otherwise: JsSlot): JsSlot
  {
    if first.Some? then JsSlot(RunStatus(first.value), first.value.id) else otherwise
  }

  /** With truthy run ids, each unfilled platform ends with the status and
      id of the first run that matches it. */
  lemma {:induction false} JsScanFirstMatch(runs: seq<JsRun>, st: JsStatus, p: Platform)
    requires TruthyIds(runs)
    requires !Filled(Slot(st, p))
    ensures JsScan(runs, st).Some? ==> Slot(JsScan(runs, st).value, p) == SlotOf(FirstMatch(runs, p), Slot(st, p))
  {
    if runs != [] && JsStep(runs[0], st).Some? {
      var next := JsStep(runs[0], st).value;
      JsStepFillsEachMatchingPlatform(runs[0], st);
      assert TruthyIds(runs[1..]) by {
        forall i | 0 <= i < |runs[1..]| ensures runs[1..][i].id.Some? && runs[1..][i].id.value != 0 {
          assert runs[1..][i] == runs[i + 1];
        }
      }
      if Matches(runs[0], p) {
        JsScanKeepsFilled(runs[1..], next, p);
      } else {
        JsScanFirstMatch(runs[1..], next, p);
      }
    }
  }

  /** The report of a successful scan: with truthy run ids every platform
      holds its first matching run, and a platform no run matches is
      "pending" with a null run. */
  lemma ScannedReportIsFirstMatch(runs: seq<JsRun>, p: Platform)
    requires JsStatusReport(Output(Some(runs))).Scanned?
    ensures TruthyIds(runs) ==>
              Slot(JsStatusReport(Output(Some(runs))).status, p) == SlotOf(FirstMatch(runs, p), Pending)
    ensures (forall i :: 0 <= i < |runs| ==> !Matches(runs[i], p)) ==>
              Slot(JsStatusReport(Output(Some(runs))).status, p) == Pending
  {
    if TruthyIds(runs) {
      JsScanFirstMatch(runs, InitialStatus, p);
    }
    if forall i :: 0 <= i < |runs| ==> !Matches(runs[i], p) {
      JsScanUnmatchedUnchanged(runs, InitialStatus, p);
    }
  }

  // ---------------------------------------------------------------------
  // The server's caches

  /** The `forEach` callback on one run, updating `result` field by field. */
  method ClassifyRun(run: JsRun, result: JsStatus) returns (thrown: bool, next: JsStatus)
    ensures thrown <==> JsStep(run, result).None?
    ensures !thrown ==> next == JsStep(run, result).value
  {
    next := result;
    if run.title.None? {
      return true, next;
    }
    var title := Lower(run.title.value);
    var status := RunStatus(run);
    if !Filled(next.ios) {
      if Contains(title, "ios") || (run.workflowName.Some? && Contains(run.workflowName.value, "iOS")) {
        next := next.(ios := JsSlot(status, run.id));
      } else if run.workflowName.None? {
        return true, next;
      }
    }
    ghost var s1 := next;
    assert TryPlatform(run, title, Ios, result) == Some(s1);
    if !Filled(next.aab) && (Contains(title, "aab") || Contains(title, "google")) {
      next := next.(aab := JsSlot(status, run.id));
    }
    ghost var s2 := next;
    assert TryPlatform(run, title, Aab, s1) == Some(s2);
    if !Filled(next.amazon) && Contains(title, "amazon") {
      next := next.(amazon := JsSlot(status, run.id));
    }
    assert TryPlatform(run, title, Amazon, s2) == Some(next);
    if !Filled(next.windows) {
      if Contains(title, "windows") || (run.workflowName.Some? && Contains(run.workflowName.value, "Windows")) {
        next := next.(windows := JsSlot(status, run.id));
      } else if run.workflowName.None? {
        return true, next;
      }
    }
    thrown := false;
  }

  class JsStatusServer {
    var cache: map<string, JsReport>
    var lastFetch: map<string, int>

    /** Both tables are written together, and only scanned reports are
        cached. */
    ghost predicate Valid()
      reads this
    {
      cache.Keys == lastFetch.Keys && forall app :: app in cache ==> cache[app].Scanned?
    }

    constructor ()
      ensures Valid() && cache == map[] && lastFetch == map[]
    {
      cache := map[];
      lastFetch := map[];
    }

    /** The cached report may be served: it exists, its fetch time is
        truthy, and it is less than 30000 ms old. */
    predicate IsFresh(app: string, now: int)
      reads this
    {
      app in cache && app in lastFetch && lastFetch[app] != 0 && now - lastFetch[app] < 30000
    }

    /** `getBuildStatus(app)` at time `now` (ms); `reply` is what the `gh`
        command would give when the cache cannot serve. */
    method GetBuildStatus(app: string, now: int, reply: ExecReply) returns (report: JsReport, fromCache: bool)
      requires Valid()
      modifies this
      ensures Valid()
      ensures fromCache <==> old(IsFresh(app, now))
      ensures fromCache ==> report == old(cache[app]) && report.Scanned? && unchanged(this)
      ensures !fromCache ==> report == JsStatusReport(reply)
      ensures !fromCache && report.Scanned? ==> cache == old(cache)[app := report] && lastFetch == old(lastFetch)[app := now]
      ensures !fromCache && report.AllPending? ==> unchanged(this)
    {
      if app in cache && app in lastFetch && lastFetch[app] != 0 && now - lastFetch[app] < 30000 {
        return cache[app], true;
      }
      fromCache := false;
      if reply.ExecFailed? || reply.runs.None? {
        return AllPending, false;
      }
      var runs := reply.runs.value;
      var result := InitialStatus;
      var i := 0;
      while i < |runs|
        invariant 0 <= i <= |runs|
        invariant JsScan(runs[i..], result) == JsScan(runs, InitialStatus)
        invariant unchanged(this)
      {
        assert runs[i..][1..] == runs[i + 1..];
        var thrown;
        thrown, result := ClassifyRun(runs[i], result);
        if thrown {
          return AllPending, false;
        }
        i := i + 1;
      }
      report := Scanned(result);
      cache := cache[app := report];
      lastFetch := lastFetch[app := now];
    }
  }
}
