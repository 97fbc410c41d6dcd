/** The workflows container: a list of workflows, each owned by a project through
    `projectId`, with per-project and global statistics and create / update /
    delete / run actions. Times are milliseconds since the epoch. */
module Workflows {
  import opened Wrappers
  import opened Collections
  import opened Text

  datatype Status = Success | Running | Failed | Pending

  datatype Workflow = Workflow(
    id: string,
    name: string,
    description: string,
    status: Status,
    lastRun: int,
    duration: string,
    projectId: string,
    createdAt: int,
    updatedAt: int)

  /** What a caller supplies to create a workflow: everything but the id and the times. */
  datatype WorkflowDraft = WorkflowDraft(
    name: string,
    description: string,
    status: Status,
    duration: string,
    projectId: string)

  /** A partial update: each present field overwrites the stored one. */
  datatype WorkflowPatch = WorkflowPatch(
    name: Option<string>,
    description: Option<string>,
    status: Option<Status>,
    lastRun: Option<int>,
    duration: Option<string>)

  // ---------------------------------------------------------------------------
  // Lookups

  /** The index of the first workflow with this id, or -1. */
  function IndexOfWorkflow(ws: seq<Workflow>, id: string): (r: int)
    ensures -1 <= r < |ws|
    ensures r == -1 <==> forall i :: 0 <= i < |ws| ==> ws[i].id != id
    ensures 0 <= r ==> ws[r].id == id && forall i :: 0 <= i < r ==> ws[i].id != id
  {
    FindIndex(ws, (w: Workflow) => w.id == id)
  }

  /** `getWorkflowById`: the first workflow with this id, if any. */
  function WorkflowById(ws: seq<Workflow>, id: string): (r: Option<Workflow>)
    ensures r.None? <==> forall i :: 0 <= i < |ws| ==> ws[i].id != id
    ensures r.Some? ==> r.value.id == id && r.value == ws[IndexOfWorkflow(ws, id)]
  {
    var i := IndexOfWorkflow(ws, id);
    if i == -1 then None else Some(ws[i])
  }

  /** `getWorkflowsByProjectId`: the workflows of one project, in list order. */
  function WorkflowsByProject(ws: seq<Workflow>, projectId: string): (r: seq<Workflow>)
    ensures forall i :: 0 <= i < |r| ==> r[i].projectId == projectId && r[i] in ws
    ensures forall i :: 0 <= i < |ws| && ws[i].projectId == projectId ==> ws[i] in r
    ensures IsSubsequence(r, ws)
    ensures forall x :: multiset(r)[x] == if x.projectId == projectId then multiset(ws)[x] else 0
  {
    var f := (w: Workflow) => w.projectId == projectId;
    FilterIsSubsequence(ws, f);
    FilterMultiplicity(ws, f);
    Filter(ws, f)
  }

  /** The workflows of every other project, in list order. */
  function WithoutProject(ws: seq<Workflow>, projectId: string): (r: seq<Workflow>)
    ensures forall i :: 0 <= i < |r| ==> r[i].projectId != projectId && r[i] in ws
    ensures forall i :: 0 <= i < |ws| && ws[i].projectId != projectId ==> ws[i] in r
    ensures IsSubsequence(r, ws)
    ensures forall x :: multiset(r)[x] == if x.projectId != projectId then multiset(ws)[x] else 0
  {
    var f := (w: Workflow) => w.projectId != projectId;
    FilterIsSubsequence(ws, f);
    FilterMultiplicity(ws, f);
    Filter(ws, f)
  }

  /** Removing one project's workflows removes exactly as many as that project has. */
  lemma WithoutProjectSize(ws: seq<Workflow>, projectId: string)
    ensures |WithoutProject(ws, projectId)| == |ws| - |WorkflowsByProject(ws, projectId)|
  {
    FilterComplement(ws, (w: Workflow) => w.projectId == projectId, (w: Workflow) => w.projectId != projectId);
  }

  /** Removing one project's workflows leaves the workflow list of every other project as it was. */
  lemma {:induction false} WithoutProjectKeepsOthers(ws: seq<Workflow>, p: string, q: string)
    requires p != q
    ensures WorkflowsByProject(WithoutProject(ws, p), q) == WorkflowsByProject(ws, q)
  {
    if ws != [] {
      WithoutProjectKeepsOthers(ws[1..], p, q);
      if ws[0].projectId != p {
        assert WithoutProject(ws, p) == [ws[0]] + WithoutProject(ws[1..], p);
        assert ([ws[0]] + WithoutProject(ws[1..], p))[1..] == WithoutProject(ws[1..], p);
      }
    }
  }

  /** The workflows that count as active: running or succeeded. */
  predicate IsActive(w: Workflow) {
    w.status == Running || w.status == Success
  }

  /** How many workflows of the list have this status. */
  function StatusCount(ws: seq<Workflow>, status: Status): (r: nat)
    ensures r <= |ws|
    ensures r == 0 <==> forall i :: 0 <= i < |ws| ==> ws[i].status != status
  {
    var f := (w: Workflow) => w.status == status;
    if forall i :: 0 <= i < |ws| ==> !f(ws[i]) then
      FilterNone(ws, f);
      |Filter(ws, f)|
    else
      var i :| 0 <= i < |ws| && f(ws[i]);
      assert ws[i] in Filter(ws, f);
      |Filter(ws, f)|
  }

  /** Counting by status distributes over concatenation; with the zero case this
      pins the count of every list. */
  lemma StatusCountAppend(a: seq<Workflow>, b: seq<Workflow>, status: Status)
    ensures StatusCount(a + b, status) == StatusCount(a, status) + StatusCount(b, status)
  {
    FilterAppend(a, b, (w: Workflow) => w.status == status);
  }

  /** `getActiveWorkflowsCount`: how many of a project's workflows are running or succeeded. */
  function ActiveWorkflowsCount(ws: seq<Workflow>, projectId: string): (r: nat)
    ensures r <= |WorkflowsByProject(ws, projectId)|
    ensures r == 0 <==> forall i :: 0 <= i < |ws| && ws[i].projectId == projectId ==> !IsActive(ws[i])
  {
    var pw := WorkflowsByProject(ws, projectId);
    if forall i :: 0 <= i < |ws| && ws[i].projectId == projectId ==> !IsActive(ws[i]) then
      assert forall k :: 0 <= k < |pw| ==> !IsActive(pw[k]) by {
        forall k | 0 <= k < |pw|
          ensures !IsActive(pw[k])
        {
          var j :| 0 <= j < |ws| && ws[j] == pw[k];
        }
      }
      FilterNone(pw, IsActive);
      |Filter(pw, IsActive)|
    else
      var i :| 0 <= i < |ws| && ws[i].projectId == projectId && IsActive(ws[i]);
      assert ws[i] in Filter(pw, IsActive);
      |Filter(pw, IsActive)|
  }

  /** Appending a workflow adds one to a project's active count exactly when it
      belongs to that project and is running or succeeded. */
  lemma ActiveWorkflowsCountAppend(ws: seq<Workflow>, w: Workflow, projectId: string)
    ensures ActiveWorkflowsCount(ws + [w], projectId)
      == ActiveWorkflowsCount(ws, projectId) + (if w.projectId == projectId && IsActive(w) then 1 else 0)
  {
    var f := (x: Workflow) => x.projectId == projectId;
    FilterAppend(ws, [w], f);
    assert WorkflowsByProject(ws + [w], projectId) == WorkflowsByProject(ws, projectId) + Filter([w], f);
    FilterAppend(WorkflowsByProject(ws, projectId), Filter([w], f), IsActive);
  }

  /** The active count of a list is its running count plus its success count. */
  lemma {:induction false} ActiveIsRunningOrSuccess(pw: seq<Workflow>)
    ensures |Filter(pw, IsActive)| == StatusCount(pw, Running) + StatusCount(pw, Success)
  {
    if pw != [] {
      ActiveIsRunningOrSuccess(pw[1..]);
    }
  }

  /** A project's active count is the number of its workflows that are running plus
      the number that succeeded. */
  lemma ActiveWorkflowsCountByStatus(ws: seq<Workflow>, projectId: string)
    ensures ActiveWorkflowsCount(ws, projectId)
      == StatusCount(WorkflowsByProject(ws, projectId), Running) + StatusCount(WorkflowsByProject(ws, projectId), Success)
  {
    ActiveIsRunningOrSuccess(WorkflowsByProject(ws, projectId));
  }

  // ---------------------------------------------------------------------------
  // Durations: "Xm Ys" strings

  /** The seconds one duration string contributes to the total: `split(/[ms]/)`,
      the first piece counts as minutes and the second as seconds, each through
      `parseInt(...) || 0`. With neither `m` nor `s` in the string there is no
      second piece and the source adds `undefined`: the total becomes `NaN`,
      here `None`. */
  function DurationSeconds(d: string): (r: Option<int>)
    ensures r.None? <==> NoUnitSeparator(d)
  {
    SplitUnitsPieces(d);
    var parts := SplitUnits(d);
    if |parts| < 2 then None
    else Some(ParseIntOrZero(parts[0]) * 60 + ParseIntOrZero(parts[1]))
  }

  /** The template `${minutes}m ${seconds}s`. */
  function FormatDuration(minutes: int, seconds: int): string {
    IntToString(minutes) + "m " + IntToString(seconds) + "s"
  }

  /** How the rendering splits: the minutes, then a space and the seconds, then nothing. */
  lemma SplitFormatted(minutes: int, seconds: int)
    ensures SplitUnits(FormatDuration(minutes, seconds)) == [IntToString(minutes), " " + IntToString(seconds), ""]
  {
    var m := IntToString(minutes);
    var tail := " " + IntToString(seconds);
    assert NoUnitSeparator(m);
    assert NoUnitSeparator(tail);
    calc {
      FormatDuration(minutes, seconds);
      m + "m " + IntToString(seconds) + "s";
      { assert "m " == ['m'] + " "; }
      m + ['m'] + (tail + ['s'] + "");
    }
    SplitUnitsAfterPiece(m, 'm', tail + ['s'] + "");
    SplitUnitsAfterPiece(tail, 's', "");
    assert SplitUnits("") == [""];
  }

  /** A rendered duration parses back to minutes * 60 + seconds. */
  lemma DurationRoundTrip(minutes: int, seconds: int)
    ensures DurationSeconds(FormatDuration(minutes, seconds)) == Some(60 * minutes + seconds)
  {
    var parts := SplitUnits(FormatDuration(minutes, seconds));
    SplitFormatted(minutes, seconds);
    assert ParseIntOrZero(parts[0]) == minutes by {
      ParseIntToString(minutes);
    }
    assert ParseIntOrZero(parts[1]) == seconds by {
      ParseIntSkipsSpace(IntToString(seconds));
      ParseIntToString(seconds);
    }
  }

  /** The sum of the durations of `ws`, `None` once one of them is `NaN`. */
  function TotalSeconds(ws: seq<Workflow>): Option<int> {
    if ws == [] then Some(0)
    else
      var d := DurationSeconds(ws[0].duration);
      var t := TotalSeconds(ws[1..]);
      if d.Some? && t.Some? then Some(d.value + t.value) else None
  }

  /** The reduce is a number exactly when every duration parses. */
  lemma {:induction false} TotalSecondsDefined(ws: seq<Workflow>)
    ensures TotalSeconds(ws).Some? <==> forall i :: 0 <= i < |ws| ==> DurationSeconds(ws[i].duration).Some?
  {
    if ws != [] {
      TotalSecondsDefined(ws[1..]);
      assert forall i :: 1 <= i < |ws| ==> ws[i] == ws[1..][i - 1];
    }
  }

  /** `Math.round(total / n)` for a positive count: the nearest integer, halves rounding up. */
  function RoundedAverage(total: int, n: nat): (r: int)
    requires n > 0
    ensures 2 * n * r <= 2 * total + n < 2 * n * (r + 1)
  {
    DivBounds(2 * total + n, 2 * n);
    (2 * total + n) / (2 * n)
  }

  lemma DivBounds(x: int, d: int)
    requires d > 0
    ensures d * (x / d) <= x < d * (x / d + 1)
  {
  }

  /** JavaScript's `%`, whose result takes the sign of the dividend. */
  function JsRemainder(a: int, b: int): (r: int)
    requires b > 0
    ensures a >= 0 ==> 0 <= r < b
    ensures a < 0 ==> -b < r <= 0
    ensures a >= 0 ==> a == b * (a / b) + r
  {
    if a >= 0 then a % b else -((-a) % b)
  }

  /** `${Math.floor(avg / 60)}m ${avg % 60}s`. */
  function AverageDuration(avg: int): string {
    FormatDuration(avg / 60, JsRemainder(avg, 60))
  }

  /** For a non-negative average the seconds part is below 60 and the rendering
      parses back to the average. */
  lemma AverageDurationRoundTrip(avg: int)
    requires avg >= 0
    ensures 0 <= JsRemainder(avg, 60) < 60
    ensures DurationSeconds(AverageDuration(avg)) == Some(avg)
  {
    var minutes, seconds := avg / 60, JsRemainder(avg, 60);
    assert avg == 60 * minutes + seconds;
    DurationRoundTrip(minutes, seconds);
  }

  // ---------------------------------------------------------------------------
  // Statistics

  /** `successCount / n * 100` rounded to one decimal, in tenths of a percent. */
  function SuccessRateTenths(successes: nat, n: nat): (r: nat)
    requires successes <= n && n > 0
    ensures r <= 1000
    ensures successes == n ==> r == 1000
    ensures successes == 0 ==> r == 0
    ensures 2 * n * r <= 2000 * successes + n < 2 * n * (r + 1)
  {
    var r := (2000 * successes + n) / (2 * n);
    RateBounds(successes, n, r);
    r
  }

  lemma RateBounds(successes: nat, n: nat, r: int)
    requires successes <= n && n > 0 && r == (2000 * successes + n) / (2 * n)
    ensures 0 <= r <= 1000
    ensures successes == n ==> r == 1000
    ensures successes == 0 ==> r == 0
    ensures 2 * n * r <= 2000 * successes + n < 2 * n * (r + 1)
  {
    DivBounds(2000 * successes + n, 2 * n);
    if r < 0 {
      MulLeq(2 * n, r + 1, 0);
    }
    if r > 1000 {
      MulLeq(2 * n, 1001, r);
    }
    if successes == n && r < 1000 {
      MulLeq(2 * n, r + 1, 1000);
    }
    if successes == 0 && r > 0 {
      MulLeq(2 * n, 1, r);
    }
  }

  lemma MulLeq(n: int, a: int, b: int)
    requires n >= 0 && a <= b
    ensures n * a <= n * b
  {
    assert n * b - n * a == n * (b - a);
  }

  /** The reduce over `lastRun` starting from `latest`: keep the later of the two. */
  function LatestRun(ws: seq<Workflow>, latest: int): (r: int)
    ensures r >= latest
    ensures forall i :: 0 <= i < |ws| ==> ws[i].lastRun <= r
    ensures r == latest || exists i :: 0 <= i < |ws| && ws[i].lastRun == r
  {
    if ws == [] then latest
    else
      var rest := LatestRun(ws[1..], if ws[0].lastRun > latest then ws[0].lastRun else latest);
      assert forall i :: 1 <= i < |ws| ==> ws[i] == ws[1..][i - 1];
      rest
  }

  /** The latest `lastRun`, unless it is not after the epoch. */
  function LastExecution(ws: seq<Workflow>): (r: Option<int>)
    ensures r.None? <==> forall i :: 0 <= i < |ws| ==> ws[i].lastRun <= 0
    ensures r.Some? ==> r.value > 0 && forall i :: 0 <= i < |ws| ==> ws[i].lastRun <= r.value
    ensures r.Some? ==> exists i :: 0 <= i < |ws| && ws[i].lastRun == r.value
  {
    var latest := LatestRun(ws, 0);
    if latest > 0 then Some(latest) else None
  }

  datatype WorkflowStats = WorkflowStats(
    executions: nat,
    successRateTenths: nat,   // the success rate in tenths of a percent
    avgDuration: string,
    lastExecution: Option<int>)

  /** `getWorkflowStats`: executions, success rate, average duration and last
      execution of one project. */
  function ProjectWorkflowStats(ws: seq<Workflow>, projectId: string): (r: WorkflowStats)
    ensures r.executions == |WorkflowsByProject(ws, projectId)|
    ensures r.successRateTenths <= 1000
    ensures r.executions == 0 ==> r == WorkflowStats(0, 0, "0m 0s", None)
    ensures r.lastExecution == LastExecution(WorkflowsByProject(ws, projectId))
  {
    var pw := WorkflowsByProject(ws, projectId);
    if |pw| == 0 then WorkflowStats(0, 0, "0m 0s", None)
    else
      var avg := match TotalSeconds(pw)
        case None => "NaNm NaNs"
        case Some(total) => AverageDuration(RoundedAverage(total, |pw|));
      WorkflowStats(|pw|, SuccessRateTenths(StatusCount(pw, Success), |pw|), avg, LastExecution(pw))
  }

  /** A project whose workflows all succeeded has success rate 100. */
  lemma SuccessRateAllSucceeded(ws: seq<Workflow>, projectId: string)
    requires forall i :: 0 <= i < |ws| && ws[i].projectId == projectId ==> ws[i].status == Success
    ensures ProjectWorkflowStats(ws, projectId).successRateTenths == if WorkflowsByProject(ws, projectId) == [] then 0 else 1000
  {
    var pw := WorkflowsByProject(ws, projectId);
    FilterAll(pw, (w: Workflow) => w.status == Success);
  }

  /** A project none of whose workflows succeeded has success rate 0. */
  lemma SuccessRateNoneSucceeded(ws: seq<Workflow>, projectId: string)
    requires forall i :: 0 <= i < |ws| && ws[i].projectId == projectId ==> ws[i].status != Success
    ensures ProjectWorkflowStats(ws, projectId).successRateTenths == 0
  {
    var pw := WorkflowsByProject(ws, projectId);
    FilterNone(pw, (w: Workflow) => w.status == Success);
  }

  /** The average duration of a project whose durations all parse: the rounded
      mean of the seconds, rendered with a seconds part below 60 when it is not negative. */
  lemma AverageDurationOfProject(ws: seq<Workflow>, projectId: string, total: int)
    requires WorkflowsByProject(ws, projectId) != []
    requires TotalSeconds(WorkflowsByProject(ws, projectId)) == Some(total)
    requires total >= 0
    ensures var n := |WorkflowsByProject(ws, projectId)|;
      ProjectWorkflowStats(ws, projectId).avgDuration == AverageDuration(RoundedAverage(total, n))
      && DurationSeconds(ProjectWorkflowStats(ws, projectId).avgDuration) == Some(RoundedAverage(total, n))
  {
    var n := |WorkflowsByProject(ws, projectId)|;
    AverageOfProject(ws, projectId, total);
    RoundedAverageNonNegative(total, n);
    AverageDurationRoundTrip(RoundedAverage(total, n));
  }

  lemma AverageOfProject(ws: seq<Workflow>, projectId: string, total: int)
    requires WorkflowsByProject(ws, projectId) != []
    requires TotalSeconds(WorkflowsByProject(ws, projectId)) == Some(total)
    ensures ProjectWorkflowStats(ws, projectId).avgDuration
      == AverageDuration(RoundedAverage(total, |WorkflowsByProject(ws, projectId)|))
  {
  }

  /** The rounded mean of a non-negative total is not negative. */
  lemma RoundedAverageNonNegative(total: int, n: nat)
    requires n > 0 && total >= 0
    ensures RoundedAverage(total, n) >= 0
  {
    var avg := RoundedAverage(total, n);
    if avg < 0 {
      MulLeq(2 * n, avg, -1);
    }
  }

  /** The total of two workflows with defined durations. */
  lemma TotalSecondsOfTwo(ws: seq<Workflow>, d1: int, d2: int)
    requires |ws| == 2
    requires DurationSeconds(ws[0].duration) == Some(d1) && DurationSeconds(ws[1].duration) == Some(d2)
    ensures TotalSeconds(ws) == Some(d1 + d2)
  {
    var tail := ws[1..];
    assert tail[0] == ws[1] && tail[1..] == [];
    assert TotalSeconds(tail[1..]) == Some(0);
    assert TotalSeconds(tail) == Some(d2);
  }

  /** Two workflows of a project lasting `"2m 15s"` and `"1m 45s"` average to `"2m 0s"`. */
  lemma AverageOfTwoExample(ws: seq<Workflow>, projectId: string)
    requires |ws| == 2 && ws[0].projectId == projectId && ws[1].projectId == projectId
    requires ws[0].duration == FormatDuration(2, 15) && ws[1].duration == FormatDuration(1, 45)
    ensures ProjectWorkflowStats(ws, projectId).avgDuration == FormatDuration(2, 0)
  {
    assert WorkflowsByProject(ws, projectId) == ws by {
      FilterAll(ws, (w: Workflow) => w.projectId == projectId);
    }
    assert TotalSeconds(ws) == Some(240) by {
      DurationRoundTrip(2, 15);
      DurationRoundTrip(1, 45);
      TotalSecondsOfTwo(ws, 135, 105);
    }
    AverageOfTotal240(ws, projectId);
    TwoMinutes();
  }

  /** Two workflows of a project totalling 240 seconds average to 120 seconds. */
  lemma AverageOfTotal240(ws: seq<Workflow>, projectId: string)
    requires |ws| == 2 && WorkflowsByProject(ws, projectId) == ws && TotalSeconds(ws) == Some(240)
    ensures ProjectWorkflowStats(ws, projectId).avgDuration == AverageDuration(120)
  {
    assert RoundedAverage(240, 2) == 120;
  }

  lemma TwoMinutes()
    ensures AverageDuration(120) == FormatDuration(2, 0)
  {
    assert JsRemainder(120, 60) == 0;
  }

  /** The rendering in the example above. */
  lemma FormattedExamples()
    ensures FormatDuration(2, 15) == "2m 15s" && FormatDuration(1, 45) == "1m 45s" && FormatDuration(2, 0) == "2m 0s"
  {
    assert NatToString(15) == "15" by {
      assert NatToString(1) == "1";
    }
    assert NatToString(45) == "45" by {
      assert NatToString(4) == "4";
    }
  }

  /** A duration without a minutes part is read literally: `"45s"` counts as
      45 minutes, because its first piece is taken as the minutes. */
  lemma SecondsOnlyReadAsMinutes(n: nat)
    ensures DurationSeconds(NatToString(n) + "s") == Some(60 * n)
  {
    SplitSecondsOnly(NatToString(n));
    ParseIntNatToString(n);
    assert ParseInt("") == None;
  }

  /** A separator-free string followed by `s` splits into itself and an empty piece. */
  lemma SplitSecondsOnly(ds: string)
    requires NoUnitSeparator(ds)
    ensures SplitUnits(ds + "s") == [ds, ""]
  {
    assert ds + "s" == ds + ['s'] + "";
    SplitUnitsAfterPiece(ds, 's', "");
    assert SplitUnits("") == [""];
  }

  datatype AllWorkflowStats = AllWorkflowStats(total: nat, running: nat, success: nat, failed: nat, pending: nat)

  /** `getAllWorkflowStats`: the size of the list and a count per status. */
  function WorkflowTotals(ws: seq<Workflow>): (r: AllWorkflowStats)
    ensures r.total == |ws|
    ensures r.running == StatusCount(ws, Running) && r.success == StatusCount(ws, Success)
    ensures r.failed == StatusCount(ws, Failed) && r.pending == StatusCount(ws, Pending)
    ensures ws == [] ==> r == AllWorkflowStats(0, 0, 0, 0, 0)
  {
    if ws == [] then AllWorkflowStats(0, 0, 0, 0, 0)
    else AllWorkflowStats(|ws|, StatusCount(ws, Running), StatusCount(ws, Success),
                          StatusCount(ws, Failed), StatusCount(ws, Pending))
  }

  /** Every workflow has exactly one status, so the four counts add up to the total. */
  lemma {:induction false} StatusCountsPartition(ws: seq<Workflow>)
    ensures StatusCount(ws, Running) + StatusCount(ws, Success) + StatusCount(ws, Failed) + StatusCount(ws, Pending) == |ws|
  {
    if ws != [] {
      StatusCountsPartition(ws[1..]);
    }
  }

  lemma WorkflowTotalsAddUp(ws: seq<Workflow>)
    ensures var s := WorkflowTotals(ws); s.total == s.running + s.success + s.failed + s.pending
  {
    StatusCountsPartition(ws);
  }

  /** Creating a workflow adds one to the total and one to the count of its own status. */
  lemma TotalsAfterCreate(ws: seq<Workflow>, w: Workflow)
    ensures var before := WorkflowTotals(ws); var after := WorkflowTotals(ws + [w]);
      after.total == before.total + 1
      && after.running == before.running + (if w.status == Running then 1 else 0)
      && after.success == before.success + (if w.status == Success then 1 else 0)
      && after.failed == before.failed + (if w.status == Failed then 1 else 0)
      && after.pending == before.pending + (if w.status == Pending then 1 else 0)
  {
    StatusCountAppend(ws, [w], Running);
    StatusCountAppend(ws, [w], Success);
    StatusCountAppend(ws, [w], Failed);
    StatusCountAppend(ws, [w], Pending);
    assert [w][0] == w;
  }

  // ---------------------------------------------------------------------------
  // The store

  /** The workflow after a partial update at time `now`: present fields overwrite,
      id, project and creation time are kept. */
  function Patched(w: Workflow, patch: WorkflowPatch, now: int): (r: Workflow)
    ensures r.id == w.id && r.projectId == w.projectId && r.createdAt == w.createdAt
    ensures r.updatedAt == now
    ensures r.name == patch.name.GetOr(w.name) && r.description == patch.description.GetOr(w.description)
    ensures r.status == patch.status.GetOr(w.status) && r.lastRun == patch.lastRun.GetOr(w.lastRun)
    ensures r.duration == patch.duration.GetOr(w.duration)
  {
    Workflow(w.id, patch.name.GetOr(w.name), patch.description.GetOr(w.description),
             patch.status.GetOr(w.status), patch.lastRun.GetOr(w.lastRun),
             patch.duration.GetOr(w.duration), w.projectId, w.createdAt, now)
  }

  class WorkflowsStore {
    var workflows: seq<Workflow>

    constructor ()
      ensures workflows == []
    {
      workflows := [];
    }

    /** `createWorkflow`: appends one workflow whose last run, creation and update times are `now`. */
    method CreateWorkflow(draft: WorkflowDraft, id: string, now: int) returns (w: Workflow)
      modifies this`workflows
      ensures w.id == id && w.lastRun == now && w.createdAt == now && w.updatedAt == now
      ensures w.name == draft.name && w.description == draft.description && w.status == draft.status
      ensures w.duration == draft.duration && w.projectId == draft.projectId
      ensures workflows == old(workflows) + [w]
    {
      w := Workflow(id, draft.name, draft.description, draft.status, now, draft.duration, draft.projectId, now, now);
      workflows := workflows + [w];
    }

    /** `updateWorkflow`: patches the first workflow with this id, or returns `None`
        and changes nothing. */
    method UpdateWorkflow(id: string, patch: WorkflowPatch, now: int) returns (r: Option<Workflow>)
      modifies this`workflows
      ensures var i := IndexOfWorkflow(old(workflows), id);
        if i == -1 then r == None && workflows == old(workflows)
        else r == Some(Patched(old(workflows)[i], patch, now)) && workflows == old(workflows)[i := r.value]
    {
      var i := IndexOfWorkflow(workflows, id);
      if i > -1 {
        var updated := Patched(workflows[i], patch, now);
        workflows := workflows[i := updated];
        r := Some(updated);
      } else {
        r := None;
      }
    }

    /** `deleteWorkflow`: removes the first workflow with this id and keeps the order
        of the rest; `false` and no change when there is none. */
    method DeleteWorkflow(id: string) returns (deleted: bool)
      modifies this`workflows
      ensures var i := IndexOfWorkflow(old(workflows), id);
        deleted == (i != -1)
        && workflows == if i == -1 then old(workflows) else RemoveAt(old(workflows), i)
    {
      var i := IndexOfWorkflow(workflows, id);
      if i > -1 {
        workflows := RemoveAt(workflows, i);
        deleted := true;
      } else {
        deleted := false;
      }
    }

    /** `deleteWorkflowsByProjectId`: keeps only the workflows of other projects, in
        order; `true` exactly when the list got shorter, that is, when the project had any. */
    method DeleteWorkflowsByProjectId(projectId: string) returns (changed: bool)
      modifies this`workflows
      ensures workflows == WithoutProject(old(workflows), projectId)
      ensures changed == (|workflows| != |old(workflows)|)
      ensures changed <==> WorkflowsByProject(old(workflows), projectId) != []
    {
      var initialLength := |workflows|;
      WithoutProjectSize(workflows, projectId);
      workflows := WithoutProject(workflows, projectId);
      changed := |workflows| != initialLength;
    }

    /** `runWorkflow`, up to the simulated completion: the first workflow with this
        id becomes running with last run and update time `now`. */
    method RunWorkflow(id: string, now: int) returns (started: bool)
      modifies this`workflows
      ensures var i := IndexOfWorkflow(old(workflows), id);
        started == (i != -1)
        && workflows == if i == -1 then old(workflows)
                        else old(workflows)[i := old(workflows)[i].(status := Running, lastRun := now, updatedAt := now)]
    {
      var i := IndexOfWorkflow(workflows, id);
      if i > -1 {
        workflows := workflows[i := workflows[i].(status := Running, lastRun := now, updatedAt := now)];
        started := true;
      } else {
        started := false;
      }
    }
  }
}
