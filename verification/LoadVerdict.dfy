/**
 The verdict of a stress run: load/k6/lib/summary.js.  A measurement that is undefined or NaN is None; a comparison with
 it is false.
 */
module LoadVerdict {
  import opened Prelude
  import opened LoadPlan

  const MAX_ERROR_RATE := 0.01
  const P95_FACTOR := 3.0
  const MIN_RPS_SHARE := 0.95
  const STOP_SLACK_MS := 5000.0

  predicate Above(v: Option<real>, limit: real)
  {
    v.Some? && v.value > limit
  }

  /** toFixed with `scale` = 10 to the number of digits. */
  function Fixed(v: real, scale: real): real
    requires scale > 0.0
  {
    if v >= 0.0 then (v * scale + 0.5).Floor as real / scale else -((0.5 - v * scale).Floor as real / scale)
  }

  /* ---------- the stage at which a run stopped ---------- */

  /** The stages that have started at `ms`, in order. */
  function Started(plan: seq<Stage>, ms: real): seq<Stage>
  {
    if plan == [] then []
    else
      Started(plan[..|plan| - 1], ms) +
      if (plan[|plan| - 1].startSec * 1000) as real <= ms then [plan[|plan| - 1]] else []
  }

  function StoppedStageAt(plan: seq<Stage>, elapsedMs: Option<real>): nat
    requires plan != []
  {
    var started := if elapsedMs.None? then [] else Started(plan, elapsedMs.value - STOP_SLACK_MS);
    if |started| > 0 then started[|started| - 1].n else plan[0].n
  }

  /** Stages start in order, so the started ones are a prefix. */
  lemma {:induction false} StartedIsPrefix(rates: seq<int>, count: nat, ms: real)
    requires count <= |rates|
    ensures var plan, k := PlanOf(rates), (ms / STAGE_MS).Floor + 1;
            Started(plan[..count], ms) == plan[..if k < 0 then 0 else if k < count then k else count]
  {
    var plan := PlanOf(rates);
    FloorBounds(ms);
    if count > 0 {
      StartedIsPrefix(rates, count - 1, ms);
      assert plan[..count][..count - 1] == plan[..count - 1];
      assert plan[..count][count - 1] == StageOf(rates, count - 1);
      assert plan[..count] == plan[..count - 1] + [plan[count - 1]];
    }
  }

  /** The stage a run stopped in is the stage stageAt names a few seconds earlier, and the first stage before that. */
  lemma StoppedIsStageAt(rates: seq<int>, elapsedMs: real)
    requires Positive(rates)
    ensures var at := if elapsedMs - STOP_SLACK_MS >= 0.0 then elapsedMs - STOP_SLACK_MS else 0.0;
            StageAt(PlanOf(rates), at).Some? &&
            StoppedStageAt(PlanOf(rates), Some(elapsedMs)) == StageAt(PlanOf(rates), at).value.stage
  {
    var plan, ms := PlanOf(rates), elapsedMs - STOP_SLACK_MS;
    StartedIsPrefix(rates, |rates|, ms);
    assert plan[..|rates|] == plan;
    FloorBounds(ms);
    StageAtNamesStage(rates, if ms >= 0.0 then ms else 0.0);
    FloorIs(0.0, 0);
  }

  /* ---------- stages with their measurements ---------- */

  /** What the plateau sub-metrics of a stage say. */
  datatype Plateau = Plateau(requests: nat, p95: Option<real>, errorRate: Option<real>)

  datatype Row = Row(stage: nat, targetRps: int, reached: bool, partial: bool, achievedShare: real, p95: Option<real>,
                     errorRate: Option<real>)

  function RowOf(s: Stage, d: Plateau, elapsedMs: Option<real>): Row
    requires s.rate > 0
  {
    var sincePlateau := if elapsedMs.None? then None else Some(elapsedMs.value / 1000.0 - s.plateauStartSec as real);
    var plateauElapsed :=
      if Above(sincePlateau, PLATEAU_SEC as real) then Some(PLATEAU_SEC as real) else sincePlateau;
    var partial := d.requests > 0 && plateauElapsed.Some? &&
      plateauElapsed.value < PLATEAU_SEC as real - STOP_SLACK_MS / 1000.0;
    var achieved :=
      if d.requests > 0 && Above(plateauElapsed, 0.0) then d.requests as real / plateauElapsed.value else 0.0;
    Row(s.n, s.rate, d.requests > 0, partial, Fixed(achieved / s.rate as real, 1000.0), d.p95, d.errorRate)
  }

  function RowsOf(rates: seq<int>, plateaus: seq<Plateau>, elapsedMs: Option<real>): (rows: seq<Row>)
    requires Positive(rates) && |plateaus| == |rates|
    ensures |rows| == |rates| && Numbered(rows)
    ensures forall i :: 0 <= i < |rows| ==> rows[i] == RowOf(PlanOf(rates)[i], plateaus[i], elapsedMs)
  {
    seq(|rates|, i requires 0 <= i < |rates| => RowOf(PlanOf(rates)[i], plateaus[i], elapsedMs))
  }

  ghost predicate Numbered(rows: seq<Row>)
  {
    forall i :: 0 <= i < |rows| ==> rows[i].stage == i + 1
  }

  datatype Failed = OnErrorRate(stage: int) | OnSlowShare(stage: int) | OnDropped | OnOther(name: string)

  datatype Reason = HighErrorRate | SlowP95 | LowThroughput | DroppedIterations | Crossed(f: Failed)

  function FirstReached(rows: seq<Row>): (r: Option<Row>)
    ensures r.None? <==> forall i :: 0 <= i < |rows| ==> !rows[i].reached
  {
    if rows == [] then None else if rows[0].reached then Some(rows[0]) else FirstReached(rows[1..])
  }

  function RatioToFirst(first: Option<Row>, r: Row): Option<real>
  {
    if first.Some? && Above(first.value.p95, 0.0) && r.p95.Some?
    then Some(Fixed(r.p95.value / first.value.p95.value, 100.0))
    else None
  }

  /** The limit criterion applied to one stage. */
  function Criterion(first: Option<Row>, r: Row, stopped: Option<nat>): seq<Reason>
  {
    (if !r.reached then []
     else (if Above(r.errorRate, MAX_ERROR_RATE) then [HighErrorRate] else []) +
          (if Above(RatioToFirst(first, r), P95_FACTOR) then [SlowP95] else []) +
          (if !r.partial && r.achievedShare < MIN_RPS_SHARE then [LowThroughput] else [])) +
    (if stopped == Some(r.stage) then [DroppedIterations] else [])
  }

  function CrossedBy(n: nat, f: Failed): seq<Reason>
  {
    if (f.OnErrorRate? || f.OnSlowShare?) && f.stage == n then [Crossed(f)] else []
  }

  /** The thresholds that aborted the run in stage `n`. */
  function CrossedIn(n: nat, failed: seq<Failed>): seq<Reason>
  {
    if failed == [] then [] else CrossedIn(n, failed[..|failed| - 1]) + CrossedBy(n, failed[|failed| - 1])
  }

  class StageStats {
    const row: Row
    var reasons: seq<Reason>
    var degraded: bool

    constructor (row: Row)
      ensures this.row == row
    {
      this.row, reasons, degraded := row, [], false;
    }
  }

  function Rows(stages: seq<StageStats>): (rows: seq<Row>)
    ensures |rows| == |stages| && forall i :: 0 <= i < |stages| ==> rows[i] == stages[i].row
  {
    seq(|stages|, i requires 0 <= i < |stages| => stages[i].row)
  }

  ghost predicate Apart(stages: seq<StageStats>)
  {
    forall i, j :: 0 <= i < j < |stages| ==> stages[i] != stages[j]
  }

  method MarkStage(s: StageStats, first: Option<Row>, stopped: Option<nat>)
    modifies s
    ensures s.reasons == Criterion(first, s.row, stopped) && (s.degraded <==> s.reasons != [])
  {
    s.reasons := [];
    if s.row.reached {
      var ratio := RatioToFirst(first, s.row);
      if Above(s.row.errorRate, MAX_ERROR_RATE) {
        s.reasons := s.reasons + [HighErrorRate];
      }
      if Above(ratio, P95_FACTOR) {
        s.reasons := s.reasons + [SlowP95];
      }
      if !s.row.partial && s.row.achievedShare < MIN_RPS_SHARE {
        s.reasons := s.reasons + [LowThroughput];
      }
    }
    if stopped == Some(s.row.stage) {
      s.reasons := s.reasons + [DroppedIterations];
    }
    s.degraded := |s.reasons| > 0;
  }

  method MarkDegradation(stages: seq<StageStats>, stopped: Option<nat>)
    requires Apart(stages)
    modifies set i | 0 <= i < |stages| :: stages[i]
    ensures forall i :: 0 <= i < |stages| ==>
              stages[i].reasons == Criterion(FirstReached(Rows(stages)), stages[i].row, stopped) &&
              (stages[i].degraded <==> stages[i].reasons != [])
  {
    var first := FirstReached(Rows(stages));
    for k := 0 to |stages|
      invariant forall i :: 0 <= i < k ==>
                  stages[i].reasons == Criterion(first, stages[i].row, stopped) &&
                  (stages[i].degraded <==> stages[i].reasons != [])
    {
      MarkStage(stages[k], first, stopped);
    }
  }

  /** stages.find for a stage number. */
  method FindStage(stages: seq<StageStats>, n: int) returns (s: Option<StageStats>)
    requires Numbered(Rows(stages))
    ensures s == if 1 <= n <= |stages| then Some(stages[n - 1]) else None
  {
    for i := 0 to |stages|
      invariant !(1 <= n <= i)
    {
      assert Rows(stages)[i].stage == i + 1;
      if stages[i].row.stage == n {
        return Some(stages[i]);
      }
    }
    return None;
  }

  method MarkThreshold(stages: seq<StageStats>, f: Failed)
    requires Apart(stages) && Numbered(Rows(stages))
    modifies set i | 0 <= i < |stages| :: stages[i]
    ensures forall i :: 0 <= i < |stages| ==>
              stages[i].reasons == old(stages[i].reasons) + CrossedBy(i + 1, f) &&
              (stages[i].degraded <==> old(stages[i].degraded) || CrossedBy(i + 1, f) != [])
  {
    if f.OnErrorRate? || f.OnSlowShare? {
      var s := FindStage(stages, f.stage);
      if s.Some? {
        s.value.reasons := s.value.reasons + [Crossed(f)];
        s.value.degraded := true;
      }
    }
  }

  method MarkThresholdStages(stages: seq<StageStats>, failed: seq<Failed>)
    requires Apart(stages) && Numbered(Rows(stages))
    modifies set i | 0 <= i < |stages| :: stages[i]
    ensures forall i :: 0 <= i < |stages| ==>
              stages[i].reasons == old(stages[i].reasons) + CrossedIn(i + 1, failed) &&
              (stages[i].degraded <==> old(stages[i].degraded) || CrossedIn(i + 1, failed) != [])
  {
    for k := 0 to |failed|
      invariant forall i :: 0 <= i < |stages| ==>
                  stages[i].reasons == old(stages[i].reasons) + CrossedIn(i + 1, failed[..k]) &&
                  (stages[i].degraded <==> old(stages[i].degraded) || CrossedIn(i + 1, failed[..k]) != [])
    {
      MarkThreshold(stages, failed[k]);
      assert failed[..k + 1][..k] == failed[..k];
      assert forall i: nat :: CrossedIn(i, failed[..k + 1]) == CrossedIn(i, failed[..k]) + CrossedBy(i, failed[k]);
    }
    assert failed[..|failed|] == failed;
  }

  /* ---------- the limit ---------- */

  datatype Limit = Limit(firstDegraded: Option<nat>, lastGood: Option<nat>, limitRps: Option<int>)

  /** Index of the first degraded stage. */
  function FirstDegraded(degraded: seq<bool>): (k: nat)
    ensures k <= |degraded| && (forall i :: 0 <= i < k ==> !degraded[i]) && (k < |degraded| ==> degraded[k])
  {
    if degraded == [] || degraded[0] then 0 else 1 + FirstDegraded(degraded[1..])
  }

  /** The reached rows before stage number `n`, in order. */
  function ReachedBefore(rows: seq<Row>, n: nat): seq<Row>
  {
    if rows == [] then []
    else
      var last := rows[|rows| - 1];
      ReachedBefore(rows[..|rows| - 1], n) + if last.reached && last.stage < n then [last] else []
  }

  function LimitOf(rows: seq<Row>, degraded: seq<bool>): Limit
    requires |degraded| == |rows|
  {
    var k := FirstDegraded(degraded);
    if k == |rows| then Limit(None, None, None)
    else
      var good := ReachedBefore(rows, rows[k].stage);
      if good == [] then Limit(Some(rows[k].stage), None, None)
      else Limit(Some(rows[k].stage), Some(good[|good| - 1].stage), Some(good[|good| - 1].targetRps))
  }

  /** `g` is the last reached stage before the stage at index k. */
  ghost predicate LastReached(rows: seq<Row>, k: int, g: int)
  {
    && 0 <= g < k <= |rows| && rows[g].reached
    && forall i :: g < i < k ==> !rows[i].reached
  }

  /** `good` ends with the last reached row of the first `top` rows, if there is one. */
  ghost predicate EndsReached(rows: seq<Row>, top: int, good: seq<Row>)
  {
    if good == [] then forall i :: 0 <= i < top && i < |rows| ==> !rows[i].reached
    else exists g :: LastReached(rows, top, g) && good[|good| - 1] == rows[g]
  }

  lemma EndsReachedNext(rows: seq<Row>, top: nat, good: seq<Row>)
    requires top < |rows| && EndsReached(rows, top, good)
    ensures EndsReached(rows, top + 1, good + if rows[top].reached then [rows[top]] else [])
  {
    if rows[top].reached {
      assert LastReached(rows, top + 1, top);
    } else {
      assert good + [] == good;
      if good != [] {
        var g :| LastReached(rows, top, g) && good[|good| - 1] == rows[g];
        assert LastReached(rows, top + 1, g);
      }
    }
  }

  lemma ReachedBeforeNext(rows: seq<Row>, count: nat, n: nat)
    requires count < |rows|
    ensures ReachedBefore(rows[..count + 1], n) ==
            ReachedBefore(rows[..count], n) + if rows[count].reached && rows[count].stage < n then [rows[count]] else []
  {
    assert rows[..count + 1][..count] == rows[..count];
  }

  lemma {:induction false} ReachedBeforeMeans(rows: seq<Row>, count: nat, k: nat)
    requires Numbered(rows) && k < |rows| && count <= |rows|
    ensures EndsReached(rows, if count < k then count else k, ReachedBefore(rows[..count], k + 1))
  {
    if count > 0 {
      var good := ReachedBefore(rows[..count - 1], k + 1);
      ReachedBeforeMeans(rows, count - 1, k);
      ReachedBeforeNext(rows, count - 1, k + 1);
      assert rows[count - 1].stage == count;
      if count <= k {
        EndsReachedNext(rows, count - 1, good);
      } else {
        assert ReachedBefore(rows[..count], k + 1) == good + [] == good;
      }
    }
  }

  /** The limit: the first degraded stage, and the rate of the last stage before it that was reached. */
  lemma LimitMeans(rows: seq<Row>, degraded: seq<bool>)
    requires Numbered(rows) && |degraded| == |rows|
    ensures var limit := LimitOf(rows, degraded);
            && (limit.firstDegraded.None? <==> forall i :: 0 <= i < |rows| ==> !degraded[i])
            && (limit.firstDegraded.Some? ==> LimitAt(rows, degraded, limit, limit.firstDegraded.value - 1))
            && (limit.firstDegraded.None? ==> limit == Limit(None, None, None))
  {
    var k := FirstDegraded(degraded);
    if k < |rows| {
      ReachedBeforeMeans(rows, |rows|, k);
      assert rows[..|rows|] == rows;
    }
  }

  /** The stage at index k is degraded, none before it is, and the limit is the rate of the last one reached before
      it. */
  ghost predicate LimitAt(rows: seq<Row>, degraded: seq<bool>, limit: Limit, k: int)
  {
    && 0 <= k < |rows| == |degraded| && degraded[k] && (forall i :: 0 <= i < k ==> !degraded[i])
    && (limit.limitRps.None? <==> forall i :: 0 <= i < k ==> !rows[i].reached)
    && (limit.limitRps.Some? ==>
          exists g :: LastReached(rows, k, g) && limit.lastGood == Some(g + 1) &&
                      limit.limitRps.value == rows[g].targetRps)
  }

  /* ---------- the verdict ---------- */

  datatype Verdict = Completed | LimitReached | RunFailed

  /** The data of a run; `elapsedMs` is None when the scenario never started. */
  datatype Run = Run(elapsedMs: Option<real>, plateaus: seq<Plateau>, failed: seq<Failed>, dropped: nat,
                     iterations: nat, checked: nat)

  function Stopped(rates: seq<int>, run: Run): Option<nat>
    requires Positive(rates)
  {
    if run.dropped > 0 then Some(StoppedStageAt(PlanOf(rates), run.elapsedMs)) else None
  }

  /** Every reason for which a stage counts as degraded. */
  function ReasonsOf(rates: seq<int>, run: Run, rows: seq<Row>, i: nat): seq<Reason>
    requires Positive(rates) && i < |rows|
  {
    Criterion(FirstReached(rows), rows[i], Stopped(rates, run)) + CrossedIn(i + 1, run.failed)
  }

  function Degraded(rates: seq<int>, run: Run, rows: seq<Row>): seq<bool>
    requires Positive(rates)
  {
    seq(|rows|, i requires 0 <= i < |rows| => ReasonsOf(rates, run, rows, i) != [])
  }

  /* ---------- when a stage is degraded ---------- */

  /** Rounded to two digits, a ratio exceeds 3 exactly from 3.005 on; to three digits, a share is below 0.95 exactly
      below 0.9495. */
  lemma Rounding(v: real)
    ensures Fixed(v, 100.0) > 3.0 <==> v >= 3.005
    ensures Fixed(v, 1000.0) < 0.95 <==> v < 0.9495
  {
    RoundsAbove(v);
    RoundsBelow(v);
  }

  lemma RoundsAbove(v: real)
    ensures Fixed(v, 100.0) > 3.0 <==> v >= 3.005
  {
    if v >= 0.0 {
      var x := v * 100.0 + 0.5;
      assert x.Floor as real / 100.0 > 3.0 <==> x.Floor > 300;
      assert x.Floor > 300 <==> x >= 301.0;
    } else {
      var x := 0.5 - v * 100.0;
      assert x.Floor >= 0;
      assert x.Floor as real / 100.0 >= 0.0;
    }
  }

  lemma RoundsBelow(v: real)
    ensures Fixed(v, 1000.0) < 0.95 <==> v < 0.9495
  {
    if v >= 0.0 {
      var x := v * 1000.0 + 0.5;
      assert x.Floor as real / 1000.0 < 0.95 <==> x.Floor < 950;
      assert x.Floor < 950 <==> x < 950.0;
    } else {
      var x := 0.5 - v * 1000.0;
      assert x.Floor >= 0;
      assert x.Floor as real / 1000.0 >= 0.0;
    }
  }

  /** The f-th stage is the first one whose plateau has requests. */
  ghost predicate FirstWithData(plateaus: seq<Plateau>, f: int)
  {
    0 <= f < |plateaus| && plateaus[f].requests > 0 && forall j :: 0 <= j < f ==> plateaus[j].requests == 0
  }

  /** Its 95th percentile is, rounded to two digits, more than three times that of the first stage with data. */
  ghost predicate TooSlow(plateaus: seq<Plateau>, i: nat)
    requires i < |plateaus|
  {
    plateaus[i].p95.Some? &&
    exists f :: FirstWithData(plateaus, f) && Above(plateaus[f].p95, 0.0) &&
      plateaus[i].p95.value >= 3.005 * plateaus[f].p95.value
  }

  /** The seconds of the plateau of the i-th stage that lie before the end of the run, 90 at most. */
  function PlateauSeconds(i: nat, elapsedMs: real): real
  {
    var since := elapsedMs / 1000.0 - (i * 120 + 30) as real;
    if since > 90.0 then 90.0 else since
  }

  /** The plateau has run for 85 of its 90 seconds with fewer than 94.95 % of the requests it should have had. */
  ghost predicate TooFewRequests(requests: nat, rate: int, i: nat, elapsedMs: Option<real>)
  {
    elapsedMs.None? ||
    (PlateauSeconds(i, elapsedMs.value) >= 85.0 &&
     requests as real < 0.9495 * rate as real * PlateauSeconds(i, elapsedMs.value))
  }

  lemma ShareIsLow(requests: real, rate: real, seconds: real)
    requires rate > 0.0 && seconds > 0.0
    ensures requests / seconds / rate < 0.9495 <==> requests < 0.9495 * rate * seconds
  {
    var share := requests / seconds / rate;
    assert share * rate == requests / seconds;
    assert share * rate * seconds == requests;
    assert requests - 0.9495 * rate * seconds == (share - 0.9495) * (rate * seconds);
    Scales(share - 0.9495, rate * seconds);
  }

  lemma Scales(d: real, w: real)
    requires w > 0.0
    ensures d < 0.0 <==> d * w < 0.0
  {
  }

  lemma RatioIsHigh(p95: real, first: real)
    requires first > 0.0
    ensures p95 / first >= 3.005 <==> p95 >= 3.005 * first
  {
    var ratio := p95 / first;
    assert ratio * first == p95;
    assert p95 - 3.005 * first == (ratio - 3.005) * first;
    Scales(ratio - 3.005, first);
  }

  /** The stage counts as having reached the limit by its own measurements. */
  ghost predicate Overloaded(rates: seq<int>, run: Run, i: nat)
    requires i < |rates| == |run.plateaus|
  {
    var d := run.plateaus[i];
    d.requests > 0 &&
    (Above(d.errorRate, 0.01) || TooSlow(run.plateaus, i) || TooFewRequests(d.requests, rates[i], i, run.elapsedMs))
  }

  lemma LowThroughputIff(rates: seq<int>, run: Run, i: nat)
    requires Positive(rates) && i < |rates| == |run.plateaus| && run.plateaus[i].requests > 0
    ensures var row := RowOf(PlanOf(rates)[i], run.plateaus[i], run.elapsedMs);
            !row.partial && row.achievedShare < 0.95 <==>
            TooFewRequests(run.plateaus[i].requests, rates[i], i, run.elapsedMs)
  {
    var requests, rate := run.plateaus[i].requests as real, rates[i] as real;
    if run.elapsedMs.None? {
      Rounding(0.0 / rate);
    } else {
      var seconds := PlateauSeconds(i, run.elapsedMs.value);
      assert PlanOf(rates)[i].plateauStartSec == i * 120 + 30;
      if seconds >= 85.0 {
        Rounding(requests / seconds / rate);
        ShareIsLow(requests, rate, seconds);
      }
    }
  }

  lemma {:induction false} FirstReachedIs(rows: seq<Row>, f: int)
    requires 0 <= f < |rows| && rows[f].reached && forall j :: 0 <= j < f ==> !rows[j].reached
    ensures FirstReached(rows) == Some(rows[f])
  {
    if f > 0 {
      FirstReachedIs(rows[1..], f - 1);
    }
  }

  lemma LeastWithData(plateaus: seq<Plateau>, i: nat) returns (f: int)
    requires i < |plateaus| && plateaus[i].requests > 0
    ensures FirstWithData(plateaus, f)
  {
    f := 0;
    while plateaus[f].requests == 0
      invariant 0 <= f <= i && forall j :: 0 <= j < f ==> plateaus[j].requests == 0
      decreases i - f
    {
      f := f + 1;
    }
  }

  lemma SlowIff(rates: seq<int>, run: Run, i: nat)
    requires Positive(rates) && i < |rates| == |run.plateaus| && run.plateaus[i].requests > 0
    ensures var rows := RowsOf(rates, run.plateaus, run.elapsedMs);
            Above(RatioToFirst(FirstReached(rows), rows[i]), 3.0) <==> TooSlow(run.plateaus, i)
  {
    var rows := RowsOf(rates, run.plateaus, run.elapsedMs);
    var f := LeastWithData(run.plateaus, i);
    FirstReachedIs(rows, f);
    assert forall g :: FirstWithData(run.plateaus, g) ==> g == f;
    var own, first := run.plateaus[i].p95, run.plateaus[f].p95;
    if own.Some? && Above(first, 0.0) {
      Rounding(own.value / first.value);
      RatioIsHigh(own.value, first.value);
    }
  }

  lemma {:induction false} CrossedIff(n: nat, failed: seq<Failed>)
    ensures CrossedIn(n, failed) != [] <==>
            exists f :: f in failed && (f.OnErrorRate? || f.OnSlowShare?) && f.stage == n
  {
    if failed != [] {
      CrossedIff(n, failed[..|failed| - 1]);
      assert failed == failed[..|failed| - 1] + [failed[|failed| - 1]];
    }
  }

  /** A stage is degraded exactly when it had requests and too many errors, too slow answers or too few of the requested
      requests, or the run dropped iterations and stopped in it, or a threshold of the stage was crossed. */
  lemma DegradedIff(rates: seq<int>, run: Run, i: nat)
    requires Positive(rates) && i < |rates| == |run.plateaus|
    ensures Degraded(rates, run, RowsOf(rates, run.plateaus, run.elapsedMs))[i] <==>
            || Overloaded(rates, run, i)
            || (run.dropped > 0 && StoppedStageAt(PlanOf(rates), run.elapsedMs) == i + 1)
            || (exists f :: f in run.failed && (f.OnErrorRate? || f.OnSlowShare?) && f.stage == i + 1)
  {
    var rows := RowsOf(rates, run.plateaus, run.elapsedMs);
    CrossedIff(i + 1, run.failed);
    OwnReasonsIff(rates, run, i, rows);
    CriterionIff(FirstReached(rows), rows[i], Stopped(rates, run));
    assert Degraded(rates, run, rows)[i] <==> ReasonsOf(rates, run, rows, i) != [];
  }

  lemma OwnReasonsIff(rates: seq<int>, run: Run, i: nat, rows: seq<Row>)
    requires Positive(rates) && i < |rates| == |run.plateaus|
    requires rows == RowsOf(rates, run.plateaus, run.elapsedMs)
    ensures OwnReason(FirstReached(rows), rows[i]) <==> Overloaded(rates, run, i)
  {
    if run.plateaus[i].requests > 0 {
      LowThroughputIff(rates, run, i);
      SlowIff(rates, run, i);
    }
  }

  predicate OwnReason(first: Option<Row>, r: Row)
  {
    && r.reached
    && (|| Above(r.errorRate, 0.01) || Above(RatioToFirst(first, r), 3.0)
        || (!r.partial && r.achievedShare < 0.95))
  }

  lemma CriterionIff(first: Option<Row>, r: Row, stopped: Option<nat>)
    ensures Criterion(first, r, stopped) != [] <==>
            OwnReason(first, r) || stopped == Some(r.stage)
  {
  }

  /** Each reason is given exactly when it applies. */
  lemma ReasonsApply(first: Option<Row>, r: Row, stopped: Option<nat>)
    ensures HighErrorRate in Criterion(first, r, stopped) <==> r.reached && Above(r.errorRate, 0.01)
    ensures SlowP95 in Criterion(first, r, stopped) <==> r.reached && Above(RatioToFirst(first, r), 3.0)
    ensures LowThroughput in Criterion(first, r, stopped) <==> r.reached && !r.partial && r.achievedShare < 0.95
    ensures DroppedIterations in Criterion(first, r, stopped) <==> stopped == Some(r.stage)
  {
  }

  function Unexpected(failed: seq<Failed>): (r: seq<Failed>)
    ensures |r| <= |failed|
    ensures |r| == |failed| <==> forall f :: f in failed ==> f.OnOther?
    ensures r == [] <==> forall f :: f in failed ==> !f.OnOther?
  {
    if failed == [] then []
    else (if failed[0].OnOther? then [failed[0]] else []) + Unexpected(failed[1..])
  }

  function VerdictOf(run: Run, rows: seq<Row>): Verdict
  {
    var unexpected := Unexpected(run.failed);
    var noStageData := run.elapsedMs.None? || FirstReached(rows).None?;
    if |unexpected| > 0 || run.checked == 0 || run.checked < run.iterations || noStageData then RunFailed
    else if |run.failed| > |unexpected| then LimitReached
    else Completed
  }

  /** A run is failed when some threshold that does not mean "limit found" was crossed, an iteration was not checked, or
      no stage has data; otherwise any crossed threshold means that the limit was reached. */
  lemma VerdictMeans(run: Run, rows: seq<Row>)
    ensures VerdictOf(run, rows) == RunFailed <==>
            || (exists f :: f in run.failed && f.OnOther?)
            || run.checked == 0 || run.checked < run.iterations || run.elapsedMs.None?
            || forall i :: 0 <= i < |rows| ==> !rows[i].reached
    ensures VerdictOf(run, rows) == LimitReached <==> VerdictOf(run, rows) != RunFailed && run.failed != []
  {
    if run.failed != [] {
      assert run.failed[0] in run.failed;
    }
  }

  /** buildSummary for the stress profile. */
  method BuildSummary(rates: seq<int>, run: Run) returns (verdict: Verdict, limit: Limit)
    requires Positive(rates) && |run.plateaus| == |rates|
    ensures var rows := RowsOf(rates, run.plateaus, run.elapsedMs);
            verdict == VerdictOf(run, rows) && limit == LimitOf(rows, Degraded(rates, run, rows))
  {
    var plan := PlanOf(rates);
    var stopped := Stopped(rates, run);
    var stages: seq<StageStats> := [];
    for i := 0 to |plan|
      invariant |stages| == i && Apart(stages) && forall j :: 0 <= j < i ==> fresh(stages[j])
      invariant forall j :: 0 <= j < i ==> stages[j].row == RowOf(plan[j], run.plateaus[j], run.elapsedMs)
    {
      var s := new StageStats(RowOf(plan[i], run.plateaus[i], run.elapsedMs));
      stages := stages + [s];
    }
    ghost var rows := RowsOf(rates, run.plateaus, run.elapsedMs);
    assert Rows(stages) == rows;
    MarkDegradation(stages, stopped);
    MarkThresholdStages(stages, run.failed);
    var marks := seq(|stages|,
      i requires 0 <= i < |stages| reads set j | 0 <= j < |stages| :: stages[j] => stages[i].degraded);
    assert marks == Degraded(rates, run, rows);
    verdict := VerdictOf(run, Rows(stages));
    limit := LimitOf(Rows(stages), marks);
  }

  /** What k6 may report for the thresholds of the profile: a crossed stage threshold names a stage of the plan, and
      count==0 on dropped iterations fails only when some were dropped. */
  ghost predicate FromProfile(rates: seq<int>, run: Run)
  {
    forall f :: f in run.failed ==>
      && (f.OnErrorRate? || f.OnSlowShare? ==> 1 <= f.stage <= |rates|)
      && (f.OnDropped? ==> run.dropped > 0)
  }

  lemma {:induction false} CrossedIsReason(n: nat, failed: seq<Failed>, f: Failed)
    requires f in failed && (f.OnErrorRate? || f.OnSlowShare?) && f.stage == n
    ensures CrossedIn(n, failed) != []
  {
    var init := failed[..|failed| - 1];
    if f in init {
      CrossedIsReason(n, init, f);
    }
  }

  lemma StoppedIsAStage(rates: seq<int>, elapsedMs: Option<real>)
    requires Positive(rates)
    ensures 1 <= StoppedStageAt(PlanOf(rates), elapsedMs) <= |rates|
  {
    if elapsedMs.Some? {
      var ms := elapsedMs.value - STOP_SLACK_MS;
      StartedIsPrefix(rates, |rates|, ms);
      assert PlanOf(rates)[..|rates|] == PlanOf(rates);
    }
  }

  /** Without a start time the run counts as stopped in the first stage. */
  lemma StoppedWithoutStart(rates: seq<int>)
    requires Positive(rates)
    ensures StoppedStageAt(PlanOf(rates), None) == 1
  {
  }

  /** A threshold that means "limit found" degrades some stage. */
  lemma CrossedDegrades(rates: seq<int>, run: Run, rows: seq<Row>, f: Failed) returns (i: nat)
    requires Positive(rates) && Numbered(rows) && |rows| == |rates|
    requires FromProfile(rates, run) && f in run.failed && !f.OnOther?
    ensures i < |rows| && Degraded(rates, run, rows)[i]
  {
    if f.OnDropped? {
      StoppedIsAStage(rates, run.elapsedMs);
      i := Stopped(rates, run).value - 1;
      assert DroppedIterations in Criterion(FirstReached(rows), rows[i], Stopped(rates, run));
      assert DroppedIterations in ReasonsOf(rates, run, rows, i);
    } else {
      i := f.stage - 1;
      CrossedIsReason(i + 1, run.failed, f);
    }
  }

  /** limit_reached means a limit was found: there is a first degraded stage, no stage before it is degraded, and the
      reported rate is that of the last stage reached before it (none when none was reached). */
  lemma LimitReachedHasLimit(rates: seq<int>, run: Run)
    requires Positive(rates) && |run.plateaus| == |rates| && FromProfile(rates, run)
    ensures var rows := RowsOf(rates, run.plateaus, run.elapsedMs);
            var degraded := Degraded(rates, run, rows);
            var limit := LimitOf(rows, degraded);
            VerdictOf(run, rows) == LimitReached ==>
              limit.firstDegraded.Some? && LimitAt(rows, degraded, limit, limit.firstDegraded.value - 1)
  {
    LimitFound(rates, run, RowsOf(rates, run.plateaus, run.elapsedMs));
  }

  /** The rows carry the planned rates, and a stage was reached when its plateau has requests; so the limit is the
      planned rate of a stage that had some. */
  lemma RowsArePlanned(rates: seq<int>, run: Run, i: nat)
    requires Positive(rates) && i < |rates| == |run.plateaus|
    ensures var row := RowsOf(rates, run.plateaus, run.elapsedMs)[i];
            row.stage == i + 1 && row.targetRps == rates[i] && (row.reached <==> run.plateaus[i].requests > 0)
  {
  }

  lemma LimitFound(rates: seq<int>, run: Run, rows: seq<Row>)
    requires Positive(rates) && Numbered(rows) && |rows| == |rates| && FromProfile(rates, run)
    ensures var degraded := Degraded(rates, run, rows);
            var limit := LimitOf(rows, degraded);
            VerdictOf(run, rows) == LimitReached ==>
              limit.firstDegraded.Some? && LimitAt(rows, degraded, limit, limit.firstDegraded.value - 1)
  {
    var degraded := Degraded(rates, run, rows);
    LimitMeans(rows, degraded);
    if VerdictOf(run, rows) == LimitReached {
      var f := ExpectedFailure(run.failed);
      var i := CrossedDegrades(rates, run, rows, f);
      assert degraded[i];
    }
  }

  lemma ExpectedFailure(failed: seq<Failed>) returns (f: Failed)
    requires |failed| > |Unexpected(failed)|
    ensures f in failed && !f.OnOther?
  {
    f :| f in failed && !f.OnOther?;
  }
}
