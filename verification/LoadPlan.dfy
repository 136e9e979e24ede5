/**
 The stress plan of load/k6/lib/config.js: stages of a ramp and a plateau, the load k6 is asked to generate, and the
 stage and target rate at a moment of the scenario.  Numbers of the script are reals.
 */
module LoadPlan {
  import opened Prelude

  const START_RATE := 25
  const RATE_STEP := 25
  const MAX_RATE := 1000
  const RAMP_SEC := 30
  const PLATEAU_SEC := 90
  const STAGE_SEC := 120
  const EVAL_AFTER_PLATEAU_SEC := 30
  const SETUP_SEC := 70

  const RAMP_MS := 30000.0
  const STAGE_MS := 120000.0

  datatype Stage = Stage(n: nat, rate: int, startSec: int, plateauStartSec: int, endSec: int)

  /** A rate list makes sense when it has a positive rate for every stage. */
  predicate Positive(rates: seq<int>)
  {
    rates != [] && forall i :: 0 <= i < |rates| ==> rates[i] > 0
  }

  /** One entry of STRESS_RATES as Number() reads it. */
  datatype Number = NaN | Num(value: real)

  predicate PositiveInteger(v: Number)
  {
    v.Num? && v.value.Floor as real == v.value && v.value > 0.0
  }

  /** The stage rates: the entries of STRESS_RATES (None when it is blank), or the default ladder; None is the error for
      an entry that is not a positive integer. */
  method StressRates(env: Option<seq<Number>>) returns (rates: Option<seq<int>>)
    requires env.Some? ==> env.value != []
    ensures rates.Some? ==> Positive(rates.value)
    ensures env.Some? ==> (rates.Some? <==> forall v :: v in env.value ==> PositiveInteger(v))
    ensures env.Some? && rates.Some? ==>
              |rates.value| == |env.value| &&
              forall i :: 0 <= i < |env.value| ==> env.value[i] == Num(rates.value[i] as real)
    ensures env.None? ==>
              rates.Some? && |rates.value| == (MAX_RATE - START_RATE) / RATE_STEP + 1 &&
              forall i :: 0 <= i < |rates.value| ==> rates.value[i] == START_RATE + i * RATE_STEP
  {
    var list: seq<int> := [];
    if env.Some? {
      for i := 0 to |env.value|
        invariant |list| == i && forall j :: 0 <= j < i ==> list[j] > 0 && env.value[j] == Num(list[j] as real)
      {
        if !PositiveInteger(env.value[i]) {
          return None;
        }
        list := list + [env.value[i].value.Floor];
      }
      return Some(list);
    }
    var r := START_RATE;
    while r <= MAX_RATE
      invariant r == START_RATE + |list| * RATE_STEP && |list| <= 40
      invariant forall i :: 0 <= i < |list| ==> list[i] == START_RATE + i * RATE_STEP
      decreases MAX_RATE + RATE_STEP - r
    {
      list := list + [r];
      r := r + RATE_STEP;
    }
    return Some(list);
  }

  function StageOf(rates: seq<int>, i: nat): Stage
    requires i < |rates|
  {
    Stage(i + 1, rates[i], i * STAGE_SEC, i * STAGE_SEC + RAMP_SEC, (i + 1) * STAGE_SEC)
  }

  function PlanOf(rates: seq<int>): (plan: seq<Stage>)
    ensures |plan| == |rates| && forall i :: 0 <= i < |rates| ==> plan[i] == StageOf(rates, i)
  {
    seq(|rates|, i requires 0 <= i < |rates| => StageOf(rates, i))
  }

  /** Stages follow each other without a gap: 30 seconds of ramp, then 90 seconds of plateau. */
  lemma StagesMeet(rates: seq<int>, i: nat)
    requires i < |rates|
    ensures var s := PlanOf(rates)[i];
            && s.plateauStartSec == s.startSec + 30 && s.endSec == s.plateauStartSec + 90
            && s.startSec == if i == 0 then 0 else PlanOf(rates)[i - 1].endSec
  {
  }

  /** stressPlan with its cache. */
  class Planner {
    const rates: seq<int>
    var stressPlanCache: Option<seq<Stage>>

    constructor (rates: seq<int>)
      requires Positive(rates)
      ensures this.rates == rates && Valid() && stressPlanCache.None?
    {
      this.rates, stressPlanCache := rates, None;
    }

    ghost predicate Valid()
      reads this
    {
      Positive(rates) && (stressPlanCache.Some? ==> stressPlanCache.value == PlanOf(rates))
    }

    method StressPlan() returns (plan: seq<Stage>)
      requires Valid()
      modifies this
      ensures Valid() && plan == PlanOf(rates)
    {
      if stressPlanCache.None? {
        var stages: seq<Stage> := [];
        for i := 0 to |rates|
          invariant stressPlanCache == old(stressPlanCache) && stages == PlanOf(rates)[..i]
        {
          stages := stages + [Stage(i + 1, rates[i], i * STAGE_SEC, i * STAGE_SEC + RAMP_SEC, (i + 1) * STAGE_SEC)];
        }
        stressPlanCache := Some(stages);
      }
      return stressPlanCache.value;
    }
  }

  /* ---------- what k6 is asked to generate ---------- */

  /** One entry of the ramping-arrival-rate stages: move to `target` within `ms`. */
  datatype Segment = Segment(ms: real, target: real)

  function Segments(rates: seq<int>): seq<Segment>
  {
    if rates == [] then []
    else [Segment(RAMP_MS, rates[0] as real), Segment(STAGE_MS - RAMP_MS, rates[0] as real)] + Segments(rates[1..])
  }

  /** A threshold that aborts the run, and the second of the run (setup included) from which it is evaluated. */
  datatype Threshold = ErrorRate(stage: nat, delaySec: int) | SlowShare(stage: nat, delaySec: int) | Dropped

  datatype Profile = Profile(startRate: real, segments: seq<Segment>, thresholds: seq<Threshold>)

  function StageThresholds(plan: seq<Stage>): seq<Threshold>
  {
    if plan == [] then []
    else
      var last := plan[|plan| - 1];
      var delay := SETUP_SEC + last.plateauStartSec + EVAL_AFTER_PLATEAU_SEC;
      StageThresholds(plan[..|plan| - 1]) + [ErrorRate(last.n, delay), SlowShare(last.n, delay)]
  }

  lemma {:induction false} SegmentsAppend(rates: seq<int>, i: nat)
    requires i < |rates|
    ensures Segments(rates[..i + 1]) ==
            Segments(rates[..i]) + [Segment(RAMP_MS, rates[i] as real), Segment(STAGE_MS - RAMP_MS, rates[i] as real)]
  {
    if i > 0 {
      SegmentsAppend(rates[1..], i - 1);
      assert rates[..i + 1][1..] == rates[1..][..i] && rates[..i][1..] == rates[1..][..i - 1];
    } else {
      assert rates[..1][1..] == [];
    }
  }

  method StressProfile(planner: Planner) returns (profile: Profile)
    requires planner.Valid()
    modifies planner
    ensures planner.Valid()
    ensures profile == Profile(planner.rates[0] as real, Segments(planner.rates),
                               StageThresholds(PlanOf(planner.rates)) + [Dropped])
  {
    var plan := planner.StressPlan();
    var rates := planner.rates;
    var stages: seq<Segment> := [];
    var thresholds: seq<Threshold> := [];
    for i := 0 to |plan|
      invariant planner.Valid()
      invariant stages == Segments(rates[..i]) && thresholds == StageThresholds(plan[..i])
    {
      var s := plan[i];
      SegmentsAppend(rates, i);
      stages := stages + [Segment(RAMP_MS, s.rate as real), Segment(STAGE_MS - RAMP_MS, s.rate as real)];
      var delayAbortEval := SETUP_SEC + s.plateauStartSec + EVAL_AFTER_PLATEAU_SEC;
      assert plan[..i + 1][..i] == plan[..i];
      thresholds := thresholds + [ErrorRate(s.n, delayAbortEval), SlowShare(s.n, delayAbortEval)];
    }
    assert rates[..|rates|] == rates && plan[..|plan|] == plan;
    profile := Profile(plan[0].rate as real, stages, thresholds + [Dropped]);
  }

  /** The rate the executor generates: linear from the previous target to the next one, segment after segment. */
  function Generated(from: real, segments: seq<Segment>, ms: real): real
    requires forall i :: 0 <= i < |segments| ==> segments[i].ms > 0.0
    decreases |segments|
  {
    if segments == [] then from
    else if ms < segments[0].ms then from + (segments[0].target - from) * ms / segments[0].ms
    else Generated(segments[0].target, segments[1..], ms - segments[0].ms)
  }

  lemma {:induction false} SegmentsTakeTime(rates: seq<int>)
    ensures forall i :: 0 <= i < |Segments(rates)| ==> Segments(rates)[i].ms > 0.0
  {
    if rates != [] {
      SegmentsTakeTime(rates[1..]);
    }
  }

  /* ---------- the stage at a moment ---------- */

  datatype At = At(stage: nat, ramp: bool, target: real)

  function Min(a: int, b: int): int
  {
    if a < b then a else b
  }

  /** Index of the stage at `ms`: the last stage has no end. */
  function StageIndex(count: nat, ms: real): int
  {
    Min((ms / STAGE_MS).Floor, count - 1)
  }

  /** The stage, phase and target `elapsedMs` after the start of the scenario; None is the TypeError before its
      start. */
  function StageAt(plan: seq<Stage>, elapsedMs: real): Option<At>
    requires plan != []
  {
    var i := StageIndex(|plan|, elapsedMs);
    if i < 0 then None
    else
      var s := plan[i];
      var into := elapsedMs - (s.startSec * 1000) as real;
      var intoStageMs := if into > 0.0 then into else 0.0;
      if intoStageMs >= RAMP_MS then Some(At(s.n, false, s.rate as real))
      else
        var from := if i == 0 then s.rate else plan[i - 1].rate;
        Some(At(s.n, true, from as real + ((s.rate - from) as real * intoStageMs) / RAMP_MS))
  }

  lemma FloorBounds(ms: real)
    ensures var i := (ms / STAGE_MS).Floor; (i * 120000) as real <= ms < ((i + 1) * 120000) as real
  {
    var x := ms / STAGE_MS;
    assert x.Floor as real <= x < x.Floor as real + 1.0;
    assert x * STAGE_MS == ms;
  }

  lemma FloorIs(ms: real, i: int)
    requires (i * 120000) as real <= ms < ((i + 1) * 120000) as real
    ensures (ms / STAGE_MS).Floor == i
  {
    FloorBounds(ms);
  }

  /** The target rate when the rate before the first stage is `from`. */
  function TargetFrom(from: real, rates: seq<int>, ms: real): real
    requires rates != [] && ms >= 0.0
  {
    FloorBounds(ms);
    var i := StageIndex(|rates|, ms);
    var previous := if i == 0 then from else rates[i - 1] as real;
    var into := ms - (i * 120000) as real;
    if into >= RAMP_MS then rates[i] as real else previous + (rates[i] as real - previous) * into / RAMP_MS
  }

  lemma LaterStage(from: real, rates: seq<int>, ms: real)
    requires |rates| > 1 && ms >= STAGE_MS
    ensures TargetFrom(from, rates, ms) == TargetFrom(rates[0] as real, rates[1..], ms - STAGE_MS)
  {
    var k := (ms / STAGE_MS).Floor;
    FloorBounds(ms);
    FloorIs(ms - STAGE_MS, k - 1);
    var i := StageIndex(|rates|, ms);
    assert StageIndex(|rates[1..]|, ms - STAGE_MS) == i - 1;
    assert ms - (i * 120000) as real == (ms - STAGE_MS) - ((i - 1) * 120000) as real;
  }

  lemma {:induction false} TargetIsGenerated(from: real, rates: seq<int>, ms: real)
    requires rates != [] && ms >= 0.0
    requires forall i :: 0 <= i < |Segments(rates)| ==> Segments(rates)[i].ms > 0.0
    ensures TargetFrom(from, rates, ms) == Generated(from, Segments(rates), ms)
    decreases |rates|
  {
    var segments, rest := Segments(rates), Segments(rates[1..]);
    assert segments[0] == Segment(RAMP_MS, rates[0] as real);
    assert segments[1..][0] == Segment(STAGE_MS - RAMP_MS, rates[0] as real) && segments[1..][1..] == rest;
    SegmentsTakeTime(rates[1..]);
    if ms < STAGE_MS {
      FloorIs(ms, 0);
    } else {
      assert Generated(from, segments, ms) == Generated(rates[0] as real, rest, ms - STAGE_MS);
      if |rates| > 1 {
        LaterStage(from, rates, ms);
        TargetIsGenerated(rates[0] as real, rates[1..], ms - STAGE_MS);
      } else {
        FloorBounds(ms);
      }
    }
  }

  /** The script's own timeline agrees with the load the executor generates from the profile, at every moment. */
  lemma TargetMatchesProfile(rates: seq<int>, ms: real)
    requires Positive(rates) && ms >= 0.0
    ensures forall i :: 0 <= i < |Segments(rates)| ==> Segments(rates)[i].ms > 0.0
    ensures StageAt(PlanOf(rates), ms).Some?
    ensures StageAt(PlanOf(rates), ms).value.target == Generated(rates[0] as real, Segments(rates), ms)
  {
    SegmentsTakeTime(rates);
    TargetIsGenerated(rates[0] as real, rates, ms);
    StageAtIsTarget(rates, ms);
  }

  lemma StageAtIsTarget(rates: seq<int>, ms: real)
    requires Positive(rates) && ms >= 0.0
    ensures StageAt(PlanOf(rates), ms).Some?
    ensures StageAt(PlanOf(rates), ms).value.target == TargetFrom(rates[0] as real, rates, ms)
  {
    FloorBounds(ms);
    var i := StageIndex(|rates|, ms);
    var s := PlanOf(rates)[i];
    var into := ms - (i * 120000) as real;
    assert (s.startSec * 1000) as real == (i * 120000) as real && into >= 0.0;
    assert (rates[i] - rates[if i == 0 then 0 else i - 1]) as real ==
           rates[i] as real - rates[if i == 0 then 0 else i - 1] as real;
  }

  /** `i` is the stage under way at `ms`: it has started, and the next one, if any, has not. */
  predicate UnderWay(plan: seq<Stage>, i: int, ms: real)
  {
    && 0 <= i < |plan|
    && (plan[i].startSec * 1000) as real <= ms
    && (i + 1 < |plan| ==> ms < (plan[i + 1].startSec * 1000) as real)
  }

  /** stageAt answers from the start of the scenario on, and names the stage under way. */
  lemma StageAtNamesStage(rates: seq<int>, ms: real)
    requires Positive(rates)
    ensures StageAt(PlanOf(rates), ms).Some? <==> ms >= 0.0
    ensures ms >= 0.0 ==> UnderWay(PlanOf(rates), StageAt(PlanOf(rates), ms).value.stage - 1, ms)
    ensures ms >= 0.0 ==> StageAt(PlanOf(rates), ms).value.stage == StageIndex(|rates|, ms) + 1
  {
    FloorBounds(ms);
  }

  lemma Share(d: real, w: real)
    requires d >= 0.0 && 0.0 <= w <= 1.0
    ensures 0.0 <= d * w <= d
  {
    var v := 1.0 - w;
    assert d * v >= 0.0;
    assert d * w == d - d * v;
  }

  lemma Blend(from: real, to: real, into: real)
    requires 0.0 <= into < RAMP_MS
    ensures from <= to ==> from <= from + (to - from) * into / RAMP_MS <= to
    ensures to <= from ==> to <= from + (to - from) * into / RAMP_MS <= from
  {
    var d, w := to - from, into / RAMP_MS;
    var x := d * into / RAMP_MS;
    Portion(d, into);
    if d >= 0.0 {
      Share(d, w);
      assert 0.0 <= x <= d;
    } else {
      Share(-d, w);
      assert d * w == -((-d) * w);
      assert d <= x <= 0.0;
    }
  }

  lemma Portion(d: real, into: real)
    ensures d * into / RAMP_MS == d * (into / RAMP_MS)
  {
    var w := into / RAMP_MS;
    assert into == w * RAMP_MS;
    assert d * into == (d * w) * RAMP_MS;
  }

  lemma Remainder(d: real, into: real)
    ensures d - d * into / RAMP_MS == d * (RAMP_MS - into) / RAMP_MS
  {
    assert d * (RAMP_MS - into) == d * RAMP_MS - d * into;
  }

  /** The target lies between the neighbouring rates, comes as close to the stage's rate as the ramp is near its end,
      and is that rate on the plateau. */
  lemma TargetBetweenRates(rates: seq<int>, ms: real)
    requires Positive(rates) && ms >= 0.0
    ensures var at := StageAt(PlanOf(rates), ms).value;
            var i := StageIndex(|rates|, ms);
            var from, to := rates[if i == 0 then 0 else i - 1] as real, rates[i] as real;
            var into := ms - (i * 120000) as real;
            && 0 <= i < |rates|
            && (from <= at.target <= to || to <= at.target <= from)
            && (at.ramp <==> into < RAMP_MS)
            && (at.ramp ==> to - at.target == (to - from) * (RAMP_MS - into) / RAMP_MS)
            && (!at.ramp ==> at.target == to)
  {
    StageAtIsTarget(rates, ms);
    StageAtRamp(rates, ms);
    BlendedTarget(rates, ms);
  }

  lemma StageAtRamp(rates: seq<int>, ms: real)
    requires Positive(rates) && ms >= 0.0
    ensures 0 <= StageIndex(|rates|, ms) < |rates| && StageAt(PlanOf(rates), ms).Some?
    ensures StageAt(PlanOf(rates), ms).value.ramp <==> ms - (StageIndex(|rates|, ms) * 120000) as real < RAMP_MS
  {
    FloorBounds(ms);
  }

  lemma BlendedTarget(rates: seq<int>, ms: real)
    requires Positive(rates) && ms >= 0.0
    ensures var target, i := TargetFrom(rates[0] as real, rates, ms), StageIndex(|rates|, ms);
            var from, to := rates[if i == 0 then 0 else i - 1] as real, rates[i] as real;
            var into := ms - (i * 120000) as real;
            && (from <= target <= to || to <= target <= from)
            && (into < RAMP_MS ==> to - target == (to - from) * (RAMP_MS - into) / RAMP_MS)
            && (into >= RAMP_MS ==> target == to)
  {
    FloorBounds(ms);
    var i := StageIndex(|rates|, ms);
    var into := ms - (i * 120000) as real;
    if into < RAMP_MS {
      var from, to := rates[if i == 0 then 0 else i - 1] as real, rates[i] as real;
      Blend(from, to, into);
      Remainder(to - from, into);
    }
  }

  /** The stage a threshold belongs to and the second, setup included, from which it can abort the run. */
  ghost predicate Watches(t: Threshold, stage: nat, delaySec: int)
  {
    t == ErrorRate(stage, delaySec) || t == SlowShare(stage, delaySec)
  }

  lemma {:induction false} ThresholdStages(plan: seq<Stage>, t: Threshold)
    requires t in StageThresholds(plan)
    ensures exists i ::
              0 <= i < |plan| && Watches(t, plan[i].n, SETUP_SEC + plan[i].plateauStartSec + EVAL_AFTER_PLATEAU_SEC)
  {
    var init := plan[..|plan| - 1];
    if t in StageThresholds(init) {
      ThresholdStages(init, t);
      var i :| 0 <= i < |init| && Watches(t, init[i].n, SETUP_SEC + init[i].plateauStartSec + EVAL_AFTER_PLATEAU_SEC);
      assert init[i] == plan[i];
    } else {
      assert Watches(t, plan[|plan| - 1].n, SETUP_SEC + plan[|plan| - 1].plateauStartSec + EVAL_AFTER_PLATEAU_SEC);
    }
  }

  /** Every stage is watched for errors and for slow answers from 30 seconds into its plateau on, 70 seconds of setup
      included. */
  lemma {:induction false} EveryStageIsWatched(plan: seq<Stage>, i: nat)
    requires i < |plan|
    ensures ErrorRate(plan[i].n, 70 + plan[i].plateauStartSec + 30) in StageThresholds(plan)
    ensures SlowShare(plan[i].n, 70 + plan[i].plateauStartSec + 30) in StageThresholds(plan)
  {
    var init := plan[..|plan| - 1];
    if i < |init| {
      EveryStageIsWatched(init, i);
      assert init[i] == plan[i];
    } else {
      var delay := 70 + plan[i].plateauStartSec + 30;
      var own := [ErrorRate(plan[i].n, delay), SlowShare(plan[i].n, delay)];
      assert own[0] in own && own[1] in own;
    }
  }

  /** A stage threshold is first evaluated on the plateau of its own stage: once setup is subtracted, stageAt names that
      stage, its plateau and its rate. */
  lemma ThresholdsWaitForPlateau(rates: seq<int>, t: Threshold)
    requires Positive(rates) && t in StageThresholds(PlanOf(rates))
    ensures !t.Dropped? && 1 <= t.stage <= |rates|
    ensures StageAt(PlanOf(rates), ((t.delaySec - SETUP_SEC) * 1000) as real) ==
            Some(At(t.stage, false, rates[t.stage - 1] as real))
  {
    var plan := PlanOf(rates);
    ThresholdStages(plan, t);
    var i :| 0 <= i < |plan| && Watches(t, plan[i].n, SETUP_SEC + plan[i].plateauStartSec + EVAL_AFTER_PLATEAU_SEC);
    FloorIs(((t.delaySec - SETUP_SEC) * 1000) as real, i);
  }
}
