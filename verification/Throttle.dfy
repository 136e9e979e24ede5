/**
 The throttled error handler of platform/telemetry/errorhandler.go.  A clock reading is an integer; 0 stands for Go's
 zero time, which the handler takes to mean that it has not warned yet.
 */
module Throttle {
  import opened Prelude

  const ZERO_TIME := 0

  /** A warning: the clock reading it was written at, and the number of suppressed errors it reports. */
  datatype Warning = Warning(at: int, suppressed: nat)

  datatype State = State(last: int, suppressed: nat)

  predicate Suppresses(s: State, interval: int, t: int)
  {
    s.last != ZERO_TIME && t - s.last < interval
  }

  function Next(s: State, interval: int, t: int): State
  {
    if Suppresses(s, interval, t) then s.(suppressed := s.suppressed + 1) else State(t, 0)
  }

  class ErrorHandler {
    const interval: int
    var last: int
    var suppressed: nat

    constructor (interval: int)
      ensures this.interval == interval && last == ZERO_TIME && suppressed == 0
    {
      this.interval := interval;
      last, suppressed := ZERO_TIME, 0;
    }

    /** One error at clock reading `t`. */
    method Handle(t: int) returns (warning: Option<Warning>)
      modifies this
      ensures State(last, suppressed) == Next(old(State(last, suppressed)), interval, t)
      ensures warning == if Suppresses(old(State(last, suppressed)), interval, t) then None
                         else Some(Warning(t, old(suppressed)))
    {
      if last != ZERO_TIME && t - last < interval {
        suppressed := suppressed + 1;
        return None;
      }
      var reported := suppressed;
      last := t;
      suppressed := 0;
      return Some(Warning(t, reported));
    }
  }

  /** The state after a run of calls, and the warnings the run writes. */
  function After(s: State, interval: int, readings: seq<int>): State
    decreases |readings|
  {
    if readings == [] then s else After(Next(s, interval, readings[0]), interval, readings[1..])
  }

  function Warnings(s: State, interval: int, readings: seq<int>): seq<Warning>
    decreases |readings|
  {
    if readings == [] then []
    else (if Suppresses(s, interval, readings[0]) then [] else [Warning(readings[0], s.suppressed)]) +
         Warnings(Next(s, interval, readings[0]), interval, readings[1..])
  }

  function Reported(warnings: seq<Warning>): nat
  {
    if warnings == [] then 0 else warnings[0].suppressed + Reported(warnings[1..])
  }

  /** No error is lost or counted twice: calls = warnings + errors they report + errors still pending. */
  lemma {:induction false} EveryCallCounted(s: State, interval: int, readings: seq<int>)
    ensures var w := Warnings(s, interval, readings);
            s.suppressed + |readings| == |w| + Reported(w) + After(s, interval, readings).suppressed
    decreases |readings|
  {
    if readings != [] {
      var next := Next(s, interval, readings[0]);
      EveryCallCounted(next, interval, readings[1..]);
      var w, rest := Warnings(s, interval, readings), Warnings(next, interval, readings[1..]);
      if !Suppresses(s, interval, readings[0]) {
        assert w[1..] == rest;
      } else {
        assert w == rest;
      }
    }
  }

  /** Each warning comes at least an interval after the one before, unless that one was written at the zero time; the
      first comes at least an interval after `last`. */
  ghost predicate Spaced(last: int, interval: int, warnings: seq<Warning>)
  {
    && (last != ZERO_TIME && warnings != [] ==> warnings[0].at - last >= interval)
    && forall i :: 0 < i < |warnings| && warnings[i - 1].at != ZERO_TIME ==>
         warnings[i].at - warnings[i - 1].at >= interval
  }

  /** The rate bound on every run, whatever the clock does. */
  lemma {:induction false} WarningsAreSpaced(s: State, interval: int, readings: seq<int>)
    ensures Spaced(s.last, interval, Warnings(s, interval, readings))
    decreases |readings|
  {
    if readings != [] {
      var next := Next(s, interval, readings[0]);
      WarningsAreSpaced(next, interval, readings[1..]);
      var w, rest := Warnings(s, interval, readings), Warnings(next, interval, readings[1..]);
      if !Suppresses(s, interval, readings[0]) {
        forall i | 0 < i < |w| && w[i - 1].at != ZERO_TIME ensures w[i].at - w[i - 1].at >= interval {
          assert w[i] == rest[i - 1];
          assert i > 1 ==> w[i - 1] == rest[i - 2];
        }
      } else {
        assert w == rest;
      }
    }
  }

  lemma {:induction false} WarningsAreReadings(s: State, interval: int, readings: seq<int>)
    ensures forall i :: 0 <= i < |Warnings(s, interval, readings)| ==> Warnings(s, interval, readings)[i].at in readings
    decreases |readings|
  {
    if readings != [] {
      var next := Next(s, interval, readings[0]);
      WarningsAreReadings(next, interval, readings[1..]);
      var w, rest := Warnings(s, interval, readings), Warnings(next, interval, readings[1..]);
      forall i | 0 <= i < |w| ensures w[i].at in readings {
        if |w| == |rest| {
          assert w == rest && rest[i].at in readings[1..];
        } else {
          assert i > 0 ==> w[i] == rest[i - 1] && rest[i - 1].at in readings[1..];
        }
      }
    }
  }

  lemma {:induction false} SpacedSpan(last: int, interval: int, warnings: seq<Warning>, n: nat)
    requires Spaced(last, interval, warnings) && n < |warnings|
    requires forall i :: 0 <= i < n ==> warnings[i].at != ZERO_TIME
    ensures warnings[n].at - warnings[0].at >= n * interval
  {
    if n > 0 {
      SpacedSpan(last, interval, warnings, n - 1);
      assert n * interval == (n - 1) * interval + interval;
    }
  }

  /** Over any run with non-zero clock readings, monotone or not, n warnings span at least n - 1 intervals. */
  lemma WarningRate(interval: int, readings: seq<int>)
    requires ZERO_TIME !in readings
    ensures var w := Warnings(State(ZERO_TIME, 0), interval, readings);
            w != [] ==> w[|w| - 1].at - w[0].at >= (|w| - 1) * interval
  {
    var w := Warnings(State(ZERO_TIME, 0), interval, readings);
    WarningsAreSpaced(State(ZERO_TIME, 0), interval, readings);
    WarningsAreReadings(State(ZERO_TIME, 0), interval, readings);
    if w != [] {
      SpacedSpan(ZERO_TIME, interval, w, |w| - 1);
    }
  }

  const INITIAL := State(ZERO_TIME, 0)

  lemma {:induction false} OneMoreReading(s: State, interval: int, readings: seq<int>, t: int)
    ensures Warnings(s, interval, readings + [t]) ==
            Warnings(s, interval, readings) + Warnings(After(s, interval, readings), interval, [t])
    decreases |readings|
  {
    if readings == [] {
      assert [] + [t] == [t];
    } else {
      assert (readings + [t])[1..] == readings[1..] + [t];
      OneMoreReading(Next(s, interval, readings[0]), interval, readings[1..], t);
    }
  }

  /** The handler remembers when it last warned. */
  lemma {:induction false} LastIsRemembered(s: State, interval: int, readings: seq<int>)
    ensures var w := Warnings(s, interval, readings);
            After(s, interval, readings).last == if w == [] then s.last else w[|w| - 1].at
    decreases |readings|
  {
    if readings != [] {
      LastIsRemembered(Next(s, interval, readings[0]), interval, readings[1..]);
    }
  }

  /** Calls that were neither a warning nor reported by one. */
  function Unreported(readings: seq<int>, warnings: seq<Warning>): nat
  {
    if |readings| >= |warnings| + Reported(warnings) then |readings| - |warnings| - Reported(warnings) else 0
  }

  /** Must the next error be warned about at reading `t`, after these warnings? */
  predicate Due(warnings: seq<Warning>, interval: int, t: int)
  {
    || warnings == [] || warnings[|warnings| - 1].at == ZERO_TIME
    || t - warnings[|warnings| - 1].at >= interval
  }

  /** A further error is warned about, at its own reading and with the number of errors left unreported, exactly when
      nothing has been written yet, the last warning was written at the zero time, or it is an interval old. */
  lemma WarnsIffDue(interval: int, readings: seq<int>, t: int)
    ensures var w := Warnings(INITIAL, interval, readings);
            Warnings(INITIAL, interval, readings + [t]) ==
            w + if Due(w, interval, t) then [Warning(t, Unreported(readings, w))] else []
  {
    OneMoreReading(INITIAL, interval, readings, t);
    LastIsRemembered(INITIAL, interval, readings);
    EveryCallCounted(INITIAL, interval, readings);
    var s := After(INITIAL, interval, readings);
    assert Warnings(Next(s, interval, t), interval, []) == [];
  }

  predicate FirstIsSpaced(last: int, interval: int, warnings: seq<Warning>)
  {
    warnings != [] ==> warnings[0].at - last >= interval
  }

  /** After a warning at reading `last`, the next warning is at least an interval later on every continuation exactly
      when that reading was not the zero time. */
  lemma NextWarningSpacedIff(last: int, interval: int)
    ensures (forall readings: seq<int> ::
               FirstIsSpaced(last, interval, Warnings(State(last, 0), interval, readings)))
            <==> last != ZERO_TIME
  {
    if last != ZERO_TIME {
      forall readings: seq<int> ensures FirstIsSpaced(last, interval, Warnings(State(last, 0), interval, readings)) {
        WarningsAreSpaced(State(last, 0), interval, readings);
      }
    } else {
      var readings := [interval - 1];
      assert Warnings(State(last, 0), interval, readings)[0].at == interval - 1;
      assert !FirstIsSpaced(last, interval, Warnings(State(last, 0), interval, readings));
    }
  }
}
