/** The Monte Carlo runner (bridge_simulator/simulator.py): one callback
    outcome per produced deal is accumulated into per-key value lists, failed
    trials are skipped, and every key is then summarised as numeric (min, max,
    mean, stdev) or categorical (frequency counts). */
module Simulator {
  import opened Values

  /** The dictionary one callback returns. */
  type TrialResult = map<string, Value>

  /** One trial: the callback raised, or it returned a result dictionary. */
  datatype Outcome = Raised | Returned(result: TrialResult)

  /** `results_accumulator`: key -> values in the order they were appended. */
  type Accumulator = map<string, seq<Value>>

  /** Summary of one key. `total` and `count` give the mean exactly
      (`total / count`); `stdev` records which branch computed the standard
      deviation: the literal 0.0 for a single value, or the sample deviation. */
  datatype Deviation = ZeroDeviation | SampleDeviation
  datatype KeyStats =
    | Numeric(total: int, count: nat, stdev: Deviation, min: int, max: int)
    | Categorical(counts: map<string, nat>)

  /** `{'simulations_run': .., 'stats': ..}`. */
  datatype Report = Report(simulationsRun: nat, stats: map<string, KeyStats>)

  /** Aggregation raises when a key whose first value is numeric also holds a
      non-numeric value (`statistics.mean` cannot sum it). */
  datatype RunError = NonNumericValue

  /** The number of trials whose callback returned. */
  function Successes(outcomes: seq<Outcome>): nat
  {
    if outcomes == [] then 0
    else Successes(outcomes[..|outcomes| - 1]) + (if outcomes[|outcomes| - 1].Returned? then 1 else 0)
  }

  /** Appends every entry of one trial's result to its key's list. */
  function AddResult(acc: Accumulator, result: TrialResult): Accumulator
  {
    map k | k in acc.Keys + result.Keys ::
      (if k in acc then acc[k] else []) + (if k in result then [result[k]] else [])
  }

  /** The accumulator after the trial loop has seen `outcomes`. */
  function Accumulate(outcomes: seq<Outcome>): Accumulator
  {
    if outcomes == [] then map[]
    else
      var previous := Accumulate(outcomes[..|outcomes| - 1]);
      match outcomes[|outcomes| - 1]
      case Raised => previous
      case Returned(result) => AddResult(previous, result)
  }

  /** Reference definition: the values of `key` in the successful trials that
      returned it, in trial order. */
  function ValuesFor(outcomes: seq<Outcome>, key: string): seq<Value>
  {
    if outcomes == [] then []
    else
      (match outcomes[0]
       case Returned(result) => if key in result then [result[key]] else []
       case Raised => [])
      + ValuesFor(outcomes[1..], key)
  }

  predicate AllNumeric(values: seq<Value>)
  {
    forall i :: 0 <= i < |values| ==> values[i].Num?
  }

  function Total(values: seq<Value>): int
    requires AllNumeric(values)
  {
    if values == [] then 0 else values[0].n + Total(values[1..])
  }

  /** `min(values)`. */
  function Minimum(values: seq<Value>): (m: int)
    requires |values| > 0 && AllNumeric(values)
    ensures exists i :: 0 <= i < |values| && values[i] == Num(m)
    ensures forall i :: 0 <= i < |values| ==> m <= values[i].n
  {
    if |values| == 1 then values[0].n
    else
      var rest := Minimum(values[1..]);
      if values[0].n <= rest then values[0].n else rest
  }

  /** `max(values)`. */
  function Maximum(values: seq<Value>): (m: int)
    requires |values| > 0 && AllNumeric(values)
    ensures exists i :: 0 <= i < |values| && values[i] == Num(m)
    ensures forall i :: 0 <= i < |values| ==> values[i].n <= m
  {
    if |values| == 1 then values[0].n
    else
      var rest := Maximum(values[1..]);
      if values[0].n >= rest then values[0].n else rest
  }

  /** The `counts` dictionary after the counting loop has seen `values`. */
  function Frequencies(values: seq<Value>): map<string, nat>
  {
    if values == [] then map[]
    else
      var counts := Frequencies(values[..|values| - 1]);
      var name := Str(values[|values| - 1]);
      counts[name := (if name in counts then counts[name] else 0) + 1]
  }

  /** `str(v)` of every value. */
  function Labels(values: seq<Value>): (labels: seq<string>)
    ensures |labels| == |values|
  {
    seq(|values|, i requires 0 <= i < |values| => Str(values[i]))
  }

  /** The statistics of one non-empty value list. */
  function KeyStatsOf(values: seq<Value>): Result<KeyStats, RunError>
    requires |values| > 0
  {
    if values[0].Num? then
      if AllNumeric(values) then
        Ok(Numeric(Total(values), |values|, if |values| > 1 then SampleDeviation else ZeroDeviation,
                   Minimum(values), Maximum(values)))
      else Err(NonNumericValue)
    else Ok(Categorical(Frequencies(values)))
  }

  /** The aggregation loop: an entry for every key with a value, or the error
      when some key cannot be summarised. */
  function Aggregate(acc: Accumulator): Result<map<string, KeyStats>, RunError>
  {
    if exists k :: k in acc && |acc[k]| > 0 && KeyStatsOf(acc[k]).Err? then Err(NonNumericValue)
    else Ok(map k | k in acc && |acc[k]| > 0 :: KeyStatsOf(acc[k]).value)
  }

  /** What `SimulationRunner.run` returns for the given trial outcomes. */
  function Simulate(outcomes: seq<Outcome>): Result<Report, RunError>
  {
    match Aggregate(Accumulate(outcomes))
    case Err(e) => Err(e)
    case Ok(stats) => Ok(Report(Successes(outcomes), stats))
  }

  /** The counting loop of the categorical branch. */
  method CountLabels(values: seq<Value>) returns (counts: map<string, nat>)
    ensures counts == Frequencies(values)
  {
    counts := map[];
    for j := 0 to |values|
      invariant counts == Frequencies(values[..j])
    {
      assert values[..j + 1][..j] == values[..j];
      var name := Str(values[j]);
      counts := counts[name := (if name in counts then counts[name] else 0) + 1];
    }
    assert values[..|values|] == values;
  }

  /** The inner accumulation loop: appends each entry of one trial's result
      to the list of its key, creating the list on first sight. */
  method AppendTrial(accumulator: Accumulator, result: TrialResult) returns (updated: Accumulator)
    ensures updated == AddResult(accumulator, result)
  {
    updated := accumulator;
    var pending := result.Keys;
    assert (map k | k in result && k !in pending :: result[k]) == map[];
    forall k | k in accumulator
      ensures AddResult(accumulator, map[])[k] == accumulator[k]
    {
      assert accumulator[k] + [] == accumulator[k];
    }
    assert AddResult(accumulator, map[]) == accumulator;
    while pending != {}
      invariant pending <= result.Keys
      invariant updated == AddResult(accumulator, map k | k in result && k !in pending :: result[k])
      decreases pending
    {
      var key :| key in pending;
      if key !in updated {
        updated := updated[key := []];
      }
      updated := updated[key := updated[key] + [result[key]]];
      pending := pending - {key};
    }
    assert (map k | k in result && k !in pending :: result[k]) == result;
  }

  /** The aggregation loop over the accumulated keys. */
  method Summarize(accumulator: Accumulator) returns (r: Result<map<string, KeyStats>, RunError>)
    ensures r == Aggregate(accumulator)
  {
    var stats: map<string, KeyStats> := map[];
    var remaining := accumulator.Keys;
    while remaining != {}
      invariant remaining <= accumulator.Keys
      invariant forall k :: k in accumulator && k !in remaining && |accumulator[k]| > 0 ==> KeyStatsOf(accumulator[k]).Ok?
      invariant stats == map k | k in accumulator && k !in remaining && |accumulator[k]| > 0 :: KeyStatsOf(accumulator[k]).value
      decreases remaining
    {
      var key :| key in remaining;
      remaining := remaining - {key};
      var values := accumulator[key];
      if |values| > 0 {
        if values[0].Num? {
          if !AllNumeric(values) {
            assert KeyStatsOf(accumulator[key]).Err?;
            return Err(NonNumericValue);
          }
          var deviation := if |values| > 1 then SampleDeviation else ZeroDeviation;
          stats := stats[key := Numeric(Total(values), |values|, deviation, Minimum(values), Maximum(values))];
        } else {
          var counts := CountLabels(values);
          stats := stats[key := Categorical(counts)];
        }
      }
    }
    assert stats == map k | k in accumulator && |accumulator[k]| > 0 :: KeyStatsOf(accumulator[k]).value;
    assert !exists k :: k in accumulator && |accumulator[k]| > 0 && KeyStatsOf(accumulator[k]).Err?;
    r := Ok(stats);
  }

  /** `SimulationRunner.run`, with the deal source and the callback given as the
      sequence of trial outcomes they produce. */
  method Run(outcomes: seq<Outcome>) returns (r: Result<Report, RunError>)
    ensures r == Simulate(outcomes)
  {
    var accumulator: Accumulator := map[];
    var count := 0;
    for i := 0 to |outcomes|
      invariant accumulator == Accumulate(outcomes[..i])
      invariant count == Successes(outcomes[..i])
    {
      assert outcomes[..i + 1][..i] == outcomes[..i];
      if outcomes[i].Returned? {
        accumulator := AppendTrial(accumulator, outcomes[i].result);
        count := count + 1;
      }
    }
    assert outcomes[..|outcomes|] == outcomes;
    var stats := Summarize(accumulator);
    match stats
    case Err(e) => r := Err(e);
    case Ok(s) => r := Ok(Report(count, s));
  }

  // Properties of the accumulation

  lemma {:induction false} ValuesForAppend(a: seq<Outcome>, b: seq<Outcome>, key: string)
    ensures ValuesFor(a + b, key) == ValuesFor(a, key) + ValuesFor(b, key)
  {
    if a == [] {
      assert a + b == b;
    } else {
      assert (a + b)[1..] == a[1..] + b;
      ValuesForAppend(a[1..], b, key);
    }
  }

  lemma {:induction false} SuccessesAppend(a: seq<Outcome>, b: seq<Outcome>)
    ensures Successes(a + b) == Successes(a) + Successes(b)
  {
    if b == [] {
      assert a + b == a;
    } else {
      var init := b[..|b| - 1];
      assert (a + b)[..|a + b| - 1] == a + init;
      SuccessesAppend(a, init);
    }
  }

  /** Each key's list holds exactly the values of the successful trials that
      returned the key, in trial order; so a key is present iff some
      successful trial returned it, and its list is no longer than the number
      of successful trials. */
  lemma {:induction false} AccumulateCollectsTrialValues(outcomes: seq<Outcome>, key: string)
    ensures key in Accumulate(outcomes) <==> ValuesFor(outcomes, key) != []
    ensures key in Accumulate(outcomes) ==> Accumulate(outcomes)[key] == ValuesFor(outcomes, key)
    ensures |ValuesFor(outcomes, key)| <= Successes(outcomes)
  {
    if outcomes != [] {
      var init := outcomes[..|outcomes| - 1];
      var last := outcomes[|outcomes| - 1];
      AccumulateCollectsTrialValues(init, key);
      assert outcomes == init + [last];
      ValuesForAppend(init, [last], key);
      assert [last][1..] == [];
    }
  }

  /** A key that every successful trial returns has one value per successful
      trial. */
  lemma {:induction false} KeyOfEveryTrial(outcomes: seq<Outcome>, key: string)
    requires forall i :: 0 <= i < |outcomes| && outcomes[i].Returned? ==> key in outcomes[i].result
    ensures |ValuesFor(outcomes, key)| == Successes(outcomes)
  {
    if outcomes != [] {
      var init := outcomes[..|outcomes| - 1];
      var last := outcomes[|outcomes| - 1];
      assert outcomes == init + [last];
      KeyOfEveryTrial(init, key);
      ValuesForAppend(init, [last], key);
      assert [last][1..] == [];
    }
  }

  /** Some trial of `outcomes` returned `value` for `key`. */
  ghost predicate ReturnedBySomeTrial(outcomes: seq<Outcome>, key: string, value: Value)
  {
    exists i :: 0 <= i < |outcomes| && outcomes[i].Returned? && key in outcomes[i].result
      && outcomes[i].result[key] == value
  }

  /** Every accumulated value was returned, under that key, by some trial. */
  lemma {:induction false} ValuesForComeFromTrials(outcomes: seq<Outcome>, key: string)
    ensures forall j :: 0 <= j < |ValuesFor(outcomes, key)| ==>
      ReturnedBySomeTrial(outcomes, key, ValuesFor(outcomes, key)[j])
  {
    if outcomes != [] {
      var tail := outcomes[1..];
      ValuesForComeFromTrials(tail, key);
      var vs := ValuesFor(outcomes, key);
      var head := if outcomes[0].Returned? && key in outcomes[0].result then [outcomes[0].result[key]] else [];
      assert vs == head + ValuesFor(tail, key);
      forall j | 0 <= j < |vs|
        ensures ReturnedBySomeTrial(outcomes, key, vs[j])
      {
        if j < |head| {
          assert outcomes[0].result[key] == vs[j];
        } else {
          assert ReturnedBySomeTrial(tail, key, ValuesFor(tail, key)[j - |head|]);
          var i :| 0 <= i < |tail| && tail[i].Returned? && key in tail[i].result
            && tail[i].result[key] == vs[j];
          assert outcomes[i + 1] == tail[i];
        }
      }
    }
  }

  /** A trial whose callback raised adds no value to any key and is not
      counted: the report is the one the run would give without that trial. */
  lemma RaisedTrialChangesNothing(outcomes: seq<Outcome>, i: nat)
    requires i < |outcomes| && outcomes[i].Raised?
    ensures Simulate(outcomes) == Simulate(outcomes[..i] + outcomes[i + 1..])
  {
    var rest := outcomes[..i] + outcomes[i + 1..];
    assert outcomes == outcomes[..i] + [outcomes[i]] + outcomes[i + 1..];
    SuccessesAppend(outcomes[..i] + [outcomes[i]], outcomes[i + 1..]);
    SuccessesAppend(outcomes[..i], [outcomes[i]]);
    SuccessesAppend(outcomes[..i], outcomes[i + 1..]);
    assert Successes([outcomes[i]]) == 0 by {
      assert [outcomes[i]][..0] == [];
    }
    var a, b := Accumulate(outcomes), Accumulate(rest);
    forall key
      ensures (key in a <==> key in b) && (key in a ==> a[key] == b[key])
    {
      ValuesForAppend(outcomes[..i] + [outcomes[i]], outcomes[i + 1..], key);
      ValuesForAppend(outcomes[..i], [outcomes[i]], key);
      ValuesForAppend(outcomes[..i], outcomes[i + 1..], key);
      assert [outcomes[i]][1..] == [];
      assert ValuesFor([outcomes[i]], key) == [];
      AccumulateCollectsTrialValues(outcomes, key);
      AccumulateCollectsTrialValues(rest, key);
    }
    assert a == b;
  }

  // Properties of the statistics

  /** The sum of `m[k]` over the given keys. */
  ghost function SumOver(m: map<string, nat>, keys: set<string>): nat
    requires keys <= m.Keys
    decreases keys
  {
    if keys == {} then 0
    else
      var k :| k in keys;
      m[k] + SumOver(m, keys - {k})
  }

  /** The sum of a counts dictionary's values. */
  ghost function MapTotal(m: map<string, nat>): nat
  {
    SumOver(m, m.Keys)
  }

  lemma {:induction false} SumOverRemove(m: map<string, nat>, keys: set<string>, k: string)
    requires keys <= m.Keys && k in keys
    ensures SumOver(m, keys) == m[k] + SumOver(m, keys - {k})
    decreases keys
  {
    var j :| j in keys && SumOver(m, keys) == m[j] + SumOver(m, keys - {j});
    if j != k {
      SumOverRemove(m, keys - {j}, k);
      SumOverRemove(m, keys - {k}, j);
      assert keys - {j} - {k} == keys - {k} - {j};
    }
  }

  /** The sum only reads the entries of the keys summed over. */
  lemma {:induction false} SumOverAgree(m1: map<string, nat>, m2: map<string, nat>, keys: set<string>)
    requires keys <= m1.Keys && keys <= m2.Keys
    requires forall k :: k in keys ==> m1[k] == m2[k]
    ensures SumOver(m1, keys) == SumOver(m2, keys)
    decreases keys
  {
    if keys != {} {
      var k :| k in keys;
      SumOverRemove(m1, keys, k);
      SumOverRemove(m2, keys, k);
      SumOverAgree(m1, m2, keys - {k});
    }
  }

  /** The frequency counts are keyed by `str(v)`: each label's count is the
      number of values that print as it, and only labels that occur are keys. */
  lemma {:induction false} FrequenciesCountLabels(values: seq<Value>)
    ensures forall name :: name in Frequencies(values) <==> name in multiset(Labels(values))
    ensures forall name :: name in Frequencies(values) ==> Frequencies(values)[name] == multiset(Labels(values))[name]
  {
    if values != [] {
      var init := values[..|values| - 1];
      FrequenciesCountLabels(init);
      assert Labels(values) == Labels(init) + [Str(values[|values| - 1])];
    }
  }

  /** The frequency counts add up to the number of values. */
  lemma {:induction false} FrequenciesTotal(values: seq<Value>)
    ensures MapTotal(Frequencies(values)) == |values|
  {
    if values != [] {
      var init := values[..|values| - 1];
      var previous := Frequencies(init);
      var name := Str(values[|values| - 1]);
      var counts := Frequencies(values);
      FrequenciesTotal(init);
      SumOverRemove(counts, counts.Keys, name);
      if name in previous {
        SumOverRemove(previous, previous.Keys, name);
        assert counts.Keys - {name} == previous.Keys - {name};
        SumOverAgree(counts, previous, previous.Keys - {name});
      } else {
        assert counts.Keys - {name} == previous.Keys;
        SumOverAgree(counts, previous, previous.Keys);
      }
    }
  }

  /** What one key's entry says about the values it summarises: numeric
      exactly when the first value is, and then every value is an integer in
      [min, max], both bounds attained, and the deviation is the literal 0.0
      exactly for a single value; otherwise frequency counts, each at least 1,
      keyed by `str(v)` and adding up to the number of values. */
  lemma KeyStatsMeaning(values: seq<Value>)
    requires |values| > 0 && KeyStatsOf(values).Ok?
    ensures var stats := KeyStatsOf(values).value;
      && (stats.Numeric? <==> values[0].Num?)
      && (stats.Numeric? ==>
            && AllNumeric(values)
            && stats.count == |values|
            && (forall j :: 0 <= j < |values| ==> stats.min <= values[j].n <= stats.max)
            && Num(stats.min) in values && Num(stats.max) in values
            && (stats.stdev == ZeroDeviation <==> |values| == 1))
      && (stats.Categorical? ==>
            && (forall name :: name in stats.counts <==> name in multiset(Labels(values)))
            && (forall name :: name in stats.counts ==> 1 <= stats.counts[name] == multiset(Labels(values))[name])
            && MapTotal(stats.counts) == |values|)
  {
    if !values[0].Num? {
      FrequenciesCountLabels(values);
      FrequenciesTotal(values);
    }
  }

  /** The report of a run: `simulations_run` counts the trials whose callback
      returned, and there is a stats entry for exactly the keys some such
      trial returned, summarising the values of that key in trial order. */
  lemma SimulateReport(outcomes: seq<Outcome>, key: string)
    requires Simulate(outcomes).Ok?
    ensures Simulate(outcomes).value.simulationsRun == Successes(outcomes)
    ensures key in Simulate(outcomes).value.stats <==> ValuesFor(outcomes, key) != []
    ensures key in Simulate(outcomes).value.stats ==>
      |ValuesFor(outcomes, key)| > 0 && KeyStatsOf(ValuesFor(outcomes, key)) == Ok(Simulate(outcomes).value.stats[key])
  {
    AccumulateCollectsTrialValues(outcomes, key);
  }

  /** When every trial that returns `key` returns 0 for it, the key's minimum
      and maximum are both 0. */
  lemma AllZeroKeyHasZeroRange(outcomes: seq<Outcome>, key: string)
    requires forall i :: 0 <= i < |outcomes| && outcomes[i].Returned? && key in outcomes[i].result ==>
      outcomes[i].result[key] == Num(0)
    requires Simulate(outcomes).Ok? && key in Simulate(outcomes).value.stats
    ensures Simulate(outcomes).value.stats[key].Numeric?
    ensures Simulate(outcomes).value.stats[key].min == 0 == Simulate(outcomes).value.stats[key].max
  {
    SimulateReport(outcomes, key);
    ValuesForComeFromTrials(outcomes, key);
    var values := ValuesFor(outcomes, key);
    assert forall j :: 0 <= j < |values| ==> values[j] == Num(0);
    KeyStatsMeaning(values);
  }
}
