/** The 1NT-versus-Stayman comparison (simulations/major_vs_1nt.py): the
    contract reached after Stayman is chosen from North's major-suit lengths,
    both contracts are scored double dummy, and the trial records the scores,
    the chosen contract, the gain and which side won. */
module MajorVs1nt {
  import opened Values
  import opened Cards
  import opened Simulator

  /** A contract and the seat that declares it. */
  datatype Bid = Bid(contract: string, declarer: string)

  /** The declarers the solver accepts; any other makes it raise. */
  const Seats: set<string> := set seat | seat in SEATS :: [seat]

  /** `solver.get_score(contract, declarer, vulnerable)` for the deal being
      simulated: the double-dummy score, defined for the four seats. */
  type Scorer = (string, string, bool) --> int

  ghost predicate AcceptsSeats(score: Scorer)
  {
    forall contract, declarer, vulnerable ::
      declarer in Seats ==> score.requires(contract, declarer, vulnerable)
  }

  /** The contract reached after Stayman, given North's spade and heart
      lengths: 2H by North with four hearts (even with four spades), else 2S
      by North with four spades, else 2S by North with exactly three spades
      and two hearts, else 2H by South. The "2D" placeholder is never
      returned, and South declares only in the last case. */
  function StaymanBid(spades: nat, hearts: nat): (b: Bid)
    ensures b.contract == "2H" || b.contract == "2S"
    ensures b.declarer == "N" || b.declarer == "S"
    ensures b.contract == "2S" <==> hearts < 4 && (spades >= 4 || (spades == 3 && hearts == 2))
    ensures b.declarer == "S" <==> hearts < 4 && spades < 4 && !(spades == 3 && hearts == 2)
    ensures b.declarer == "S" ==> b.contract == "2H"
  {
    if hearts >= 4 then Bid("2H", "N")
    else if spades >= 4 then Bid("2S", "N")
    else if spades == 3 && hearts == 2 then Bid("2S", "N")
    else Bid("2H", "S")
  }

  /** The keys of the record a trial returns, and those holding 0/1 flags. */
  const RecordKeys: set<string> :=
    {"score_1nt", "score_stayman", "contract_stayman", "stayman_gain",
     "stayman_beats_1nt", "1nt_beats_stayman", "push"}
  const FlagKeys: set<string> := {"stayman_beats_1nt", "1nt_beats_stayman", "push"}

  /** The shape of every record the callback returns: the seven keys, the
      contract as text (2H or 2S), every other entry an integer, each flag
      0 or 1. */
  predicate StaymanRecord(r: TrialResult)
  {
    && r.Keys == RecordKeys
    && (r["contract_stayman"] == Text("2H") || r["contract_stayman"] == Text("2S"))
    && (forall k :: k in r && k != "contract_stayman" ==> r[k].Num?)
    && (forall k :: k in FlagKeys ==> r[k] == Num(0) || r[k] == Num(1))
  }

  /** `major_vs_1nt_callback(deal, solver)`. */
  function Callback(deal: Deal, score: Scorer): (r: TrialResult)
    requires AcceptsSeats(score)
    ensures StaymanRecord(r)
    ensures var bid := StaymanBid(|deal.north.spades|, |deal.north.hearts|);
      && bid.declarer in Seats
      && r["score_1nt"] == Num(score("1N", "N", false))
      && r["contract_stayman"] == Text(bid.contract)
      && r["score_stayman"] == Num(score(bid.contract, bid.declarer, false))
    ensures r["stayman_gain"].n == r["score_stayman"].n - r["score_1nt"].n
    ensures r["stayman_beats_1nt"].n + r["1nt_beats_stayman"].n + r["push"].n == 1
    ensures r["stayman_beats_1nt"] == Num(1) <==> r["stayman_gain"].n > 0
    ensures r["push"] == Num(1) <==> r["stayman_gain"].n == 0
  {
    var bid := StaymanBid(|deal.north.spades|, |deal.north.hearts|);
    assert SEATS[0] == 'N' && SEATS[2] == 'S';
    assert "N" in Seats && bid.declarer in Seats;
    var score1nt := score("1N", "N", false);
    var scoreStayman := score(bid.contract, bid.declarer, false);
    map["score_1nt" := Num(score1nt),
        "score_stayman" := Num(scoreStayman),
        "contract_stayman" := Text(bid.contract),
        "stayman_gain" := Num(scoreStayman - score1nt),
        "stayman_beats_1nt" := Num(if scoreStayman > score1nt then 1 else 0),
        "1nt_beats_stayman" := Num(if score1nt > scoreStayman then 1 else 0),
        "push" := Num(if score1nt == scoreStayman then 1 else 0)]
  }

  /** All trials of a run return records of this shape. */
  ghost predicate StaymanRun(outcomes: seq<Outcome>)
  {
    forall i :: 0 <= i < |outcomes| && outcomes[i].Returned? ==> StaymanRecord(outcomes[i].result)
  }

  /** What a value some trial returned under a key tells about it. */
  lemma ReturnedValue(outcomes: seq<Outcome>, key: string, value: Value)
    requires StaymanRun(outcomes) && ReturnedBySomeTrial(outcomes, key, value)
    ensures key == "contract_stayman" ==> value == Text("2H") || value == Text("2S")
    ensures key != "contract_stayman" ==> value.Num?
    ensures key in FlagKeys ==> value == Num(0) || value == Num(1)
  {
    var i :| 0 <= i < |outcomes| && outcomes[i].Returned? && key in outcomes[i].result
      && outcomes[i].result[key] == value;
    assert StaymanRecord(outcomes[i].result);
  }

  /** Over a run of this callback the aggregation never fails. */
  lemma StaymanRunSucceeds(outcomes: seq<Outcome>)
    requires StaymanRun(outcomes)
    ensures Simulate(outcomes).Ok?
  {
    var acc := Accumulate(outcomes);
    forall k | k in acc && |acc[k]| > 0
      ensures KeyStatsOf(acc[k]).Ok?
    {
      AccumulateCollectsTrialValues(outcomes, k);
      ValuesForComeFromTrials(outcomes, k);
      var values := acc[k];
      if values[0].Num? {
        ReturnedValue(outcomes, k, values[0]);
        forall j | 0 <= j < |values|
          ensures values[j].Num?
        {
          ReturnedValue(outcomes, k, values[j]);
        }
      }
    }
  }

  /** The contract distribution is present exactly when some trial returned,
      and it counts only 2H and 2S. */
  lemma StaymanContractDistribution(outcomes: seq<Outcome>)
    requires StaymanRun(outcomes)
    ensures Simulate(outcomes).Ok?
    ensures var stats := Simulate(outcomes).value.stats;
      && ("contract_stayman" in stats <==> Successes(outcomes) > 0)
      && ("contract_stayman" in stats ==>
            stats["contract_stayman"].Categorical? && stats["contract_stayman"].counts.Keys <= {"2H", "2S"})
  {
    StaymanRunSucceeds(outcomes);
    var stats := Simulate(outcomes).value.stats;
    KeyOfEveryTrial(outcomes, "contract_stayman");
    SimulateReport(outcomes, "contract_stayman");
    if "contract_stayman" in stats {
      var values := ValuesFor(outcomes, "contract_stayman");
      ValuesForComeFromTrials(outcomes, "contract_stayman");
      ReturnedValue(outcomes, "contract_stayman", values[0]);
      KeyStatsMeaning(values);
      forall name | name in stats["contract_stayman"].counts
        ensures name == "2H" || name == "2S"
      {
        assert name in multiset(Labels(values));
        var j :| 0 <= j < |values| && Labels(values)[j] == name;
        ReturnedValue(outcomes, "contract_stayman", values[j]);
      }
    }
  }

  /** Each flag's summary is numeric with its minimum and maximum in [0, 1]. */
  lemma StaymanFlagRange(outcomes: seq<Outcome>, flag: string)
    requires StaymanRun(outcomes) && flag in FlagKeys
    ensures Simulate(outcomes).Ok?
    ensures flag in Simulate(outcomes).value.stats ==>
      var stats := Simulate(outcomes).value.stats[flag];
      stats.Numeric? && 0 <= stats.min && stats.max <= 1
  {
    StaymanRunSucceeds(outcomes);
    var stats := Simulate(outcomes).value.stats;
    SimulateReport(outcomes, flag);
    if flag in stats {
      var values := ValuesFor(outcomes, flag);
      ValuesForComeFromTrials(outcomes, flag);
      ReturnedValue(outcomes, flag, values[0]);
      forall j | 0 <= j < |values|
        ensures values[j].Num?
      {
        ReturnedValue(outcomes, flag, values[j]);
      }
      KeyStatsMeaning(values);
      var lo :| 0 <= lo < |values| && values[lo] == Num(stats[flag].min);
      var hi :| 0 <= hi < |values| && values[hi] == Num(stats[flag].max);
      ReturnedValue(outcomes, flag, values[lo]);
      ReturnedValue(outcomes, flag, values[hi]);
    }
  }
}
