# Bridge simulator core in Dafny

This project models the core of a contract-bridge simulator:

- **Bidding strategies.** A strategy is a decision tree read from a JSON-like
  dictionary. Branch nodes test North's suit length or high-card points. Leaf
  nodes name a contract and its declarer. A missing child falls back to PASS
  by North.
- **The Monte Carlo runner.** It calls a user callback once per deal and
  skips deals whose callback raised. It collects every returned key's values
  in trial order. It then summarises each key: numerically (mean, deviation,
  min, max) when its first value is a number, and otherwise as frequency
  counts of `str(value)`.
- **The hand generator's formatting.** A deal is regrouped as seat -> suit
  symbol -> rank names. Each suit is sorted in descending `RANKS` index, so
  '2' comes first and 'A' last. The generator also summarises a deal as
  per-suit card counts. The generator object remembers its last deal.
- **The 1NT-versus-Stayman simulation callback.** It picks the contract
  reached after Stayman from North's spade and heart lengths. It scores that
  contract and 1NT double dummy, and returns a record of the two scores, the
  gain and the win/loss/push flags.

Modules:

- `Values` holds Python scalars (`int`, `str`, `None`), `str()`, and the
  Option/Result types.
- `Cards` holds ranks, hands and deals as produced by the dealing library.
  High-card points are counted A=4, K=3, Q=2, J=1.
- `Strategies` holds the decision tree.
- `Simulator` holds the runner.
- `HandGenerator` holds the `BridgeHandGenerator` class and its formatting.
- `MajorVs1nt` holds the Stayman callback.

Python exceptions that the code does not catch are modelled as `Err` results:

- a node without a condition;
- an ordering comparison against a non-integer value;
- a strategy without a root;
- a numeric key that later holds a non-number.

Formatting or summarising before any deal was generated, where the source
raises, returns `None`.

The deal source and the double-dummy solver are parameters. The runner takes
a finite sequence of trial outcomes. The callback takes a scoring function
defined for the four seats.

## Model

| member | source | states |
|---|---|---|
| Strategies.Build | bridge_simulator/strategies.py:9-26 | A node is a leaf exactly when its type is 'contract', and a leaf copies its contract and declarer. Any other type, a missing one included, gives a branch that copies the condition. A child is built exactly when its key is present. |
| Strategies.Compare | bridge_simulator/strategies.py:79-85 | The five operators `>`, `>=`, `<`, `<=` and `==` have their integer meaning. Any other operator gives false. An ordering operator against a non-integer target is the TypeError case, and only that case fails. `==` against a non-integer is false. |
| Strategies.CheckCondition | bridge_simulator/strategies.py:47-77 | A missing condition is its own failure. Otherwise it fails exactly when `Compare` fails, as with an ordering operator against a missing or non-integer value. An unknown condition type is false. 'suit_length' compares North's length in S/H/D/C, with 0 for any other suit letter. 'hcp' compares North's high-card points. |
| Strategies.Evaluate | bridge_simulator/strategies.py:28-45 | A leaf returns its own contract and declarer whatever the deal. Any successful result is PASS/N or one of the tree's leaves. Only branches can fail. |
| Strategies.EvaluateBranch | bridge_simulator/strategies.py:36-45 | A branch returns the true child's result when the condition holds and the false child's result otherwise. It returns PASS/N when the chosen child is absent, even if the other child exists. |
| Strategies.EvaluateReadsOnlyNorth | bridge_simulator/strategies.py:59-75 | Two deals with the same North hand evaluate the same way through any tree. |
| Strategies.CompleteTreeReachesLeaf | bridge_simulator/strategies.py:28-45 | A tree whose branches all have both children and well-typed conditions always succeeds with one of its own leaves, never the PASS fallback. |
| Strategies.BuildStrategy | bridge_simulator/strategies.py:91-93 | A strategy fails exactly when its root is missing. Otherwise its root is the built root node, and its name defaults to 'Unnamed Strategy'. |
| Strategies.NestedStrategyOnSampleHands | bridge_simulator/tests/test_strategies.py:40-71 | The nested tree "S>=5 then 2S, else H>=5 then 2H, else 1N" gives 2S, 2H and 1N on the three North hands of the tests, whatever the other seats hold. |
| Simulator.Run | bridge_simulator/simulator.py:35-87 | The trial loop and the aggregation return exactly the specification `Simulate(outcomes)`. |
| Simulator.AppendTrial | bridge_simulator/simulator.py:47-51 | Appending one result gives every key of the result its value appended at the end of that key's list. A new key starts a fresh list. All other keys are unchanged. |
| Simulator.Summarize | bridge_simulator/simulator.py:58-85 | The aggregation loop gives a stats entry for each key with values, or the error when a numeric key holds a non-number. |
| Simulator.CountLabels | bridge_simulator/simulator.py:81-84 | The counting loop gives the frequency map of `str(v)`. |
| Simulator.Minimum | bridge_simulator/simulator.py:75 | `min` is attained by some value and bounds every value from below. |
| Simulator.Maximum | bridge_simulator/simulator.py:76 | `max` is attained by some value and bounds every value from above. |
| Simulator.AccumulateCollectsTrialValues | bridge_simulator/simulator.py:44-53 | A key's list holds exactly the values that successful trials returned for it, in trial order. A key is present iff some successful trial returned it. No list is longer than the number of successful trials. |
| Simulator.KeyOfEveryTrial | bridge_simulator/simulator.py:47-53 | A key that every successful trial returns has exactly one value per successful trial. |
| Simulator.ValuesForComeFromTrials | bridge_simulator/simulator.py:48-51 | Every accumulated value was returned, under that key, by some trial. |
| Simulator.RaisedTrialChangesNothing | bridge_simulator/simulator.py:44-56 | Removing a trial whose callback raised leaves the whole report unchanged, including `simulations_run`. |
| Simulator.FrequenciesCountLabels | bridge_simulator/simulator.py:81-85 | The counts map has exactly the strings `str(v)` of the values as keys. Each count is that string's multiplicity. |
| Simulator.FrequenciesTotal | bridge_simulator/simulator.py:81-85 | The counts add up to the number of values. |
| Simulator.KeyStatsMeaning | bridge_simulator/simulator.py:64-85 | An entry is numeric exactly when the first value is a number. A numeric entry's values are all integers in [min, max], both bounds are attained, count is the number of values, and stdev is the literal 0 exactly for a single value. A categorical entry has counts of at least 1 that equal the multiplicities and add up to the number of values. |
| Simulator.SimulateReport | bridge_simulator/simulator.py:58-87 | `simulations_run` is the number of successful trials. There is a stats entry exactly for the keys some successful trial returned, and it summarises that key's values in trial order. |
| Simulator.AllZeroKeyHasZeroRange | bridge_simulator/simulator.py:72-77 | A key that every trial returns as 0 has min and max 0. |
| HandGenerator.RankIndexIsPositionInRanks | bridge_simulator/hand_generator.py:8 | The sort key is the position in `RANKS` of a rank name, and only rank names have a key. |
| HandGenerator.SortDescendingSorts | bridge_simulator/hand_generator.py:83-87 | The sorted suit is in descending `RANKS` index, has the same length, and holds only rank names. The sort's own contract keeps the same multiset. |
| HandGenerator.SortedPermutationUnique | bridge_simulator/hand_generator.py:83-87 | Two descending arrangements of the same rank names are equal, so the result does not depend on sort stability. |
| HandGenerator.Names | bridge_simulator/hand_generator.py:79-80 | One rank name per card of the holding. |
| HandGenerator.FormatLooksUpSeat | bridge_simulator/hand_generator.py:50-66 | The formatted deal has exactly the seats N, E, S, W. Seat p is formatted from `deal[p]`. |
| HandGenerator.FormatSeatLooksUpSuit | bridge_simulator/hand_generator.py:62-80 | Every seat has exactly the four suit symbols. `SUITS[i]` holds the sorted names of holding i. |
| HandGenerator.FormatRegroupsDeal | bridge_simulator/hand_generator.py:57-89 | The entry of seat p under `SUITS[i]` is a descending permutation of the rank names of holding i, with one name per card. A void suit gives an empty list. |
| HandGenerator.FormatIsTheDescendingSort | bridge_simulator/hand_generator.py:83-87 | Any descending arrangement of holding i's names is exactly the formatted entry. |
| HandGenerator.SummaryLooksUp | bridge_simulator/hand_generator.py:91-106 | The summary has the four seats. The entry of seat p under `SUITS[i]` is the number of cards in holding i of `deal[p]`. |
| HandGenerator.SummaryCountsFormattedCards | bridge_simulator/hand_generator.py:101-104 | Every summary count is the length of the corresponding formatted list, and both have the same keys. |
| HandGenerator.BridgeHandGenerator.constructor | bridge_simulator/hand_generator.py:11-12 | A new generator has no deal. |
| HandGenerator.BridgeHandGenerator.GenerateHand | bridge_simulator/hand_generator.py:14-40 | Stores the produced deal and returns its formatting. |
| HandGenerator.BridgeHandGenerator.FormatHand | bridge_simulator/hand_generator.py:42-89 | With a stored deal, the nested loops return its formatting. Without one, they fail. |
| HandGenerator.BridgeHandGenerator.GetHandSummary | bridge_simulator/hand_generator.py:91-106 | With a stored deal, returns its summary. Without one, fails. |
| HandGenerator.BridgeHandGenerator.SeatCounts | bridge_simulator/hand_generator.py:103-104 | The per-suit counts of seat p, each read from a fresh formatting. |
| HandGenerator.EmptySeat | bridge_simulator/hand_generator.py:61-63 | A seat starts with an empty list under each suit symbol. |
| HandGenerator.FillSuits | bridge_simulator/hand_generator.py:77-80 | After appending, suit i holds the names of holding i in holding order. |
| HandGenerator.SortSuits | bridge_simulator/hand_generator.py:83-87 | After sorting every suit, the seat is the formatted seat. |
| MajorVs1nt.StaymanBid | simulations/major_vs_1nt.py:34-54 | The contract is always 2H or 2S, never the 2D placeholder. It is 2S exactly when North has fewer than 4 hearts and either 4+ spades or exactly 3 spades and 2 hearts. South declares exactly when none of the North cases applies, and then the contract is 2H. |
| MajorVs1nt.Callback | simulations/major_vs_1nt.py:9-70 | The record has the seven keys. The baseline is the score of 1N by N, non-vulnerable. The Stayman score is for the chosen contract and a declarer the solver accepts. The gain is the Stayman score minus the 1NT score. Exactly one of the three flags is 1: Stayman wins iff the gain is positive, and push iff the gain is 0. |
| MajorVs1nt.StaymanRunSucceeds | simulations/major_vs_1nt.py:62-70 | A run of this callback's records never hits the aggregation error. |
| MajorVs1nt.StaymanContractDistribution | simulations/major_vs_1nt.py:65 | The contract distribution is present iff some trial returned. It counts only 2H and 2S. |
| MajorVs1nt.StaymanFlagRange | simulations/major_vs_1nt.py:67-69 | Each flag is summarised numerically with min and max in [0, 1]. |

## Left out

- Double-dummy solving and scoring come from a foreign library. The solver is a scoring-function parameter defined for the declarers N, E, S and W. Its raise for any other declarer becomes that function's precondition.
- Random dealing is a foreign call. So are the predeal "- - - -" and the accept-everything filter: `GenerateHand` takes the produced deal as a parameter, and any deal is acceptable.
- The constrained generator (`yield_deals`, `generate_hands`, `_calculate_controls`) is not part of this model. The runner's deal source is an arbitrary finite sequence of trial outcomes (the callback raised, or it returned a record).
- Simulator.KeyStatsOf: mean and stdev are floating point and are not computed. The mean is kept exactly as total and count. The stdev records only whether it is the literal 0.0 (a single value) or the sample deviation.
- Values: Python floats and bools are not modelled. Values are integers, strings or None.
- Console printing (the error message for a failed trial, and `run()` in the Stayman simulation) is I/O.
- The Flask routes (app.py) and the browser tree builder (static/js/simulation.js) are not part of this model.
- The model keeps dictionaries as maps and does not keep Python's insertion order of keys.
- Condition and child entries that are not dictionaries (for example a list given as a condition) are not modelled. Conditions and children are either present dictionaries or absent.
- Strategies.EvaluateStrategy: it is defined as evaluation of the strategy's root node (bridge_simulator/strategies.py:95-96), so it has no contract of its own; what is proved about `Evaluate` applies to it.
- Cards.Hcp: the dealing library's `hcp` is counted as A=4, K=3, Q=2, J=1, the count the tests use.
