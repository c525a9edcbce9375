/** The hand generator's formatting (bridge_simulator/hand_generator.py): a
    deal is regrouped into seat -> suit symbol -> rank names, each suit sorted,
    and summarised as per-suit card counts. The generator object remembers the
    last deal it produced. */
module HandGenerator {
  import opened Values
  import opened Cards

  /** Suit symbols, spades first. */
  const SUITS: seq<char> := ['♠', '♥', '♦', '♣']

  /** Rank names from highest to lowest. */
  const RANKS: seq<char> := ['A', 'K', 'Q', 'J', 'T', '9', '8', '7', '6', '5', '4', '3', '2']

  /** One seat of the formatted deal: suit symbol -> rank names. */
  type SeatView = map<char, seq<char>>

  /** The formatted deal: seat letter -> seat view. */
  type DealView = map<char, SeatView>

  /** The position of the first occurrence of `x` in `s` (`s.index(x)`). */
  function IndexOf(s: seq<char>, x: char): (i: nat)
    requires x in s
    ensures i < |s| && s[i] == x
    ensures forall j :: 0 <= j < i ==> s[j] != x
  {
    if s[0] == x then 0 else 1 + IndexOf(s[1..], x)
  }

  /** The sort key `RANKS.index(name)`: 0 for 'A' up to 12 for '2', and -1
      for a character that is not a rank name (where `index` would raise). */
  function RankIndex(name: char): int
  {
    match name
    case 'A' => 0
    case 'K' => 1
    case 'Q' => 2
    case 'J' => 3
    case 'T' => 4
    case '9' => 5
    case '8' => 6
    case '7' => 7
    case '6' => 8
    case '5' => 9
    case '4' => 10
    case '3' => 11
    case '2' => 12
    case _ => -1
  }

  /** No symbol occurs twice. */
  predicate Distinct(s: seq<char>)
  {
    forall a, b :: 0 <= a < b < |s| ==> s[a] != s[b]
  }

  lemma IndexOfDistinct(s: seq<char>, i: nat)
    requires i < |s| && Distinct(s)
    ensures IndexOf(s, s[i]) == i
  {
  }

  lemma RanksAreKeys(i: nat)
    requires i < |RANKS|
    ensures RankIndex(RANKS[i]) == i
  {
    if i < 4 {
      if i == 0 {} else if i == 1 {} else if i == 2 {} else {}
    } else if i < 8 {
      if i == 4 {} else if i == 5 {} else if i == 6 {} else {}
    } else if i < 12 {
      if i == 8 {} else if i == 9 {} else if i == 10 {} else {}
    }
  }

  /** The key is the position in `RANKS` of every rank name, and only rank
      names have a key. */
  lemma RankIndexIsPositionInRanks(name: char)
    ensures name in RANKS <==> RankIndex(name) >= 0
    ensures name in RANKS ==> RankIndex(name) == IndexOf(RANKS, name)
  {
    if name in RANKS {
      RanksAreKeys(IndexOf(RANKS, name));
    }
    if RankIndex(name) >= 0 {
      RanksAreKeys(RankIndex(name));
      assert RANKS[RankIndex(name)] == name;
    }
  }

  /** Distinct rank names have distinct keys. */
  lemma RankIndexInjective(a: char, b: char)
    requires RankIndex(a) >= 0 && RankIndex(a) == RankIndex(b)
    ensures a == b
  {
  }

  predicate RankNames(s: seq<char>)
  {
    forall i :: 0 <= i < |s| ==> RankIndex(s[i]) >= 0
  }

  /** In descending `RANKS` index: '2' first and 'A' last. */
  predicate SortedDescending(s: seq<char>)
  {
    forall i, j :: 0 <= i < j < |s| ==> RankIndex(s[i]) >= RankIndex(s[j])
  }

  function Insert(name: char, s: seq<char>): (r: seq<char>)
    ensures multiset(r) == multiset(s) + multiset{name}
  {
    if s == [] || RankIndex(name) >= RankIndex(s[0]) then [name] + s
    else
      assert s == [s[0]] + s[1..];
      [s[0]] + Insert(name, s[1..])
  }

  lemma {:induction false} InsertKeepsSorted(name: char, s: seq<char>)
    requires SortedDescending(s)
    ensures SortedDescending(Insert(name, s))
  {
    if s != [] && RankIndex(name) < RankIndex(s[0]) {
      var rest := Insert(name, s[1..]);
      InsertKeepsSorted(name, s[1..]);
      forall k | 0 <= k < |rest|
        ensures RankIndex(rest[k]) <= RankIndex(s[0])
      {
        assert rest[k] in multiset(rest);
        if rest[k] != name {
          assert rest[k] in multiset(s[1..]);
          var m :| 0 <= m < |s[1..]| && s[1..][m] == rest[k];
          assert s[m + 1] == rest[k];
        }
      }
      assert Insert(name, s) == [s[0]] + rest;
    }
  }

  /** `list.sort(key=RANKS.index, reverse=True)` on a list of rank names. */
  function SortDescending(s: seq<char>): (r: seq<char>)
    ensures multiset(r) == multiset(s)
  {
    if s == [] then []
    else
      assert s == [s[0]] + s[1..];
      Insert(s[0], SortDescending(s[1..]))
  }

  /** The sorted list is in descending `RANKS` index, holds the same names,
      and holds only rank names when the input does. */
  lemma {:induction false} SortDescendingSorts(s: seq<char>)
    ensures SortedDescending(SortDescending(s))
    ensures |SortDescending(s)| == |s|
    ensures RankNames(s) ==> RankNames(SortDescending(s))
  {
    if s != [] {
      SortDescendingSorts(s[1..]);
      InsertKeepsSorted(s[0], SortDescending(s[1..]));
    }
    var r := SortDescending(s);
    assert |r| == |multiset(r)| == |multiset(s)| == |s|;
    if RankNames(s) {
      forall k | 0 <= k < |r|
        ensures RankIndex(r[k]) >= 0
      {
        assert r[k] in multiset(s);
      }
    }
  }

  lemma TailSorted(x: seq<char>)
    requires x != [] && RankNames(x) && SortedDescending(x)
    ensures RankNames(x[1..]) && SortedDescending(x[1..])
  {
  }

  /** The first name of a descending list has the largest key in it. */
  lemma HeadIsLargest(x: seq<char>, name: char)
    requires SortedDescending(x) && name in multiset(x)
    ensures RankIndex(x[0]) >= RankIndex(name)
  {
    var j :| 0 <= j < |x| && x[j] == name;
    if j > 0 {
      assert RankIndex(x[0]) >= RankIndex(x[j]);
    }
  }

  /** A list of rank names has only one descending arrangement, so any sort by
      that key (stable or not) gives exactly `SortDescending`. */
  lemma {:induction false} SortedPermutationUnique(x: seq<char>, y: seq<char>)
    requires RankNames(x) && RankNames(y)
    requires SortedDescending(x) && SortedDescending(y)
    requires multiset(x) == multiset(y)
    ensures x == y
  {
    assert |y| == |multiset(y)| == |multiset(x)| == |x|;
    if x != [] {
      HeadIsLargest(y, x[0]);
      HeadIsLargest(x, y[0]);
      RankIndexInjective(x[0], y[0]);
      assert x == [x[0]] + x[1..];
      assert y == [y[0]] + y[1..];
      assert multiset(x[1..]) == multiset(x) - multiset{x[0]};
      assert multiset(y[1..]) == multiset(y) - multiset{y[0]};
      TailSorted(x);
      TailSorted(y);
      SortedPermutationUnique(x[1..], y[1..]);
    }
  }

  /** `rank.name` of every rank of a holding, in holding order. */
  function Names(holding: seq<Rank>): (names: seq<char>)
    ensures |names| == |holding| && RankNames(names)
  {
    seq(|holding|, i requires 0 <= i < |holding| => Name(holding[i]))
  }

  /** A holding's rank names sorted as `_format_hand` leaves them. */
  function SortedNames(holding: seq<Rank>): seq<char>
  {
    SortDescending(Names(holding))
  }

  /** One seat regrouped by suit symbol: the suit at position i of `SUITS`
      holds the sorted names of the seat's holding i. */
  function FormatSeat(hand: Hand): SeatView
  {
    map suit | suit in SUITS :: SortedNames(hand.Holding(IndexOf(SUITS, suit)))
  }

  /** What `_format_hand` returns for a deal: seat letter p of `SEATS` is
      read from `deal[p]`. */
  function Format(deal: Deal): DealView
  {
    map player | player in SEATS :: FormatSeat(deal.At(IndexOf(SEATS, player)))
  }

  /** One seat's number of cards per suit symbol. */
  function SeatSummary(hand: Hand): map<char, nat>
  {
    map suit | suit in SUITS :: |hand.Holding(IndexOf(SUITS, suit))|
  }

  /** What `get_hand_summary` returns for a deal. */
  function Summary(deal: Deal): map<char, map<char, nat>>
  {
    map player | player in SEATS :: SeatSummary(deal.At(IndexOf(SEATS, player)))
  }

  lemma SymbolsDistinct()
    ensures Distinct(SUITS) && Distinct(SEATS)
  {
  }

  /** Seat p of the formatted deal is read from `deal[p]`, N, E, S, W being
      0..3. */
  lemma FormatLooksUpSeat(deal: Deal, p: nat)
    requires p < 4
    ensures Format(deal).Keys == {'N', 'E', 'S', 'W'}
    ensures SEATS[p] in Format(deal) && Format(deal)[SEATS[p]] == FormatSeat(deal.At(p))
  {
    SymbolsDistinct();
    IndexOfDistinct(SEATS, p);
  }

  /** A seat's entry under `SUITS[i]` is built from its holding i. */
  lemma FormatSeatLooksUpSuit(hand: Hand, i: nat)
    requires i < 4
    ensures FormatSeat(hand).Keys == {'♠', '♥', '♦', '♣'}
    ensures FormatSeat(hand)[SUITS[i]] == SortedNames(hand.Holding(i))
  {
    SymbolsDistinct();
    IndexOfDistinct(SUITS, i);
  }

  /** Every seat has exactly the four suit symbols; the holding at suit index i
      goes, as a sorted permutation of its rank names, under `SUITS[i]`, and
      a void suit gives an empty list. */
  lemma FormatRegroupsDeal(deal: Deal, p: nat, i: nat)
    requires p < 4 && i < 4
    ensures Format(deal).Keys == {'N', 'E', 'S', 'W'}
    ensures Format(deal)[SEATS[p]].Keys == {'♠', '♥', '♦', '♣'}
    ensures var suit := Format(deal)[SEATS[p]][SUITS[i]];
      && RankNames(suit)
      && SortedDescending(suit)
      && multiset(suit) == multiset(Names(deal.At(p).Holding(i)))
      && |suit| == |deal.At(p).Holding(i)|
  {
    FormatLooksUpSeat(deal, p);
    FormatSeatLooksUpSuit(deal.At(p), i);
    SortDescendingSorts(Names(deal.At(p).Holding(i)));
  }

  /** Whatever arrangement an in-place sort by that key produces, as long as
      it is descending and holds the same names, it is the list under
      `SUITS[i]`. */
  lemma FormatIsTheDescendingSort(deal: Deal, p: nat, i: nat, sorted: seq<char>)
    requires p < 4 && i < 4
    requires SortedDescending(sorted)
    requires multiset(sorted) == multiset(Names(deal.At(p).Holding(i)))
    ensures Format(deal)[SEATS[p]][SUITS[i]] == sorted
  {
    FormatRegroupsDeal(deal, p, i);
    var names := Names(deal.At(p).Holding(i));
    forall k | 0 <= k < |sorted|
      ensures RankIndex(sorted[k]) >= 0
    {
      assert sorted[k] in multiset(names);
    }
    SortedPermutationUnique(Format(deal)[SEATS[p]][SUITS[i]], sorted);
  }

  lemma SummaryLooksUpSeat(deal: Deal, p: nat)
    requires p < 4
    ensures Summary(deal).Keys == {'N', 'E', 'S', 'W'}
    ensures SEATS[p] in Summary(deal) && Summary(deal)[SEATS[p]] == SeatSummary(deal.At(p))
  {
    SymbolsDistinct();
    IndexOfDistinct(SEATS, p);
  }

  lemma SeatSummaryLooksUpSuit(hand: Hand, i: nat)
    requires i < 4
    ensures SeatSummary(hand).Keys == {'♠', '♥', '♦', '♣'}
    ensures SeatSummary(hand)[SUITS[i]] == |hand.Holding(i)|
  {
    SymbolsDistinct();
    IndexOfDistinct(SUITS, i);
  }

  /** Seat p of the summary counts `deal[p]`, and its entry under `SUITS[i]`
      is the length of holding i. */
  lemma SummaryLooksUp(deal: Deal, p: nat, i: nat)
    requires p < 4 && i < 4
    ensures Summary(deal).Keys == {'N', 'E', 'S', 'W'}
    ensures SEATS[p] in Summary(deal) && Summary(deal)[SEATS[p]] == SeatSummary(deal.At(p))
    ensures SeatSummary(deal.At(p)).Keys == {'♠', '♥', '♦', '♣'}
    ensures SeatSummary(deal.At(p))[SUITS[i]] == |deal.At(p).Holding(i)|
  {
    SummaryLooksUpSeat(deal, p);
    SeatSummaryLooksUpSuit(deal.At(p), i);
  }

  /** `get_hand_summary()[p][s]` is the length of `_format_hand()[p][s]`. */
  lemma SummaryCountsFormattedCards(deal: Deal, p: nat, i: nat)
    requires p < 4 && i < 4
    ensures Summary(deal).Keys == Format(deal).Keys
    ensures Summary(deal)[SEATS[p]].Keys == Format(deal)[SEATS[p]].Keys
    ensures Summary(deal)[SEATS[p]][SUITS[i]] == |Format(deal)[SEATS[p]][SUITS[i]]|
  {
    FormatRegroupsDeal(deal, p, i);
    SummaryLooksUp(deal, p, i);
  }

  /** A seat while `_format_hand` fills it: suits below `filled` hold their
      rank names, those below `sorted` are sorted, the rest are empty. */
  ghost function SeatSoFar(hand: Hand, filled: nat, sorted: nat): SeatView
  {
    map suit | suit in SUITS :: PartialSuit(hand, IndexOf(SUITS, suit), filled, sorted)
  }

  ghost function PartialSuit(hand: Hand, i: nat, filled: nat, sorted: nat): seq<char>
    requires i < 4
  {
    if i < sorted then SortedNames(hand.Holding(i))
    else if i < filled then Names(hand.Holding(i))
    else []
  }

  lemma SeatSoFarLooksUp(hand: Hand, filled: nat, sorted: nat, i: nat)
    requires i < 4
    ensures SUITS[i] in SeatSoFar(hand, filled, sorted)
    ensures SeatSoFar(hand, filled, sorted)[SUITS[i]] == PartialSuit(hand, i, filled, sorted)
  {
    SymbolsDistinct();
    IndexOfDistinct(SUITS, i);
  }

  lemma SeatSoFarSorted(hand: Hand)
    ensures SeatSoFar(hand, 4, 4) == FormatSeat(hand)
  {
  }

  /** Filling suit i, or sorting it, changes that suit's entry only. */
  lemma FillStep(hand: Hand, i: nat)
    requires i < 4
    ensures SeatSoFar(hand, i, 0)[SUITS[i] := Names(hand.Holding(i))] == SeatSoFar(hand, i + 1, 0)
  {
    SymbolsDistinct();
    IndexOfDistinct(SUITS, i);
  }

  lemma SortStep(hand: Hand, i: nat)
    requires i < 4
    ensures SeatSoFar(hand, 4, i)[SUITS[i] := SortedNames(hand.Holding(i))] == SeatSoFar(hand, 4, i + 1)
  {
    SymbolsDistinct();
    IndexOfDistinct(SUITS, i);
  }

  /** The formatted deal after its first `n` seats, the summary after its
      first `n` seats, and a seat's counts after its first `n` suits. */
  ghost function DealSoFar(deal: Deal, n: nat): DealView
    requires n <= 4
  {
    map player | player in SEATS[..n] :: FormatSeat(deal.At(IndexOf(SEATS, player)))
  }

  ghost function SummarySoFar(deal: Deal, n: nat): map<char, map<char, nat>>
    requires n <= 4
  {
    map player | player in SEATS[..n] :: SeatSummary(deal.At(IndexOf(SEATS, player)))
  }

  ghost function CountsSoFar(hand: Hand, n: nat): map<char, nat>
    requires n <= 4
  {
    map suit | suit in SUITS[..n] :: |hand.Holding(IndexOf(SUITS, suit))|
  }

  lemma PrefixStep(s: seq<char>, n: nat)
    requires n < |s|
    ensures forall x :: x in s[..n + 1] <==> x in s[..n] || x == s[n]
  {
    assert s[..n + 1] == s[..n] + [s[n]];
  }

  lemma DealSoFarStep(deal: Deal, n: nat)
    requires n < 4
    ensures DealSoFar(deal, n)[SEATS[n] := FormatSeat(deal.At(n))] == DealSoFar(deal, n + 1)
  {
    SymbolsDistinct();
    IndexOfDistinct(SEATS, n);
    PrefixStep(SEATS, n);
  }

  lemma SummarySoFarStep(deal: Deal, n: nat)
    requires n < 4
    ensures SummarySoFar(deal, n)[SEATS[n] := SeatSummary(deal.At(n))] == SummarySoFar(deal, n + 1)
  {
    SymbolsDistinct();
    IndexOfDistinct(SEATS, n);
    PrefixStep(SEATS, n);
  }

  lemma CountsSoFarStep(hand: Hand, n: nat)
    requires n < 4
    ensures CountsSoFar(hand, n)[SUITS[n] := |hand.Holding(n)|] == CountsSoFar(hand, n + 1)
  {
    SymbolsDistinct();
    IndexOfDistinct(SUITS, n);
    PrefixStep(SUITS, n);
  }

  lemma SoFarComplete(deal: Deal, hand: Hand)
    ensures DealSoFar(deal, 4) == Format(deal)
    ensures SummarySoFar(deal, 4) == Summary(deal)
    ensures CountsSoFar(hand, 4) == SeatSummary(hand)
  {
    assert SEATS[..4] == SEATS;
    assert SUITS[..4] == SUITS;
  }

  /** `BridgeHandGenerator`: `deal` is `None` until a hand is generated. */
  class BridgeHandGenerator {
    var deal: Option<Deal>

    constructor ()
      ensures deal == None
    {
      deal := None;
    }

    /** `generate_hand`: stores the deal the dealing library produced (any
        deal: the predeal pins no card and the filter accepts everything) and
        returns it formatted. */
    method GenerateHand(produced: Deal) returns (formatted: DealView)
      modifies this
      ensures deal == Some(produced)
      ensures formatted == Format(produced)
    {
      deal := Some(produced);
      var view := FormatHand();
      formatted := view.value;
    }

    /** `_format_hand`; `None` where the source raises because no deal has
        been generated yet. */
    method FormatHand() returns (view: Option<DealView>)
      ensures deal.None? ==> view == None
      ensures deal.Some? ==> view == Some(Format(deal.value))
    {
      if deal.None? {
        return None;
      }
      var current := deal.value;
      var formatted: DealView := map[];
      for p := 0 to 4
        invariant formatted == DealSoFar(current, p)
      {
        var seat := EmptySeat();
        var hand := current.At(p);
        seat := FillSuits(hand, seat);
        seat := SortSuits(hand, seat);
        DealSoFarStep(current, p);
        formatted := formatted[SEATS[p] := seat];
      }
      SoFarComplete(current, current.north);
      view := Some(formatted);
    }

    /** `get_hand_summary`: the number of cards per seat and suit, each read
        from a fresh `_format_hand()`; `None` where the source raises. */
    method GetHandSummary() returns (summary: Option<map<char, map<char, nat>>>)
      ensures deal.None? ==> summary == None
      ensures deal.Some? ==> summary == Some(Summary(deal.value))
    {
      if deal.None? {
        var view := FormatHand();
        return None;
      }
      var current := deal.value;
      var result: map<char, map<char, nat>> := map[];
      for p := 0 to 4
        invariant result == SummarySoFar(current, p)
      {
        var counts := SeatCounts(p);
        SummarySoFarStep(current, p);
        result := result[SEATS[p] := counts];
      }
      SoFarComplete(current, current.north);
      summary := Some(result);
    }

    /** The inner loop of `get_hand_summary` for seat p. */
    method SeatCounts(p: nat) returns (counts: map<char, nat>)
      requires p < 4 && deal.Some?
      ensures counts == SeatSummary(deal.value.At(p))
    {
      var hand := deal.value.At(p);
      counts := map[];
      for s := 0 to 4
        invariant counts == CountsSoFar(hand, s)
      {
        var view := FormatHand();
        SummaryCountsFormattedCards(deal.value, p, s);
        SummaryLooksUp(deal.value, p, s);
        CountsSoFarStep(hand, s);
        counts := counts[SUITS[s] := |view.value[SEATS[p]][SUITS[s]]|];
      }
      SoFarComplete(deal.value, hand);
    }
  }

  /** `formatted_hand[player]` set to an empty list per suit symbol. */
  method EmptySeat() returns (seat: SeatView)
    ensures forall hand :: seat == SeatSoFar(hand, 0, 0)
  {
    seat := map[];
    for s := 0 to 4
      invariant seat.Keys == set t | 0 <= t < s :: SUITS[t]
      invariant forall t :: 0 <= t < s ==> seat[SUITS[t]] == []
    {
      seat := seat[SUITS[s] := []];
    }
    forall hand: Hand
      ensures seat == SeatSoFar(hand, 0, 0)
    {
      forall suit | suit in SUITS
        ensures suit in seat && seat[suit] == []
      {
        var t := IndexOf(SUITS, suit);
        assert SUITS[t] == suit;
      }
    }
  }

  /** Appends `rank.name` of each card of holding i to the list under
      `SUITS[i]`, for each holding of the seat in turn. */
  method FillSuits(hand: Hand, empty: SeatView) returns (seat: SeatView)
    requires empty == SeatSoFar(hand, 0, 0)
    ensures seat == SeatSoFar(hand, 4, 0)
  {
    seat := empty;
    for suitIndex := 0 to 4
      invariant seat == SeatSoFar(hand, suitIndex, 0)
    {
      var suit := SUITS[suitIndex];
      var holding := hand.Holding(suitIndex);
      ghost var before := seat;
      SeatSoFarLooksUp(hand, suitIndex, 0, suitIndex);
      assert before[suit := []] == before;
      for k := 0 to |holding|
        invariant seat == before[suit := Names(holding[..k])]
      {
        assert Names(holding[..k + 1]) == Names(holding[..k]) + [Name(holding[k])];
        seat := seat[suit := seat[suit] + [Name(holding[k])]];
      }
      assert holding[..|holding|] == holding;
      FillStep(hand, suitIndex);
    }
  }

  /** Sorts the list under each suit symbol in place of the unsorted one. */
  method SortSuits(hand: Hand, filled: SeatView) returns (seat: SeatView)
    requires filled == SeatSoFar(hand, 4, 0)
    ensures seat == FormatSeat(hand)
  {
    seat := filled;
    for s := 0 to 4
      invariant seat == SeatSoFar(hand, 4, s)
    {
      SeatSoFarLooksUp(hand, 4, s, s);
      SortStep(hand, s);
      seat := seat[SUITS[s] := SortDescending(seat[SUITS[s]])];
    }
    SeatSoFarSorted(hand);
  }
}
