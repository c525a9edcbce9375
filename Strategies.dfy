/** Decision-tree strategies: a tree built once from a strategy dictionary,
    whose branches test North's suit length or high-card points and whose
    leaves name a contract and a declarer (bridge_simulator/strategies.py). */
module Strategies {
  import opened Values
  import opened Cards

  /** A condition dictionary; every field is read with `.get`, so a missing
      key reads as `Null`. */
  datatype CondSpec = CondSpec(kind: Value, suit: Value, operator: Value, value: Value)

  /** A node dictionary. `condition` is `None` when the key is missing or
      null; the children are `None` exactly when their key is absent. */
  datatype NodeSpec = NodeSpec(
    kind: Value,
    condition: Option<CondSpec>,
    contract: Value,
    declarer: Value,
    trueBranch: Option<NodeSpec>,
    falseBranch: Option<NodeSpec>)

  /** A built `DecisionNode`: a leaf when its type is 'contract', a branch
      otherwise (its fields that the branch never reads are dropped). */
  datatype DecisionNode =
    | Leaf(contract: Value, declarer: Value)
    | Branch(condition: Option<CondSpec>, trueBranch: Option<DecisionNode>, falseBranch: Option<DecisionNode>)

  /** The `{'contract': .., 'declarer': ..}` an evaluation returns. */
  datatype Decision = Decision(contract: Value, declarer: Value)

  /** Exceptions evaluation can raise: `.get` on a missing condition, and an
      ordering comparison of an int against a non-int target. */
  datatype EvalError = MissingCondition | Incomparable

  /** The fallback when the selected child is absent. */
  const Pass := Decision(Text("PASS"), Text("N"))

  const OrderingOperators: set<Value> := {Text(">"), Text(">="), Text("<"), Text("<=")}
  const Operators: set<Value> := OrderingOperators + {Text("==")}

  /** `DecisionNode.__init__`: any type other than 'contract' (a missing type
      included) becomes a branch, and a child is built only if its key is present. */
  function Build(spec: NodeSpec): (node: DecisionNode)
    ensures node.Leaf? <==> spec.kind == Text("contract")
    ensures node.Leaf? ==> node.contract == spec.contract && node.declarer == spec.declarer
    ensures node.Branch? ==>
      && node.condition == spec.condition
      && (node.trueBranch.Some? <==> spec.trueBranch.Some?)
      && (node.falseBranch.Some? <==> spec.falseBranch.Some?)
  {
    if spec.kind == Text("contract") then
      Leaf(spec.contract, spec.declarer)
    else
      Branch(
        spec.condition,
        if spec.trueBranch.Some? then Some(Build(spec.trueBranch.value)) else None,
        if spec.falseBranch.Some? then Some(Build(spec.falseBranch.value)) else None)
  }

  /** `DecisionNode.compare`. */
  function Compare(x: int, operator: Value, target: Value): (r: Result<bool, EvalError>)
    ensures operator !in Operators ==> r == Ok(false)
    ensures r.Err? <==> operator in OrderingOperators && !target.Num?
    ensures operator == Text("==") ==> r == Ok(target == Num(x))
    ensures target.Num? ==>
      && (operator == Text(">") ==> r == Ok(x > target.n))
      && (operator == Text(">=") ==> r == Ok(x >= target.n))
      && (operator == Text("<") ==> r == Ok(x < target.n))
      && (operator == Text("<=") ==> r == Ok(x <= target.n))
  {
    if operator in OrderingOperators && !target.Num? then Err(Incomparable)
    else if operator == Text(">") then Ok(x > target.n)
    else if operator == Text(">=") then Ok(x >= target.n)
    else if operator == Text("<") then Ok(x < target.n)
    else if operator == Text("<=") then Ok(x <= target.n)
    else if operator == Text("==") then Ok(target == Num(x))
    else Ok(false)
  }

  /** The length of the named suit; an unrecognised suit letter counts as 0. */
  function SuitLength(hand: Hand, suit: Value): nat
  {
    if suit == Text("S") then |hand.spades|
    else if suit == Text("H") then |hand.hearts|
    else if suit == Text("D") then |hand.diamonds|
    else if suit == Text("C") then |hand.clubs|
    else 0
  }

  /** `DecisionNode.check_condition`: always reads North's hand; an
      unrecognised condition type is false. */
  function CheckCondition(deal: Deal, condition: Option<CondSpec>): (r: Result<bool, EvalError>)
    ensures r == Err(MissingCondition) <==> condition.None?
    ensures condition.Some? && condition.value.kind !in {Text("suit_length"), Text("hcp")} ==> r == Ok(false)
    ensures condition.Some? && condition.value.kind == Text("suit_length") ==>
      r == Compare(SuitLength(deal.north, condition.value.suit), condition.value.operator, condition.value.value)
    ensures condition.Some? && condition.value.kind == Text("hcp") ==>
      r == Compare(Hcp(deal.north), condition.value.operator, condition.value.value)
  {
    match condition
    case None => Err(MissingCondition)
    case Some(c) =>
      if c.kind == Text("suit_length") then Compare(SuitLength(deal.north, c.suit), c.operator, c.value)
      else if c.kind == Text("hcp") then Compare(Hcp(deal.north), c.operator, c.value)
      else Ok(false)
  }

  /** The decisions written in the leaves of a tree. */
  function LeafDecisions(node: DecisionNode): set<Decision>
  {
    match node
    case Leaf(contract, declarer) => {Decision(contract, declarer)}
    case Branch(_, t, f) =>
      (match t case Some(c) => LeafDecisions(c) case None => {})
      + (match f case Some(c) => LeafDecisions(c) case None => {})
  }

  /** `DecisionNode.evaluate`: a leaf gives its own contract and declarer
      whatever the deal; a branch recurses into the child its condition
      selects, or gives PASS by N when that child is absent. Every decision it
      returns is written in some leaf, or is that PASS. */
  function Evaluate(node: DecisionNode, deal: Deal): (r: Result<Decision, EvalError>)
    ensures node.Leaf? ==> r == Ok(Decision(node.contract, node.declarer))
    ensures r.Ok? ==> r.value == Pass || r.value in LeafDecisions(node)
    ensures r.Err? ==> node.Branch?
  {
    match node
    case Leaf(contract, declarer) => Ok(Decision(contract, declarer))
    case Branch(condition, t, f) =>
      match CheckCondition(deal, condition)
      case Err(e) => Err(e)
      case Ok(holds) =>
        var chosen := if holds then t else f;
        if chosen.Some? then Evaluate(chosen.value, deal) else Ok(Pass)
  }

  /** A branch follows the child its condition selects; when that child is
      absent the result is PASS by N, even if the other child exists. This is
      the branch case of `Evaluate` unfolded, stated on its own so that callers
      can name the step. */
  lemma EvaluateBranch(node: DecisionNode, deal: Deal)
    requires node.Branch? && CheckCondition(deal, node.condition).Ok?
    ensures var chosen := if CheckCondition(deal, node.condition).value then node.trueBranch else node.falseBranch;
      Evaluate(node, deal) == if chosen.Some? then Evaluate(chosen.value, deal) else Ok(Pass)
  {
  }

  /** Evaluation reads only North's hand. */
  lemma {:induction false} EvaluateReadsOnlyNorth(node: DecisionNode, d1: Deal, d2: Deal)
    requires d1.north == d2.north
    ensures Evaluate(node, d1) == Evaluate(node, d2)
  {
    match node
    case Leaf(_, _) =>
    case Branch(condition, t, f) =>
      assert CheckCondition(d1, condition) == CheckCondition(d2, condition);
      if t.Some? { EvaluateReadsOnlyNorth(t.value, d1, d2); }
      if f.Some? { EvaluateReadsOnlyNorth(f.value, d1, d2); }
  }

  /** A condition that cannot raise: it is present, and an ordering operator
      of a recognised condition type is given an integer target. */
  predicate ConditionWellTyped(condition: Option<CondSpec>)
  {
    && condition.Some?
    && (var c := condition.value;
        c.kind in {Text("suit_length"), Text("hcp")} && c.operator in OrderingOperators ==> c.value.Num?)
  }

  /** A tree in which every branch has a well-typed condition and both children. */
  predicate Complete(node: DecisionNode)
  {
    match node
    case Leaf(_, _) => true
    case Branch(condition, t, f) =>
      && ConditionWellTyped(condition)
      && t.Some? && f.Some?
      && Complete(t.value) && Complete(f.value)
  }

  /** In a complete tree the PASS fallback and the exceptions are unreachable:
      evaluation always ends in one of the tree's own leaves. */
  lemma {:induction false} CompleteTreeReachesLeaf(node: DecisionNode, deal: Deal)
    requires Complete(node)
    ensures Evaluate(node, deal).Ok?
    ensures Evaluate(node, deal).value in LeafDecisions(node)
  {
    match node
    case Leaf(_, _) =>
    case Branch(condition, t, f) =>
      var c := CheckCondition(deal, condition);
      assert c.Ok?;
      CompleteTreeReachesLeaf(t.value, deal);
      CompleteTreeReachesLeaf(f.value, deal);
  }

  /** The strategy dictionary: `name` is `None` when the key is absent, and
      `root` is `None` when it is absent or null. */
  datatype StrategySpec = StrategySpec(name: Option<Value>, root: Option<NodeSpec>)

  datatype DecisionStrategy = DecisionStrategy(name: Value, root: DecisionNode)

  /** Building a strategy without a root raises (`.get` on `None`). */
  datatype BuildError = MissingRoot

  /** `DecisionStrategy.__init__`. */
  function BuildStrategy(spec: StrategySpec): (r: Result<DecisionStrategy, BuildError>)
    ensures r.Err? <==> spec.root.None?
    ensures r.Ok? ==> r.value.root == Build(spec.root.value)
    ensures r.Ok? ==> r.value.name == if spec.name.Some? then spec.name.value else Text("Unnamed Strategy")
  {
    match spec.root
    case None => Err(MissingRoot)
    case Some(root) =>
      Ok(DecisionStrategy(if spec.name.Some? then spec.name.value else Text("Unnamed Strategy"), Build(root)))
  }

  /** `DecisionStrategy.evaluate`. */
  function EvaluateStrategy(strategy: DecisionStrategy, deal: Deal): Result<Decision, EvalError>
  {
    Evaluate(strategy.root, deal)
  }

  function ContractSpec(contract: string): NodeSpec
  {
    NodeSpec(Text("contract"), None, Text(contract), Text("N"), None, None)
  }

  function AtLeastFive(suit: string): Option<CondSpec>
  {
    Some(CondSpec(Text("suit_length"), Text(suit), Text(">="), Num(5)))
  }

  /** "Spades >= 5: 2S, else hearts >= 5: 2H, else 1N", all declared by North. */
  function NestedSpec(): StrategySpec
  {
    StrategySpec(Some(Text("Nested")), Some(
      NodeSpec(Text("branch"), AtLeastFive("S"), Null, Null,
        Some(ContractSpec("2S")),
        Some(NodeSpec(Text("branch"), AtLeastFive("H"), Null, Null,
          Some(ContractSpec("2H")),
          Some(ContractSpec("1N")))))))
  }

  /** The three North hands AKJ84 53 K52 A83, 53 AKJ84 K52 A83 and 53 42 AKJ84 A83
      reach 2S, 2H and 1N, whatever the other seats hold. */
  lemma NestedStrategyOnSampleHands(east: Hand, south: Hand, west: Hand)
    ensures BuildStrategy(NestedSpec()).Ok?
    ensures EvaluateStrategy(BuildStrategy(NestedSpec()).value,
      Deal(Hand([Ace, King, Jack, Eight, Four], [Five, Three], [King, Five, Two], [Ace, Eight, Three]), east, south, west))
      == Ok(Decision(Text("2S"), Text("N")))
    ensures EvaluateStrategy(BuildStrategy(NestedSpec()).value,
      Deal(Hand([Five, Three], [Ace, King, Jack, Eight, Four], [King, Five, Two], [Ace, Eight, Three]), east, south, west))
      == Ok(Decision(Text("2H"), Text("N")))
    ensures EvaluateStrategy(BuildStrategy(NestedSpec()).value,
      Deal(Hand([Five, Three], [Four, Two], [Ace, King, Jack, Eight, Four], [Ace, Eight, Three]), east, south, west))
      == Ok(Decision(Text("1N"), Text("N")))
  {
    var root := BuildStrategy(NestedSpec()).value.root;
    var inner := Build(NodeSpec(Text("branch"), AtLeastFive("H"), Null, Null,
      Some(ContractSpec("2H")), Some(ContractSpec("1N"))));
    assert root == Branch(AtLeastFive("S"), Some(Leaf(Text("2S"), Text("N"))), Some(inner));
    assert inner == Branch(AtLeastFive("H"), Some(Leaf(Text("2H"), Text("N"))), Some(Leaf(Text("1N"), Text("N"))));
    var hearts := Deal(Hand([Five, Three], [Ace, King, Jack, Eight, Four], [King, Five, Two], [Ace, Eight, Three]), east, south, west);
    assert CheckCondition(hearts, AtLeastFive("S")) == Ok(false);
    assert CheckCondition(hearts, AtLeastFive("H")) == Ok(true);
    assert Evaluate(root, hearts) == Evaluate(inner, hearts);
    var balanced := Deal(Hand([Five, Three], [Four, Two], [Ace, King, Jack, Eight, Four], [Ace, Eight, Three]), east, south, west);
    assert CheckCondition(balanced, AtLeastFive("S")) == Ok(false);
    assert CheckCondition(balanced, AtLeastFive("H")) == Ok(false);
    assert Evaluate(root, balanced) == Evaluate(inner, balanced);
  }
}
