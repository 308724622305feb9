/** DREAM: the outcome tree, the Pareto frontier and the ranking. */
module Dream {
  import opened Text
  import opened Money
  import opened Order

  datatype Outcome = Outcome(id: string, parentId: Option<string>, depth: int, scenario: string, probability: real,
                             utility: real, risk: real, reward: real, feasibility: real)

  /** The children of a node, first child first: each with its own children, then its next sibling. */
  datatype Branches = NoBranches | Branch(outcome: Outcome, children: Branches, next: Branches)

  /** What a persona is asked: which one it is, for which parent, at which level and branch. */
  datatype Prompt = Prompt(cursor: nat, parentId: string, level: int, branch: nat)

  /** What it answers: its id and text, its score, and the two numbers derived from its id. */
  datatype Dreamt = Dreamt(id: string, scenario: string, score: real, feasibility: real, jitter: real)

  type Persona = Prompt -> Dreamt

  /** The probability every sibling is given; there are no siblings unless the breadth is positive. */
  function Share(breadth: int): real { if breadth > 0 then Round4(1.0 / breadth as real) else 0.0 }

  function Utility(reward: real, feasibility: real): real { Round4(reward * feasibility) }

  function RiskOf(reward: real, feasibility: real, jitter: real): real {
    Round4(Clamp01(1.0 - (0.5 * reward + 0.5 * feasibility) + jitter * 0.2))
  }

  function Imagine(persona: Persona, breadth: int, parent: Outcome, branch: nat, cursor: nat): Outcome {
    var level := parent.depth + 1;
    var d := persona(Prompt(cursor, parent.id, level, branch));
    var reward := Clamp01(d.score);
    var feasibility := Clamp01(d.feasibility);
    Outcome(d.id, Some(parent.id), level, d.scenario, Share(breadth), Utility(reward, feasibility),
            RiskOf(reward, feasibility, d.jitter), Round4(reward), Round4(feasibility))
  }

  /** How an outcome is dreamt from its parent, its branch number and the number of personas used before it. */
  type Dreamer = (Outcome, nat, nat) -> Outcome

  function Dreaming(persona: Persona, breadth: int): Dreamer {
    (parent: Outcome, i: nat, cursor: nat) => Imagine(persona, breadth, parent, i, cursor)
  }

  function OutcomeCount(b: Branches): nat {
    match b
    case NoBranches => 0
    case Branch(_, children, next) => 1 + OutcomeCount(children) + OutcomeCount(next)
  }

  /** The branches of `parent` from the `i`-th on, when `cursor` personas have been used so far. */
  function Grow(dream: Dreamer, breadth: int, parent: Outcome, remaining: int, i: nat, cursor: nat): Branches
    decreases remaining, breadth - i
  {
    if remaining <= 0 || i >= breadth then NoBranches
    else
      var o := dream(parent, i, cursor);
      var children := Grow(dream, breadth, o, remaining - 1, 0, cursor + 1);
      Branch(o, children, Grow(dream, breadth, parent, remaining, i + 1, cursor + 1 + OutcomeCount(children)))
  }

  /** Each outcome before those below it, in order: how the flat list is filled. */
  function Flattened(b: Branches): (os: seq<Outcome>)
    ensures |os| == OutcomeCount(b)
  {
    match b
    case NoBranches => []
    case Branch(o, children, next) => [o] + Flattened(children) + Flattened(next)
  }

  function Joined(a: Branches, b: Branches): Branches {
    match a
    case NoBranches => b
    case Branch(o, children, next) => Branch(o, children, Joined(next, b))
  }

  lemma {:induction false} JoinedAssociates(a: Branches, o: Outcome, below: Branches, rest: Branches)
    ensures Joined(Joined(a, Branch(o, below, NoBranches)), rest) == Joined(a, Branch(o, below, rest))
  {
    if a.Branch? {
      JoinedAssociates(a.next, o, below, rest);
    }
  }

  lemma {:induction false} JoinedNothing(a: Branches)
    ensures Joined(a, NoBranches) == a
  {
    if a.Branch? {
      JoinedNothing(a.next);
    }
  }

  lemma {:induction false} JoinedOrder(a: Branches, b: Branches)
    ensures Flattened(Joined(a, b)) == Flattened(a) + Flattened(b)
    ensures OutcomeCount(Joined(a, b)) == OutcomeCount(a) + OutcomeCount(b)
  {
    if a.Branch? {
      JoinedOrder(a.next, b);
      Reassociate([a.outcome] + Flattened(a.children), Flattened(a.next), Flattened(b));
    }
  }

  /** The branches there will be: those grown so far, and those still to grow. */
  function Whole(dream: Dreamer, breadth: int, parent: Outcome, remaining: int, grown: Branches, i: nat, cursor: nat)
    : Branches
  {
    Joined(grown, Grow(dream, breadth, parent, remaining, i, cursor))
  }

  /** One more branch joins those grown so far; the whole is what it was. */
  lemma {:induction false} GrowStep(dream: Dreamer, breadth: int, parent: Outcome, remaining: int, grown: Branches,
                                    i: nat, cursor: nat, o: Outcome, below: Branches)
    requires remaining > 0 && i < breadth && o == dream(parent, i, cursor)
    requires below == Grow(dream, breadth, o, remaining - 1, 0, cursor + 1)
    ensures Whole(dream, breadth, parent, remaining, Joined(grown, Branch(o, below, NoBranches)), i + 1,
                  cursor + 1 + OutcomeCount(below))
         == Whole(dream, breadth, parent, remaining, grown, i, cursor)
  {
    JoinedAssociates(grown, o, below,
                     Grow(dream, breadth, parent, remaining, i + 1, cursor + 1 + OutcomeCount(below)));
  }

  /** What the flat list and the two counters hold once `children` were grown, and what they held before. */
  datatype Listing = Listing(sink: seq<Outcome>, nodes: nat, personas: nat)

  ghost predicate ListedSince(children: Branches, before: Listing, after: Listing) {
    && after.sink == before.sink + Flattened(children)
    && after.nodes == before.nodes + OutcomeCount(children)
    && after.personas == before.personas + OutcomeCount(children)
  }

  lemma {:induction false} ListBranch(o: Outcome, below: Branches, before: Listing, asked: Listing, after: Listing)
    requires asked == Listing(before.sink + [o], before.nodes + 1, before.personas + 1)
    requires ListedSince(below, asked, after)
    ensures ListedSince(Branch(o, below, NoBranches), before, after)
  {
    assert Flattened(Branch(o, below, NoBranches)) == [o] + Flattened(below) + Flattened(NoBranches);
    Reassociate(before.sink, [o], Flattened(below));
  }

  /** One more branch, its outcome first and then what lies below it, is the next part of the list. */
  lemma {:induction false} ListStep(grown: Branches, o: Outcome, below: Branches, before: Listing, now: Listing,
                                    after: Listing)
    requires ListedSince(grown, before, now) && ListedSince(Branch(o, below, NoBranches), now, after)
    ensures ListedSince(Joined(grown, Branch(o, below, NoBranches)), before, after)
  {
    JoinedOrder(grown, Branch(o, below, NoBranches));
    Reassociate(before.sink, Flattened(grown), Flattened(Branch(o, below, NoBranches)));
  }

  class SimulationEngine {
    const persona: Persona
    var nodeCursor: nat
    var personaCount: nat
    var sink: seq<Outcome>

    constructor (persona: Persona)
      ensures this.persona == persona && nodeCursor == personaCount == 0 && sink == []
    {
      this.persona := persona;
      nodeCursor, personaCount, sink := 0, 0, [];
    }

    function Now(): Listing
      reads this
    {
      Listing(sink, nodeCursor, personaCount)
    }

    /** Grow the subtree below `parent`, filling the flat list as it goes; returns the children. */
    method Expand(parent: Outcome, remaining: int, breadth: int) returns (children: Branches)
      modifies this
      ensures children == Grow(Dreaming(persona, breadth), breadth, parent, remaining, 0, old(nodeCursor))
      ensures ListedSince(children, old(Now()), Now())
      decreases remaining, 2
    {
      children := NoBranches;
      if remaining <= 0 {
        return;
      }
      var i := 0;
      ghost var whole := Whole(Dreaming(persona, breadth), breadth, parent, remaining, children, i, nodeCursor);
      while i < breadth
        invariant 0 <= i && (breadth >= 0 ==> i <= breadth)
        invariant Whole(Dreaming(persona, breadth), breadth, parent, remaining, children, i, nodeCursor) == whole
        invariant ListedSince(children, old(Now()), Now())
      {
        children := AddBranch(parent, remaining, breadth, i, children, old(Now()));
        i := i + 1;
      }
      JoinedNothing(children);
    }

    /** The next persona's outcome, counted and listed. */
    method Ask(parent: Outcome, breadth: int, i: nat) returns (outcome: Outcome)
      modifies this
      ensures outcome == Dreaming(persona, breadth)(parent, i, old(nodeCursor))
      ensures Now() == Listing(old(sink) + [outcome], old(nodeCursor) + 1, old(personaCount) + 1)
    {
      outcome := Imagine(persona, breadth, parent, i, nodeCursor);
      nodeCursor, personaCount := nodeCursor + 1, personaCount + 1;
      sink := sink + [outcome];
    }

    /** Ask the next persona, record its outcome, and expand below it. */
    method Visit(parent: Outcome, remaining: int, breadth: int, i: nat) returns (outcome: Outcome, below: Branches)
      requires remaining > 0 && i < breadth
      modifies this
      ensures outcome == Dreaming(persona, breadth)(parent, i, old(nodeCursor))
      ensures below == Grow(Dreaming(persona, breadth), breadth, outcome, remaining - 1, 0, old(nodeCursor) + 1)
      ensures ListedSince(Branch(outcome, below, NoBranches), old(Now()), Now())
      decreases remaining, 0
    {
      outcome := Ask(parent, breadth, i);
      ghost var asked := Now();
      below := Expand(outcome, remaining - 1, breadth);
      ListBranch(outcome, below, old(Now()), asked, Now());
    }

    /** One round of the loop: one more branch, with what lies below it. */
    method AddBranch(parent: Outcome, remaining: int, breadth: int, i: nat, children: Branches, ghost before: Listing)
      returns (more: Branches)
      requires remaining > 0 && i < breadth && ListedSince(children, before, Now())
      modifies this
      ensures Whole(Dreaming(persona, breadth), breadth, parent, remaining, more, i + 1, nodeCursor)
           == Whole(Dreaming(persona, breadth), breadth, parent, remaining, children, i, old(nodeCursor))
      ensures ListedSince(more, before, Now())
      decreases remaining, 1
    {
      var outcome, below := Visit(parent, remaining, breadth, i);
      more := Joined(children, Branch(outcome, below, NoBranches));
      GrowStep(Dreaming(persona, breadth), breadth, parent, remaining, children, i, old(nodeCursor), outcome, below);
      ListStep(children, outcome, below, before, old(Now()), Now());
    }

    /** A whole simulation: the tree under the root, the flat list, the ranking and the frontier. */
    method Simulate(intent: string, breadth: int, depth: int, topK: int)
      returns (tree: Branches, outcomes: seq<Outcome>, ranked: seq<Outcome>, pareto: seq<Outcome>)
      modifies this
      ensures tree == Grow(Dreaming(persona, breadth), breadth, Root(intent), depth, 0, 0)
      ensures outcomes == Flattened(tree) && ranked == Ranked(outcomes, topK) && pareto == Frontier(outcomes)
      ensures personaCount == OutcomeCount(tree)
    {
      nodeCursor, personaCount, sink := 0, 0, [];
      tree := Expand(Root(intent), depth, breadth);
      outcomes := sink;
      ranked := Ranked(outcomes, topK);
      pareto := Frontier(outcomes);
    }
  }

  function Root(intent: string): Outcome {
    Outcome("root", None, 0, "Base scenario for \"" + intent + "\"", 1.0, 0.5, 0.5, 0.5, 0.5)
  }

  // ---------- the tree is full ----------

  /** `n` times `x`, added up. */
  function Times(n: nat, x: nat): nat { if n == 0 then 0 else x + Times(n - 1, x) }

  lemma {:induction false} TimesIsProduct(n: nat, x: nat)
    ensures Times(n, x) == n * x
  {
    if n > 0 {
      TimesIsProduct(n - 1, x);
    }
  }

  lemma {:induction false} TimesAdds(n: nat, x: nat, y: nat)
    ensures Times(n, x) + Times(n, y) == Times(n, x + y)
  {
    if n > 0 {
      TimesAdds(n - 1, x, y);
    }
  }

  function Pow(b: nat, l: nat): nat { if l == 0 then 1 else Times(b, Pow(b, l - 1)) }

  /** breadth + breadth² + ... + breadth^depth. */
  function PowerSum(b: nat, depth: nat): nat { if depth == 0 then 0 else PowerSum(b, depth - 1) + Pow(b, depth) }

  lemma {:induction false} PowerSumUnfold(b: nat, depth: nat)
    ensures PowerSum(b, depth + 1) == Times(b, 1 + PowerSum(b, depth))
  {
    if depth > 0 {
      PowerSumUnfold(b, depth - 1);
      TimesAdds(b, 1 + PowerSum(b, depth - 1), Pow(b, depth));
    } else {
      assert PowerSum(b, 1) == PowerSum(b, 0) + Pow(b, 1);
    }
  }

  function Positive(n: int): nat { if n < 0 then 0 else n }

  /** How many outcomes a tree has `level` levels below its root. */
  function AtLevel(b: Branches, level: nat): nat {
    match b
    case NoBranches => 0
    case Branch(_, children, next) =>
      (if level == 1 then 1 else if level == 0 then 0 else AtLevel(children, level - 1)) + AtLevel(next, level)
  }

  /** The branches from the `i`-th on of a node with `remaining` levels below it, all of them there. */
  predicate Full(b: Branches, breadth: int, remaining: int, i: nat) {
    match b
    case NoBranches => remaining <= 0 || i >= breadth
    case Branch(_, children, next) =>
      remaining > 0 && i < breadth && Full(children, breadth, remaining - 1, 0) && Full(next, breadth, remaining, i + 1)
  }

  lemma {:induction false} GrowIsFull(dream: Dreamer, breadth: int, parent: Outcome, remaining: int, i: nat,
                                      cursor: nat)
    ensures Full(Grow(dream, breadth, parent, remaining, i, cursor), breadth, remaining, i)
    decreases remaining, breadth - i
  {
    if remaining > 0 && i < breadth {
      var o := dream(parent, i, cursor);
      GrowIsFull(dream, breadth, o, remaining - 1, 0, cursor + 1);
      GrowIsFull(dream, breadth, parent, remaining, i + 1,
                 cursor + 1 + OutcomeCount(Grow(dream, breadth, o, remaining - 1, 0, cursor + 1)));
    }
  }

  /** A full tree has breadth^l outcomes at each level l from 1 to its depth, and none beyond (take `i` as 0). */
  lemma {:induction false} LevelIsFull(b: Branches, breadth: int, remaining: int, i: nat, level: nat)
    requires Full(b, breadth, remaining, i) && i <= Positive(breadth)
    ensures AtLevel(b, level)
         == if 1 <= level <= remaining then Times(Positive(breadth) - i, Pow(Positive(breadth), level - 1)) else 0
  {
    if b.Branch? {
      if level > 1 {
        LevelIsFull(b.children, breadth, remaining - 1, 0, level - 1);
      }
      LevelIsFull(b.next, breadth, remaining, i + 1, level);
    }
  }

  /** A full tree holds breadth + breadth² + ... + breadth^depth outcomes. */
  lemma {:induction false} TreeIsFull(b: Branches, breadth: int, remaining: int, i: nat)
    requires Full(b, breadth, remaining, i) && i <= Positive(breadth)
    ensures OutcomeCount(b) == if remaining <= 0 then 0
        else Times(Positive(breadth) - i, 1 + PowerSum(Positive(breadth), remaining - 1))
  {
    if b.Branch? {
      TreeIsFull(b.children, breadth, remaining - 1, 0);
      TreeIsFull(b.next, breadth, remaining, i + 1);
      if remaining > 1 {
        PowerSumUnfold(breadth, remaining - 2);
      }
    }
  }

  /**
   The size of a simulation: breadth^l outcomes at each level l from 1 to the depth, no other, and in all as many as the
   flat list and the persona count say.
   */
  lemma {:induction false} SimulationSize(dream: Dreamer, breadth: int, root: Outcome, depth: int, level: nat)
    ensures var tree := Grow(dream, breadth, root, depth, 0, 0);
            && AtLevel(tree, level) == (if 1 <= level <= depth then Pow(Positive(breadth), level) else 0)
            && |Flattened(tree)| == OutcomeCount(tree) == PowerSum(Positive(breadth), Positive(depth))
  {
    var tree := Grow(dream, breadth, root, depth, 0, 0);
    GrowIsFull(dream, breadth, root, depth, 0, 0);
    LevelIsFull(tree, breadth, depth, 0, level);
    TreeIsFull(tree, breadth, depth, 0);
    if depth > 0 {
      PowerSumUnfold(Positive(breadth), depth - 1);
    }
  }

  /** Every outcome names its parent, sits one level below it, and is in range. */
  predicate WellPlaced(b: Branches, parent: Outcome) {
    match b
    case NoBranches => true
    case Branch(o, children, next) =>
      o.parentId == Some(parent.id) && o.depth == parent.depth + 1 && InUnit(o) && WellPlaced(children, o)
          && WellPlaced(next, parent)
  }

  predicate InUnit(o: Outcome) {
    0.0 <= o.reward <= 1.0 && 0.0 <= o.feasibility <= 1.0 && 0.0 <= o.risk <= 1.0
  }

  lemma {:induction false} Round4Unit(x: real)
    ensures 0.0 <= Round4(Clamp01(x)) <= 1.0
  {
    ClampMonotone(x, x);
    RoundWhole(0);
    RoundWhole(10000);
    RoundMonotone(0.0, Clamp01(x) * 10000.0);
    RoundMonotone(Clamp01(x) * 10000.0, 10000.0);
  }

  /** What a persona's answer always makes of its prompt. */
  predicate FitsParent(o: Outcome, parent: Outcome, breadth: int) {
    o.parentId == Some(parent.id) && o.depth == parent.depth + 1 && InUnit(o) && o.probability == Share(breadth)
  }

  ghost predicate Sensible(dream: Dreamer, breadth: int) {
    forall parent, i, cursor :: FitsParent(dream(parent, i, cursor), parent, breadth)
  }

  lemma {:induction false} DreamingIsSensible(persona: Persona, breadth: int)
    ensures Sensible(Dreaming(persona, breadth), breadth)
  {
    forall parent: Outcome, i: nat, cursor: nat
      ensures FitsParent(Imagine(persona, breadth, parent, i, cursor), parent, breadth)
    {
      var d := persona(Prompt(cursor, parent.id, parent.depth + 1, i));
      Round4Unit(d.score);
      Round4Unit(d.feasibility);
      Round4Unit(1.0 - (0.5 * Clamp01(d.score) + 0.5 * Clamp01(d.feasibility)) + d.jitter * 0.2);
    }
  }

  /** Parent links and depths are those of the tree, and every score is in range. */
  lemma {:induction false} TreeIsWellPlaced(dream: Dreamer, breadth: int, parent: Outcome, remaining: int, i: nat,
                                            cursor: nat)
    requires Sensible(dream, breadth)
    ensures WellPlaced(Grow(dream, breadth, parent, remaining, i, cursor), parent)
    decreases remaining, breadth - i
  {
    if remaining > 0 && i < breadth {
      var o := dream(parent, i, cursor);
      TreeIsWellPlaced(dream, breadth, o, remaining - 1, 0, cursor + 1);
      TreeIsWellPlaced(dream, breadth, parent, remaining, i + 1,
                       cursor + 1 + OutcomeCount(Grow(dream, breadth, o, remaining - 1, 0, cursor + 1)));
    }
  }

  lemma {:induction false} PlacedInUnit(b: Branches, parent: Outcome, o: Outcome)
    requires WellPlaced(b, parent) && o in Flattened(b)
    ensures InUnit(o) && o.depth > parent.depth
  {
    if o != b.outcome {
      if o in Flattened(b.children) {
        PlacedInUnit(b.children, b.outcome, o);
      } else {
        PlacedInUnit(b.next, parent, o);
      }
    }
  }

  /** The probabilities of a group of siblings, added up. */
  function SiblingSum(b: Branches): real {
    match b
    case NoBranches => 0.0
    case Branch(o, _, next) => o.probability + SiblingSum(next)
  }

  /** Every group of siblings, at every level, sums to 1 within what rounding to four places can cost. */
  predicate GroupsSumToOne(b: Branches, breadth: int) {
    b.Branch? ==> CloseToOne(SiblingSum(b), breadth) && ChildGroupsSumToOne(b, breadth)
  }

  predicate ChildGroupsSumToOne(b: Branches, breadth: int) {
    match b
    case NoBranches => true
    case Branch(_, children, next) =>
      (children.Branch? ==> CloseToOne(SiblingSum(children), breadth)) && ChildGroupsSumToOne(children, breadth)
      && ChildGroupsSumToOne(next, breadth)
  }

  predicate CloseToOne(sum: real, breadth: int) {
    1.0 - breadth as real / 20000.0 <= sum <= 1.0 + breadth as real / 20000.0
  }

  lemma {:induction false} SiblingsShare(dream: Dreamer, breadth: int, parent: Outcome, remaining: int, i: nat,
                                         cursor: nat)
    requires remaining > 0 && i <= breadth && breadth > 0 && Sensible(dream, breadth)
    ensures SiblingSum(Grow(dream, breadth, parent, remaining, i, cursor)) == Copies(breadth - i, Share(breadth))
    decreases breadth - i
  {
    if i < breadth {
      var o := dream(parent, i, cursor);
      assert FitsParent(o, parent, breadth);
      SiblingsShare(dream, breadth, parent, remaining, i + 1,
                    cursor + 1 + OutcomeCount(Grow(dream, breadth, o, remaining - 1, 0, cursor + 1)));
    }
  }

  lemma {:induction false} SharesCloseToOne(breadth: int)
    requires breadth > 0
    ensures CloseToOne(Copies(breadth, Share(breadth)), breadth)
  {
    var b, x := breadth as real, 1.0 / breadth as real;
    var p := Round4(x);
    RoundBounds(x * 10000.0);
    assert b * x == 1.0;
    ScaleError(b, x, p);
    CopiesIsProduct(breadth, Share(breadth));
  }

  lemma {:induction false} ProductAtMost(b: real, e: real, f: real)
    requires b > 0.0 && e <= f
    ensures b * e <= b * f
  {
    assert b * (f - e) == b * f - b * e;
    assert b * (f - e) >= 0.0;
  }

  lemma {:induction false} ScaleError(b: real, x: real, p: real)
    requires b > 0.0 && b * x == 1.0 && x - 0.00005 <= p <= x + 0.00005
    ensures 1.0 - b / 20000.0 <= b * p <= 1.0 + b / 20000.0
  {
    var e := p - x;
    assert p == x + e;
    assert b * p == b * x + b * e;
    ProductAtMost(b, e, 0.00005);
    ProductAtMost(b, -e, 0.00005);
    var t := b * e;
    assert b * p == 1.0 + t && b * -e == -t && b * 0.00005 == b / 20000.0;
    assert -(b / 20000.0) <= t <= b / 20000.0;
  }

  lemma {:induction false} GroupIsBalanced(dream: Dreamer, breadth: int, parent: Outcome, remaining: int, cursor: nat)
    requires breadth > 0 && Sensible(dream, breadth)
    ensures var group := Grow(dream, breadth, parent, remaining, 0, cursor);
            group.Branch? ==> CloseToOne(SiblingSum(group), breadth)
  {
    if remaining > 0 {
      SharesCloseToOne(breadth);
      SiblingsShare(dream, breadth, parent, remaining, 0, cursor);
    }
  }

  lemma {:induction false} ProbabilitiesBalance(dream: Dreamer, breadth: int, parent: Outcome, remaining: int, i: nat,
                                                cursor: nat)
    requires Sensible(dream, breadth)
    ensures ChildGroupsSumToOne(Grow(dream, breadth, parent, remaining, i, cursor), breadth)
    ensures i == 0 ==> GroupsSumToOne(Grow(dream, breadth, parent, remaining, i, cursor), breadth)
    decreases remaining, breadth - i
  {
    if remaining > 0 && i < breadth {
      var o := dream(parent, i, cursor);
      ProbabilitiesBalance(dream, breadth, o, remaining - 1, 0, cursor + 1);
      ProbabilitiesBalance(dream, breadth, parent, remaining, i + 1,
                           cursor + 1 + OutcomeCount(Grow(dream, breadth, o, remaining - 1, 0, cursor + 1)));
      GroupIsBalanced(dream, breadth, o, remaining - 1, cursor + 1);
      GroupIsBalanced(dream, breadth, parent, remaining, cursor);
    }
  }

  // ---------- the Pareto frontier ----------

  /** At least as good on reward, feasibility and risk, and better on one of them. */
  predicate Dominates(b: Outcome, a: Outcome) {
    && b.reward >= a.reward && b.feasibility >= a.feasibility && b.risk <= a.risk
    && (b.reward > a.reward || b.feasibility > a.feasibility || b.risk < a.risk)
  }

  predicate Undominated(a: Outcome, os: seq<Outcome>) {
    forall b | b in os :: !Dominates(b, a)
  }

  function Keep(candidates: seq<Outcome>, os: seq<Outcome>): seq<Outcome> {
    if candidates == [] then []
    else (if Undominated(candidates[0], os) then [candidates[0]] else []) + Keep(candidates[1..], os)
  }

  /** `paretoFrontier`: the outcomes nothing dominates, in their original order. */
  function Frontier(os: seq<Outcome>): seq<Outcome> { Keep(os, os) }

  lemma {:induction false} KeepMembers(candidates: seq<Outcome>, os: seq<Outcome>, a: Outcome)
    ensures a in Keep(candidates, os) <==> a in candidates && Undominated(a, os)
  {
    if candidates != [] {
      KeepMembers(candidates[1..], os, a);
      assert a in candidates <==> a == candidates[0] || a in candidates[1..];
    }
  }

  /** A number that dominance strictly raises. */
  function Merit(o: Outcome): real { o.reward + o.feasibility - o.risk }

  ghost function Better(os: seq<Outcome>, a: Outcome): set<Outcome> { set b | b in os && Merit(b) > Merit(a) }

  /** Whatever is left off the frontier is dominated by something on it. */
  lemma {:induction false} FrontierDominates(os: seq<Outcome>, a: Outcome) returns (best: Outcome)
    requires a in os && a !in Frontier(os)
    ensures best in Frontier(os) && Dominates(best, a)
    decreases Better(os, a)
  {
    KeepMembers(os, os, a);
    var b :| b in os && Dominates(b, a);
    KeepMembers(os, os, b);
    if b in Frontier(os) {
      best := b;
    } else {
      assert b in Better(os, a) && b !in Better(os, b) && Better(os, b) <= Better(os, a);
      best := FrontierDominates(os, b);
    }
  }

  /** No member of the frontier dominates another. */
  lemma {:induction false} FrontierIsAntichain(os: seq<Outcome>, a: Outcome, b: Outcome)
    requires a in Frontier(os) && b in Frontier(os)
    ensures !Dominates(a, b)
  {
    KeepMembers(os, os, a);
    KeepMembers(os, os, b);
  }

  lemma {:induction false} KeepAll(candidates: seq<Outcome>, os: seq<Outcome>)
    requires forall a | a in candidates :: Undominated(a, os)
    ensures Keep(candidates, os) == candidates
  {
    if candidates != [] {
      assert candidates[0] in candidates;
      KeepAll(candidates[1..], os);
    }
  }

  /** Filtering the frontier again changes nothing. */
  lemma {:induction false} FrontierIdempotent(os: seq<Outcome>)
    ensures Frontier(Frontier(os)) == Frontier(os)
  {
    forall a | a in Frontier(os) ensures Undominated(a, Frontier(os)) {
      forall b | b in Frontier(os) ensures !Dominates(b, a) {
        FrontierIsAntichain(os, b, a);
      }
    }
    KeepAll(Frontier(os), Frontier(os));
  }

  // ---------- the ranking ----------

  function CombinedScore(o: Outcome): real { o.reward * o.feasibility * (1.0 - o.risk) }

  lemma {:induction false} DominanceRaisesScore(b: Outcome, a: Outcome)
    requires Dominates(b, a) && InUnit(a) && InUnit(b)
    ensures CombinedScore(b) >= CombinedScore(a)
  {
    ProductMonotone(a.reward, b.reward, a.feasibility, b.feasibility);
    ProductMonotone(a.reward * a.feasibility, b.reward * b.feasibility, 1.0 - a.risk, 1.0 - b.risk);
  }

  function ScoreAt(os: seq<Outcome>, i: int): real { if 0 <= i < |os| then CombinedScore(os[i]) else 0.0 }

  /** Higher score first, ties in the order the outcomes were dreamt: a stable descending sort. */
  function Ahead(os: seq<Outcome>): (int, int) -> bool {
    (i: int, j: int) => ScoreAt(os, i) > ScoreAt(os, j) || (ScoreAt(os, i) == ScoreAt(os, j) && i < j)
  }

  function Positions(n: nat): (s: seq<int>)
    ensures |s| == n && forall i | 0 <= i < n :: s[i] == i
  {
    if n == 0 then [] else Positions(n - 1) + [n - 1]
  }

  /** The positions of the `k` best outcomes, best first. */
  function RankedPositions(os: seq<Outcome>, k: int): seq<int> {
    Slice(Sort(Ahead(os), Positions(|os|)), k)
  }

  function TakenAt(os: seq<Outcome>, positions: seq<int>): seq<Outcome> {
    if positions == [] then []
    else (if 0 <= positions[0] < |os| then [os[positions[0]]] else []) + TakenAt(os, positions[1..])
  }

  /** `[...outcomes].sort(...).slice(0, topK)`. */
  function Ranked(os: seq<Outcome>, k: int): seq<Outcome> { TakenAt(os, RankedPositions(os, k)) }

  lemma {:induction false} AheadIsTotal(os: seq<Outcome>, all: set<int>)
    ensures StrictTotal(Ahead(os), all)
  {
  }

  lemma {:induction false} AtIndex(os: seq<Outcome>, positions: seq<int>)
    requires forall p | p in positions :: 0 <= p < |os|
    ensures |TakenAt(os, positions)| == |positions|
    ensures forall i | 0 <= i < |positions| :: 0 <= positions[i] < |os| && TakenAt(os, positions)[i] == os[positions[i]]
  {
    if positions != [] {
      assert positions[0] in positions && forall p | p in positions[1..] :: p in positions;
      AtIndex(os, positions[1..]);
    }
  }

  lemma {:induction false} RankedInRange(os: seq<Outcome>, k: int)
    ensures forall p | p in RankedPositions(os, k) :: 0 <= p < |os|
  {
    var ps := Positions(|os|);
    var all := set p | p in ps;
    AheadIsTotal(os, all);
    forall p | p in RankedPositions(os, k) ensures 0 <= p < |os| {
      BestAreTaken(Ahead(os), all, ps, k, p);
    }
  }

  /**
   The ranking is a true stable top-K: scores never rise along it, equal scores keep their original order, and
   an outcome that is left out scores no higher than any that is in, nor the same from an earlier position.
   */
  lemma {:induction false} RankedIsStableTopK(os: seq<Outcome>, k: int, m: int)
    requires 0 <= m < |os|
    ensures var top := RankedPositions(os, k); var ranked := Ranked(os, k);
            && |ranked| == |top| == |Slice(os, k)| && Sorted(Ahead(os), top)
            && (forall i | 0 <= i < |top| :: 0 <= top[i] < |os| && ranked[i] == os[top[i]])
            && (m !in top ==> forall t | t in top :: Ahead(os)(t, m))
  {
    var ps := Positions(|os|);
    var all := set p | p in ps;
    AheadIsTotal(os, all);
    BestAreTaken(Ahead(os), all, ps, k, m);
    assert ps[m] == m;
    RankedInRange(os, k);
    AtIndex(os, RankedPositions(os, k));
  }

  /** The head of the ranking has the highest score of all, and that score is attained on the frontier. */
  lemma {:induction false} BestIsOnFrontier(os: seq<Outcome>, k: int) returns (f: Outcome)
    requires os != [] && k > 0 && forall o | o in os :: InUnit(o)
    ensures |Ranked(os, k)| > 0 && Ranked(os, k)[0] in os
    ensures forall o | o in os :: CombinedScore(o) <= CombinedScore(Ranked(os, k)[0])
    ensures f in Frontier(os) && CombinedScore(f) == CombinedScore(Ranked(os, k)[0])
  {
    RankedIsStableTopK(os, k, 0);
    var top := RankedPositions(os, k);
    var first := Ranked(os, k)[0];
    forall o | o in os ensures CombinedScore(o) <= CombinedScore(first) {
      var m :| 0 <= m < |os| && os[m] == o;
      RankedIsStableTopK(os, k, m);
      if m in top {
        var i :| 0 <= i < |top| && top[i] == m;
        assert i > 0 ==> !Ahead(os)(top[i], top[0]);
      } else {
        assert Ahead(os)(top[0], m);
      }
    }
    KeepMembers(os, os, first);
    if first in Frontier(os) {
      f := first;
    } else {
      f := FrontierDominates(os, first);
      KeepMembers(os, os, f);
      DominanceRaisesScore(f, first);
    }
  }

  /** In every simulation the best-ranked outcome scores highest of all, and the frontier attains that score. */
  lemma {:induction false} SimulationBestIsPareto(persona: Persona, breadth: int, root: Outcome, depth: int, k: int)
    returns (f: Outcome)
    requires breadth > 0 && depth > 0 && k > 0
    ensures var outcomes := Flattened(Grow(Dreaming(persona, breadth), breadth, root, depth, 0, 0));
            && Ranked(outcomes, k) != []
            && (forall o | o in outcomes :: CombinedScore(o) <= CombinedScore(Ranked(outcomes, k)[0]))
            && f in Frontier(outcomes) && CombinedScore(f) == CombinedScore(Ranked(outcomes, k)[0])
  {
    var dream := Dreaming(persona, breadth);
    var tree := Grow(dream, breadth, root, depth, 0, 0);
    DreamingIsSensible(persona, breadth);
    TreeIsWellPlaced(dream, breadth, root, depth, 0, 0);
    forall o | o in Flattened(tree) ensures InUnit(o) {
      PlacedInUnit(tree, root, o);
    }
    f := BestIsOnFrontier(Flattened(tree), k);
  }
}
