/** What DREAM's outcomes, its frontier and its ranking say in numbers. */
module DreamScores {
  import opened Text
  import opened Money
  import opened Order
  import opened Dream

  function UnitOf(x: real): real { if x < 0.0 then 0.0 else if x > 1.0 then 1.0 else x }

  /** Four numbers made of three: each to four places. */
  predicate ScoredAs(o: Outcome, score: real, feasibility: real, jitter: real) {
    var r, f := UnitOf(score), UnitOf(feasibility);
    && Kept(o.reward, r, 0.0001) && Kept(o.feasibility, f, 0.0001) && Kept(o.utility, Product(r, f), 0.0001)
    && Kept(o.risk, UnitOf(1.0 - (r + f) / 2.0 + jitter / 5.0), 0.0001)
  }

  lemma {:induction false} ScoresTell(o: Outcome, score: real, feasibility: real, jitter: real)
    requires o.reward == Round4(Clamp01(score)) && o.feasibility == Round4(Clamp01(feasibility))
    requires o.utility == Utility(Clamp01(score), Clamp01(feasibility))
    requires o.risk == RiskOf(Clamp01(score), Clamp01(feasibility), jitter)
    ensures ScoredAs(o, score, feasibility, jitter)
  {
    var r, f := UnitOf(score), UnitOf(feasibility);
    UnitIsClamped(score);
    UnitIsClamped(feasibility);
    Round4Keeps(r);
    Round4Keeps(f);
    UtilityTells(r, f);
    RiskTells(r, f, jitter);
  }

  lemma UnitIsClamped(x: real)
    ensures UnitOf(x) == Clamp01(x)
  {
  }

  lemma UtilityTells(r: real, f: real)
    ensures Kept(Utility(r, f), Product(r, f), 0.0001)
  {
    Round4Keeps(r * f);
  }

  lemma RiskTells(r: real, f: real, jitter: real)
    ensures Kept(RiskOf(r, f, jitter), UnitOf(1.0 - (r + f) / 2.0 + jitter / 5.0), 0.0001)
  {
    var left := 1.0 - (0.5 * r + 0.5 * f) + jitter * 0.2;
    assert left == 1.0 - (r + f) / 2.0 + jitter / 5.0;
    UnitIsClamped(left);
    Round4Keeps(Clamp01(left));
  }

  /**
   An outcome is what its persona answered, asked by its number, parent, level and branch: reward and feasibility are
   the two scores held to 0..1, risk is what they leave of 1 on average, shifted by a fifth of the jitter, utility is
   their product, and the probability is an equal share; all to four places.
   */
  lemma {:induction false} OutcomeTells(persona: Persona, breadth: int, parent: Outcome, branch: nat, cursor: nat)
    requires breadth > 0
    ensures var d := persona(Prompt(cursor, parent.id, parent.depth + 1, branch));
            var o := Dreaming(persona, breadth)(parent, branch, cursor);
            && o.id == d.id && o.scenario == d.scenario && o.parentId == Some(parent.id) && o.depth == parent.depth + 1
            && ScoredAs(o, d.score, d.feasibility, d.jitter) && Kept(o.probability, 1.0 / breadth as real, 0.0001)
  {
    var d := persona(Prompt(cursor, parent.id, parent.depth + 1, branch));
    ScoresTell(Imagine(persona, breadth, parent, branch, cursor), d.score, d.feasibility, d.jitter);
    ShareTells(breadth);
  }

  lemma {:induction false} ShareTells(breadth: int)
    requires breadth > 0
    ensures Kept(Share(breadth), 1.0 / breadth as real, 0.0001)
  {
    Round4Keeps(1.0 / breadth as real);
  }

  // ---------- the flat list ----------

  /** Where the `k`-th outcome of a list comes from: its parent at `j`, or outside the list, and its branch. */
  ghost predicate ComesFrom(dream: Dreamer, list: seq<Outcome>, cursor: nat, root: Outcome, k: nat, j: int,
                            parent: Outcome, branch: nat)
  {
    && -1 <= j < k < |list| && parent == (if j < 0 then root else list[j])
    && (forall m | j < m < k :: list[m].depth > parent.depth)
    && list[k] == dream(parent, branch, cursor + k)
  }

  /** A list made of a node, what is below it, and what comes after. */
  ghost predicate Made(list: seq<Outcome>, o: Outcome, below: seq<Outcome>, after: seq<Outcome>) {
    && |list| == 1 + |below| + |after| && list[0] == o
    && (forall m | 0 < m <= |below| :: list[m] == below[m - 1])
    && (forall m | |below| < m < |list| :: list[m] == after[m - 1 - |below|])
  }

  lemma {:induction false} FromBelow(dream: Dreamer, list: seq<Outcome>, o: Outcome, below: seq<Outcome>,
                                     after: seq<Outcome>, cursor: nat, root: Outcome, k: nat, j: int, parent: Outcome,
                                     branch: nat)
    requires Made(list, o, below, after) && ComesFrom(dream, below, cursor + 1, o, k, j, parent, branch)
    ensures ComesFrom(dream, list, cursor, root, k + 1, j + 1, parent, branch)
  {
  }

  lemma {:induction false} FromAfter(dream: Dreamer, list: seq<Outcome>, o: Outcome, below: seq<Outcome>,
                                     after: seq<Outcome>, cursor: nat, root: Outcome, k: nat, j: int, parent: Outcome,
                                     branch: nat)
    requires Made(list, o, below, after) && ComesFrom(dream, after, cursor + 1 + |below|, root, k, j, parent, branch)
    requires o.depth > root.depth && forall m | 0 <= m < |below| :: below[m].depth > root.depth
    ensures ComesFrom(dream, list, cursor, root, k + 1 + |below|, if j < 0 then -1 else j + 1 + |below|, parent, branch)
  {
  }

  /** A tree of outcomes dreamt in pre-order, from the `cursor`-th persona on and the `i`-th branch of the root. */
  predicate DreamtBy(dream: Dreamer, breadth: int, root: Outcome, i: nat, cursor: nat, tree: Branches)
    decreases tree
  {
    match tree
    case NoBranches => true
    case Branch(o, children, next) =>
      && i < breadth && o == dream(root, i, cursor) && o.depth > root.depth
      && DreamtBy(dream, breadth, o, 0, cursor + 1, children)
      && DreamtBy(dream, breadth, root, i + 1, cursor + 1 + OutcomeCount(children), next)
  }

  lemma {:induction false} OneDeeper(dream: Dreamer, breadth: int, root: Outcome, i: nat, cursor: nat)
    requires Sensible(dream, breadth)
    ensures dream(root, i, cursor).depth > root.depth
  {
    assert FitsParent(dream(root, i, cursor), root, breadth);
  }

  lemma {:induction false} GrowIsDreamt(dream: Dreamer, breadth: int, root: Outcome, remaining: int, i: nat,
                                        cursor: nat)
    requires Sensible(dream, breadth)
    ensures DreamtBy(dream, breadth, root, i, cursor, Grow(dream, breadth, root, remaining, i, cursor))
    decreases remaining, breadth - i
  {
    if remaining > 0 && i < breadth {
      var o := dream(root, i, cursor);
      var children := Grow(dream, breadth, o, remaining - 1, 0, cursor + 1);
      OneDeeper(dream, breadth, root, i, cursor);
      var after := cursor + 1 + OutcomeCount(children);
      GrowIsDreamt(dream, breadth, o, remaining - 1, 0, cursor + 1);
      GrowIsDreamt(dream, breadth, root, remaining, i + 1, after);
      BranchIsDreamt(dream, breadth, root, i, cursor, o, children, Grow(dream, breadth, root, remaining, i + 1, after),
                     Grow(dream, breadth, root, remaining, i, cursor));
    }
  }

  lemma {:induction false} BranchIsDreamt(dream: Dreamer, breadth: int, root: Outcome, i: nat, cursor: nat, o: Outcome,
                                          children: Branches, next: Branches, tree: Branches)
    requires i < breadth && o == dream(root, i, cursor) && o.depth > root.depth && tree == Branch(o, children, next)
    requires DreamtBy(dream, breadth, o, 0, cursor + 1, children)
    requires DreamtBy(dream, breadth, root, i + 1, cursor + 1 + OutcomeCount(children), next)
    ensures DreamtBy(dream, breadth, root, i, cursor, tree)
  {
  }

  lemma {:induction false} FlattenedIsMade(tree: Branches)
    requires tree.Branch?
    ensures Made(Flattened(tree), tree.outcome, Flattened(tree.children), Flattened(tree.next))
  {
  }

  lemma {:induction false} AllDeeper(dream: Dreamer, breadth: int, root: Outcome, i: nat, cursor: nat, tree: Branches)
    requires DreamtBy(dream, breadth, root, i, cursor, tree)
    ensures forall m | 0 <= m < |Flattened(tree)| :: Flattened(tree)[m].depth > root.depth
    decreases tree
  {
    if tree.Branch? {
      FlattenedIsMade(tree);
      AllDeeper(dream, breadth, tree.outcome, 0, cursor + 1, tree.children);
      AllDeeper(dream, breadth, root, i + 1, cursor + 1 + OutcomeCount(tree.children), tree.next);
    }
  }

  lemma {:induction false} BelowComesFrom(dream: Dreamer, root: Outcome, cursor: nat, tree: Branches, k: nat, j: int,
                                          parent: Outcome, branch: nat)
    requires tree.Branch? && k > 0
    requires ComesFrom(dream, Flattened(tree.children), cursor + 1, tree.outcome, k - 1, j - 1, parent, branch)
    ensures ComesFrom(dream, Flattened(tree), cursor, root, k, j, parent, branch)
  {
    FlattenedIsMade(tree);
    FromBelow(dream, Flattened(tree), tree.outcome, Flattened(tree.children), Flattened(tree.next), cursor, root, k - 1,
              j - 1, parent, branch);
  }

  lemma {:induction false} AfterComesFrom(dream: Dreamer, breadth: int, root: Outcome, cursor: nat, tree: Branches,
                                          n: nat, k: nat, j: int, from: int, parent: Outcome, branch: nat)
    requires tree.Branch? && tree.outcome.depth > root.depth && n == OutcomeCount(tree.children)
    requires DreamtBy(dream, breadth, tree.outcome, 0, cursor + 1, tree.children)
    requires k > n && j == if from < 0 then -1 else from + 1 + n
    requires ComesFrom(dream, Flattened(tree.next), cursor + 1 + n, root, k - 1 - n, from, parent, branch)
    ensures ComesFrom(dream, Flattened(tree), cursor, root, k, j, parent, branch)
  {
    FlattenedIsMade(tree);
    AllDeeper(dream, breadth, tree.outcome, 0, cursor + 1, tree.children);
    FromAfter(dream, Flattened(tree), tree.outcome, Flattened(tree.children), Flattened(tree.next), cursor, root,
              k - 1 - n, from, parent, branch);
  }

  lemma {:induction false} HeadComesFrom(dream: Dreamer, root: Outcome, i: nat, cursor: nat, tree: Branches)
    requires tree.Branch? && tree.outcome == dream(root, i, cursor)
    ensures ComesFrom(dream, Flattened(tree), cursor, root, 0, -1, root, i)
  {
    FlattenedIsMade(tree);
  }

  lemma {:induction false} TreeIsPreOrder(dream: Dreamer, breadth: int, root: Outcome, i: nat, cursor: nat,
                                          tree: Branches, k: nat) returns (j: int, parent: Outcome, branch: nat)
    requires DreamtBy(dream, breadth, root, i, cursor, tree) && k < OutcomeCount(tree)
    ensures branch < breadth && ComesFrom(dream, Flattened(tree), cursor, root, k, j, parent, branch)
    decreases tree
  {
    var o, n := tree.outcome, OutcomeCount(tree.children);
    if k == 0 {
      HeadComesFrom(dream, root, i, cursor, tree);
      j, parent, branch := -1, root, i;
    } else if k <= n {
      j, parent, branch := TreeIsPreOrder(dream, breadth, o, 0, cursor + 1, tree.children, k - 1);
      j := j + 1;
      BelowComesFrom(dream, root, cursor, tree, k, j, parent, branch);
    } else {
      var from: int;
      from, parent, branch := TreeIsPreOrder(dream, breadth, root, i + 1, cursor + 1 + n, tree.next, k - 1 - n);
      j := if from < 0 then -1 else from + 1 + n;
      AfterComesFrom(dream, breadth, root, cursor, tree, n, k, j, from, parent, branch);
    }
  }

  /**
   The flat list of a simulation is the tree in pre-order: the k-th outcome is the one dreamt by the k-th persona used,
   for a parent that stands before it with nothing but that parent's descendants in between.
   */
  lemma {:induction false} ListIsPreOrder(persona: Persona, breadth: int, root: Outcome, depth: int, k: nat)
    returns (j: int, parent: Outcome, branch: nat)
    requires k < |Flattened(Grow(Dreaming(persona, breadth), breadth, root, depth, 0, 0))|
    ensures var list := Flattened(Grow(Dreaming(persona, breadth), breadth, root, depth, 0, 0));
            branch < breadth && ComesFrom(Dreaming(persona, breadth), list, 0, root, k, j, parent, branch)
  {
    var dream := Dreaming(persona, breadth);
    DreamingIsSensible(persona, breadth);
    GrowIsDreamt(dream, breadth, root, depth, 0, 0);
    j, parent, branch := TreeIsPreOrder(dream, breadth, root, 0, 0, Grow(dream, breadth, root, depth, 0, 0), k);
  }

  // ---------- the frontier ----------

  /** At least as good in all three respects, and better in one. */
  predicate Beats(b: Outcome, a: Outcome) {
    && !(b.reward < a.reward) && !(b.feasibility < a.feasibility) && !(a.risk < b.risk)
    && !(b.reward == a.reward && b.feasibility == a.feasibility && b.risk == a.risk)
  }

  ghost predicate Unbeaten(os: seq<Outcome>, a: Outcome) { forall b | b in os :: !Beats(b, a) }

  lemma {:induction false} UndominatedIsUnbeaten(os: seq<Outcome>, a: Outcome)
    ensures Undominated(a, os) <==> Unbeaten(os, a)
  {
    forall b | b in os ensures Dominates(b, a) <==> Beats(b, a) {
    }
  }

  ghost predicate Climbing(positions: seq<int>) {
    forall i, j | 0 <= i < j < |positions| :: positions[i] < positions[j]
  }

  /** From the `from`-th on, all the places at which nothing in the list beats what stands there. */
  ghost predicate UnbeatenPlaces(os: seq<Outcome>, from: nat, positions: seq<int>) {
    && Climbing(positions)
    && forall p :: p in positions <==> from <= p < |os| && Unbeaten(os, os[p])
  }

  /** The elements at some places of a list. */
  ghost predicate Stand(os: seq<Outcome>, positions: seq<int>, kept: seq<Outcome>) {
    |kept| == |positions| && forall i | 0 <= i < |kept| :: 0 <= positions[i] < |os| && kept[i] == os[positions[i]]
  }

  lemma {:induction false} OneMorePlace(os: seq<Outcome>, from: nat, rest: seq<int>)
    requires from < |os| && UnbeatenPlaces(os, from + 1, rest)
    ensures UnbeatenPlaces(os, from, if Unbeaten(os, os[from]) then [from] + rest else rest)
  {
    var all := if Unbeaten(os, os[from]) then [from] + rest else rest;
    forall p ensures p in all <==> from <= p < |os| && Unbeaten(os, os[p]) {
      assert p in rest <==> from + 1 <= p < |os| && Unbeaten(os, os[p]);
    }
    forall i, j | 0 <= i < j < |all| ensures all[i] < all[j] {
      if all != rest {
        assert rest[j - 1] in rest;
        assert i > 0 ==> rest[i - 1] < rest[j - 1];
      }
    }
  }

  lemma {:induction false} KeepPlaces(os: seq<Outcome>, from: nat) returns (positions: seq<int>)
    requires from <= |os|
    ensures UnbeatenPlaces(os, from, positions) && Stand(os, positions, Keep(os[from..], os))
    decreases |os| - from
  {
    if from == |os| {
      positions := [];
    } else {
      var rest := KeepPlaces(os, from + 1);
      OneMorePlace(os, from, rest);
      positions := if Unbeaten(os, os[from]) then [from] + rest else rest;
      KeepNext(os, from);
      StandNext(os, from, rest, Keep(os[from + 1..], os), positions, Keep(os[from..], os));
    }
  }

  lemma {:induction false} KeepNext(os: seq<Outcome>, from: nat)
    requires from < |os|
    ensures Keep(os[from..], os) == (if Unbeaten(os, os[from]) then [os[from]] else []) + Keep(os[from + 1..], os)
  {
    assert os[from..][1..] == os[from + 1..] && os[from..][0] == os[from];
    UndominatedIsUnbeaten(os, os[from]);
  }

  lemma {:induction false} StandNext(os: seq<Outcome>, from: nat, rest: seq<int>, kept: seq<Outcome>,
                                     positions: seq<int>, more: seq<Outcome>)
    requires from < |os| && Stand(os, rest, kept)
    requires (positions == [from] + rest && more == [os[from]] + kept) || (positions == rest && more == [] + kept)
    ensures Stand(os, positions, more)
  {
  }

  /** The frontier is what nothing beats, each at its place and in its order, and nothing else. */
  lemma {:induction false} FrontierIsExact(os: seq<Outcome>) returns (positions: seq<int>)
    ensures UnbeatenPlaces(os, 0, positions) && Stand(os, positions, Frontier(os))
  {
    positions := KeepPlaces(os, 0);
    assert os[0..] == os;
  }

  // ---------- the ranking ----------

  /** High reward, high feasibility and low risk, multiplied. */
  function Desirability(o: Outcome): real { o.reward * (o.feasibility * (1.0 - o.risk)) }

  /** More desirable, or as desirable and dreamt earlier. */
  predicate Outranks(os: seq<Outcome>, i: int, j: int)
    requires 0 <= i < |os| && 0 <= j < |os|
  {
    Desirability(os[i]) > Desirability(os[j]) || (Desirability(os[i]) == Desirability(os[j]) && i < j)
  }

  lemma Associates(x: real, y: real, z: real)
    ensures x * y * z == x * (y * z)
  {
  }

  lemma {:induction false} OutranksIsAhead(os: seq<Outcome>, i: int, j: int)
    requires 0 <= i < |os| && 0 <= j < |os|
    ensures Outranks(os, i, j) <==> Ahead(os)(i, j)
  {
    Associates(os[i].reward, os[i].feasibility, 1.0 - os[i].risk);
    Associates(os[j].reward, os[j].feasibility, 1.0 - os[j].risk);
  }

  /** How many of `n` a slice from the front keeps; a negative number counts from the end. */
  function FrontSize(n: nat, k: int): nat {
    if k < 0 then (if n + k < 0 then 0 else n + k) else if k < n then k else n
  }

  lemma {:induction false} PositionsOnce(n: nat, p: int)
    ensures multiset(Positions(n))[p] == if 0 <= p < n then 1 else 0
  {
    if n > 0 {
      PositionsOnce(n - 1, p);
    }
  }

  /** The ranking is the front of the sorted positions, which holds each position once. */
  lemma {:induction false} RankedApart(os: seq<Outcome>, k: int, i: nat, j: nat)
    requires i < j < |RankedPositions(os, k)|
    ensures RankedPositions(os, k)[i] != RankedPositions(os, k)[j]
  {
    var sorted := Sort(Ahead(os), Positions(|os|));
    SortPermutes(Ahead(os), Positions(|os|));
    PositionsOnce(|os|, sorted[i]);
    if sorted[i] == sorted[j] {
      TwiceInside(sorted, i, j);
    }
  }

  /** The ranking lists the most desirable outcomes, each above all that it outranks, and as many as were asked for. */
  lemma {:induction false} RankingIsExact(os: seq<Outcome>, k: int, m: int)
    requires 0 <= m < |os|
    ensures var top := RankedPositions(os, k);
            && |Ranked(os, k)| == |top| == FrontSize(|os|, k)
            && (forall i | 0 <= i < |top| :: 0 <= top[i] < |os| && Ranked(os, k)[i] == os[top[i]])
            && (forall i, j | 0 <= i < j < |top| :: Outranks(os, top[i], top[j]))
            && (m !in top ==> forall t | t in top :: Outranks(os, t, m))
  {
    RankedIsStableTopK(os, k, m);
    var top := RankedPositions(os, k);
    forall i, j | 0 <= i < j < |top| ensures Outranks(os, top[i], top[j]) {
      RankedApart(os, k, i, j);
      OutranksIsAhead(os, top[i], top[j]);
      assert !Ahead(os)(top[j], top[i]);
    }
    if m !in top {
      forall t | t in top ensures Outranks(os, t, m) {
        OutranksIsAhead(os, t, m);
      }
    }
  }
}
