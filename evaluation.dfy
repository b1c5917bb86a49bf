/** `CleanFloorEvaluator`: one point per clean square per time step. */
module Evaluation {
  import opened World

  /** 1 when location `l` has a flag and the flag says clean, else 0. */
  function CleanAt(dirt: map<Location, bool>, l: Location): nat {
    if l in dirt && !dirt[l] then 1 else 0
  }

  /** The squares whose flag is False. */
  function CleanSquares(dirt: map<Location, bool>): set<Location> {
    set l: Location | l in dirt && !dirt[l]
  }

  /** `list(state["dirt_status"].values()).count(False)`: the number of
      squares whose flag is False, i.e. square A's share plus square B's. */
  function CleanCount(dirt: map<Location, bool>): (n: nat)
    ensures n == CleanAt(dirt, A) + CleanAt(dirt, B)
    ensures n <= 2
  {
    var clean := CleanSquares(dirt);
    CleanSquaresByFlags(dirt);
    |clean|
  }

  lemma CleanSquaresByFlags(dirt: map<Location, bool>)
    ensures |CleanSquares(dirt)| == CleanAt(dirt, A) + CleanAt(dirt, B)
  {
    var clean := CleanSquares(dirt);
    var inA, inB := A in clean, B in clean;
    forall l: Location ensures l in clean <==> (l == A && inA) || (l == B && inB) {
      if l == A {} else {}
    }
    if inA && inB {
      assert clean == {A, B};
    } else if inA {
      assert clean == {A};
    } else if inB {
      assert clean == {B};
    } else {
      assert clean == {};
    }
  }

  /** The score accumulated over a sequence of states, one summand per
      state, in the order the evaluator sees them. */
  function TotalClean(states: seq<WorldState>): nat {
    if states == [] then 0
    else TotalClean(states[..|states| - 1]) + CleanCount(states[|states| - 1].dirtStatus)
  }

  /** After n states the score is between 0 and 2·n. */
  lemma {:induction false} TotalCleanBound(states: seq<WorldState>)
    ensures TotalClean(states) <= 2 * |states|
  {
    if states != [] {
      TotalCleanBound(states[..|states| - 1]);
    }
  }

  /** The score never decreases: a longer prefix scores at least as much. */
  lemma {:induction false} TotalCleanMonotone(states: seq<WorldState>, j: nat, k: nat)
    requires j <= k <= |states|
    ensures TotalClean(states[..j]) <= TotalClean(states[..k])
  {
    if j < k {
      TotalCleanMonotone(states, j, k - 1);
      assert states[..k][..k - 1] == states[..k - 1];
    } else {
      assert states[..j] == states[..k];
    }
  }

  /** Appending one state adds exactly its clean count. */
  lemma TotalCleanSnoc(states: seq<WorldState>, s: WorldState)
    ensures TotalClean(states + [s]) == TotalClean(states) + CleanCount(s.dirtStatus)
  {
    assert (states + [s])[..|states|] == states;
  }

  /** The score is additive over concatenation. */
  lemma {:induction false} TotalCleanAppend(earlier: seq<WorldState>, later: seq<WorldState>)
    ensures TotalClean(earlier + later) == TotalClean(earlier) + TotalClean(later)
    decreases |later|
  {
    if later == [] {
      assert earlier + later == earlier;
    } else {
      var init := later[..|later| - 1];
      TotalCleanAppend(earlier, init);
      assert (earlier + later)[..|earlier + later| - 1] == earlier + init;
    }
  }

  /** When every state has the same clean count c, n states score c·n. */
  lemma {:induction false} TotalCleanConstant(states: seq<WorldState>, c: nat)
    requires forall i :: 0 <= i < |states| ==> CleanCount(states[i].dirtStatus) == c
    ensures TotalClean(states) == c * |states|
  {
    if states != [] {
      TotalCleanConstant(states[..|states| - 1], c);
    }
  }

  /** The evaluator object. `score` is the source's `_score`; the ghost
      field `Seen` lists the states it has been updated with. */
  class CleanFloorEvaluator {
    var score: int
    ghost var Seen: seq<WorldState>

    /** The score is the clean count summed over every state seen. */
    ghost predicate Valid()
      reads this
    {
      score == TotalClean(Seen)
    }

    /** The `score` property: the clean squares summed over every state
        seen, at most two per state. */
    function Score(): (s: int)
      reads this
      requires Valid()
      ensures s == TotalClean(Seen)
      ensures 0 <= s <= 2 * |Seen|
    {
      TotalCleanBound(Seen);
      score
    }

    constructor ()
      ensures Valid() && Seen == [] && score == 0
    {
      score := 0;
      Seen := [];
    }

    /** `update(state)`: adds the number of clean squares of `state`. */
    method Update(state: WorldState)
      requires Valid()
      modifies this
      ensures Valid() && Seen == old(Seen) + [state]
      ensures old(score) <= score <= old(score) + 2
      ensures score == old(score) + CleanCount(state.dirtStatus)
    {
      TotalCleanSnoc(Seen, state);
      score := score + CleanCount(state.dirtStatus);
      Seen := Seen + [state];
    }
  }
}
