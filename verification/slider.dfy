/** The slider of script.js: the `STATES` table and `updateBalance`, which maps
    the AI share chosen on a 0..100 slider to a category and to the
    complementary human share. */
module Slider {
  import opened Wrappers

  /** One row of the `STATES` table: an inclusive integer range and its labels. */
  datatype State = State(key: string, min: int, max: int, title: string, desc: string)

  /** The table, in the order the lookup scans it. */
  const STATES: seq<State> := [
    State("human-led", 0, 19, "Human-led", "Ethics & context first. AI is a helper."),
    State("mostly-human", 20, 39, "Mostly Human", "Human decides; AI suggests and speeds up."),
    State("balanced", 40, 59, "Balanced", "Human goals + AI speed. Best of both."),
    State("mostly-ai", 60, 79, "Mostly AI (supervised)", "AI produces; human supervises and corrects."),
    State("ai-led", 80, 100, "AI-led (risky)", "High speed, but risk without ethics & context.")
  ]

  /** Both bounds of a range are inclusive. */
  predicate Contains(s: State, x: int) {
    s.min <= x <= s.max
  }

  /** `Array.prototype.find` over the table: the index of the first state whose
      range contains `x`, or None when no range does. */
  function Find(states: seq<State>, x: int): (r: Option<nat>)
    ensures r.Some? ==> r.value < |states| && Contains(states[r.value], x)
    ensures r.Some? ==> forall j :: 0 <= j < r.value ==> !Contains(states[j], x)
    ensures r.None? <==> forall j :: 0 <= j < |states| ==> !Contains(states[j], x)
  {
    if states == [] then None
    else if Contains(states[0], x) then Some(0)
    else match Find(states[1..], x)
      case None => None
      case Some(k) => Some(k + 1)
  }

  /** The category shown for `aiPct`: the first containing state, falling back
      to the middle state ("Balanced") when none contains it. */
  function Lookup(aiPct: int): (s: State)
    ensures s in STATES
    ensures (exists i :: 0 <= i < |STATES| && Contains(STATES[i], aiPct)) ==> Contains(s, aiPct)
    ensures (forall i :: 0 <= i < |STATES| ==> !Contains(STATES[i], aiPct)) ==> s == STATES[2]
  {
    match Find(STATES, aiPct)
    case Some(i) => STATES[i]
    case None => STATES[2]
  }

  /** What `updateBalance` displays for a slider value. */
  datatype Balance = Balance(humanPct: int, aiPct: int, title: string, desc: string)

  /** `updateBalance`: the two shares are complementary and the labels come
      from the category lookup. */
  function UpdateBalance(aiPct: int): (b: Balance)
    ensures b.aiPct == aiPct
    ensures b.humanPct + b.aiPct == 100
    ensures 0 <= aiPct <= 100 ==> 0 <= b.humanPct <= 100
    ensures b.title == Lookup(aiPct).title && b.desc == Lookup(aiPct).desc
  {
    var state := Lookup(aiPct);
    Balance(100 - aiPct, aiPct, state.title, state.desc)
  }

  /** A table whose ranges are non-empty and follow each other without gap or
      overlap: each range starts one above where the previous one ends. */
  ghost predicate Chained(states: seq<State>) {
    && |states| > 0
    && (forall i :: 0 <= i < |states| ==> states[i].min <= states[i].max)
    && (forall i :: 0 <= i < |states| - 1 ==> states[i].max + 1 == states[i + 1].min)
  }

  /** In a chained table every earlier range lies wholly below every later one. */
  lemma {:induction false} ChainedOrdered(states: seq<State>, i: nat, j: nat)
    requires Chained(states)
    requires i < j < |states|
    ensures states[i].max < states[j].min
    decreases j - i
  {
    if j > i + 1 {
      ChainedOrdered(states, i, j - 1);
      assert states[j - 1].max + 1 == states[j].min;
    } else {
      assert states[i].max + 1 == states[i + 1].min;
    }
  }

  /** In a chained table no two ranges share a value. */
  lemma ChainedDisjoint(states: seq<State>, x: int, i: nat, j: nat)
    requires Chained(states)
    requires i < |states| && j < |states|
    requires Contains(states[i], x) && Contains(states[j], x)
    ensures i == j
  {
    if i < j {
      ChainedOrdered(states, i, j);
    } else if j < i {
      ChainedOrdered(states, j, i);
    }
  }

  /** A chained table covers every value from its first minimum to its last maximum. */
  lemma {:induction false} ChainedCovers(states: seq<State>, x: int)
    requires Chained(states)
    requires states[0].min <= x <= states[|states| - 1].max
    ensures exists i :: 0 <= i < |states| && Contains(states[i], x)
  {
    if !Contains(states[0], x) {
      assert |states| > 1;
      var rest := states[1..];
      assert Chained(rest) by {
        forall i | 0 <= i < |rest| - 1
          ensures rest[i].max + 1 == rest[i + 1].min
        {
          assert rest[i] == states[i + 1] && rest[i + 1] == states[i + 2];
        }
      }
      assert rest[0].min == states[0].max + 1;
      assert rest[|rest| - 1] == states[|states| - 1];
      ChainedCovers(rest, x);
      var k :| 0 <= k < |rest| && Contains(rest[k], x);
      assert Contains(states[k + 1], x);
    }
  }

  /** The five ranges of `STATES` are chained and span exactly 0..100. */
  lemma StatesPartition()
    ensures Chained(STATES)
    ensures STATES[0].min == 0 && STATES[|STATES| - 1].max == 100
  {
  }

  /** Every slider value in 0..100 lies in exactly one state, and the lookup
      returns that state. */
  lemma ExactlyOneState(aiPct: int)
    requires 0 <= aiPct <= 100
    ensures exists i :: 0 <= i < |STATES| && Contains(STATES[i], aiPct)
    ensures forall i, j :: 0 <= i < |STATES| && 0 <= j < |STATES| && Contains(STATES[i], aiPct) && Contains(STATES[j], aiPct) ==> i == j
    ensures Contains(Lookup(aiPct), aiPct)
  {
    StatesPartition();
    ChainedCovers(STATES, aiPct);
    forall i, j | 0 <= i < |STATES| && 0 <= j < |STATES| && Contains(STATES[i], aiPct) && Contains(STATES[j], aiPct)
      ensures i == j
    {
      ChainedDisjoint(STATES, aiPct, i, j);
    }
  }

  /** A value outside 0..100 falls back to "Balanced". */
  lemma OutOfRangeIsBalanced(aiPct: int)
    requires aiPct < 0 || aiPct > 100
    ensures Lookup(aiPct) == STATES[2]
    ensures Lookup(aiPct).title == "Balanced"
  {
    StatesPartition();
    forall i | 0 <= i < |STATES|
      ensures !Contains(STATES[i], aiPct)
    {
      if i > 0 {
        ChainedOrdered(STATES, 0, i);
      }
      if i < |STATES| - 1 {
        ChainedOrdered(STATES, i, |STATES| - 1);
      }
    }
  }

  /** The lookup finds a containing state exactly when the value is in 0..100. */
  lemma LookupContainsIffInRange(aiPct: int)
    ensures Contains(Lookup(aiPct), aiPct) <==> 0 <= aiPct <= 100
  {
    if 0 <= aiPct <= 100 {
      ExactlyOneState(aiPct);
    } else {
      OutOfRangeIsBalanced(aiPct);
    }
  }

  /** The lookup returns the state whose range contains the value. */
  lemma LookupIsContainingState(aiPct: int, i: nat)
    requires i < |STATES| && Contains(STATES[i], aiPct)
    ensures Lookup(aiPct) == STATES[i]
  {
    StatesPartition();
    if i > 0 {
      ChainedOrdered(STATES, 0, i);
    }
    if i < |STATES| - 1 {
      ChainedOrdered(STATES, i, |STATES| - 1);
    }
    ExactlyOneState(aiPct);
    var k :| 0 <= k < |STATES| && STATES[k] == Lookup(aiPct);
    ChainedDisjoint(STATES, aiPct, i, k);
  }

  /** Both ends of each range are inclusive. */
  lemma BoundaryExamples()
    ensures Lookup(0).title == "Human-led"
    ensures Lookup(19).title == "Human-led"
    ensures Lookup(20).title == "Mostly Human"
    ensures Lookup(59).title == "Balanced"
    ensures Lookup(60).title == "Mostly AI (supervised)"
    ensures Lookup(80).title == "AI-led (risky)"
    ensures Lookup(100).title == "AI-led (risky)"
  {
    LookupIsContainingState(0, 0);
    LookupIsContainingState(19, 0);
    LookupIsContainingState(20, 1);
    LookupIsContainingState(59, 2);
    LookupIsContainingState(60, 3);
    LookupIsContainingState(80, 4);
    LookupIsContainingState(100, 4);
  }
}
