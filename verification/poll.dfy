/** The poll of script.js (setupPoll): an anonymous, increment-only counter of
    "agree", "neutral" and "disagree" votes, kept in the page's `state` and
    saved under the storage key "aiPartnerPoll" after every change. No vote is
    tied to a voter: the name typed next to the poll only changes the
    thank-you message. */
module Poll {
  import opened Wrappers

  /** The three options of the poll (the radio values). */
  datatype Choice = Agree | Neutral | Disagree

  /** One value per option: the counters, the stored fields, the percentages. */
  datatype PerChoice<T> = PerChoice(agree: T, neutral: T, disagree: T) {
    function Get(c: Choice): T {
      match c
      case Agree => agree
      case Neutral => neutral
      case Disagree => disagree
    }
  }

  /** The in-memory poll state. */
  type Tally = PerChoice<nat>

  /** The stored record once parsed: a field is None when it is missing or holds
      a falsy non-number (null, false, ""). */
  type StoredPoll = PerChoice<Option<nat>>

  const Zero: Tally := PerChoice(0, 0, 0)

  function Total(t: Tally): nat {
    t.agree + t.neutral + t.disagree
  }

  /** `parsed.x || 0`: a missing or falsy field reads as 0. */
  function FieldOrZero(f: Option<nat>): (n: nat)
    ensures f.Some? ==> n == f.value
    ensures f.None? ==> n == 0
  {
    f.GetOr(0)
  }

  /** `loadPoll`. `stored` is None when the key is absent, holds the empty
      string, or does not parse; then every counter is 0. Otherwise a counter
      is 0 exactly when its field is missing or zero, and otherwise the field's
      value. */
  function LoadPoll(stored: Option<StoredPoll>): (t: Tally)
    ensures stored.None? ==> t == Zero
    ensures forall c :: t.Get(c) == 0 <==> stored.None? || stored.value.Get(c) in {None, Some(0)}
    ensures forall c :: t.Get(c) > 0 ==> stored.Some? && stored.value.Get(c) == Some(t.Get(c))
  {
    match stored
    case None => Zero
    case Some(s) => PerChoice(FieldOrZero(s.agree), FieldOrZero(s.neutral), FieldOrZero(s.disagree))
  }

  /** `savePoll`: every counter is written, none is missing. */
  function SavePoll(t: Tally): (s: StoredPoll)
    ensures forall c :: s.Get(c) == Some(t.Get(c))
  {
    PerChoice(Some(t.agree), Some(t.neutral), Some(t.disagree))
  }

  /** Loading what was saved gives back the same counters. */
  lemma LoadAfterSave(t: Tally)
    ensures LoadPoll(Some(SavePoll(t))) == t
  {
  }

  /** Absent or unparsable storage, and storage with every field missing or
      falsy, load as (0, 0, 0). */
  lemma LoadDefaultsToZero(stored: Option<StoredPoll>)
    requires stored.None? || forall c :: stored.value.Get(c) in {None, Some(0)}
    ensures LoadPoll(stored) == Zero
  {
    var t := LoadPoll(stored);
    assert t.Get(Agree) == 0 && t.Get(Neutral) == 0 && t.Get(Disagree) == 0;
  }

  /** `state[choice] = (state[choice] || 0) + 1`: exactly the chosen counter
      goes up by one. */
  function Increment(t: Tally, c: Choice): (t': Tally)
    ensures t'.Get(c) == t.Get(c) + 1
    ensures forall d :: d != c ==> t'.Get(d) == t.Get(d)
    ensures Total(t') == Total(t) + 1
  {
    match c
    case Agree => t.(agree := t.agree + 1)
    case Neutral => t.(neutral := t.neutral + 1)
    case Disagree => t.(disagree := t.disagree + 1)
  }

  /** The counters after a run of votes on an initially cleared poll. */
  function Tallied(votes: seq<Choice>): Tally {
    if votes == [] then Zero else Increment(Tallied(votes[..|votes| - 1]), votes[|votes| - 1])
  }

  /** Each counter is the number of votes cast for its option, and the total
      is the number of votes: the poll counts votes, it does not de-duplicate. */
  lemma {:induction false} TalliedCountsVotes(votes: seq<Choice>)
    ensures forall c :: Tallied(votes).Get(c) == multiset(votes)[c]
    ensures Total(Tallied(votes)) == |votes|
  {
    if votes != [] {
      var init, last := votes[..|votes| - 1], votes[|votes| - 1];
      TalliedCountsVotes(init);
      assert votes == init + [last];
      assert multiset(votes) == multiset(init) + multiset{last};
    }
  }

  /** `pct` in `renderPoll`: `Math.round((n / total) * 100)`, or 0 when
      `total` is 0. The model rounds the exact quotient half up, which is what
      `Math.round` does; the floating-point division of `script.js` could in
      principle land on the other side of an exact .5 tie. */
  function Pct(n: nat, total: nat): (p: nat)
    ensures total == 0 ==> p == 0
    ensures total > 0 ==> p * (2 * total) <= 200 * n + total < (p + 1) * (2 * total)
    ensures n <= total ==> p <= 100
    ensures 0 < total == n ==> p == 100
  {
    if total == 0 then 0
    else
      var p := (200 * n + total) / (2 * total);
      RoundedBounds(n, total, p);
      p
  }

  /** Cancelling a positive factor from both sides of `<`. */
  lemma CancelFactor(a: int, b: int, k: int)
    requires k > 0 && a * k < b * k
    ensures a < b
  {
  }

  /** What the rounded quotient `p = (200 n + total) div (2 total)` satisfies. */
  lemma RoundedBounds(n: nat, total: nat, p: int)
    requires total > 0 && p == (200 * n + total) / (2 * total)
    ensures p * (2 * total) <= 200 * n + total < (p + 1) * (2 * total)
    ensures p >= 0
    ensures n <= total ==> p <= 100
    ensures n == total ==> p == 100
  {
    var d := 2 * total;
    var m := 200 * n + total;
    assert p * d <= m < p * d + d;
    assert (p + 1) * d == p * d + d;
    CancelFactor(-1, p, d);
    if n <= total {
      assert m < 101 * d;
      CancelFactor(p, 101, d);
    }
    if n == total {
      assert 99 * d < m;
      CancelFactor(99, p + 1, d);
    }
  }

  /** The three percentages `renderPoll` shows, each rounded on its own. */
  function Percentages(t: Tally): (p: PerChoice<nat>)
    ensures forall c :: p.Get(c) == Pct(t.Get(c), Total(t))
    ensures forall c :: p.Get(c) <= 100
    ensures Total(t) == 0 ==> p == Zero
  {
    var total := Total(t);
    PerChoice(Pct(t.agree, total), Pct(t.neutral, total), Pct(t.disagree, total))
  }

  /** Independent rounding means the percentages need not add up to 100, but
      they stay within one of it. */
  lemma PercentagesSumNear100(t: Tally)
    requires Total(t) > 0
    ensures 99 <= Percentages(t).agree + Percentages(t).neutral + Percentages(t).disagree <= 101
  {
    var T := Total(t);
    var d := 2 * T;
    var a, n, x := Pct(t.agree, T), Pct(t.neutral, T), Pct(t.disagree, T);
    assert a * d + n * d + x * d <= 203 * T < (a + 1) * d + (n + 1) * d + (x + 1) * d;
    SumOfProducts(a, n, x, d);
    SumOfProducts(a + 1, n + 1, x + 1, d);
    assert (a + n + x) * d < 102 * d;
    CancelFactor(a + n + x, 102, d);
    assert 101 * d < (a + n + x + 3) * d;
    CancelFactor(101, a + n + x + 3, d);
  }

  lemma SumOfProducts(a: int, b: int, c: int, k: int)
    ensures (a + b + c) * k == a * k + b * k + c * k
  {
  }

  /** One vote each: every percentage is 33, summing to 99. */
  lemma OneVoteEach()
    ensures Percentages(PerChoice(1, 1, 1)) == PerChoice(33, 33, 33)
  {
  }

  /** The message the submit handler shows; `name` is the trimmed name input. */
  datatype VoteMessage = ChooseFirst | Thanks | ThanksNamed(name: string)

  /** The poll as the page holds it: the module-level `state` (three counters)
      and the copy under "aiPartnerPoll" in storage. */
  class PollStore {
    var agree: nat
    var neutral: nat
    var disagree: nat
    var stored: Option<StoredPoll>

    function Current(): Tally
      reads this
    {
      PerChoice(agree, neutral, disagree)
    }

    /** The counters agree with what a reload from storage would give. */
    ghost predicate InSync()
      reads this
    {
      Current() == LoadPoll(stored)
    }

    /** Page start: `let state = loadPoll()`. */
    constructor (saved: Option<StoredPoll>)
      ensures stored == saved
      ensures Current() == LoadPoll(saved)
      ensures InSync()
    {
      var t := LoadPoll(saved);
      agree, neutral, disagree := t.agree, t.neutral, t.disagree;
      stored := saved;
    }

    /** `state = loadPoll()`. */
    method Load()
      modifies this
      ensures stored == old(stored)
      ensures Current() == LoadPoll(stored)
      ensures InSync()
    {
      var t := LoadPoll(stored);
      agree, neutral, disagree := t.agree, t.neutral, t.disagree;
    }

    /** `savePoll(state)`. */
    method Save()
      modifies this
      ensures Current() == old(Current())
      ensures stored == Some(SavePoll(Current()))
      ensures InSync()
    {
      stored := Some(SavePoll(Current()));
      LoadAfterSave(Current());
    }

    /** The submit handler. Without a choice nothing changes; otherwise the
        state is reloaded, the chosen counter goes up by one, and the result
        is saved. */
    method Vote(choice: Option<Choice>, name: string) returns (msg: VoteMessage)
      modifies this
      ensures choice.None? ==> msg == ChooseFirst && Current() == old(Current()) && stored == old(stored)
      ensures choice.Some? ==> Current() == Increment(LoadPoll(old(stored)), choice.value)
      ensures choice.Some? ==> stored == Some(SavePoll(Current())) && InSync()
      ensures choice.Some? && old(InSync()) ==> Current() == Increment(old(Current()), choice.value)
      ensures choice.Some? ==> msg == if name == "" then Thanks else ThanksNamed(name)
      ensures old(InSync()) ==> InSync()
    {
      if choice.None? {
        return ChooseFirst;
      }
      Load();
      match choice.value {
        case Agree => agree := agree + 1;
        case Neutral => neutral := neutral + 1;
        case Disagree => disagree := disagree + 1;
      }
      Save();
      msg := if name == "" then Thanks else ThanksNamed(name);
    }

    /** The clear handler: every counter back to 0, and that state saved,
        whatever was there before. */
    method Clear()
      modifies this
      ensures Current() == Zero
      ensures stored == Some(SavePoll(Zero))
      ensures InSync()
    {
      agree, neutral, disagree := 0, 0, 0;
      Save();
    }
  }
}
