/**
 * The rules of one match card (`src/components/room-matcher/match-card.tsx`): the "top
 * factors" line, the red-flag state and the one-way "force include" flag.
 */
module MatchCard {
  import opened Wrappers
  import opened Text
  import opened Matching

  const SleepFactor := "Sleep schedule aligns"
  const BudgetFactor := "Budget is close"
  const CleanFactor := "Similar cleanliness"

  /** The factors in the order they are considered. */
  const FactorOrder := [SleepFactor, BudgetFactor, CleanFactor]

  /** The largest budget gap, in rupees, that still counts as close. */
  const BudgetTolerance := 3000

  /** How many factors the card keeps. */
  const MaxFactors := 2

  const NoFactorsText := "Similarity based on profile"
  const FactorSeparator := " \U{B7} "

  function Abs(x: int): nat {
    if x < 0 then -x else x
  }

  predicate SleepAligns(a: ParsedProfile, b: MatchResultItem) {
    a.sleepSchedule == b.short.sleepSchedule
  }

  predicate BudgetClose(a: ParsedProfile, b: MatchResultItem) {
    Abs(a.budgetPkr - b.short.budgetPkr) <= BudgetTolerance
  }

  predicate CleanlinessMatches(a: ParsedProfile, b: MatchResultItem) {
    a.cleanliness == b.short.cleanliness
  }

  /** `r` is `s` with some elements left out, the rest kept in order. */
  predicate IsSubsequence(r: seq<string>, s: seq<string>)
    decreases |s|
  {
    if r == [] then true
    else if s == [] then false
    else (r[0] == s[0] && IsSubsequence(r[1..], s[1..])) || IsSubsequence(r, s[1..])
  }

  /** The list `computeFactors` builds with `push`: each factor whose condition holds, in
      order; none without a user profile. */
  function CandidateFactors(a: Option<ParsedProfile>, b: MatchResultItem): seq<string> {
    (if a.Some? && SleepAligns(a.value, b) then [SleepFactor] else [])
    + (if a.Some? && BudgetClose(a.value, b) then [BudgetFactor] else [])
    + (if a.Some? && CleanlinessMatches(a.value, b) then [CleanFactor] else [])
  }

  lemma FactorsDistinct()
    ensures SleepFactor != BudgetFactor && SleepFactor != CleanFactor && BudgetFactor != CleanFactor
  {
    assert SleepFactor[0] != BudgetFactor[0] && BudgetFactor[0] != CleanFactor[0];
    assert SleepFactor[1] != CleanFactor[1];
  }

  /** `computeFactors`: at most two factors, in their fixed order; none without a profile;
      the sleep and budget factors exactly when their conditions hold, and the cleanliness
      factor exactly when it holds and is not cut off by the two before it. */
  function ComputeFactors(a: Option<ParsedProfile>, b: MatchResultItem): (r: seq<string>)
    ensures |r| <= MaxFactors
    ensures a.None? ==> r == []
    ensures IsSubsequence(r, FactorOrder)
    ensures a.Some? ==> (SleepFactor in r <==> SleepAligns(a.value, b))
    ensures a.Some? ==> (BudgetFactor in r <==> BudgetClose(a.value, b))
    ensures a.Some? ==> (CleanFactor in r <==>
      CleanlinessMatches(a.value, b) && !(SleepAligns(a.value, b) && BudgetClose(a.value, b)))
  {
    FactorsDistinct();
    OrderedSelections();
    var list := CandidateFactors(a, b);
    TopTwoTable(a, b);
    list[..if |list| < MaxFactors then |list| else MaxFactors]
  }

  /** What the cut to two leaves of the candidate list, case by case. */
  lemma TopTwoTable(a: Option<ParsedProfile>, b: MatchResultItem)
    ensures var list := CandidateFactors(a, b);
      var sl := a.Some? && SleepAligns(a.value, b);
      var bu := a.Some? && BudgetClose(a.value, b);
      var cl := a.Some? && CleanlinessMatches(a.value, b);
      list[..if |list| < MaxFactors then |list| else MaxFactors] ==
        if sl && bu then [SleepFactor, BudgetFactor]
        else if sl && cl then [SleepFactor, CleanFactor]
        else if sl then [SleepFactor]
        else if bu && cl then [BudgetFactor, CleanFactor]
        else if bu then [BudgetFactor]
        else if cl then [CleanFactor]
        else []
  {
  }

  /** Every list `ComputeFactors` can return is an in-order selection from `FactorOrder`. */
  lemma OrderedSelections()
    ensures IsSubsequence([SleepFactor, BudgetFactor], FactorOrder)
    ensures IsSubsequence([SleepFactor, CleanFactor], FactorOrder)
    ensures IsSubsequence([BudgetFactor, CleanFactor], FactorOrder)
    ensures IsSubsequence([SleepFactor], FactorOrder)
    ensures IsSubsequence([BudgetFactor], FactorOrder)
    ensures IsSubsequence([CleanFactor], FactorOrder)
  {
    var c := [CleanFactor];
    assert IsSubsequence(c, c);
    assert IsSubsequence(c, [BudgetFactor] + c);
    assert IsSubsequence([BudgetFactor] + c, [BudgetFactor] + c);
    assert IsSubsequence([BudgetFactor], [BudgetFactor] + c);
    assert FactorOrder[1..] == [BudgetFactor] + c && FactorOrder[2..] == c;
  }

  /** No joined list of factors reads like the fallback text. */
  lemma JoinedFactorsAreNotFallback(factors: seq<string>)
    requires factors != [] && |factors| <= MaxFactors && IsSubsequence(factors, FactorOrder)
    ensures Join(factors, FactorSeparator) != NoFactorsText
  {
    var t := Join(factors, FactorSeparator);
    assert t[..|factors[0]|] == factors[0];
    if factors[0] == CleanFactor {
      assert t[7] != NoFactorsText[7];
    } else if factors[0] == SleepFactor {
      assert t[1] != NoFactorsText[1];
    } else {
      FactorsDistinct();
      assert factors[0] == BudgetFactor by { SelectionHead(factors); }
      assert t[0] != NoFactorsText[0];
    }
  }

  /** A non-empty selection from `FactorOrder` starts with one of its three factors. */
  lemma SelectionHead(factors: seq<string>)
    requires factors != [] && IsSubsequence(factors, FactorOrder)
    ensures factors[0] in FactorOrder
  {
    var s := FactorOrder;
    if !(factors[0] == s[0] && IsSubsequence(factors[1..], s[1..])) {
      assert IsSubsequence(factors, s[1..]);
      if !(factors[0] == s[1] && IsSubsequence(factors[1..], s[2..])) {
        var last := s[2..];
        assert IsSubsequence(factors, last);
        assert last[1..] == [] && !IsSubsequence(factors, last[1..]);
        assert factors[0] == last[0];
      }
    }
  }

  /** `hasRedFlags`: the match carries at least one red flag. */
  predicate HasRedFlags(b: MatchResultItem): (r: bool)
    ensures r <==> exists f :: f in b.redFlags
  {
    if |b.redFlags| > 0 then
      assert b.redFlags[0] in b.redFlags;
      true
    else false
  }

  /** The "Top factors" line: the factors joined by " · ", or the fallback when there are none. */
  function FactorsText(a: Option<ParsedProfile>, b: MatchResultItem): (t: string)
    ensures t == NoFactorsText <==> ComputeFactors(a, b) == []
  {
    var factors := ComputeFactors(a, b);
    if |factors| > 0 then
      JoinedFactorsAreNotFallback(factors);
      Join(factors, FactorSeparator)
    else NoFactorsText
  }

  /** The card's one-way flag. */
  class MatchCardState {
    const result: MatchResultItem
    var forcedInclude: bool

    constructor (result: MatchResultItem)
      ensures this.result == result && !forcedInclude
    {
      this.result := result;
      forcedInclude := false;
    }

    /** The "Force include" button exists only for a match with red flags. */
    predicate ForceIncludeOffered(): (r: bool)
      reads this
      ensures r <==> exists f :: f in result.redFlags
    {
      HasRedFlags(result)
    }

    /** It is disabled once the match has been force-included, and only a shown button is
        ever enabled. */
    predicate ForceIncludeEnabled(): (r: bool)
      reads this
      ensures r ==> ForceIncludeOffered()
      ensures forcedInclude ==> !r
    {
      ForceIncludeOffered() && !forcedInclude
    }

    /** A click on "Force include": the flag goes from false to true, and only a card that shows
        the button can be clicked. The flag changes exactly when the button was enabled, and the
        button is never enabled afterwards. Nothing sets the flag back. */
    method ClickForceInclude()
      modifies this`forcedInclude
      ensures forcedInclude == (old(forcedInclude) || ForceIncludeOffered())
      ensures forcedInclude != old(forcedInclude) <==> old(ForceIncludeEnabled())
      ensures !ForceIncludeEnabled()
    {
      if ForceIncludeEnabled() {
        forcedInclude := true;
      }
    }
  }
}
