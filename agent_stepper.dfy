/**
 * The stage list of the matching flow as the stepper shows it
 * (`src/components/room-matcher/agent-stepper.tsx`): one item per stage, in order,
 * with an icon for its status and a subtitle chosen by its name (`label` in the stepper's props).
 */
module AgentStepper {
  import opened Wrappers
  import opened Text

  datatype StepStatus = Idle | Running | Done

  /** One stage of the flow: its name (label) and where it stands. */
  datatype StepState = StepState(name: string, status: StepStatus)

  datatype Icon = Spinner | Check | EmptyCircle

  /** What the stepper draws for one stage. */
  datatype StepItem = StepItem(name: string, icon: Icon, highlighted: bool, subtitle: string)

  /** The count the scorer's subtitle shows while no run has reported one. */
  const PlaceholderCandidateCount := 125

  const ScorerPrefix := "scoring candidates ("
  const ScorerSuffix := " checked)"

  /** The stage names that have a subtitle. */
  predicate HasSubtitle(name: string) {
    name == "Match Scorer" || name == "Profile Reader" || name == "Red Flag" || name == "Wingman"
  }

  function StepIcon(status: StepStatus): Icon {
    match status
    case Running => Spinner
    case Done => Check
    case Idle => EmptyCircle
  }

  /** The number the scorer's subtitle shows: the count, or the placeholder when it is 0. */
  function ShownCount(candidateCount: int): int {
    if candidateCount == 0 then PlaceholderCandidateCount else candidateCount
  }

  function Subtitle(s: StepState, candidateCount: int): string {
    if s.name == "Match Scorer" && s.status != Idle then
      ScorerPrefix + IntToString(ShownCount(candidateCount)) + ScorerSuffix
    else if s.name == "Profile Reader" && s.status != Idle then "extracting fields"
    else if s.name == "Red Flag" && s.status != Idle then "safety and conflicts"
    else if s.name == "Wingman" && s.status != Idle then "drafting advice"
    else ""
  }

  /** The item for one stage. */
  function Item(s: StepState, candidateCount: int): (item: StepItem)
    ensures item.name == s.name
    ensures item.icon == Spinner <==> s.status == Running
    ensures item.icon == Check <==> s.status == Done
    ensures item.icon == EmptyCircle <==> s.status == Idle
    ensures item.highlighted <==> s.status == Done
    ensures item.subtitle == "" <==> s.status == Idle || !HasSubtitle(s.name)
  {
    StepItem(s.name, StepIcon(s.status), s.status == Done, Subtitle(s, candidateCount))
  }

  /** The whole stepper: exactly one item per stage, in the stages' order. */
  function Render(steps: seq<StepState>, candidateCount: int): (items: seq<StepItem>)
    ensures |items| == |steps|
    ensures forall i :: 0 <= i < |steps| ==> items[i] == Item(steps[i], candidateCount)
  {
    if steps == [] then [] else [Item(steps[0], candidateCount)] + Render(steps[1..], candidateCount)
  }

  /** The fixed subtitles of the three simulated stages once they have started. */
  lemma FixedSubtitles(s: StepState, candidateCount: int)
    requires s.status != Idle
    ensures s.name == "Profile Reader" ==> Subtitle(s, candidateCount) == "extracting fields"
    ensures s.name == "Red Flag" ==> Subtitle(s, candidateCount) == "safety and conflicts"
    ensures s.name == "Wingman" ==> Subtitle(s, candidateCount) == "drafting advice"
  {
  }

  /** A started scorer shows the candidate count, or 125 when the count is 0, as decimal text
      between the fixed prefix and suffix; the number shown is never 0. */
  lemma ScorerSubtitle(s: StepState, candidateCount: int)
    requires s.name == "Match Scorer" && s.status != Idle
    ensures var t := Subtitle(s, candidateCount);
      && |t| > |ScorerPrefix| + |ScorerSuffix|
      && t[..|ScorerPrefix|] == ScorerPrefix
      && t[|t| - |ScorerSuffix|..] == ScorerSuffix
      && ParseInt(t[|ScorerPrefix|..|t| - |ScorerSuffix|])
         == Some(if candidateCount == 0 then 125 else candidateCount)
  {
    var digits := IntToString(ShownCount(candidateCount));
    var t := Subtitle(s, candidateCount);
    assert t == ScorerPrefix + digits + ScorerSuffix;
    assert t[|ScorerPrefix|..|t| - |ScorerSuffix|] == digits;
    IntToStringRoundTrip(ShownCount(candidateCount));
  }
}
