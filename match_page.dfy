/**
 * The match page's run controller (`src/app/match/page.tsx`): the fixed four-stage flow,
 * its single "running" flag, the reset at the start of every run, the results with their
 * `usedFallback` override, and the upload callback with its forced-parse-error toggle.
 *
 * The page's React state becomes the fields of `MatchRunner`; the random 800-1200 ms waits
 * between stage updates become plain loop iterations.
 */
module MatchPage {
  import opened Wrappers
  import opened Matching
  import opened AgentStepper

  /** The sample profiles a QA user may pick. */
  datatype ProfileKey = U001 | U002 | U003

  function KeyId(k: ProfileKey): string {
    match k
    case U001 => "U-001"
    case U002 => "U-002"
    case U003 => "U-003"
  }

  /** The stage names, in the order a run visits them. */
  const Stages: seq<string> := ["Profile Reader", "Match Scorer", "Red Flag", "Wingman"]

  /** The stage after which results are available. */
  const ScorerIndex := 1

  const ParseErrorMessage := "We couldn't extract data from this file \U{2014} try a DOCX or a clear PDF scan."

  /** `RESULTS_BY_PROFILE`: the results fixture of each sample key. The table lists the three
      keys one by one, and each entry is the U-001 fixture. */
  function ResultsByProfile(fixture: MatchingResults, k: ProfileKey): MatchingResults {
    match k
    case U001 => fixture
    case U002 => fixture
    case U003 => fixture
  }

  lemma EveryKeyHasTheSameResults(fixture: MatchingResults, k: ProfileKey, k': ProfileKey)
    ensures ResultsByProfile(fixture, k) == ResultsByProfile(fixture, k') == fixture
  {
  }

  /** The results the scorer stage publishes: the base results, with `usedFallback` forced on
      by the QA toggle and kept from the base otherwise; nothing else is touched. */
  function ScoredResults(base: MatchingResults, qaFallbackScoring: bool): (r: MatchingResults)
    ensures r.usedFallback == (qaFallbackScoring || base.usedFallback)
    ensures r.matches == base.matches && r.candidateCount == base.candidateCount
    ensures r.wingman == base.wingman
  {
    base.(usedFallback := if qaFallbackScoring then true else base.usedFallback)
  }

  // ---------------------------------------------------------------------------
  // sample lookup

  /** The index of the first profile with the given id: the index `find` stops at. */
  function FindById(profiles: seq<ParsedProfile>, id: string): (r: Option<nat>)
    ensures r.Some? ==> r.value < |profiles| && profiles[r.value].id == id
    ensures forall j :: 0 <= j < |profiles| && (r.None? || j < r.value) ==> profiles[j].id != id
  {
    if profiles == [] then None
    else if profiles[0].id == id then Some(0)
    else match FindById(profiles[1..], id)
      case None => None
      case Some(j) => Some(j + 1)
  }

  /** `profiles.find(p => p.id === key) || profiles[0]`: the first profile whose id is the
      key; otherwise the first profile; nothing at all when there are no profiles. */
  function ProfileFromSample(profiles: seq<ParsedProfile>, k: ProfileKey): (r: Option<ParsedProfile>)
    ensures (exists j :: 0 <= j < |profiles| && profiles[j].id == KeyId(k)) ==>
      exists j :: 0 <= j < |profiles| && r == Some(profiles[j]) && profiles[j].id == KeyId(k)
        && forall i :: 0 <= i < j ==> profiles[i].id != KeyId(k)
    ensures (forall j :: 0 <= j < |profiles| ==> profiles[j].id != KeyId(k)) ==>
      r == if profiles == [] then None else Some(profiles[0])
  {
    match FindById(profiles, KeyId(k))
    case Some(j) => Some(profiles[j])
    case None => if profiles == [] then None else Some(profiles[0])
  }

  // ---------------------------------------------------------------------------
  // the views a run goes through

  /** Only the second stage is the scorer. */
  lemma ScorerIsStageOne(i: nat)
    requires i < |Stages|
    ensures Stages[i] == "Match Scorer" <==> i == ScorerIndex
  {
  }

  /** The stage list with the first `doneCount` stages done, the next one running when
      `current` holds, and the rest idle. */
  function View(doneCount: nat, current: bool): (v: seq<StepState>)
    ensures |v| == |Stages|
    ensures forall j :: 0 <= j < |Stages| ==> v[j].name == Stages[j]
  {
    seq(|Stages|, j requires 0 <= j < |Stages| =>
      StepState(Stages[j], if j < doneCount then Done else if j == doneCount && current then Running else Idle))
  }

  /** Stages before the current one are done, the current one runs, the ones after are idle:
      at most one stage of a view is running, and only the one right after the done prefix. */
  lemma ViewHasOneCurrentStage(doneCount: nat, current: bool, j: nat)
    requires j < |Stages|
    ensures View(doneCount, current)[j].status == Done <==> j < doneCount
    ensures View(doneCount, current)[j].status == Running <==> j == doneCount && current
  {
  }

  /** The views stages `from` .. `to` - 1 go through: each one running, then done. */
  function StageViews(from: nat, to: nat): seq<seq<StepState>>
    decreases (to as int) - from
  {
    if from >= to then [] else [View(from, true), View(from + 1, false)] + StageViews(from + 1, to)
  }

  /** The stage whose wait rejects, if it is one of the four. */
  function StopAt(rejectedWait: Option<nat>): (k: nat)
    ensures k <= |Stages|
  {
    if rejectedWait.Some? && rejectedWait.value < |Stages| then rejectedWait.value else |Stages|
  }

  /** Every value the stage list takes during a run, starting with the reset. */
  function RunViews(rejectedWait: Option<nat>): seq<seq<StepState>> {
    var k := StopAt(rejectedWait);
    [View(0, false)] + StageViews(0, k) + (if k < |Stages| then [View(k, true)] else [])
  }

  /** `b` is `a` with exactly one stage moved one status forward, idle to running or running to done. */
  ghost predicate OneStepForward(a: seq<StepState>, b: seq<StepState>) {
    exists j :: 0 <= j < |a| && a[j].status != Done &&
      b == a[j := StepState(a[j].name, if a[j].status == Idle then Running else Done)]
  }

  /** Starting stage `i` of `View(i, false)` gives `View(i, true)`. */
  lemma StartView(i: nat)
    requires i < |Stages|
    ensures View(i, false)[i := StepState(Stages[i], Running)] == View(i, true)
  {
  }

  /** Finishing stage `i` of `View(i, true)` gives `View(i + 1, false)`. */
  lemma FinishView(i: nat)
    requires i < |Stages|
    ensures View(i, true)[i := StepState(Stages[i], Done)] == View(i + 1, false)
  {
  }

  lemma StartStageIsOneStep(i: nat)
    requires i < |Stages|
    ensures OneStepForward(View(i, false), View(i, true))
  {
    StartView(i);
    assert View(i, false)[i].status == Idle;
  }

  lemma FinishStageIsOneStep(i: nat)
    requires i < |Stages|
    ensures OneStepForward(View(i, true), View(i + 1, false))
  {
    FinishView(i);
    assert View(i, true)[i].status == Running;
  }

  /** Each view of `vs` is one step forward from the one before it. */
  ghost predicate StepsForward(vs: seq<seq<StepState>>) {
    forall t :: 0 <= t < |vs| - 1 ==> OneStepForward(vs[t], vs[t + 1])
  }

  lemma StepsForwardCons(a: seq<StepState>, vs: seq<seq<StepState>>)
    requires vs != [] && OneStepForward(a, vs[0]) && StepsForward(vs)
    ensures StepsForward([a] + vs)
  {
    var ws := [a] + vs;
    forall t | 0 <= t < |ws| - 1
      ensures OneStepForward(ws[t], ws[t + 1])
    {
      if t > 0 { assert ws[t] == vs[t - 1] && ws[t + 1] == vs[t]; }
    }
  }

  lemma StepsForwardSnoc(vs: seq<seq<StepState>>, b: seq<StepState>)
    requires vs != [] && OneStepForward(vs[|vs| - 1], b) && StepsForward(vs)
    ensures StepsForward(vs + [b])
  {
    var ws := vs + [b];
    forall t | 0 <= t < |ws| - 1
      ensures OneStepForward(ws[t], ws[t + 1])
    {
      if t < |vs| - 1 { assert ws[t] == vs[t] && ws[t + 1] == vs[t + 1]; }
    }
  }

  /** Between `View(from, false)` and the views of stages `from` .. `to` - 1, each view is one
      step forward from the one before it. */
  lemma {:induction false} StageViewsStepForward(from: nat, to: nat)
    requires to <= |Stages|
    ensures StepsForward([View(from, false)] + StageViews(from, to))
    decreases (to as int) - from
  {
    if from < to {
      StageViewsStepForward(from + 1, to);
      var idle, running, next := View(from, false), View(from, true), View(from + 1, false);
      var rest := [next] + StageViews(from + 1, to);
      FinishStageIsOneStep(from);
      StepsForwardCons(running, rest);
      StartStageIsOneStep(from);
      StepsForwardCons(idle, [running] + rest);
      StageViewsUnfold(from, to);
    }
  }

  /** The views of stages `from` .. `to` - 1 end with stage `to` - 1 done. */
  lemma {:induction false} StageViewsLast(from: nat, to: nat)
    requires from < to
    ensures StageViews(from, to)[|StageViews(from, to)| - 1] == View(to, false)
    decreases (to as int) - from
  {
    if from + 1 < to {
      StageViewsLast(from + 1, to);
    }
  }

  lemma StageViewsUnfold(from: nat, to: nat)
    requires from < to
    ensures [View(from, false)] + StageViews(from, to)
      == [View(from, false)] + ([View(from, true)] + ([View(from + 1, false)] + StageViews(from + 1, to)))
  {
  }

  /** Running one more stage appends its two views. */
  lemma {:induction false} StageViewsSnoc(from: nat, to: nat)
    requires from <= to
    ensures StageViews(from, to + 1) == StageViews(from, to) + [View(to, true), View(to + 1, false)]
    decreases (to as int) - from
  {
    if from < to {
      StageViewsSnoc(from + 1, to);
    }
  }

  lemma RunViewsUnfold(rejectedWait: Option<nat>)
    ensures RunViews(rejectedWait) == [View(0, false)] + StageViews(0, StopAt(rejectedWait))
      + (if StopAt(rejectedWait) < |Stages| then [View(StopAt(rejectedWait), true)] else [])
  {
  }

  /** A run moves the stages strictly in order: from the reset on, every change of the stage
      list moves exactly one stage one status forward; a run that is not interrupted ends with
      every stage done. */
  lemma RunStepsForward(rejectedWait: Option<nat>)
    ensures RunViews(rejectedWait)[0] == View(0, false)
    ensures StepsForward(RunViews(rejectedWait))
    ensures StopAt(rejectedWait) == |Stages| ==>
      var last := RunViews(rejectedWait)[|RunViews(rejectedWait)| - 1];
      last == View(|Stages|, false) && forall j :: 0 <= j < |last| ==> last[j].status == Done
  {
    var k := StopAt(rejectedWait);
    StageViewsStepForward(0, k);
    if 0 < k { StageViewsLast(0, k); }
    var prefix := [View(0, false)] + StageViews(0, k);
    assert prefix[|prefix| - 1] == View(k, false);
    if k < |Stages| {
      StartStageIsOneStep(k);
      StepsForwardSnoc(prefix, View(k, true));
      assert RunViews(rejectedWait) == prefix + [View(k, true)];
    } else {
      assert RunViews(rejectedWait) == prefix;
    }
  }

  /** No two stages of `v` are running at once. */
  predicate AtMostOneRunning(v: seq<StepState>) {
    forall i, j :: 0 <= i < j < |v| && v[i].status == Running ==> v[j].status != Running
  }

  lemma ViewAtMostOneRunning(doneCount: nat, current: bool)
    ensures AtMostOneRunning(View(doneCount, current))
  {
    var v := View(doneCount, current);
    forall i, j | 0 <= i < j < |v| && v[i].status == Running
      ensures v[j].status != Running
    {
      ViewHasOneCurrentStage(doneCount, current, i);
      ViewHasOneCurrentStage(doneCount, current, j);
    }
  }

  lemma {:induction false} StageViewsAtMostOneRunning(from: nat, to: nat)
    ensures forall t :: 0 <= t < |StageViews(from, to)| ==> AtMostOneRunning(StageViews(from, to)[t])
    decreases (to as int) - from
  {
    if from < to {
      StageViewsAtMostOneRunning(from + 1, to);
      ViewAtMostOneRunning(from, true);
      ViewAtMostOneRunning(from + 1, false);
      var vs := StageViews(from, to);
      var rest := StageViews(from + 1, to);
      forall t | 0 <= t < |vs|
        ensures AtMostOneRunning(vs[t])
      {
        if t >= 2 { assert vs[t] == rest[t - 2]; }
      }
    }
  }

  /** At every moment of a run at most one stage is running. */
  lemma RunHasAtMostOneRunningStage(rejectedWait: Option<nat>)
    ensures forall t :: 0 <= t < |RunViews(rejectedWait)| ==> AtMostOneRunning(RunViews(rejectedWait)[t])
  {
    var k := StopAt(rejectedWait);
    var vs := RunViews(rejectedWait);
    StageViewsAtMostOneRunning(0, k);
    ViewAtMostOneRunning(0, false);
    ViewAtMostOneRunning(k, true);
    var mid := StageViews(0, k);
    forall t | 0 <= t < |vs|
      ensures AtMostOneRunning(vs[t])
    {
      if 1 <= t <= |mid| { assert vs[t] == mid[t - 1]; }
    }
  }

  // ---------------------------------------------------------------------------
  // the page state

  class MatchRunner {
    /** The sample profiles and the results fixture the page loads. */
    const profiles: seq<ParsedProfile>
    const fixture: MatchingResults

    var selectedSample: ProfileKey
    var qaParsingError: bool
    var qaFallbackScoring: bool
    var autoRunOnUpload: bool
    var parsedProfile: Option<ParsedProfile>
    var parseError: Option<string>

    const steps: array<StepState>
    var done: bool
    var results: Option<MatchingResults>
    /** `runningRef.current`. */
    var running: bool

    /** Every value the stage list has taken, oldest first. */
    ghost var history: seq<seq<StepState>>

    /** The stage list always holds the four stages, in order. */
    ghost predicate Valid()
      reads this`history, steps
    {
      && steps.Length == |Stages|
      && (forall j :: 0 <= j < |Stages| ==> steps[j].name == Stages[j])
      && history != [] && history[|history| - 1] == steps[..]
    }

    constructor (profiles: seq<ParsedProfile>, fixture: MatchingResults)
      ensures Valid() && fresh(steps)
      ensures this.profiles == profiles && this.fixture == fixture
      ensures selectedSample == U001 && !qaParsingError && !qaFallbackScoring && autoRunOnUpload
      ensures parsedProfile == None && parseError == None
      ensures steps[..] == View(0, false) && !done && results == None && !running
      ensures history == [View(0, false)]
    {
      this.profiles := profiles;
      this.fixture := fixture;
      selectedSample, qaParsingError, qaFallbackScoring, autoRunOnUpload := U001, false, false, true;
      parsedProfile, parseError := None, None;
      steps := new StepState[|Stages|](j requires 0 <= j < |Stages| => StepState(Stages[j], Idle));
      done, results, running := false, None, false;
      new;
      assert steps[..] == View(0, false);
      history := [steps[..]];
    }

    /** The memoised profile of the selected sample: one of the loaded profiles whenever
        there is one, and one whose id is not the key only when no profile has that id. */
    function SampleProfile(): (r: Option<ParsedProfile>)
      reads this
      ensures r.Some? <==> profiles != []
      ensures r.Some? ==> r.value in profiles
      ensures r.Some? && r.value.id != KeyId(selectedSample) ==>
        forall j :: 0 <= j < |profiles| ==> profiles[j].id != KeyId(selectedSample)
    {
      ProfileFromSample(profiles, selectedSample)
    }

    /** The auto-run effect's condition: a parsed profile, auto-run on, no run going and no
        run finished. */
    predicate AutoRunDue(): (r: bool)
      reads this
      ensures r ==> parsedProfile.Some? && autoRunOnUpload && !running && !done
    {
      parsedProfile.Some? && autoRunOnUpload && !running && !done
    }

    /** `next(index, {status})`: one stage takes a new status, every other stage is unchanged. */
    method Next(index: nat, status: StepStatus)
      requires Valid() && index < steps.Length
      modifies this`history, steps
      ensures Valid()
      ensures steps[index] == StepState(old(steps[index].name), status)
      ensures forall j :: 0 <= j < steps.Length && j != index ==> steps[j] == old(steps[j])
      ensures steps[..] == old(steps[..])[index := StepState(old(steps[index].name), status)]
      ensures history == old(history) + [steps[..]]
    {
      steps[index] := StepState(steps[index].name, status);
      history := history + [steps[..]];
    }

    /** `startRun`. With no parsed profile, or with a run already going, nothing changes.
        Otherwise the flag is raised, the results cleared and the stages reset to idle; the
        stages then run one after the other, the scorer publishing the selected sample's
        results; at the end, normal or not, the flag is lowered and the run is done.
        `rejectedWait` names the stage whose wait throws, if one does. */
    method StartRun(rejectedWait: Option<nat>)
      requires Valid()
      modifies this, steps
      ensures Valid()
      ensures old(parsedProfile.None? || running) ==> unchanged(this) && unchanged(steps)
      ensures old(parsedProfile.Some? && !running) ==>
        && !running && done
        && steps[..] == View(StopAt(rejectedWait), StopAt(rejectedWait) < |Stages|)
        && results == (if StopAt(rejectedWait) > ScorerIndex
                       then Some(ScoredResults(ResultsByProfile(fixture, old(selectedSample)), old(qaFallbackScoring)))
                       else None)
        && history == old(history) + RunViews(rejectedWait)
      ensures selectedSample == old(selectedSample) && qaParsingError == old(qaParsingError)
      ensures qaFallbackScoring == old(qaFallbackScoring) && autoRunOnUpload == old(autoRunOnUpload)
      ensures parsedProfile == old(parsedProfile) && parseError == old(parseError)
    {
      if parsedProfile.None? || running {
        return;
      }
      Run(rejectedWait);
    }

    /** The auto-run effect, run when the parsed profile or the auto-run switch changes: it
        starts a run exactly when `AutoRunDue` holds and otherwise changes nothing. Either way
        the effect is not due afterwards, since a run ends done. */
    method AutoRun(rejectedWait: Option<nat>)
      requires Valid()
      modifies this, steps
      ensures Valid()
      ensures !old(AutoRunDue()) ==> unchanged(this) && unchanged(steps)
      ensures old(AutoRunDue()) ==>
        && !running && done
        && steps[..] == View(StopAt(rejectedWait), StopAt(rejectedWait) < |Stages|)
        && results == (if StopAt(rejectedWait) > ScorerIndex
                       then Some(ScoredResults(ResultsByProfile(fixture, old(selectedSample)), old(qaFallbackScoring)))
                       else None)
        && history == old(history) + RunViews(rejectedWait)
      ensures selectedSample == old(selectedSample) && qaParsingError == old(qaParsingError)
      ensures qaFallbackScoring == old(qaFallbackScoring) && autoRunOnUpload == old(autoRunOnUpload)
      ensures parsedProfile == old(parsedProfile) && parseError == old(parseError)
      ensures !AutoRunDue()
    {
      if AutoRunDue() {
        StartRun(rejectedWait);
      }
    }

    /** The body of `startRun` past its guard. */
    method Run(rejectedWait: Option<nat>)
      requires Valid() && parsedProfile.Some? && !running
      modifies this`running, this`done, this`results, this`history, steps
      ensures Valid() && !running && done
      ensures steps[..] == View(StopAt(rejectedWait), StopAt(rejectedWait) < |Stages|)
      ensures results == (if StopAt(rejectedWait) > ScorerIndex
                          then Some(ScoredResults(ResultsByProfile(fixture, selectedSample), qaFallbackScoring))
                          else None)
      ensures history == old(history) + RunViews(rejectedWait)
    {
      running := true;
      done := false;
      results := None;
      ResetSteps();
      RunStages(rejectedWait);
      RunViewsUnfold(rejectedWait);
      running := false;
      done := true;
    }

    /** `setSteps(STEPS.map(label => ({label, status: "idle"})))`. */
    method ResetSteps()
      requires Valid() && running && !done
      modifies this`history, steps
      ensures Valid()
      ensures steps[..] == View(0, false) && history == old(history) + [View(0, false)]
    {
      for j := 0 to steps.Length
        modifies steps
        invariant steps[..j] == View(0, false)[..j]
        invariant forall m :: j <= m < steps.Length ==> steps[m].name == Stages[m]
      {
        steps[j] := StepState(Stages[j], Idle);
      }
      assert steps[..] == View(0, false);
      history := history + [steps[..]];
    }

    /** The `for` loop of `startRun`: each stage is marked running, waits, and is marked done;
        the scorer publishes its results between the two. A wait that rejects leaves the loop
        with its stage still running. */
    method RunStages(rejectedWait: Option<nat>)
      requires Valid() && running && !done && steps[..] == View(0, false) && results == None
      modifies this`history, this`results, steps
      ensures Valid()
      ensures steps[..] == View(StopAt(rejectedWait), StopAt(rejectedWait) < |Stages|)
      ensures results == (if StopAt(rejectedWait) > ScorerIndex
                          then Some(ScoredResults(ResultsByProfile(fixture, selectedSample), qaFallbackScoring))
                          else None)
      ensures history == old(history) + StageViews(0, StopAt(rejectedWait))
        + (if StopAt(rejectedWait) < |Stages| then [View(StopAt(rejectedWait), true)] else [])
    {
      var i := 0;
      var aborted := false;
      while i < steps.Length && !aborted
        invariant Valid() && 0 <= i <= |Stages|
        invariant aborted ==> i < |Stages| && rejectedWait == Some(i)
        invariant forall m :: 0 <= m < i ==> rejectedWait != Some(m)
        invariant steps[..] == View(i, aborted)
        invariant history == old(history) + StageViews(0, i) + (if aborted then [View(i, true)] else [])
        invariant results == (if i > ScorerIndex
                              then Some(ScoredResults(ResultsByProfile(fixture, selectedSample), qaFallbackScoring))
                              else None)
        decreases |Stages| - i, !aborted
      {
        aborted := RunStage(i, rejectedWait == Some(i));
        if !aborted {
          StageViewsSnoc(0, i);
          i := i + 1;
        }
      }
    }

    /** One iteration of that loop: stage `i` is marked running; unless its wait rejects, the
        scorer publishes its results and the stage is marked done. */
    method RunStage(i: nat, rejected: bool) returns (aborted: bool)
      requires Valid() && running && !done && i < |Stages| && steps[..] == View(i, false)
      modifies this`history, this`results, steps
      ensures Valid() && aborted == rejected
      ensures rejected ==> steps[..] == View(i, true) && history == old(history) + [View(i, true)]
      ensures rejected ==> results == old(results)
      ensures !rejected ==> steps[..] == View(i + 1, false)
      ensures !rejected ==> history == old(history) + [View(i, true), View(i + 1, false)]
      ensures !rejected ==> results == if i == ScorerIndex
        then Some(ScoredResults(ResultsByProfile(fixture, selectedSample), qaFallbackScoring))
        else old(results)
    {
      StartView(i);
      Next(i, Running);
      if rejected {
        return true;
      }
      ScorerIsStageOne(i);
      if Stages[i] == "Match Scorer" {
        var base := ResultsByProfile(fixture, selectedSample);
        results := Some(ScoredResults(base, qaFallbackScoring));
      }
      FinishView(i);
      Next(i, Done);
      aborted := false;
    }

    /** `onUploadParsed`. With the forced parse error on, the profile is dropped and the error
        shown; otherwise the error is cleared and the profile stored, and a run is scheduled
        when auto-run is on. No run starts inside the callback, but once the profile is stored
        with auto-run on and no run yet, the auto-run effect is due. */
    method OnUploadParsed(p: ParsedProfile) returns (runScheduled: bool)
      requires Valid()
      modifies this`parsedProfile, this`parseError
      ensures Valid()
      ensures qaParsingError ==> parsedProfile == None && parseError == Some(ParseErrorMessage) && !runScheduled
      ensures !qaParsingError ==> parsedProfile == Some(p) && parseError == None && runScheduled == autoRunOnUpload
      ensures !running && !done ==> (runScheduled <==> AutoRunDue())
      ensures !qaParsingError && autoRunOnUpload && !running && !done ==> AutoRunDue()
    {
      runScheduled := ReceiveProfile(Some(p));
    }

    /** The body of `onUploadParsed` applied to whatever value arrives; `undefined` is `None`. */
    method ReceiveProfile(p: Option<ParsedProfile>) returns (runScheduled: bool)
      requires Valid()
      modifies this`parsedProfile, this`parseError
      ensures Valid()
      ensures qaParsingError ==> parsedProfile == None && parseError == Some(ParseErrorMessage) && !runScheduled
      ensures !qaParsingError ==> parsedProfile == p && parseError == None && runScheduled == autoRunOnUpload
    {
      if qaParsingError {
        parsedProfile := None;
        parseError := Some(ParseErrorMessage);
        return false;
      }
      parseError := None;
      parsedProfile := p;
      runScheduled := autoRunOnUpload;
    }

    /** `<FileUpload onComplete={onUploadParsed}>` as wired: the upload component calls
        `onComplete()` with no argument, so `onUploadParsed` receives `undefined` and stores
        it. No profile is then present, and the auto-run effect cannot be due. */
    method UploadCompletedAsWired() returns (runScheduled: bool)
      requires Valid()
      modifies this`parsedProfile, this`parseError
      ensures Valid() && parsedProfile == None && !AutoRunDue()
      ensures qaParsingError ==> parseError == Some(ParseErrorMessage) && !runScheduled
      ensures !qaParsingError ==> parseError == None && runScheduled == autoRunOnUpload
    {
      runScheduled := ReceiveProfile(None);
    }

    /** The discrepancy: with auto-run on and no run yet, a completed upload reports a run as
        scheduled, yet neither the scheduled `startRun` nor the auto-run effect starts one. The
        stages stay as they were and the run never becomes done. */
    method WiredUploadStartsNoRun(rejectedWait: Option<nat>) returns (runScheduled: bool)
      requires Valid() && !qaParsingError && autoRunOnUpload && !running && !done
      modifies this, steps
      ensures Valid() && runScheduled
      ensures parsedProfile == None && parseError == None && !running && !done
      ensures steps[..] == old(steps[..]) && results == old(results) && history == old(history)
      ensures selectedSample == old(selectedSample) && qaParsingError == old(qaParsingError)
      ensures qaFallbackScoring == old(qaFallbackScoring) && autoRunOnUpload == old(autoRunOnUpload)
    {
      runScheduled := UploadCompletedAsWired();
      if runScheduled {
        StartRun(rejectedWait);
      }
      AutoRun(rejectedWait);
    }

    /** The intended flow: when the upload hands over the parsed profile, with auto-run on and
        no run yet, the auto-run effect runs all the stages and the run ends done. */
    method ParsedUploadStartsRun(p: ParsedProfile, rejectedWait: Option<nat>) returns (runScheduled: bool)
      requires Valid() && !qaParsingError && autoRunOnUpload && !running && !done
      modifies this, steps
      ensures Valid() && runScheduled
      ensures parsedProfile == Some(p) && parseError == None && !running && done
      ensures steps[..] == View(StopAt(rejectedWait), StopAt(rejectedWait) < |Stages|)
      ensures results == (if StopAt(rejectedWait) > ScorerIndex
                          then Some(ScoredResults(ResultsByProfile(fixture, old(selectedSample)), old(qaFallbackScoring)))
                          else None)
      ensures history == old(history) + RunViews(rejectedWait)
      ensures selectedSample == old(selectedSample) && qaParsingError == old(qaParsingError)
      ensures qaFallbackScoring == old(qaFallbackScoring) && autoRunOnUpload == old(autoRunOnUpload)
    {
      runScheduled := OnUploadParsed(p);
      AutoRun(rejectedWait);
    }

    /** The preview's `onEdit`: the edited profile replaces the parsed one. */
    method EditProfile(p: ParsedProfile)
      requires Valid()
      modifies this`parsedProfile
      ensures Valid() && parsedProfile == Some(p)
    {
      parsedProfile := Some(p);
    }

    method SelectSample(k: ProfileKey)
      requires Valid()
      modifies this`selectedSample
      ensures Valid() && selectedSample == k
      ensures SampleProfile() == ProfileFromSample(profiles, k)
      ensures SampleProfile().Some? ==> SampleProfile().value in profiles
    {
      selectedSample := k;
    }

    method SetQaParsingError(on: bool)
      requires Valid()
      modifies this`qaParsingError
      ensures Valid() && qaParsingError == on
    {
      qaParsingError := on;
    }

    method SetQaFallbackScoring(on: bool)
      requires Valid()
      modifies this`qaFallbackScoring
      ensures Valid() && qaFallbackScoring == on
    {
      qaFallbackScoring := on;
    }

    method SetAutoRunOnUpload(on: bool)
      requires Valid()
      modifies this`autoRunOnUpload
      ensures Valid() && autoRunOnUpload == on
    {
      autoRunOnUpload := on;
    }
  }
}
