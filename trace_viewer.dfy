/**
 * The trace viewer (`src/components/room-matcher/trace-viewer.tsx`): its copy of the log,
 * the set of expanded entries, and the summaries it shows over the log: the time to the
 * next entry, the total span and the count of entries per status.
 */
module TraceViewer {
  import opened Wrappers
  import opened Text
  import opened Trace

  /** `toggleExpanded(idx)` on a copy of the set: `idx` changes membership, nothing else does. */
  function ToggleExpanded(expanded: set<int>, idx: int): (r: set<int>)
    ensures idx in r <==> idx !in expanded
    ensures forall j :: j != idx ==> (j in r <==> j in expanded)
  {
    if idx in expanded then expanded - {idx} else expanded + {idx}
  }

  /** Toggling the same entry twice gives back the original set. */
  lemma ToggleTwice(expanded: set<int>, idx: int)
    ensures ToggleExpanded(ToggleExpanded(expanded, idx), idx) == expanded
  {
  }

  /** A duration as the viewer shows it: literal text, or a number of milliseconds shown as
      seconds with two decimals. */
  datatype DurationLabel = Plain(text: string) | Seconds(ms: int)

  /** `getStepDuration(idx)`: nothing for the last entry or when there is no next entry;
      otherwise the gap to the next entry, in milliseconds below one second. */
  function StepDuration<D>(logs: seq<LogEntry<D>>, idx: nat): (r: Option<DurationLabel>)
    ensures r.None? <==> idx + 1 >= |logs|
    ensures r.Some? ==>
      var diff := logs[idx + 1].timestamp - logs[idx].timestamp;
      r.value == if diff < 1000 then Plain(IntToString(diff) + "ms") else Seconds(diff)
  {
    if idx == |logs| - 1 then None
    else if idx + 1 >= |logs| then None
    else
      var diff := logs[idx + 1].timestamp - logs[idx].timestamp;
      if diff < 1000 then Some(Plain(IntToString(diff) + "ms")) else Some(Seconds(diff))
  }

  /** A gap under one second is shown as its decimal text followed by "ms". */
  lemma ShortGapInMilliseconds<D>(logs: seq<LogEntry<D>>, idx: nat)
    requires idx + 1 < |logs| && logs[idx + 1].timestamp - logs[idx].timestamp < 1000
    ensures var r := StepDuration(logs, idx);
      && r.Some? && r.value.Plain?
      && var t := r.value.text;
      && |t| > 2 && t[|t| - 2..] == "ms"
      && ParseInt(t[..|t| - 2]) == Some(logs[idx + 1].timestamp - logs[idx].timestamp)
  {
    var diff := logs[idx + 1].timestamp - logs[idx].timestamp;
    var t := IntToString(diff) + "ms";
    assert t[..|t| - 2] == IntToString(diff);
    IntToStringRoundTrip(diff);
  }

  /** `totalDuration`: "0" with fewer than two entries, else the span from first to last. */
  function TotalDuration<D>(logs: seq<LogEntry<D>>): (r: DurationLabel)
    ensures |logs| < 2 ==> r == Plain("0")
    ensures |logs| >= 2 ==> r == Seconds(logs[|logs| - 1].timestamp - logs[0].timestamp)
  {
    if |logs| > 1 then Seconds(logs[|logs| - 1].timestamp - logs[0].timestamp) else Plain("0")
  }

  /** The number of entries with the given status. */
  function CountStatus<D>(logs: seq<LogEntry<D>>, status: LogStatus): nat {
    if logs == [] then 0
    else CountStatus(logs[..|logs| - 1], status) + (if logs[|logs| - 1].status == status then 1 else 0)
  }

  /** Every entry has exactly one of the four statuses, so the counts add up to the length. */
  lemma {:induction false} CountsSumToLength<D>(logs: seq<LogEntry<D>>)
    ensures CountStatus(logs, LogStatus.Start) + CountStatus(logs, LogStatus.Progress)
      + CountStatus(logs, LogStatus.Success) + CountStatus(logs, LogStatus.Error) == |logs|
  {
    if logs != [] {
      CountsSumToLength(logs[..|logs| - 1]);
    }
  }

  /** `statusCounts`, the `reduce` over the log: a status is a key exactly when some entry has
      it, and its value is the number of entries that have it. */
  method StatusCounts<D>(logs: seq<LogEntry<D>>) returns (counts: map<LogStatus, nat>)
    ensures forall st :: st in counts <==> CountStatus(logs, st) > 0
    ensures forall st :: st in counts ==> counts[st] == CountStatus(logs, st)
  {
    counts := map[];
    for i := 0 to |logs|
      invariant forall st :: st in counts <==> CountStatus(logs[..i], st) > 0
      invariant forall st :: st in counts ==> counts[st] == CountStatus(logs[..i], st)
    {
      assert logs[..i + 1][..i] == logs[..i];
      var st := logs[i].status;
      counts := counts[st := (if st in counts then counts[st] else 0) + 1];
    }
    assert logs[..|logs|] == logs;
  }

  /** The viewer's state: its own copy of the tracer's log and the expanded entries. */
  class TraceViewer<D> {
    const tracer: FlowTracer<D>
    var logs: seq<LogEntry<D>>
    var expanded: set<int>

    /** `useState(FlowTracer.getLogs())` and an empty expanded set. */
    constructor (tracer: FlowTracer<D>)
      ensures this.tracer == tracer && logs == tracer.logs && expanded == {}
    {
      this.tracer := tracer;
      logs := tracer.logs;
      expanded := {};
    }

    /** `refreshLogs`: the viewer's copy catches up with the tracer. */
    method Refresh()
      modifies this`logs
      ensures logs == tracer.logs && expanded == old(expanded)
    {
      logs := tracer.GetLogs();
    }

    /** A click on entry `idx` toggles it, but only when the entry carries data. */
    method ClickEntry(idx: nat)
      requires idx < |logs|
      modifies this`expanded
      ensures expanded == if logs[idx].data.Some? then ToggleExpanded(old(expanded), idx) else old(expanded)
    {
      if logs[idx].data.Some? {
        expanded := ToggleExpanded(expanded, idx);
      }
    }

    /** The Clear button, disabled while the viewer's copy is empty: then a click does nothing.
        Otherwise the tracer's log, the viewer's copy and the expanded set all end empty. */
    method ClickClear()
      modifies this`logs, this`expanded, tracer
      ensures old(logs) == [] ==> logs == [] && expanded == old(expanded) && tracer.logs == old(tracer.logs)
      ensures old(logs) != [] ==> tracer.logs == [] && logs == [] && expanded == {}
    {
      if logs == [] {
        return;
      }
      tracer.Clear();
      logs := [];
      expanded := {};
    }
  }
}
