/**
 * The flow tracer (`src/types/trace.ts`): an append-only log of stage events that can be
 * read as a copy, cleared, and exported as plain records. The clock is a parameter of
 * `Log`; the ISO-8601 formatting of a timestamp is a parameter of the export.
 */
module Trace {
  import opened Wrappers

  datatype LogStatus = Start | Progress | Success | Error

  /** One traced event; `data` is whatever payload the caller attached, if any. */
  datatype LogEntry<D> = LogEntry(timestamp: int, step: string, status: LogStatus, data: Option<D>)

  /** An exported event: the timestamp becomes text, the rest is copied. */
  datatype ExportRecord<D> = ExportRecord(time: string, step: string, status: LogStatus, data: Option<D>)

  /** The emoji `log` prints in front of an event: one for each of the four statuses. */
  function Emoji(status: LogStatus): string {
    match status
    case Start => "\U{1F680}"
    case Progress => "\U{23F3}"
    case Success => "\U{2705}"
    case Error => "\U{274C}"
  }

  /** Different statuses print different emoji. */
  lemma EmojiDistinguishesStatuses(a: LogStatus, b: LogStatus)
    requires Emoji(a) == Emoji(b)
    ensures a == b
  {
  }

  /** The record projection of `exportTrace`: one record per entry, in order, each taken from
      its own entry. */
  function ExportRecords<D>(logs: seq<LogEntry<D>>, iso: int -> string): (r: seq<ExportRecord<D>>)
    ensures |r| == |logs|
    ensures forall i :: 0 <= i < |logs| ==>
      r[i] == ExportRecord(iso(logs[i].timestamp), logs[i].step, logs[i].status, logs[i].data)
  {
    if logs == [] then []
    else
      var e := logs[0];
      [ExportRecord(iso(e.timestamp), e.step, e.status, e.data)] + ExportRecords(logs[1..], iso)
  }

  /** `FlowTracerClass`. */
  class FlowTracer<D> {
    var logs: seq<LogEntry<D>>

    constructor ()
      ensures logs == []
    {
      logs := [];
    }

    /** `log(step, status, data)` at time `now`: exactly one entry, carrying exactly these
        values, is added at the end; the earlier entries stay as they were. */
    method Log(step: string, status: LogStatus, data: Option<D>, now: int)
      modifies this
      ensures logs == old(logs) + [LogEntry(now, step, status, data)]
      ensures |logs| == |old(logs)| + 1 && logs[..|old(logs)|] == old(logs)
    {
      logs := logs + [LogEntry(now, step, status, data)];
    }

    /** `getLogs`: a copy equal to the log. The copy is shallow: it is a new list holding the
        same entries. Entries are values here, so sharing them is not observable. */
    method GetLogs() returns (copy: seq<LogEntry<D>>)
      ensures copy == logs
    {
      copy := logs;
    }

    /** `clear`: the log becomes empty. */
    method Clear()
      modifies this
      ensures logs == []
    {
      logs := [];
    }

    /** The records `exportTrace` serialises. */
    method ExportTrace(iso: int -> string) returns (trace: seq<ExportRecord<D>>)
      ensures trace == ExportRecords(logs, iso)
    {
      trace := ExportRecords(logs, iso);
    }
  }
}
