/**
 * The append-only audit log (app/utils/audit.py). The JSONL file is a
 * sequence of lines, `None` while the file does not exist; `log_action`
 * appends one line, and the two queries read the file back.
 */
module Audit {
  import opened Common
  import opened Schemas

  /**
   * The error a malformed line raises. A line is seen only as a written
   * entry or as malformed: the text of `json.loads`'s decode error, and a
   * line that is valid JSON but not an object (which `get_recent_logs`
   * returns and `get_session_logs` trips over at `.get`), are abstracted.
   */
  const MalformedLineError := "malformed JSON line"

  /** The lines of the file; a missing file has none. */
  function LinesOf(file: Option<seq<Line>>): seq<Line>
  {
    if file.Some? then file.value else []
  }

  /** The lines that writing `es` in order produces. */
  function LinesFor(es: seq<AuditEntry>): (lines: seq<Line>)
    ensures |lines| == |es|
    ensures forall i :: 0 <= i < |es| ==> lines[i] == Entry(es[i])
  {
    seq(|es|, i requires 0 <= i < |es| => Entry(es[i]))
  }

  /** The file after one append; opening in mode "a" creates a missing file. */
  function Appended(file: Option<seq<Line>>, e: AuditEntry): Option<seq<Line>>
  {
    Some(LinesOf(file) + [Entry(e)])
  }

  /** The file after appending each of `es` in turn. */
  function AppendedAll(file: Option<seq<Line>>, es: seq<AuditEntry>): Option<seq<Line>>
    decreases |es|
  {
    if es == [] then file else AppendedAll(Appended(file, es[0]), es[1..])
  }

  /** Appending entries one by one adds exactly their lines at the end, in order. */
  lemma {:induction false} AppendedAllLines(file: Option<seq<Line>>, es: seq<AuditEntry>)
    requires es != [] || file.Some?
    ensures AppendedAll(file, es) == Some(LinesOf(file) + LinesFor(es))
    decreases |es|
  {
    if es == [] {
      assert LinesOf(file) + LinesFor(es) == LinesOf(file);
    } else {
      var next := Appended(file, es[0]);
      AppendedAllLines(next, es[1..]);
      assert LinesOf(next) + LinesFor(es[1..]) == LinesOf(file) + LinesFor(es);
    }
  }

  /** Appending `a` and then `b` is appending `a + b`. */
  lemma {:induction false} AppendedAllConcat(file: Option<seq<Line>>, a: seq<AuditEntry>, b: seq<AuditEntry>)
    ensures AppendedAll(file, a + b) == AppendedAll(AppendedAll(file, a), b)
    decreases |a|
  {
    if a == [] {
      assert a + b == b;
    } else {
      assert (a + b)[1..] == a[1..] + b;
      AppendedAllConcat(Appended(file, a[0]), a[1..], b);
    }
  }

  /** Appending two entries is two appends. */
  lemma AppendedTwo(file: Option<seq<Line>>, es: seq<AuditEntry>)
    requires |es| == 2
    ensures AppendedAll(file, es) == Appended(Appended(file, es[0]), es[1])
  {
    var once := Appended(file, es[0]);
    assert AppendedAll(file, es) == AppendedAll(once, es[1..]);
    assert es[1..][0] == es[1] && es[1..][1..] == [];
    assert AppendedAll(once, es[1..]) == AppendedAll(Appended(once, es[1]), []);
  }

  /** The start index of Python's `lines[-limit:]` on n lines. */
  function TailStart(n: nat, limit: int): (k: nat)
    ensures k <= n
  {
    var start := -limit;
    if start < 0 then (if n + start < 0 then 0 else n + start)
    else if start > n then n
    else start
  }

  /** `json.loads` applied to each line in order; the first malformed line raises. */
  function ParseLines(lines: seq<Line>): (r: Reply<seq<AuditEntry>>)
    ensures r.Ok? <==> forall i :: 0 <= i < |lines| ==> lines[i].Entry?
    ensures r.Ok? ==> |r.value| == |lines| && forall i :: 0 <= i < |lines| ==> r.value[i] == lines[i].entry
    ensures r.Raised? ==> r == Raised(MalformedLineError)
    decreases |lines|
  {
    if lines == [] then Ok([])
    else match lines[0]
      case Malformed(_) => Raised(MalformedLineError)
      case Entry(e) =>
        var rest :- ParseLines(lines[1..]);
        Ok([e] + rest)
  }

  /** `get_recent_logs(limit)`: parse the lines of `lines[-limit:]`; a missing file gives []. */
  function RecentLogs(file: Option<seq<Line>>, limit: int): Reply<seq<AuditEntry>>
  {
    match file
    case None => Ok([])
    case Some(lines) => ParseLines(lines[TailStart(|lines|, limit)..])
  }

  /** `log_entry.get("input_data", {}).get("session_id") == session_id`. */
  predicate InSession(e: AuditEntry, sessionId: string)
  {
    Get(e.inputData, "session_id") == Str(sessionId)
  }

  /** The entries of `es` that belong to the session, in their order. */
  function SessionFilter(es: seq<AuditEntry>, sessionId: string): seq<AuditEntry>
    decreases |es|
  {
    if es == [] then []
    else
      var last := es[|es| - 1];
      SessionFilter(es[..|es| - 1], sessionId) + (if InSession(last, sessionId) then [last] else [])
  }

  /** `get_session_logs(session_id)`: every line is parsed; a missing file gives []. */
  function SessionLogs(file: Option<seq<Line>>, sessionId: string): Reply<seq<AuditEntry>>
  {
    match file
    case None => Ok([])
    case Some(lines) =>
      var es :- ParseLines(lines);
      Ok(SessionFilter(es, sessionId))
  }

  class AuditLogger {
    /** The log file's lines, or None while it does not exist. */
    var file: Option<seq<Line>>

    constructor (existing: Option<seq<Line>>)
      ensures file == existing
    {
      file := existing;
    }

    /** `log_action`: appends exactly one entry, carrying its arguments verbatim. */
    method LogAction(agentName: string, action: string, inputData: Record, outputData: Payload, confidence: int)
      modifies this
      ensures file == Appended(old(file), AuditEntry(agentName, action, inputData, outputData, confidence))
    {
      file := Some(LinesOf(file) + [Entry(AuditEntry(agentName, action, inputData, outputData, confidence))]);
    }

    /** `get_recent_logs`: parses the window line by line. */
    method GetRecentLogs(limit: int) returns (r: Reply<seq<AuditEntry>>)
      ensures r == RecentLogs(file, limit)
    {
      if file.None? {
        return Ok([]);
      }
      var lines := file.value;
      var window := lines[TailStart(|lines|, limit)..];
      var logs: seq<AuditEntry> := [];
      var i := 0;
      while i < |window|
        invariant 0 <= i <= |window|
        invariant forall k :: 0 <= k < i ==> window[k].Entry?
        invariant |logs| == i && forall k :: 0 <= k < i ==> logs[k] == window[k].entry
      {
        if window[i].Malformed? {
          return Raised(MalformedLineError);
        }
        logs := logs + [window[i].entry];
        i := i + 1;
      }
      assert ParseLines(window).value == logs;
      r := Ok(logs);
    }

    /** `get_session_logs`: parses every line and keeps those of the session. */
    method GetSessionLogs(sessionId: string) returns (r: Reply<seq<AuditEntry>>)
      ensures r == SessionLogs(file, sessionId)
    {
      if file.None? {
        return Ok([]);
      }
      var lines := file.value;
      var logs: seq<AuditEntry> := [];
      ghost var parsed: seq<AuditEntry> := [];
      var i := 0;
      while i < |lines|
        invariant 0 <= i <= |lines|
        invariant forall k :: 0 <= k < i ==> lines[k].Entry?
        invariant |parsed| == i && forall k :: 0 <= k < i ==> parsed[k] == lines[k].entry
        invariant logs == SessionFilter(parsed, sessionId)
      {
        if lines[i].Malformed? {
          return Raised(MalformedLineError);
        }
        var e := lines[i].entry;
        if InSession(e, sessionId) {
          logs := logs + [e];
        }
        assert (parsed + [e])[..|parsed|] == parsed;
        parsed := parsed + [e];
        i := i + 1;
      }
      assert ParseLines(lines).value == parsed;
      r := Ok(logs);
    }
  }

  // ------------------------------------------------------------ properties

  /** Lines that `log_action` wrote parse back to the entries written. */
  lemma ParseWritten(es: seq<AuditEntry>)
    ensures ParseLines(LinesFor(es)) == Ok(es)
  {
    assert ParseLines(LinesFor(es)).value == es;
  }

  /** For a positive limit, the recent logs are the last min(limit, n) entries in write order. */
  lemma RecentIsLastEntries(es: seq<AuditEntry>, limit: int)
    requires limit >= 1
    ensures RecentLogs(Some(LinesFor(es)), limit) ==
            Ok(es[|es| - (if limit < |es| then limit else |es|)..])
  {
    var lines := LinesFor(es);
    var k := TailStart(|lines|, limit);
    assert lines[k..] == LinesFor(es[k..]);
    ParseWritten(es[k..]);
  }

  /** `lines[-0:]` is the whole list, so a limit of 0 returns every entry. */
  lemma RecentZeroIsEverything(es: seq<AuditEntry>)
    ensures RecentLogs(Some(LinesFor(es)), 0) == Ok(es)
  {
    assert LinesFor(es)[0..] == LinesFor(es);
    ParseWritten(es);
  }

  /** A negative limit -k drops the first k entries. */
  lemma RecentNegativeDrops(es: seq<AuditEntry>, k: int)
    requires k >= 1
    ensures RecentLogs(Some(LinesFor(es)), -k) == Ok(es[(if k < |es| then k else |es|)..])
  {
    var lines := LinesFor(es);
    var s := TailStart(|lines|, -k);
    assert lines[s..] == LinesFor(es[s..]);
    ParseWritten(es[s..]);
  }

  /** Round trip: N entries appended to a missing log come back from `get_recent_logs(N)`, in order. */
  lemma RecentRoundTrip(es: seq<AuditEntry>)
    requires |es| >= 1
    ensures RecentLogs(AppendedAll(None, es), |es|) == Ok(es)
  {
    AppendedAllLines(None, es);
    assert LinesOf(None) + LinesFor(es) == LinesFor(es);
    RecentIsLastEntries(es, |es|);
  }

  /** A malformed line inside the window makes `get_recent_logs` raise. */
  lemma RecentFailsOnMalformedInWindow(lines: seq<Line>, limit: int, j: nat)
    requires TailStart(|lines|, limit) <= j < |lines| && lines[j].Malformed?
    ensures RecentLogs(Some(lines), limit) == Raised(MalformedLineError)
  {
    var k := TailStart(|lines|, limit);
    assert lines[k..][j - k] == lines[j];
  }

  /** Any malformed line makes `get_session_logs` raise: there is no partial recovery. */
  lemma SessionFailsOnMalformed(lines: seq<Line>, sessionId: string, j: nat)
    requires j < |lines| && lines[j].Malformed?
    ensures SessionLogs(Some(lines), sessionId) == Raised(MalformedLineError)
  {
  }

  /** The session filter keeps exactly the entries of the session. */
  lemma {:induction false} SessionFilterMembers(es: seq<AuditEntry>, sessionId: string)
    ensures forall e :: e in SessionFilter(es, sessionId) <==> e in es && InSession(e, sessionId)
    decreases |es|
  {
    if es != [] {
      var init := es[..|es| - 1];
      SessionFilterMembers(init, sessionId);
      assert es == init + [es[|es| - 1]];
    }
  }

  /** `get_session_logs` on a well-formed log returns exactly the session's entries. */
  lemma SessionLogsOfWritten(es: seq<AuditEntry>, sessionId: string)
    ensures SessionLogs(Some(LinesFor(es)), sessionId).Ok?
    ensures forall e :: e in SessionLogs(Some(LinesFor(es)), sessionId).value <==> e in es && InSession(e, sessionId)
  {
    ParseWritten(es);
    SessionFilterMembers(es, sessionId);
  }

  /** After one more append, a well-formed log's session view grows by that entry exactly when it is in the session. */
  lemma SessionLogsAfterAppend(file: Option<seq<Line>>, e: AuditEntry, sessionId: string)
    requires SessionLogs(file, sessionId).Ok?
    ensures SessionLogs(Appended(file, e), sessionId) ==
            Ok(SessionLogs(file, sessionId).value + (if InSession(e, sessionId) then [e] else []))
  {
    var lines := LinesOf(file);
    var es := ParseLines(lines).value;
    var lines' := lines + [Entry(e)];
    assert forall i :: 0 <= i < |lines'| ==> lines'[i].Entry?;
    var es' := ParseLines(lines').value;
    assert es' == es + [e];
    assert es'[..|es'| - 1] == es;
    assert SessionFilter(es', sessionId) == SessionFilter(es, sessionId) + (if InSession(e, sessionId) then [e] else []);
    assert SessionLogs(file, sessionId).value == SessionFilter(es, sessionId);
  }
}
