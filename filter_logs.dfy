/** A model of the capture filter of a mitmproxy add-on: the `request` hook
    that arms recording on a start marker, buffers request metadata while
    recording, and persists the buffer when it sees a stop marker.

    The hook itself is the class CaptureFilter; the pure functions Step and
    Run are its specification, one call and a sequence of calls at a time.
 */
module FilterLogs {

  datatype Option<T> = None | Some(value: T)

  /** What the hook reads of an intercepted request. The timestamp is carried
      as an opaque value: nothing is computed from it. */
  datatype HttpRequest = HttpRequest(
    url: string,
    httpMethod: string,
    headers: map<string, string>,
    query: map<string, string>,
    timestampStart: real)

  /** One buffered entry, with the fields the hook copies from the request. */
  datatype LogEntry = LogEntry(
    url: string,
    httpMethod: string,
    headers: map<string, string>,
    queryParams: map<string, string>,
    timestamp: real)

  /** The two URL markers that open and close a session. */
  datatype Markers = Markers(start: string, stop: string)

  /** The process-wide state of the hook: the flag and the buffer. */
  datatype State = State(recording: bool, logs: seq<LogEntry>)

  /** The state after one call, and the snapshot handed to the persist
      operation when the call ended a session. */
  datatype Outcome = Outcome(next: State, persisted: Option<seq<LogEntry>>)

  /** The state after a sequence of calls, and every snapshot persisted on
      the way, in order. */
  datatype Trace = Trace(final: State, saves: seq<seq<LogEntry>>)

  const Idle := State(false, [])

  // ---------------------------------------------------------------------
  // Matching

  /** `sub` occurs in `s` starting at index `i`. */
  predicate OccursAt(s: string, sub: string, i: int)
  {
    0 <= i && i + |sub| <= |s| && s[i..i + |sub|] == sub
  }

  /** Substring containment, as Python's `sub in s`. */
  predicate Contains(s: string, sub: string)
  {
    exists i | 0 <= i <= |s| - |sub| :: OccursAt(s, sub, i)
  }

  /** A request triggers a marker when it is a GET whose URL contains it. */
  predicate Triggers(marker: string, req: HttpRequest)
  {
    Contains(req.url, marker) && req.httpMethod == "GET"
  }

  lemma EmbeddedMarkerTriggers(marker: string, req: HttpRequest, prefix: string, suffix: string)
    requires req.url == prefix + marker + suffix && req.httpMethod == "GET"
    ensures Triggers(marker, req)
  {
    assert req.url[|prefix|..|prefix| + |marker|] == marker;
    assert OccursAt(req.url, marker, |prefix|);
  }

  lemma TriggerNeedsGetAndMarker(marker: string, req: HttpRequest)
    requires Triggers(marker, req)
    ensures req.httpMethod == "GET"
    ensures exists prefix, suffix :: req.url == prefix + marker + suffix
  {
    var i :| 0 <= i <= |req.url| - |marker| && OccursAt(req.url, marker, i);
    assert req.url == req.url[..i] + marker + req.url[i + |marker|..];
  }

  // ---------------------------------------------------------------------
  // One call of the hook

  function EntryOf(req: HttpRequest): LogEntry
  {
    LogEntry(req.url, req.httpMethod, req.headers, req.query, req.timestampStart)
  }

  /** The hook's three checks in order: start, capture, stop. */
  function Step(m: Markers, s: State, req: HttpRequest): Outcome
  {
    var armed := if Triggers(m.start, req) then State(true, []) else s;
    var captured := if armed.recording then armed.(logs := armed.logs + [EntryOf(req)]) else armed;
    if Triggers(m.stop, req) && captured.recording then
      Outcome(captured.(recording := false), Some(captured.logs))
    else
      Outcome(captured, None)
  }

  function Persisted(o: Outcome): seq<seq<LogEntry>>
  {
    match o.persisted
    case Some(snapshot) => [snapshot]
    case None => []
  }

  lemma StartOpensSession(m: Markers, s: State, req: HttpRequest)
    requires Triggers(m.start, req)
    ensures Step(m, s, req).next.recording == !Triggers(m.stop, req)
    ensures Step(m, s, req).next.logs == [EntryOf(req)]
    ensures Step(m, s, req).persisted == if Triggers(m.stop, req) then Some([EntryOf(req)]) else None
  {
  }

  lemma IdleIgnoresNonStart(m: Markers, s: State, req: HttpRequest)
    requires !s.recording && !Triggers(m.start, req)
    ensures Step(m, s, req) == Outcome(s, None)
  {
  }

  lemma RecordingAppends(m: Markers, s: State, req: HttpRequest)
    requires s.recording && !Triggers(m.start, req) && !Triggers(m.stop, req)
    ensures var n := Step(m, s, req).next;
      n.recording && |n.logs| == |s.logs| + 1 && n.logs[..|s.logs|] == s.logs &&
      n.logs[|s.logs|].url == req.url && n.logs[|s.logs|].httpMethod == req.httpMethod &&
      n.logs[|s.logs|].headers == req.headers && n.logs[|s.logs|].queryParams == req.query &&
      n.logs[|s.logs|].timestamp == req.timestampStart
    ensures Step(m, s, req).persisted == None
  {
  }

  lemma StopPersistsSession(m: Markers, s: State, req: HttpRequest)
    requires s.recording && !Triggers(m.start, req) && Triggers(m.stop, req)
    ensures !Step(m, s, req).next.recording
    ensures Step(m, s, req).persisted == Some(s.logs + [EntryOf(req)])
    ensures Step(m, s, req).next.logs == s.logs + [EntryOf(req)]
  {
  }

  lemma RestartDiscards(m: Markers, s: State, s': State, req: HttpRequest)
    requires Triggers(m.start, req)
    ensures Step(m, s, req) == Step(m, s', req)
    ensures Step(m, s, req).persisted.Some? ==> Step(m, s, req).persisted.value == [EntryOf(req)]
  {
  }

  lemma PersistKeepsBuffer(m: Markers, s: State, req: HttpRequest)
    ensures Step(m, s, req).persisted.Some? ==>
      Step(m, s, req).persisted.value == Step(m, s, req).next.logs && !Step(m, s, req).next.recording
  {
  }

  /** The stop check fires exactly when the request is a stop trigger and a
      session is open at that point, either from before or just opened. */
  predicate EndsSession(m: Markers, s: State, req: HttpRequest)
  {
    Triggers(m.stop, req) && (s.recording || Triggers(m.start, req))
  }

  lemma StepFlagAndPersist(m: Markers, s: State, req: HttpRequest)
    ensures Step(m, s, req).next.recording <==>
      (s.recording || Triggers(m.start, req)) && !Triggers(m.stop, req)
    ensures Step(m, s, req).persisted.Some? <==> EndsSession(m, s, req)
  {
  }

  // ---------------------------------------------------------------------
  // Sequences of calls

  function Run(m: Markers, s: State, reqs: seq<HttpRequest>): Trace
    decreases |reqs|
  {
    if reqs == [] then Trace(s, [])
    else
      var o := Step(m, s, reqs[0]);
      var rest := Run(m, o.next, reqs[1..]);
      Trace(rest.final, Persisted(o) + rest.saves)
  }

  function Entries(reqs: seq<HttpRequest>): (es: seq<LogEntry>)
    ensures |es| == |reqs|
  {
    seq(|reqs|, i requires 0 <= i < |reqs| => EntryOf(reqs[i]))
  }

  /** The number of calls that end a session. */
  function SessionEnds(m: Markers, s: State, reqs: seq<HttpRequest>): nat
    decreases |reqs|
  {
    if reqs == [] then 0
    else (if EndsSession(m, s, reqs[0]) then 1 else 0) + SessionEnds(m, Step(m, s, reqs[0]).next, reqs[1..])
  }

  /** The number of calls that take the flag from true to false. */
  function Disarms(m: Markers, s: State, reqs: seq<HttpRequest>): nat
    decreases |reqs|
  {
    if reqs == [] then 0
    else
      var n := Step(m, s, reqs[0]).next;
      (if s.recording && !n.recording then 1 else 0) + Disarms(m, n, reqs[1..])
  }

  lemma {:induction false} RunAppend(m: Markers, s: State, a: seq<HttpRequest>, b: seq<HttpRequest>)
    ensures Run(m, s, a + b) ==
      Trace(Run(m, Run(m, s, a).final, b).final, Run(m, s, a).saves + Run(m, Run(m, s, a).final, b).saves)
    decreases |a|
  {
    if a == [] {
      assert a + b == b;
    } else {
      assert (a + b)[0] == a[0];
      assert (a + b)[1..] == a[1..] + b;
      RunAppend(m, Step(m, s, a[0]).next, a[1..], b);
    }
  }

  lemma {:induction false} NoStartChangesNothing(m: Markers, s: State, reqs: seq<HttpRequest>)
    requires !s.recording
    requires forall i :: 0 <= i < |reqs| ==> !Triggers(m.start, reqs[i])
    ensures Run(m, s, reqs) == Trace(s, [])
    decreases |reqs|
  {
    if reqs != [] {
      NoStartChangesNothing(m, s, reqs[1..]);
    }
  }

  lemma {:induction false} PersistsAreSessionEnds(m: Markers, s: State, reqs: seq<HttpRequest>)
    ensures |Run(m, s, reqs).saves| == SessionEnds(m, s, reqs)
    decreases |reqs|
  {
    if reqs != [] {
      PersistsAreSessionEnds(m, Step(m, s, reqs[0]).next, reqs[1..]);
    }
  }

  lemma {:induction false} PersistsAreDisarms(m: Markers, s: State, reqs: seq<HttpRequest>)
    requires forall i :: 0 <= i < |reqs| ==> !(Triggers(m.start, reqs[i]) && Triggers(m.stop, reqs[i]))
    ensures |Run(m, s, reqs).saves| == Disarms(m, s, reqs)
    decreases |reqs|
  {
    if reqs != [] {
      PersistsAreDisarms(m, Step(m, s, reqs[0]).next, reqs[1..]);
    }
  }

  /** While recording, requests that trigger neither marker are appended in order. */
  lemma {:induction false} RecordingCapturesAll(m: Markers, logs: seq<LogEntry>, reqs: seq<HttpRequest>)
    requires forall i :: 0 <= i < |reqs| ==> !Triggers(m.start, reqs[i]) && !Triggers(m.stop, reqs[i])
    ensures Run(m, State(true, logs), reqs) == Trace(State(true, logs + Entries(reqs)), [])
    decreases |reqs|
  {
    if reqs == [] {
      assert logs + Entries(reqs) == logs;
    } else {
      RecordingCapturesAll(m, logs + [EntryOf(reqs[0])], reqs[1..]);
      assert Entries(reqs) == [EntryOf(reqs[0])] + Entries(reqs[1..]);
      assert logs + [EntryOf(reqs[0])] + Entries(reqs[1..]) == logs + Entries(reqs);
    }
  }

  /** From the initial state: requests before the start marker are ignored, and
      the persisted snapshot holds the start request, everything between, and
      the stop request, in arrival order. The buffer keeps that snapshot. */
  lemma BracketedSession(m: Markers, before: seq<HttpRequest>, start: HttpRequest, mids: seq<HttpRequest>, stop: HttpRequest)
    requires forall i :: 0 <= i < |before| ==> !Triggers(m.start, before[i])
    requires Triggers(m.start, start) && !Triggers(m.stop, start)
    requires forall i :: 0 <= i < |mids| ==> !Triggers(m.start, mids[i]) && !Triggers(m.stop, mids[i])
    requires Triggers(m.stop, stop) && !Triggers(m.start, stop)
    ensures Run(m, Idle, before + [start] + mids + [stop]).saves ==
      [[EntryOf(start)] + Entries(mids) + [EntryOf(stop)]]
    ensures Run(m, Idle, before + [start] + mids + [stop]).final ==
      State(false, [EntryOf(start)] + Entries(mids) + [EntryOf(stop)])
  {
    var snapshot := [EntryOf(start)] + Entries(mids) + [EntryOf(stop)];
    NoStartChangesNothing(m, Idle, before);
    RunAppend(m, Idle, before, [start]);
    var open := State(true, [EntryOf(start)]);
    assert Run(m, Idle, before + [start]) == Trace(open, []);
    RecordingCapturesAll(m, [EntryOf(start)], mids);
    RunAppend(m, Idle, before + [start], mids);
    var full := State(true, [EntryOf(start)] + Entries(mids));
    assert Run(m, Idle, before + [start] + mids) == Trace(full, []);
    RunAppend(m, Idle, before + [start] + mids, [stop]);
    assert Run(m, full, [stop]) == Trace(State(false, snapshot), [snapshot]);
  }

  // ---------------------------------------------------------------------
  // The hook as a stateful object

  class CaptureFilter {
    const markers: Markers
    var recording: bool
    var logs: seq<LogEntry>
    /** Every snapshot handed to the persist operation, oldest first. */
    ghost var saves: seq<seq<LogEntry>>

    ghost function Current(): State
      reads this
    {
      State(recording, logs)
    }

    constructor (startApi: string, stopApi: string)
      ensures markers == Markers(startApi, stopApi)
      ensures !recording && logs == [] && saves == []
    {
      markers := Markers(startApi, stopApi);
      recording := false;
      logs := [];
      saves := [];
    }

    /** The persist event: the file write is abstracted to recording the
        buffer's current contents; the buffer itself is left as it is. */
    method SaveLogs()
      modifies this`saves
      ensures saves == old(saves) + [logs]
    {
      saves := saves + [logs];
    }

    method Request(req: HttpRequest)
      modifies this
      ensures Current() == Step(markers, old(Current()), req).next
      ensures saves == old(saves) + Persisted(Step(markers, old(Current()), req))
    {
      if Triggers(markers.start, req) {
        recording := true;
        logs := [];
      }
      if recording {
        logs := logs + [EntryOf(req)];
      }
      if Triggers(markers.stop, req) && recording {
        recording := false;
        SaveLogs();
      }
    }
  }

  /** The proxy invoking the hook once per request, in arrival order: the
      object ends in the state `Run` computes and has made the same saves. */
  method Replay(f: CaptureFilter, reqs: seq<HttpRequest>)
    modifies f
    ensures f.Current() == Run(f.markers, old(f.Current()), reqs).final
    ensures f.saves == old(f.saves) + Run(f.markers, old(f.Current()), reqs).saves
  {
    ghost var s0 := f.Current();
    var i := 0;
    while i < |reqs|
      invariant 0 <= i <= |reqs|
      invariant f.Current() == Run(f.markers, s0, reqs[..i]).final
      invariant f.saves == old(f.saves) + Run(f.markers, s0, reqs[..i]).saves
    {
      RunAppend(f.markers, s0, reqs[..i], [reqs[i]]);
      assert reqs[..i + 1] == reqs[..i] + [reqs[i]];
      f.Request(reqs[i]);
      i := i + 1;
    }
    assert reqs[..i] == reqs;
  }

  /** A freshly constructed filter that sees one bracketed session saves it
      exactly once, start entry first and stop entry last. */
  method CaptureSession(startApi: string, stopApi: string, before: seq<HttpRequest>,
                        start: HttpRequest, mids: seq<HttpRequest>, stop: HttpRequest)
      returns (f: CaptureFilter)
    requires forall i :: 0 <= i < |before| ==> !Triggers(startApi, before[i])
    requires Triggers(startApi, start) && !Triggers(stopApi, start)
    requires forall i :: 0 <= i < |mids| ==> !Triggers(startApi, mids[i]) && !Triggers(stopApi, mids[i])
    requires Triggers(stopApi, stop) && !Triggers(startApi, stop)
    ensures fresh(f) && f.markers == Markers(startApi, stopApi)
    ensures f.saves == [[EntryOf(start)] + Entries(mids) + [EntryOf(stop)]]
    ensures !f.recording && f.logs == [EntryOf(start)] + Entries(mids) + [EntryOf(stop)]
  {
    f := new CaptureFilter(startApi, stopApi);
    Replay(f, before + [start] + mids + [stop]);
    BracketedSession(f.markers, before, start, mids, stop);
  }
}
