# Selective network-log capture filter, modelled in Dafny

The original is a mitmproxy add-on (`filter_logs.py`). Its `request` hook runs once for every
intercepted request and keeps two pieces of process-wide state: a `recording` flag and a `logs`
buffer. Each call runs three checks in a fixed order:

1. **Start.** A GET whose URL contains the start marker sets `recording` and clears the buffer.
2. **Capture.** While recording, an entry with the request's url, method, headers, query and
   start timestamp is appended to the buffer.
3. **Stop.** A GET whose URL contains the stop marker, seen while recording, clears `recording`
   and calls `save_logs`, which writes the buffer to a JSON file.

Because of this order, the start request is the first entry of its session. The stop request is
the last entry of the persisted snapshot. A second start discards what was buffered. A stop does
not clear the buffer.

`filter_logs.dfy` holds one module, `FilterLogs`:

- `CaptureFilter` is the hook as a class. Its fields are `recording` and `logs`, and its
  constructor takes the two markers. `Request` is the hook itself. `SaveLogs` is the persist
  event: it appends a snapshot of the buffer to the ghost sequence `saves`.
- `Step` is the pure specification of one call. It maps a state and a request to the next state
  and to the snapshot persisted by that call, if any. `Run` folds `Step` over a sequence of calls.
  `Request` is proved to change the object exactly as `Step` says, and `Replay` lifts this to a
  sequence of calls, so the object agrees with `Run`.
- Marker matching is substring containment (`Contains`, Python's `in`) together with an exact
  `"GET"` method test (`Triggers`).

## Model

| member | source | states |
|---|---|---|
| `FilterLogs.CaptureFilter.constructor` | filter_logs.py:6-15 | The markers are the constructor's arguments; the filter starts idle with an empty buffer and nothing persisted. |
| `FilterLogs.CaptureFilter.Request` | filter_logs.py:17-47 | The new flag and buffer are exactly those of `Step` on the old state, and the filter persists once when `Step` persists (and never otherwise). |
| `FilterLogs.CaptureFilter.SaveLogs` | filter_logs.py:49-62 | A persist event records the buffer's current contents and leaves the flag and the buffer alone. |
| `FilterLogs.EmbeddedMarkerTriggers` | filter_logs.py:25 | Any GET whose URL has the marker anywhere inside it (any prefix, any suffix) triggers. |
| `FilterLogs.TriggerNeedsGetAndMarker` | filter_logs.py:44 | Conversely, a triggering request is a GET and its URL splits as prefix + marker + suffix. |
| `FilterLogs.StartOpensSession` | filter_logs.py:25-40 | After a start trigger, whatever the prior state, the buffer is exactly the start request's entry; the filter is recording unless the request also matches the stop marker, in which case that one-entry buffer is persisted. |
| `FilterLogs.IdleIgnoresNonStart` | filter_logs.py:25-44 | While idle, a request that is not a start trigger (a stop trigger included) leaves the flag and the buffer unchanged and persists nothing. |
| `FilterLogs.RecordingAppends` | filter_logs.py:31-40 | While recording, a request matching neither trigger keeps recording, keeps every earlier entry, and adds one entry at the end whose url, method, headers, query and timestamp are the request's; nothing is persisted. |
| `FilterLogs.StopPersistsSession` | filter_logs.py:44-47 | A stop trigger that is not also a start trigger, seen while recording, turns recording off and persists exactly the prior buffer followed by the stop request's entry. |
| `FilterLogs.RestartDiscards` | filter_logs.py:25-27 | The outcome of a start trigger does not depend on the prior state, so entries buffered before it are never persisted by it. |
| `FilterLogs.PersistKeepsBuffer` | filter_logs.py:45-47 | Whenever a call persists, the filter ends idle and the buffer still equals the persisted snapshot. |
| `FilterLogs.StepFlagAndPersist` | filter_logs.py:25-47 | After a call the filter records iff it recorded before or saw a start trigger, and did not see a stop trigger; a call persists iff it sees a stop trigger while a session is open or was just opened. |
| `FilterLogs.RunAppend` | filter_logs.py:17-47 | Running two request sequences one after the other gives the same final state and saves as running their concatenation. |
| `FilterLogs.NoStartChangesNothing` | filter_logs.py:25-31 | From an idle state, a sequence of requests with no start trigger leaves the state as it was and persists nothing. |
| `FilterLogs.RecordingCapturesAll` | filter_logs.py:31-40 | While recording, a sequence of requests matching neither trigger appends their entries to the buffer in arrival order and persists nothing. |
| `FilterLogs.PersistsAreSessionEnds` | filter_logs.py:44-47 | Over any sequence of calls, the number of persists equals the number of calls that end a session. |
| `FilterLogs.PersistsAreDisarms` | filter_logs.py:44-47 | When no request matches both markers, the number of persists equals the number of calls that turn the flag from true to false. |
| `FilterLogs.Replay` | filter_logs.py:17-47 | The proxy calling `CaptureFilter.Request` once per request, in order, leaves the object in the final state of `Run` from its prior state and adds the saves of `Run`, so every lemma about `Run` holds of the object. |
| `FilterLogs.CaptureSession` | filter_logs.py:6-47 | A freshly constructed filter that sees requests before the start trigger, a start, ordinary requests and a stop has saved exactly once, start entry first, the requests in between in order, the stop entry last; it ends idle with that snapshot still buffered. |
| `FilterLogs.BracketedSession` | filter_logs.py:17-47 | From start-up, requests before the start trigger are ignored; a start, some ordinary requests and a stop persist once, with the start entry, the requests in between in order, and the stop entry last; the buffer keeps that snapshot and the filter ends idle. |

## Left out

- File output in `save_logs` (filter_logs.py:49-62) is left out: the directory check and
  creation, the JSON serialization and the file write. A persist is a recorded snapshot of the
  buffer, and `saves` lists every persist attempt. The file is overwritten on each save, so it
  holds the last entry of `saves` only when that save's write succeeded; after a failed write it
  is missing, holds an older save, or is left partly written.
- The exception handler in `save_logs` swallows every error. The in-memory state is the same
  whether the write succeeds or fails, so the model does not tell the two apart. The round trip
  of the JSON file is not modelled.
- The `print` diagnostics (filter_logs.py:22, 28, 41, 46, 54, 60, 62) are informational only.
- The conversion of mitmproxy's header and query objects with `dict(...)` is not modelled. Both
  are plain `map<string, string>` values, copied unchanged into the entry.
- `timestamp_start` is a float in the source. Here it is a `real` that is only copied, never
  computed with.
- The concrete marker URLs and output paths (filter_logs.py:6-11) are configuration. The markers
  are constructor arguments, and the paths are not modelled.
- Concurrent calls of the hook by the proxy are not modelled. Calls are assumed to run one at a
  time.
