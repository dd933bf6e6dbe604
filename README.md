# audio-server: the playback worker and its command handlers

The audio server plays sound files on one output device under remote control. Five HTTP
handlers (`play`, `play_loop`, `pause`, `resume`, `stop`) turn requests into `Message`
values and send them into a channel. A single worker thread (`paly`) drains that channel
front to back and applies each message to one rodio `Sink`.

This project models both halves in Dafny:

- `protocol.dfy`, module `Protocol`, declares the message and response values: `Message`,
  `ResponseCode` and `Response`.
- `api.dfy`, module `Api`, holds the handlers as pure decisions.
  - `Path::join` on Unix is modelled as `Join`.
  - The existence test `path.exists()` is an oracle `onDisk: string -> bool`.
  - Each handler returns its `Response` together with the message it tries to send.
  - `ServeAll` handles a run of requests in admission order. `delivered[i]` says whether
    `tx.lock()` and `send` both succeeded for request i. It yields the answers and the
    channel contents.
- `player.dfy`, module `Player`, holds the worker.
  - The sink is a class `Sink` with a `queue` of sources and a `paused` flag. Its
    `Stop`, `Append`, `Play` and `Pause` methods update them in place.
  - `Dispatch` is the loop body: the `match` on one message, calling those methods.
  - `Paly` is the worker itself: startup, then a loop over the channel.
  - Both methods are proved against the pure specification `Step`/`Run`.
  - Opening and decoding a file is an oracle: one `Load` per message (`OpenFails`,
    `DecodeFails`, `Decodes`).
  - Lemmas state what the source promises about sequences of commands.
- `service.dfy`, module `Service`, connects the handlers to the worker:
  - a missing file never reaches the sink;
  - the sink only holds files that passed validation;
  - of two admitted plays, the later one wins.

Four behaviours of the code that a reader might not expect, all modelled as written:

- The handlers do not check that the joined path stays under the asset root. An absolute
  name replaces the root, and `..` is kept (`Join`).
- A failed lock or send is ignored (`.ok()`). The handler still answers `Success`, and
  `ServerError` is never produced (`Api.ResponsesMeaning`, `Api.ResponsesIgnoreDelivery`).
- The worker stops the sink before it decodes. A file that opens but does not decode
  therefore leaves the sink stopped and empty. It does not keep playing the previous track
  (`Player.DecodeFailureEmptiesSink`).
- `Stop` does not clear the pause flag. After Pause, Stop and a Play whose decode fails,
  the sink is still paused. A later decoded Play calls `play()` and clears the flag.

## Model

| member | source | states |
|---|---|---|
| `Api.Join` | src/main.rs:49 | The joined path ends with the requested name. A relative name is prefixed by the root, with a `/` in between when the root is non-empty, and its length is root+name or one more. An absolute name replaces the root; nothing confines the result to the root. |
| `Api.HandlePlay` | src/main.rs:42-63 | Success exactly when the joined path exists. Otherwise the answer is `File not found` / `ParameterError` and nothing is sent. When it exists, exactly one `Play` carrying the joined path is sent and the answer is `success` / `Success`. |
| `Api.HandlePlayLoop` | src/main.rs:65-86 | The same decision as `play`, sending `PlayLoop` with the joined path. |
| `Api.HandlePause` | src/main.rs:88-95 | Never rejects: sends exactly `Pause` and answers `Success`. |
| `Api.HandleResume` | src/main.rs:97-104 | Never rejects: sends exactly `Resume` and answers `Success`. |
| `Api.HandleStop` | src/main.rs:106-113 | Never rejects: sends exactly `Stop` and answers `Success`. |
| `Api.HandleDecides` | src/main.rs:42-113 | For every route, an accepted request (a control request, or a file request whose joined path exists) is answered `success` and sends exactly the one message it stands for. A rejected one is answered `File not found` and sends nothing. |
| `Api.Admit` | src/main.rs:58 | The handler's `tx.lock()` and `send`, with the result discarded by `.ok()`. The channel only grows at its tail. It grows by exactly one message when the lock and send succeed and the handler has a message, and that message is the handler's. Otherwise the channel is unchanged. |
| `Api.ServeAll` | src/main.rs:42-113 | A run of requests gets one answer each and adds at most one message each to the channel. |
| `Api.ChannelIsFifo` | src/main.rs:185-186 | The channel holds exactly the messages of the accepted requests whose lock and send succeeded, one each, in admission order. |
| `Api.ResponsesMeaning` | src/main.rs:42-113 | Every answer is `success` exactly for control requests and for file requests whose joined path exists. Every other answer is `File not found`. No answer is ever `ServerError`. |
| `Api.ResponsesIgnoreDelivery` | src/main.rs:58-62 | The answers are the same whether or not any lock or send failed, because `.ok()` discards the result. |
| `Api.ChannelOnlyValidated` | src/main.rs:49-58 | Every Play or PlayLoop in the channel carries a path that existed when its handler checked it. |
| `Player.Sink.constructor` | src/main.rs:121 | A new sink holds no source and is not paused. |
| `Player.Sink.Stop` | src/main.rs:134 | `stop()` empties the sink's queue and leaves the pause flag alone. |
| `Player.Sink.Append` | src/main.rs:136 | `append` adds the source at the end of the queue. |
| `Player.Sink.Play` | src/main.rs:137 | `play()` unpauses and keeps the queue. |
| `Player.Sink.Pause` | src/main.rs:157 | `pause()` pauses and keeps the queue. |
| `Player.Step` | src/main.rs:127-165 | One message applied to the sink state, the pure form of the worker's `match`. A step either keeps the sources or leaves at most one. A message that does not replace the sources (Pause, Resume, or a Play/PlayLoop whose file does not open) keeps them. A message that does not set the pause flag (Stop, an unopenable or undecodable Play/PlayLoop) keeps it. |
| `Player.Install` | src/main.rs:128-155 | The Play/PlayLoop branch: the result is the unchanged sink (open failure), an emptied sink (decode failure after `stop()`), or exactly the new source, unpaused (`stop`, `append`, `play`). The pause flag changes, and new sources appear, only in that last case. |
| `Player.Dispatch` | src/main.rs:127-165 | Applying one message to the sink in place yields exactly `Step` of the old sink state, for every message and every open/decode outcome. |
| `Player.Paly` | src/main.rs:116-167 | If the output stream or the sink cannot be created, the process exits with -1 and no message is applied. Otherwise the messages are applied one at a time, in channel order: state i+1 is `Step` of state i and message i. The loop ends when the channel is exhausted, with the sink at `Run(Fresh, rx, loads)`. |
| `Player.RunAppend` | src/main.rs:126 | Draining `a` and then `b` equals draining `a + b`: the worker's effect composes in queue order. |
| `Player.RunIsLastWriteWins` | src/main.rs:126-166 | After draining any channel, the queue is set by the last Stop or openable Play/PlayLoop. That is empty after a Stop or a decode failure, the new source after a decode. The pause flag is set by the last Pause, Resume or decoded Play/PlayLoop. The initial state survives only where no such message came. |
| `Player.AtMostOneSource` | src/main.rs:134-137 | Starting from at most one source, the sink never holds two, so audio never overlaps. |
| `Player.SourcesComeFromCommands` | src/main.rs:128-155 | Every source the sink ends with was there before or was named by a drained Play/PlayLoop. |
| `Player.SuccessfulPlayForgetsHistory` | src/main.rs:134-137 | Once any Play or PlayLoop decodes, the final sink does not depend on the sink's earlier state. |
| `Player.LaterPlayWins` | src/main.rs:134-137 | Of two decoded Plays in a row, the sink ends holding only the second, unpaused. |
| `Player.OpenFailureIsSkipped` | src/main.rs:129-132 | A Play/PlayLoop whose file cannot be opened leaves the sink (queue and pause flag) unchanged, and the worker goes on with the rest of the channel. |
| `Player.DecodedPlayReplaces` | src/main.rs:134-137 | On a successful open and decode, the sink ends holding exactly the new source and is not paused, whatever it held and even if it was paused. |
| `Player.DecodeFailureEmptiesSink` | src/main.rs:134-140 | On a successful open with a decode failure, the sink ends stopped and empty (not with the previous track), with its pause flag untouched. |
| `Player.PlayLoopOnlyLoops` | src/main.rs:142-155 | `PlayLoop` differs from `Play` only in installing the source with looping set. The two are equal when the open or the decode fails. |
| `Player.ControlsAreIdempotent` | src/main.rs:156-164 | Pause and Resume change only the pause flag, and Stop only the queue. None of them depends on the file oracle, and applying one twice equals applying it once. |
| `Player.AfterNaturalEnd` | src/main.rs:150 | When every finite source has played out, the remainder is empty or starts with a looping source. It is a suffix of what was queued, and every source dropped before it is finite. |
| `Player.LoopOutlastsItsFile` | src/main.rs:150 | A decoded PlayLoop is still installed after its file's natural end, while a decoded Play has run out. |
| `Player.ControlNoOps` | src/main.rs:156-164 | Pause on a paused sink, Resume on an unpaused one and Stop on an empty one leave the sink state exactly as it was. |
| `Player.IdleFlagIsUnobservable` | src/main.rs:126-166 | Two sinks with the same sources, and the same pause flag whenever they hold any, end every run with the same sources and the same Idle/Playing/Paused mode. |
| `Player.PauseWhileIdleIsUnobservable` | src/main.rs:156-158 | Pause on an empty sink keeps it Idle. It sets a flag, but every later run of commands ends with the same sources and mode as without that Pause. |
| `Player.ReplayScenario` | src/main.rs:126-166 | Play x, Pause, Resume, Stop leaves the sink idle. One more Play x leaves it playing x alone, unpaused. |
| `Service.MissingFileNeverReachesPlayer` | src/main.rs:50-55 | A Play or PlayLoop request for a missing file is answered `File not found`. It leaves the channel, and hence whatever the worker does, exactly as without it. |
| `Service.SinkHoldsOnlyValidatedFiles` | src/main.rs:49-58 | For any requests and any open/decode outcomes, a freshly started worker's sink only ever holds files whose joined path existed when requested. |
| `Service.SecondAdmittedPlayWins` | src/main.rs:58 | Two admitted Play requests for existing files, both decodable, are both answered `success`. They enter the channel in admission order, and the sink ends playing the second. |

## Left out

- HTTP routing, the Swagger UI, the request-logging middleware and the TCP listener (src/main.rs:192-213) are network plumbing.
- Command-line parsing, tracing setup and the tokio runtime (src/main.rs:169-183) are configuration.
- The worker thread and the `Arc<Mutex<Sender>>` (src/main.rs:185-190) exist for concurrency. The channel is a sequence in admission order, and a failed lock or send is the input `delivered`.
- rodio's decoder, output stream and sink, and `File::open`, are external. The sink is reduced to its sources and pause flag, and opening/decoding is the per-message oracle `Load`.
- Playback position and timing are not modelled. A repeated Play of the same file restarts it, but the state cannot tell that apart from the earlier play. The natural end of a track is modelled only by `AfterNaturalEnd`, outside the worker loop.
- `Player.Paly`: the real loop only ends when every sender is dropped, which does not happen while the server runs. The model ends when its finite channel is exhausted.
- The `to_str().unwrap()` panic on a path that is not valid UTF-8 (src/main.rs:57, 80) is not modelled. Paths are Dafny strings.
- Logging with `eprintln!` has no effect on state and is left out.
- `Api.Join` models Unix path joining only. Windows prefixes and verbatim paths are not modelled.
- `Api.ServeAll` takes one snapshot `onDisk` of the file system for a whole run of requests. A file that appears or disappears between two requests cannot be expressed. No proved property depends on this. A change between the handler's check and the worker's open is covered by `Load`.
- Pause on an idle sink sets the pause flag, so the sink state does change. It is a no-op only for a listener, as `Player.PauseWhileIdleIsUnobservable` states.
- examples/src/main.rs is an HTTP client of the server and is not part of this model.
