# now_playing_ext background script, modelled in Dafny

The browser extension watches the open tabs. An audible tab on
`www.youtube.com` whose title ends in `" - YouTube"` counts as playing. The
extension reports what is playing to a local server over a socket.io socket
and to its popup. This project models the background script
`extension/src/index.ts` as a single-threaded state machine over its module
state: `playing`, `song`, `last_poll`, `timeout` and `socket`.

- `Detector` (detector.dfy) is the scan of `poll()`. It has the tab test, the
  suffix strip, the first match in window order then tab order
  (`FirstMatch`, `Detect`), and the nested loop with early return that
  computes it (`FindPlaying`).
- `Change` (change.dfy) is the comparison of `poll()`. `Step` decides the new
  `playing`/`song` and whether a change is announced. The comparison is
  stated against `Observed`, which is what a state says is playing.
- `Protocol` (protocol.dfy) holds the socket events of `emit_playing()`, the
  popup messages of `send_playing()`/`send_connected()`, and the outbox
  `Effect`s. Each event and message is checked against a decoder.
- `Scheduler` (scheduler.dfy) is the delay arithmetic of `polling_loop()`.
- `Config` (config.dfy) is the `stored || default` loading in `restart()`.
- `Connection` (connection.dfy) holds the socket records and what a restart
  does to them. After any number of restarts only the newest socket is open
  and has listeners.
- `SessionState` (session.dfy) has the class `Session`. Its fields are the
  module state plus the history of sockets and timers and the outbox. Each
  method is one callback of the script: module load, restart, timer tick,
  poll completion, socket connect/disconnect, popup message and storage
  change. Its `Valid()` invariant holds between callbacks: only the newest
  timer is waiting, and only the newest socket is open with listeners.
  `ReplayScenario` is a client run of these methods, with no contract of its
  own. It answers an `Open` before the first restart, detects a song while
  disconnected, replays it on connect and restarts on a settings change.

The constructor is module load only. The script registers its `onMessage`
and `onChanged` listeners before the first `restart()` has its settings, so
the first restart is a separate `Restart` call. Until it runs, an `Open`
request is answered with `Connected(false)` and `NotPlaying`. The socket step
of a restart is `Connection.Swap`, the composition of `Replace` and
`ListenNewest`; `Connection.SwapShape` states what it does.

Host calls are inputs. A window snapshot is a `seq<seq<Tab>>`, where `host` is
the already-parsed host of the tab URL. Clock readings are `int` parameters.
Stored settings are optional integers. The contents of `defaults.json` are a
constructor parameter with a positive port and interval. Everything the
script sends is appended to `outbox`: socket emits (tagged with the socket
number), popup messages, and the toolbar icon/title (`Indicator`).

`poll()` is not awaited by `polling_loop()`, and its body runs only after
`browser.windows.getAll` resolves. So a dispatch (`PollingLoop` increments
`inFlight`) and its completion (`PollCompletes(windows)`) are separate steps.
Each completion is atomic. With this split, the `Connected(false)` message of
a restart comes before anything its first poll reports, as in the script.

The model follows the code in three places where its behaviour is easy to
misread:
- `emit_playing()` emits whether or not the socket is connected. The model
  records every emit. It does not assume that emits are dropped while the
  socket is disconnected.
- When playback stops, `song` keeps the last song. It is not reset to `""`
  (`Change.StopKeepsSong`).
- The rescheduling after a poll waits `2*interval - since2`. With timers that
  fire on time, the next poll comes `max(interval, cost)` after the previous
  poll (`Scheduler.IdealCadence`), not once every two intervals.

## Model

| member | source | states |
|---|---|---|
| Detector.Song | extension/src/index.ts:69-71 | the song is the title less the suffix, its length is that of the title less the suffix, and appending the suffix gives the title back |
| Detector.SongOfLabel | extension/src/index.ts:71 | the strip is the inverse of appending the suffix: any name plus the suffix matches and strips back to the name |
| Detector.ScenarioKeepsSpaces | extension/src/index.ts:71 | only the literal suffix is removed; surrounding spaces of the song stay |
| Detector.FirstInWindow | extension/src/index.ts:65-70 | the result is a matching tab of the window with no match before it, or none exactly when no tab of the window matches |
| Detector.FirstMatch | extension/src/index.ts:64-70 | the result is a matching position with no match before it in window order then tab order, or none exactly when no tab matches |
| Detector.FirstMatchUnique | extension/src/index.ts:64-84 | a matching tab with no match before it is the first match |
| Detector.EarlierMatchWins | extension/src/index.ts:64-84 | a later matching tab never wins; the detected song is that of the earlier match |
| Detector.Detect | extension/src/index.ts:63-96 | nothing is detected exactly when no tab is audible, on www.youtube.com and titled with the suffix |
| Detector.FindPlaying | extension/src/index.ts:64-86 | the nested loop with early return yields exactly the first-match song of Detect |
| Detector.ScenarioSongA | extension/src/index.ts:66-71 | a snapshot whose first full match is "Song A - YouTube", with muted, wrong-host and wrong-title tabs before it and another match after, yields "Song A" |
| Change.Step | extension/src/index.ts:73-95 | after a poll the state observes what was detected; a change is announced exactly when the old state observed something else; with no match the song is kept; no change leaves the state as it was |
| Change.ChangeCoverage | extension/src/index.ts:73-95 | not-playing to playing, a different song, and playing to not-playing announce; not-playing staying so and the same song staying do not |
| Change.StepIdempotent | extension/src/index.ts:73-95 | a second poll that detects the same thing announces nothing and changes nothing |
| Change.StopKeepsSong | extension/src/index.ts:88-95 | when playback stops the state becomes not-playing with the old song kept, and a change is announced |
| Protocol.PlayingWire | extension/src/index.ts:42-48 | the emitted event decodes to what the state observes: "playing" with the song, or "not_playing" with no payload |
| Protocol.PlayingMessage | extension/src/index.ts:31-40 | the popup message decodes to what the state observes: Playing with the song, or NotPlaying |
| Protocol.Announce | extension/src/index.ts:79-80 | one announced change is exactly two effects, the emit on the given socket first and then the popup message, both about the new state |
| Protocol.AnnounceDeterminedByObserved | extension/src/index.ts:31-48 | two states give the same announcement exactly when they observe the same thing, so a leftover song is never sent |
| Scheduler.Next | extension/src/index.ts:98-113 | a poll is dispatched exactly when at least one interval has passed since last_poll; without a poll last_poll stays and the next tick lands exactly one interval after it; with a poll last_poll becomes the first reading and the delay is max(0, 2*interval - since2): never negative, never landing before two intervals after the old last_poll, and exactly there when positive |
| Scheduler.GateDelayBounds | extension/src/index.ts:109-112 | with a clock that has not gone back, a tick without a poll waits a delay in (0, interval] |
| Scheduler.DispatchDelayBounds | extension/src/index.ts:102-108 | with non-decreasing readings and a positive interval, a tick with a poll waits a delay in [0, interval] |
| Scheduler.FirstTickPolls | extension/src/index.ts:153-157 | the first tick after last_poll is reset to 0 dispatches a poll and sets last_poll to the reading |
| Scheduler.GateExamples | extension/src/index.ts:98-113 | 400 ms into a 1000 ms interval: no poll and a 600 ms delay; 1200 ms in: a poll and a delay of max(0, 2000 - since2) |
| Scheduler.IdealCadence | extension/src/index.ts:98-113 | with timers that fire on time and a dispatch costing `cost`, the next poll after a poll comes exactly max(interval, cost) later |
| Config.Load | extension/src/index.ts:141-143 | each field is the stored value when it is present and nonzero, and the default otherwise |
| Config.LoadNeverZero | extension/src/index.ts:141-142 | with nonzero defaults the loaded port and interval are never 0 |
| Config.LoadRoundTrip | extension/src/index.ts:141-143 | empty storage loads the defaults; a stored nonzero configuration loads back unchanged |
| Connection.OpenSocket | extension/src/index.ts:150 | a new socket is open, not connected, has no listeners and uses the configured port |
| Connection.TearDown | extension/src/index.ts:145-148 | the old socket ends with no listeners, closed and not connected, on the same port |
| Connection.Replace | extension/src/index.ts:145-150 | the newest socket, if any, is torn down, older ones are kept, and an open socket on the port is appended |
| Connection.ListenNewest | extension/src/index.ts:159 | only the newest socket gains the connect and disconnect listeners; the others are kept |
| Connection.SwapShape | extension/src/index.ts:145-159 | a restart (Swap) keeps older sockets, tears down the newest and adds one open socket with both listeners on the new port |
| Connection.SwapWellFormed | extension/src/index.ts:145-159 | a restart keeps "all but the newest closed without listeners, the newest open with both" |
| Connection.OnlyNewestLive | extension/src/index.ts:145-159 | in such a history exactly the newest socket has listeners and exactly the newest is open |
| Connection.Restarts | extension/src/index.ts:138-160 | only the length: N restarts make N sockets; their contents are stated by RestartsLeaveOneLive |
| Connection.RestartsLeaveOneLive | extension/src/index.ts:145-159 | after N > 0 restarts the newest socket uses the last port and is the only one open and the only one with listeners |
| SessionState.ClearTimeout | extension/src/index.ts:151 | the handle's timer is no longer waiting and keeps its delay; every other timer is untouched |
| SessionState.ClearTimeoutStopsAll | extension/src/index.ts:151 | clearing the one waiting timer leaves no timer waiting |
| SessionState.Session.Status | extension/src/index.ts:27 | `socket && socket.connected`: false when no socket exists, and once started exactly the `connected` flag of the current socket |
| SessionState.Session.constructor | extension/src/index.ts:13-22 | module load before the first restart has its settings: no socket, no timer, not playing, empty song, nothing sent |
| SessionState.Session.EmitPlaying | extension/src/index.ts:42-48 | appends the state's event on the current socket, without a connected check |
| SessionState.Session.SendPlaying | extension/src/index.ts:31-40 | appends the state's popup message |
| SessionState.Session.SendConnected | extension/src/index.ts:24-29 | appends Connected with the current status |
| SessionState.Session.UpdateDisconnect | extension/src/index.ts:50-61 | appends the disconnected indicator, then the status |
| SessionState.Session.SetTimeout | extension/src/index.ts:107 | appends a waiting timer with the delay and makes it the current handle |
| SessionState.Session.PollingLoop | extension/src/index.ts:98-113 | the new timer, last_poll and count of dispatched polls are those of Scheduler.Next, and afterwards exactly one timer waits |
| SessionState.Session.TimerFires | extension/src/index.ts:98-113 | the waiting timer is marked run, then one tick of Scheduler.Next runs from the old last_poll; the invariant is kept |
| SessionState.Session.PollCompletes | extension/src/index.ts:63-96 | the new playing/song are Step applied to Detect of the snapshot; the outbox grows by the announcement of the new state exactly when Step reports a change, and by nothing otherwise |
| SessionState.Session.Restart | extension/src/index.ts:138-160 | config from storage or defaults; sockets as Connection.Swap; the old timer cleared and one new one from a tick at last_poll 0; not playing with an empty song; the popup told disconnected; the invariant kept |
| SessionState.Session.ReplaceSocket | extension/src/index.ts:145-150 | the old socket loses its listeners and is closed before the new one is appended and becomes `socket` |
| SessionState.Session.RestartTimer | extension/src/index.ts:151-157 | the old timer is cleared, last_poll is reset to 0 and one tick of Scheduler.Next runs from it, leaving exactly one timer waiting |
| SessionState.Session.ClearTimer | extension/src/index.ts:151 | the previous timer is cleared and no timer is left waiting |
| SessionState.Session.SocketListeners | extension/src/index.ts:115-136 | both listeners are attached to the newest socket only |
| SessionState.Session.SocketConnects | extension/src/index.ts:116-130 | an open socket becomes connected; if it has the listener, the indicator is set to connected, the current state (not the state at the time of the change) is emitted once and the status true is sent |
| SessionState.Session.SocketDisconnects | extension/src/index.ts:132-135 | the socket is no longer connected; if it has the listener, the indicator is set to disconnected and the status false is sent |
| SessionState.Session.OnMessage | extension/src/index.ts:171-178 | only Open is answered, with Connected then the playback message, and nothing but the outbox changes |
| SessionState.Session.StorageChanged | extension/src/index.ts:165-169 | a change in the "local" area restarts the session, with the config, sockets, timers, last_poll, dispatch count, playback state and outbox of Restart; any other area changes nothing |

## Left out

- `url.parse`, the legacy URL parser of Node. Each tab carries the host of its URL as a field.
- socket.io-client transport behaviour: reconnection, backoff, buffering of emits while disconnected, and when `connect` and `disconnect` fire. These are inputs (`SocketConnects`, `SocketDisconnects`). Emits are recorded in the outbox, not delivered.
- `Date.now`, `setTimeout` and `clearTimeout`. Clock readings are parameters. Timers are records of their delay and state. When a timer fires is up to the caller of `TimerFires`.
- Interleaving inside a callback. Each restart is atomic given the storage snapshot it read. Each poll completion is atomic given its window snapshot. A rejected `browser.windows.getAll` (a poll that never completes) is not modelled beyond `inFlight` staying raised.
- Two restarts that overlap across `await browser.storage.local.get()`, for example a settings change that arrives while the first restart is waiting. In the model each restart starts and finishes before the next callback. The interleaving in which both read storage first and then both swap the socket and timer is not captured.
- `console.log` is left out. `setIcon` and `setTitle` are one `Indicator` entry.
- The `space` setting beyond its loading, because the script never reads it.
- The numbers in `defaults.json`. It is not part of this model, so the defaults are a constructor parameter with a positive port and interval.
- `lib/types` (`Storage`, `MessageType`) is not part of this model. The message types are the constructors of `Protocol.UiMessage`, and stored settings are optional integers.
- JavaScript number semantics (floating point, NaN, non-numeric stored values). All quantities are unbounded integers.
