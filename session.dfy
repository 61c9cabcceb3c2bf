/** The background script's module state and its callbacks: timer ticks,
    completed polls, socket events, popup requests and settings changes. Each
    callback runs to completion before the next one starts. */
module SessionState {
  import opened Wrappers
  import Detector
  import opened Change
  import opened Protocol
  import Scheduler
  import Config
  import Connection

  /** A timer made by setTimeout: waiting, already run, or cancelled. */
  datatype TimerState = Pending | Fired | Cleared
  datatype Timer = Timer(delay: int, state: TimerState)

  /** The storage area whose changes restart the session. */
  const LOCAL_AREA: string := "local"

  predicate NoPending(ts: seq<Timer>)
  {
    forall k :: 0 <= k < |ts| ==> ts[k].state != Pending
  }

  /** Only the newest timer is waiting. */
  predicate OnePending(ts: seq<Timer>)
  {
    ts != [] && NoPending(ts[..|ts| - 1]) && ts[|ts| - 1].state == Pending
  }

  /** `clearTimeout(handle)`: a waiting timer is cancelled; anything else,
      including no handle at all, is left alone. */
  function ClearTimeout(ts: seq<Timer>, handle: Option<nat>): (r: seq<Timer>)
    ensures |r| == |ts|
    ensures forall k :: 0 <= k < |ts| && handle != Some(k) ==> r[k] == ts[k]
    ensures handle.Some? && handle.value < |ts| ==>
      r[handle.value].state != Pending && r[handle.value].delay == ts[handle.value].delay
  {
    if handle.Some? && handle.value < |ts| && ts[handle.value].state == Pending then
      ts[handle.value := ts[handle.value].(state := Cleared)]
    else ts
  }

  /** Clearing the one waiting timer leaves none waiting. */
  lemma ClearTimeoutStopsAll(ts: seq<Timer>)
    requires OnePending(ts)
    ensures NoPending(ClearTimeout(ts, Some(|ts| - 1)))
  {
    var r := ClearTimeout(ts, Some(|ts| - 1));
    forall k | 0 <= k < |r| ensures r[k].state != Pending {
      if k < |ts| - 1 {
        assert ts[..|ts| - 1][k] == ts[k];
      }
    }
  }

  class Session {
    /** The contents of defaults.json. */
    const defaults: Config.Config

    var config: Config.Config
    /** Every socket made so far, oldest first; `socket` is the newest. */
    var sockets: seq<Connection.Socket>
    var socket: Option<nat>
    /** Every timer set so far, oldest first; `timeout` is the newest. */
    var timers: seq<Timer>
    var timeout: Option<nat>
    var lastPoll: int
    var playing: bool
    var song: string
    /** Polls dispatched whose scan of the windows has not completed yet. */
    var inFlight: nat
    /** Everything sent so far, in order. */
    var outbox: seq<Effect>

    /** Only the newest socket is open and has listeners, and it is `socket`. */
    ghost predicate SocketsValid()
      reads this`sockets, this`socket
    {
      && Connection.WellFormed(sockets)
      && (socket.None? <==> sockets == [])
      && (socket.Some? ==> socket.value == |sockets| - 1)
    }

    /** Only the newest timer is waiting, and it is `timeout`. */
    ghost predicate TimersValid()
      reads this`timers, this`timeout
    {
      && (timeout.None? <==> timers == [])
      && (timeout.Some? ==> timeout.value == |timers| - 1 && OnePending(timers))
    }

    ghost predicate Valid()
      reads this
    {
      && SocketsValid()
      && TimersValid()
      && (socket.Some? <==> timeout.Some?)
      && (inFlight > 0 ==> socket.Some?)
    }

    /** restart() has run at least once. */
    predicate Started()
      reads this
    {
      socket.Some?
    }

    function State(): Playback
      reads this
    {
      Playback(playing, song)
    }

    /** `socket && socket.connected`. */
    function Status(): (b: bool)
      reads this
      ensures b ==> socket.Some?
      ensures SocketsValid() && Started() ==> (b <==> sockets[|sockets| - 1].connected)
    {
      socket.Some? && socket.value < |sockets| && sockets[socket.value].connected
    }

    /** Module load: the `let` declarations and the listeners, before the
        top-level `restart()` has got its settings. Nothing is started: no
        socket, no timer, `playing` falsy. `config` holds the defaults as a
        placeholder; nothing reads it before the first Restart. */
    constructor (defaults: Config.Config)
      requires defaults.port > 0 && defaults.pollInterval > 0
      ensures Valid() && !Started()
      ensures this.defaults == defaults
      ensures sockets == [] && timers == [] && timeout.None?
      ensures lastPoll == 0 && inFlight == 0
      ensures !playing && song == ""
      ensures outbox == []
    {
      this.defaults := defaults;
      config := defaults;
      sockets, socket := [], None;
      timers, timeout := [], None;
      lastPoll, playing, song := 0, false, "";
      inFlight := 0;
      outbox := [];
    }

    /** emit_playing(): no check that the socket is connected. */
    method EmitPlaying()
      requires socket.Some?
      modifies this`outbox
      ensures outbox == old(outbox) + [Emit(socket.value, PlayingWire(State()))]
    {
      outbox := outbox + [Emit(socket.value, PlayingWire(State()))];
    }

    /** send_playing(). */
    method SendPlaying()
      modifies this`outbox
      ensures outbox == old(outbox) + [Send(PlayingMessage(State()))]
    {
      outbox := outbox + [Send(PlayingMessage(State()))];
    }

    /** send_connected(). */
    method SendConnected()
      modifies this`outbox
      ensures outbox == old(outbox) + [Send(Connected(Status()))]
    {
      outbox := outbox + [Send(Connected(Status()))];
    }

    /** update_disconnect(): icon and title, then the status. */
    method UpdateDisconnect()
      modifies this`outbox
      ensures outbox == old(outbox) + [Indicator(false), Send(Connected(Status()))]
    {
      outbox := outbox + [Indicator(false)];
      SendConnected();
    }

    /** `timeout = setTimeout(polling_loop, delay)`. */
    method SetTimeout(delay: int)
      modifies this`timers, this`timeout
      ensures timers == old(timers) + [Timer(delay, Pending)]
      ensures timeout == Some(|old(timers)|)
    {
      timers := timers + [Timer(delay, Pending)];
      timeout := Some(|timers| - 1);
    }

    /** polling_loop(): decide whether to dispatch a poll, and set the next
        timer. The scan of a dispatched poll completes later, in
        PollCompletes. */
    method PollingLoop(now: int, now2: int)
      requires NoPending(timers)
      modifies this`timers, this`timeout, this`lastPoll, this`inFlight
      ensures OnePending(timers) && timeout == Some(|timers| - 1)
      ensures var t := Scheduler.Next(now, now2, old(lastPoll), config.pollInterval);
        && timers == old(timers) + [Timer(t.delay, Pending)]
        && lastPoll == t.lastPoll
        && inFlight == old(inFlight) + (if t.dispatch then 1 else 0)
    {
      var since := now - lastPoll;
      if since >= config.pollInterval {
        inFlight := inFlight + 1;
        var since2 := now2 - lastPoll;
        SetTimeout(Scheduler.Max(0, config.pollInterval * 2 - since2));
        lastPoll := now;
      } else {
        var d := config.pollInterval - since;
        SetTimeout(d);
      }
      assert timers[..|timers| - 1] == old(timers);
    }

    /** The waiting timer runs polling_loop(). */
    method TimerFires(now: int, now2: int)
      requires Valid() && Started()
      modifies this`timers, this`timeout, this`lastPoll, this`inFlight
      ensures Valid() && Started()
      ensures var t := Scheduler.Next(now, now2, old(lastPoll), config.pollInterval);
        && timers == old(timers)[|old(timers)| - 1 := old(timers)[|old(timers)| - 1].(state := Fired)]
             + [Timer(t.delay, Pending)]
        && lastPoll == t.lastPoll
        && inFlight == old(inFlight) + (if t.dispatch then 1 else 0)
    {
      var last := |timers| - 1;
      timers := timers[last := timers[last].(state := Fired)];
      assert NoPending(timers) by {
        forall k | 0 <= k < |timers| ensures timers[k].state != Pending {
          if k < last {
            assert old(timers)[..last][k] == timers[k];
          }
        }
      }
      PollingLoop(now, now2);
    }

    /** The body of poll() once `browser.windows.getAll` has returned the
        snapshot `windows`. */
    method PollCompletes(windows: seq<Detector.Window>)
      requires Valid() && inFlight > 0
      modifies this`playing, this`song, this`inFlight, this`outbox
      ensures Valid()
      ensures inFlight == old(inFlight) - 1
      ensures State() == Step(old(State()), Detector.Detect(windows)).after
      ensures outbox == old(outbox) +
        (if Step(old(State()), Detector.Detect(windows)).changed then Announce(socket.value, State()) else [])
    {
      var found := Detector.FindPlaying(windows);
      ghost var o := Step(State(), found);
      match found {
        case Some(current) =>
          if !playing || song != current {
            playing := true;
            song := current;
            EmitPlaying();
            SendPlaying();
          }
        case None =>
          if playing {
            playing := false;
            EmitPlaying();
            SendPlaying();
          }
      }
      assert State() == o.after;
      inFlight := inFlight - 1;
    }

    /** restart() once `storage.local.get()` has returned `stored`; `now` and
        `now2` are the clock readings of the polling_loop() call it makes. */
    method Restart(stored: Config.Stored, now: int, now2: int)
      requires Valid()
      modifies this
      ensures Valid() && Started()
      ensures config == Config.Load(stored, defaults)
      ensures sockets == Connection.Swap(old(sockets), config.port)
      ensures var t := Scheduler.Next(now, now2, 0, config.pollInterval);
        && timers == ClearTimeout(old(timers), old(timeout)) + [Timer(t.delay, Pending)]
        && lastPoll == t.lastPoll
        && inFlight == old(inFlight) + (if t.dispatch then 1 else 0)
      ensures !playing && song == ""
      ensures outbox == old(outbox) + [Indicator(false), Send(Connected(false))]
    {
      config := Config.Load(stored, defaults);
      Connection.SwapWellFormed(sockets, config.port);
      ReplaceSocket();
      // playing and song are reset before the timer steps; polling_loop()
      // reads neither, so this is the order of the script in effect
      playing, song := false, "";
      RestartTimer(now, now2);
      UpdateDisconnect();
      SocketListeners();
    }

    /** The timer part of restart(): `clearTimeout(timeout)`, `last_poll = 0`
        and the first `polling_loop()`. */
    method RestartTimer(now: int, now2: int)
      requires TimersValid()
      modifies this`timers, this`timeout, this`lastPoll, this`inFlight
      ensures TimersValid() && timeout.Some?
      ensures var t := Scheduler.Next(now, now2, 0, config.pollInterval);
        && timers == ClearTimeout(old(timers), old(timeout)) + [Timer(t.delay, Pending)]
        && lastPoll == t.lastPoll
        && inFlight == old(inFlight) + (if t.dispatch then 1 else 0)
    {
      ClearTimer();
      lastPoll := 0;
      PollingLoop(now, now2);
    }

    /** The socket part of restart(): `removeAllListeners()` and `close()` on
        the old socket, if there is one, then a new socket on the configured
        port. */
    method ReplaceSocket()
      requires SocketsValid()
      modifies this`sockets, this`socket
      ensures sockets == Connection.Replace(old(sockets), config.port)
      ensures socket == Some(|sockets| - 1)
    {
      if socket.Some? {
        var k := socket.value;
        sockets := sockets[k := Connection.TearDown(sockets[k])];
      }
      sockets := sockets + [Connection.OpenSocket(config.port)];
      socket := Some(|sockets| - 1);
    }

    /** `clearTimeout(timeout)`. */
    method ClearTimer()
      requires TimersValid()
      modifies this`timers
      ensures timers == ClearTimeout(old(timers), timeout)
      ensures NoPending(timers)
    {
      if timeout.Some? {
        ClearTimeoutStopsAll(timers);
      }
      timers := ClearTimeout(timers, timeout);
    }

    /** socket_listeners(socket). */
    method SocketListeners()
      requires sockets != []
      modifies this`sockets
      ensures sockets == Connection.ListenNewest(old(sockets))
    {
      sockets := sockets[|sockets| - 1 := sockets[|sockets| - 1].(listeners := Connection.HANDLERS)];
    }

    /** The transport reports that socket `k` has connected; its "connect"
        listener, if it still has one, runs. */
    method SocketConnects(k: nat)
      requires Valid() && k < |sockets|
      modifies this`sockets, this`outbox
      ensures Valid()
      ensures sockets == if old(sockets[k].open) then old(sockets)[k := old(sockets[k]).(connected := true)] else old(sockets)
      ensures outbox == old(outbox) +
        (if Connection.Connect in old(sockets[k].listeners)
         then [Indicator(true), Emit(k, PlayingWire(State())), Send(Connected(true))]
         else [])
    {
      if sockets[k].open {
        sockets := sockets[k := sockets[k].(connected := true)];
      }
      if Connection.Connect in sockets[k].listeners {
        outbox := outbox + [Indicator(true)];
        EmitPlaying();
        SendConnected();
      }
    }

    /** The transport reports that socket `k` has disconnected; its
        "disconnect" listener, if it still has one, runs. */
    method SocketDisconnects(k: nat)
      requires Valid() && k < |sockets|
      modifies this`sockets, this`outbox
      ensures Valid()
      ensures sockets == old(sockets)[k := old(sockets[k]).(connected := false)]
      ensures outbox == old(outbox) +
        (if Connection.Disconnect in old(sockets[k].listeners) then [Indicator(false), Send(Connected(false))] else [])
    {
      sockets := sockets[k := sockets[k].(connected := false)];
      if Connection.Disconnect in sockets[k].listeners {
        UpdateDisconnect();
      }
    }

    /** The `runtime.onMessage` listener: only Open is answered, and nothing
        but the outbox changes. */
    method OnMessage(message: UiMessage)
      modifies this`outbox
      ensures outbox == old(outbox) +
        (if message.Open? then [Send(Connected(Status())), Send(PlayingMessage(State()))] else [])
    {
      match message {
        case Open =>
          SendConnected();
          SendPlaying();
        case _ =>
      }
    }

    /** The `storage.onChanged` listener: only the local area restarts. */
    method StorageChanged(area: string, stored: Config.Stored, now: int, now2: int)
      requires Valid()
      modifies this
      ensures Valid()
      ensures area != LOCAL_AREA ==> unchanged(this)
      ensures area == LOCAL_AREA ==>
        && Started()
        && config == Config.Load(stored, defaults)
        && sockets == Connection.Swap(old(sockets), config.port)
        && !playing && song == ""
        && outbox == old(outbox) + [Indicator(false), Send(Connected(false))]
      ensures area == LOCAL_AREA ==>
        var t := Scheduler.Next(now, now2, 0, config.pollInterval);
        && timers == ClearTimeout(old(timers), old(timeout)) + [Timer(t.delay, Pending)]
        && lastPoll == t.lastPoll
        && inFlight == old(inFlight) + (if t.dispatch then 1 else 0)
    {
      if area == LOCAL_AREA {
        Restart(stored, now, now2);
      }
    }
  }

  /** A run of the background script: the popup opens before the first
      restart has its settings, a song is detected while the server is not
      reachable, the server then connects and hears about it, and a settings
      change later replaces the socket. */
  method ReplayScenario(defaults: Config.Config, stored: Config.Stored, now: int)
    requires defaults.port > 0 && defaults.pollInterval > 0
    requires now >= Config.Load(stored, defaults).pollInterval
  {
    var s := new Session(defaults);
    s.OnMessage(Open);
    assert s.outbox == [Send(Connected(false)), Send(NotPlaying)];
    s.Restart(stored, now, now);
    assert s.inFlight == 1;
    var tab := Detector.Tab(true, Detector.HOST, "Song A" + Detector.SUFFIX);
    Detector.SongOfLabel("Song A");
    Detector.FirstMatchUnique([[tab]], 0, 0);
    s.PollCompletes([[tab]]);
    assert s.State() == Playback(true, "Song A");
    s.SocketConnects(0);
    assert s.outbox[|s.outbox| - 2] == Emit(0, Wire(PLAYING_EVENT, Some("Song A")));
    s.StorageChanged(LOCAL_AREA, stored, now + 5, now + 5);
    Connection.OnlyNewestLive(s.sockets);
    assert Connection.Listening(s.sockets) == {1};
    assert !s.sockets[0].open && s.sockets[0].listeners == {};
  }
}
