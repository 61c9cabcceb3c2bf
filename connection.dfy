/** The sockets of the background script: each restart tears the previous
    socket down and opens a new one, and only the newest carries listeners. */
module Connection {

  /** The two events the background script listens to. */
  datatype SocketEvent = Connect | Disconnect

  /** A socket.io client socket: open until closed, `connected` as set by the
      transport, and the events it has listeners for. */
  datatype Socket = Socket(port: int, open: bool, connected: bool, listeners: set<SocketEvent>)

  /** What socket_listeners() attaches. */
  const HANDLERS: set<SocketEvent> := {Connect, Disconnect}

  /** `socket_io("http://localhost:" + port)`: open, not yet connected,
      no listeners. */
  function OpenSocket(port: int): (s: Socket)
    ensures s.open && !s.connected && s.listeners == {} && s.port == port
  {
    Socket(port, true, false, {})
  }

  /** `removeAllListeners()` then `close()`. */
  function TearDown(s: Socket): (r: Socket)
    ensures !r.open && !r.connected && r.listeners == {} && r.port == s.port
  {
    var quiet := s.(listeners := {});
    quiet.(open := false, connected := false)
  }

  /** The first half of a restart: the newest socket, if any, is torn down
      and a new one is opened on `port`. */
  function Replace(ss: seq<Socket>, port: int): (r: seq<Socket>)
    ensures |r| == |ss| + 1 && r[..|ss|] == (if ss == [] then [] else ss[..|ss| - 1] + [TearDown(ss[|ss| - 1])])
    ensures r[|ss|] == OpenSocket(port)
  {
    var kept := if ss == [] then [] else ss[..|ss| - 1] + [TearDown(ss[|ss| - 1])];
    kept + [OpenSocket(port)]
  }

  /** socket_listeners() on the newest socket. */
  function ListenNewest(ss: seq<Socket>): (r: seq<Socket>)
    requires ss != []
    ensures |r| == |ss| && r[..|ss| - 1] == ss[..|ss| - 1]
    ensures r[|ss| - 1] == ss[|ss| - 1].(listeners := HANDLERS)
  {
    ss[|ss| - 1 := ss[|ss| - 1].(listeners := HANDLERS)]
  }

  /** The socket part of a restart on port `port`. */
  function Swap(ss: seq<Socket>, port: int): seq<Socket>
  {
    ListenNewest(Replace(ss, port))
  }

  /** A restart keeps the older sockets, tears the newest down and adds one
      open socket with both listeners. */
  lemma SwapShape(ss: seq<Socket>, port: int)
    ensures |Swap(ss, port)| == |ss| + 1
    ensures forall k :: 0 <= k < |ss| - 1 ==> Swap(ss, port)[k] == ss[k]
    ensures ss != [] ==> Swap(ss, port)[|ss| - 1] == TearDown(ss[|ss| - 1])
    ensures Swap(ss, port)[|ss|] == OpenSocket(port).(listeners := HANDLERS)
  {
    var r := Swap(ss, port);
    assert forall k :: 0 <= k < |ss| ==> r[k] == r[..|ss|][k];
  }

  /** Every socket but the newest is closed and has no listeners; the newest
      is open with both listeners. */
  ghost predicate WellFormed(ss: seq<Socket>)
  {
    && (forall k :: 0 <= k < |ss| - 1 ==> !ss[k].open && ss[k].listeners == {})
    && (ss != [] ==> ss[|ss| - 1].open && ss[|ss| - 1].listeners == HANDLERS)
  }

  /** Indices of the sockets that still have a listener. */
  function Listening(ss: seq<Socket>): set<nat>
  {
    set k: nat | k < |ss| && ss[k].listeners != {}
  }

  /** Indices of the sockets that are not closed. */
  function Live(ss: seq<Socket>): set<nat>
  {
    set k: nat | k < |ss| && ss[k].open
  }

  lemma SwapWellFormed(ss: seq<Socket>, port: int)
    requires WellFormed(ss)
    ensures WellFormed(Swap(ss, port))
  {
    SwapShape(ss, port);
  }

  /** In a well-formed history exactly the newest socket is open and has
      listeners. */
  lemma OnlyNewestLive(ss: seq<Socket>)
    requires WellFormed(ss) && ss != []
    ensures Listening(ss) == {|ss| - 1}
    ensures Live(ss) == {|ss| - 1}
  {
    assert Connect in ss[|ss| - 1].listeners;
  }

  /** The sockets after restarts on the given ports, starting with none. */
  function Restarts(ports: seq<int>): (ss: seq<Socket>)
    ensures |ss| == |ports|
  {
    if ports == [] then [] else Swap(Restarts(ports[..|ports| - 1]), ports[|ports| - 1])
  }

  /** After N restarts (N > 0) there are N sockets, the newest is connected
      to the last port, and it alone is open and has listeners. */
  lemma {:induction false} RestartsLeaveOneLive(ports: seq<int>)
    requires ports != []
    ensures WellFormed(Restarts(ports))
    ensures Restarts(ports)[|ports| - 1].port == ports[|ports| - 1]
    ensures Listening(Restarts(ports)) == {|ports| - 1}
    ensures Live(Restarts(ports)) == {|ports| - 1}
  {
    var init := ports[..|ports| - 1];
    if init != [] {
      RestartsLeaveOneLive(init);
    }
    SwapWellFormed(Restarts(init), ports[|ports| - 1]);
    OnlyNewestLive(Restarts(ports));
  }
}
