/** What the background script sends: events to the local server over the
    socket, messages to the popup, and the toolbar indicator. */
module Protocol {
  import opened Wrappers
  import opened Change

  /** Names of the two events the local server understands. */
  const PLAYING_EVENT: string := "playing"
  const NOT_PLAYING_EVENT: string := "not_playing"

  /** One `socket.emit(event, ...payload)` call. */
  datatype Wire = Wire(event: string, payload: Option<string>)

  /** Messages exchanged with the popup through `runtime.sendMessage`. */
  datatype UiMessage = Connected(status: bool) | Playing(song: string) | NotPlaying | Open

  /** One observable effect: an emit on socket number `socket`, a message to
      the popup, or the toolbar icon and title set to connected or not. */
  datatype Effect = Emit(socket: nat, wire: Wire) | Send(message: UiMessage) | Indicator(connected: bool)

  /** How the server reads an event: Some(what is playing), or None for an
      event it does not know. */
  function WireState(w: Wire): Option<Option<string>>
  {
    if w.event == PLAYING_EVENT && w.payload.Some? then Some(Some(w.payload.value))
    else if w.event == NOT_PLAYING_EVENT && w.payload.None? then Some(None)
    else None
  }

  /** How the popup reads a message: Some(what is playing), or None for a
      message that is not about playback. */
  function MessageState(m: UiMessage): Option<Option<string>>
  {
    match m
    case Playing(song) => Some(Some(song))
    case NotPlaying => Some(None)
    case _ => None
  }

  /** The event of emit_playing for a state. */
  function PlayingWire(p: Playback): (w: Wire)
    ensures WireState(w) == Some(Observed(p))
  {
    if p.playing then Wire(PLAYING_EVENT, Some(p.song)) else Wire(NOT_PLAYING_EVENT, None)
  }

  /** The message of send_playing for a state. */
  function PlayingMessage(p: Playback): (m: UiMessage)
    ensures MessageState(m) == Some(Observed(p))
  {
    if p.playing then Playing(p.song) else NotPlaying
  }

  /** The effects of one announced change: the socket event first, then the
      popup message, both about the same state. */
  function Announce(socket: nat, p: Playback): (es: seq<Effect>)
    ensures |es| == 2 && es[0].Emit? && es[0].socket == socket && es[1].Send?
    ensures WireState(es[0].wire) == Some(Observed(p))
    ensures MessageState(es[1].message) == Some(Observed(p))
  {
    [Emit(socket, PlayingWire(p)), Send(PlayingMessage(p))]
  }

  /** Two states announce the same thing exactly when they observe the same
      thing: the song left over after playback stopped is never sent. */
  lemma AnnounceDeterminedByObserved(k: nat, p: Playback, q: Playback)
    ensures Announce(k, p) == Announce(k, q) <==> Observed(p) == Observed(q)
  {
    if Announce(k, p) == Announce(k, q) {
      assert WireState(PlayingWire(p)) == WireState(PlayingWire(q));
    }
  }
}
