/** The change detector of poll(): compare what was detected with the
    `playing`/`song` state and decide whether anything is announced. */
module Change {
  import opened Wrappers

  /** The module state `playing` and `song`. `song` keeps its last value
      after playback stops. */
  datatype Playback = Playback(playing: bool, song: string)

  /** What a state says is playing, in the detector's terms. */
  function Observed(p: Playback): Option<string>
  {
    if p.playing then Some(p.song) else None
  }

  /** The new state and whether a change was announced. */
  datatype Outcome = Outcome(after: Playback, changed: bool)

  /** One detection pass applied to the previous state. */
  function Step(p: Playback, detected: Option<string>): (o: Outcome)
    ensures Observed(o.after) == detected
    ensures o.changed <==> Observed(p) != detected
    ensures detected.None? ==> o.after.song == p.song
    ensures !o.changed ==> o.after == p
  {
    match detected
    case Some(current) =>
      if !p.playing || p.song != current then Outcome(Playback(true, current), true)
      else Outcome(p, false)
    case None =>
      if p.playing then Outcome(p.(playing := false), true)
      else Outcome(p, false)
  }

  /** The three transitions that announce, and the two that do not. */
  lemma ChangeCoverage(song: string, other: string)
    requires song != other
    ensures Step(Playback(false, other), Some(song)).changed
    ensures Step(Playback(true, other), Some(song)).changed
    ensures Step(Playback(true, song), None).changed
    ensures !Step(Playback(false, other), None).changed
    ensures !Step(Playback(true, song), Some(song)).changed
  {
  }

  /** Detecting the same thing twice announces at most once. */
  lemma StepIdempotent(p: Playback, detected: Option<string>)
    ensures Step(Step(p, detected).after, detected) == Outcome(Step(p, detected).after, false)
  {
  }

  /** When playback stops, the previous song is kept, not cleared. */
  lemma StopKeepsSong(p: Playback)
    requires p.playing
    ensures Step(p, None) == Outcome(Playback(false, p.song), true)
  {
  }
}
