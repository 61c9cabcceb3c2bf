/** The state detector: which tab, if any, is playing, and what its song is.
    A window snapshot is the list of windows, each the list of its tabs, in the
    order the browser enumerates them. */
module Detector {
  import opened Wrappers

  /** A browser tab as the detector sees it. `host` is the host component of
      the tab's URL; parsing the URL is done by the host environment. */
  datatype Tab = Tab(audible: bool, host: string, title: string)

  type Window = seq<Tab>

  /** Suffix that YouTube appends to the title of a watch page. */
  const SUFFIX: string := " - YouTube"

  /** The only host whose tabs are considered. */
  const HOST: string := "www.youtube.com"

  predicate EndsWith(s: string, suffix: string)
  {
    |suffix| <= |s| && s[|s| - |suffix|..] == suffix
  }

  /** The three tests a tab must pass to count as playing. */
  predicate IsMatch(t: Tab)
  {
    t.audible && t.host == HOST && EndsWith(t.title, SUFFIX)
  }

  /** The song label of a matching title: the title with the suffix cut off,
      and nothing else trimmed. */
  function Song(title: string): (song: string)
    requires EndsWith(title, SUFFIX)
    ensures |song| == |title| - |SUFFIX|
    ensures song + SUFFIX == title
  {
    title[..|title| - |SUFFIX|]
  }

  /** Song is the inverse of appending the suffix. */
  lemma SongOfLabel(name: string)
    ensures EndsWith(name + SUFFIX, SUFFIX)
    ensures Song(name + SUFFIX) == name
  {
    assert (name + SUFFIX)[|name|..] == SUFFIX;
  }

  /** A position in a window snapshot: window index, then tab index. */
  datatype Pos = Pos(window: nat, tab: nat)

  /** No tab strictly before (a, b), in window order then tab order, matches. */
  ghost predicate NoMatchBefore(ws: seq<Window>, a: nat, b: nat)
  {
    forall x, y :: 0 <= x < |ws| && 0 <= y < |ws[x]| && (x < a || (x == a && y < b)) ==> !IsMatch(ws[x][y])
  }

  /** No tab anywhere in the snapshot matches. */
  ghost predicate NoMatch(ws: seq<Window>)
  {
    NoMatchBefore(ws, |ws|, 0)
  }

  /** The first matching tab of one window. */
  function FirstInWindow(w: Window): (r: Option<nat>)
    ensures r.Some? ==> r.value < |w| && IsMatch(w[r.value])
    ensures r.Some? ==> forall y :: 0 <= y < r.value ==> !IsMatch(w[y])
    ensures r.None? ==> forall y :: 0 <= y < |w| ==> !IsMatch(w[y])
  {
    if w == [] then None
    else if IsMatch(w[0]) then Some(0)
    else match FirstInWindow(w[1..])
      case None => None
      case Some(y) => Some(y + 1)
  }

  /** The first matching tab of a snapshot, in window order then tab order. */
  function FirstMatch(ws: seq<Window>): (r: Option<Pos>)
    ensures r.Some? ==> r.value.window < |ws| && r.value.tab < |ws[r.value.window]|
    ensures r.Some? ==> IsMatch(ws[r.value.window][r.value.tab])
    ensures r.Some? ==> NoMatchBefore(ws, r.value.window, r.value.tab)
    ensures r.None? <==> NoMatch(ws)
  {
    if ws == [] then None
    else match FirstInWindow(ws[0])
      case Some(y) => Some(Pos(0, y))
      case None =>
        match FirstMatch(ws[1..])
        case None => None
        case Some(p) =>
          assert ws[1..][p.window] == ws[p.window + 1];
          Some(Pos(p.window + 1, p.tab))
  }

  /** A matching tab with no match before it is the first match. */
  lemma FirstMatchUnique(ws: seq<Window>, a: nat, b: nat)
    requires a < |ws| && b < |ws[a]| && IsMatch(ws[a][b])
    requires NoMatchBefore(ws, a, b)
    ensures FirstMatch(ws) == Some(Pos(a, b))
  {
    assert !NoMatch(ws);
  }

  /** What the detector reports: the song of the first matching tab, or
      nothing when no tab matches. */
  function Detect(ws: seq<Window>): (r: Option<string>)
    ensures r.None? <==> NoMatch(ws)
  {
    match FirstMatch(ws)
    case None => None
    case Some(p) => Some(Song(ws[p.window][p.tab].title))
  }

  /** The scan of poll(): a nested loop over windows and their tabs that
      returns at the first match. */
  method FindPlaying(windows: seq<Window>) returns (current: Option<string>)
    ensures current == Detect(windows)
  {
    var i := 0;
    while i < |windows|
      invariant 0 <= i <= |windows|
      invariant NoMatchBefore(windows, i, 0)
    {
      var tabs := windows[i];
      var j := 0;
      while j < |tabs|
        invariant 0 <= j <= |tabs|
        invariant NoMatchBefore(windows, i, j)
      {
        var tab := tabs[j];
        if tab.audible && tab.host == HOST && EndsWith(tab.title, SUFFIX) {
          current := Some(tab.title[..|tab.title| - |SUFFIX|]);
          FirstMatchUnique(windows, i, j);
          return;
        }
        j := j + 1;
      }
      i := i + 1;
    }
    current := None;
  }

  /** Later matches, in the same window or a later one, never win. */
  lemma EarlierMatchWins(ws: seq<Window>, a: nat, b: nat, c: nat, d: nat)
    requires a < |ws| && b < |ws[a]| && c < |ws| && d < |ws[c]|
    requires IsMatch(ws[a][b]) && NoMatchBefore(ws, a, b)
    requires a < c || (a == c && b < d)
    ensures Detect(ws) == Some(Song(ws[a][b].title))
    ensures FirstMatch(ws) != Some(Pos(c, d))
  {
    FirstMatchUnique(ws, a, b);
  }

  /** The scenario of a title "Song A - YouTube" on an audible YouTube tab,
      preceded by tabs that each fail one test and followed by another match. */
  lemma ScenarioSongA()
    ensures Detect([
      [Tab(false, HOST, "Muted - YouTube"), Tab(true, "music.youtube.com", "Other - YouTube")],
      [Tab(true, HOST, "YouTube"), Tab(true, HOST, "Song A - YouTube"), Tab(true, HOST, "Song B - YouTube")]
    ]) == Some("Song A")
  {
    var ws := [
      [Tab(false, HOST, "Muted - YouTube"), Tab(true, "music.youtube.com", "Other - YouTube")],
      [Tab(true, HOST, "YouTube"), Tab(true, HOST, "Song A - YouTube"), Tab(true, HOST, "Song B - YouTube")]
    ];
    SongOfLabel("Song A");
    assert "Song A" + SUFFIX == "Song A - YouTube";
    assert !EndsWith("YouTube", SUFFIX);
    FirstMatchUnique(ws, 1, 1);
  }

  /** No trimming beyond the literal suffix: surrounding spaces stay. */
  lemma ScenarioKeepsSpaces()
    ensures Song("  Song A  - YouTube") == "  Song A "
  {
    SongOfLabel("  Song A ");
    assert "  Song A " + SUFFIX == "  Song A  - YouTube";
  }
}
