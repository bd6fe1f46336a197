/**
 * Session location: how the hook finds the tmux pane a notification belongs
 * to. Either tmux is asked about the pane named by `$TMUX_PANE`
 * (`get_tmux_context`), or every pane of every session is listed and the
 * first one whose working directory contains the event's `cwd` is taken
 * (`find_tmux_pane_by_cwd`). The outputs of the tmux commands are inputs
 * here: `None` stands for a command that failed.
 */
module Tmux {
  import opened Wrappers
  import opened Text

  /** The pane record the hook attaches to a notification under the key "tmux". */
  datatype TmuxContext = TmuxContext(
    location: string,
    sessionName: string,
    windowIndex: string,
    windowName: string,
    paneIndex: string,
    paneId: string)

  /** The three parts of a `session:window.pane` location. */
  datatype LocationParts = LocationParts(session: string, window: string, pane: string)

  /**
   * The location split: the session is the text before the first ':', the
   * window part is the second ':'-piece (default "0.0"), the window index
   * its text before the first '.', the pane index its second '.'-piece
   * (default "0").
   */
  function SplitLocation(location: string): LocationParts {
    var parts := Split(location, ':');
    var windowPane := if |parts| > 1 then parts[1] else "0.0";
    var windowParts := Split(windowPane, '.');
    LocationParts(parts[0], windowParts[0], if |windowParts| > 1 then windowParts[1] else "0")
  }

  /** A well-formed `s:w.p` location splits back into exactly `s`, `w` and `p`. */
  lemma LocationRoundTrip(s: string, w: string, p: string)
    requires ':' !in s && ':' !in w && ':' !in p
    requires '.' !in w && '.' !in p
    ensures SplitLocation(s + ":" + w + "." + p) == LocationParts(s, w, p)
  {
    var wp := w + "." + p;
    assert ':' !in wp;
    assert s + ":" + w + "." + p == s + [':'] + wp;
    SplitAtFirst(s, wp, ':');
    SplitNoSeparator(wp, ':');
    SplitAtFirst(w, p, '.');
    SplitNoSeparator(p, '.');
  }

  /** The session name is the text before the first ':' of the location. */
  lemma SessionBeforeFirstColon(location: string)
    ensures var session := SplitLocation(location).session;
      ':' !in session && StartsWith(location, session)
      && (session == location || location[|session|] == ':')
  {
    SplitHeadIsPrefix(location, ':');
  }

  /** Without a ':' the window part defaults to "0.0": window "0", pane "0". */
  lemma LocationWithoutColon(location: string)
    requires ':' !in location
    ensures SplitLocation(location) == LocationParts(location, "0", "0")
  {
    SplitNoSeparator(location, ':');
    SplitAtFirst("0", "0", '.');
    SplitNoSeparator("0", '.');
    assert "0" + ['.'] + "0" == "0.0";
  }

  /** With a window part but no '.', the pane index defaults to "0". */
  lemma LocationWithoutDot(s: string, w: string)
    requires ':' !in s && ':' !in w && '.' !in w
    ensures SplitLocation(s + ":" + w) == LocationParts(s, w, "0")
  {
    assert s + ":" + w == s + [':'] + w;
    SplitAtFirst(s, w, ':');
    SplitNoSeparator(w, ':');
    SplitNoSeparator(w, '.');
  }

  /** The context built from a location, its window name and pane id. */
  function MakeContext(location: string, windowName: string, paneId: string): (ctx: TmuxContext)
    ensures ctx.location == location && ctx.windowName == windowName && ctx.paneId == paneId
    ensures ctx.sessionName == SplitLocation(location).session
    ensures ctx.windowIndex == SplitLocation(location).window
    ensures ctx.paneIndex == SplitLocation(location).pane
  {
    var parts := SplitLocation(location);
    TmuxContext(location, parts.session, parts.window, windowName, parts.pane, paneId)
  }

  /**
   * `get_tmux_context`: `tmuxPane` is `$TMUX_PANE` ("" when unset);
   * `locationOut` and `windowNameOut` are the outputs of the two
   * `display-message` queries, `None` when a query failed.
   */
  function ContextFromEnv(tmuxPane: string, locationOut: Option<string>, windowNameOut: Option<string>)
    : Option<TmuxContext>
  {
    if tmuxPane == "" || locationOut.None? || windowNameOut.None? then None
    else Some(MakeContext(Strip(locationOut.value), Strip(windowNameOut.value), tmuxPane))
  }

  /** A context comes from the environment iff `$TMUX_PANE` is set and both queries succeed; it is never partial. */
  lemma ContextFromEnvAllOrNothing(tmuxPane: string, locationOut: Option<string>, windowNameOut: Option<string>)
    ensures ContextFromEnv(tmuxPane, locationOut, windowNameOut).Some?
        <==> tmuxPane != "" && locationOut.Some? && windowNameOut.Some?
    ensures ContextFromEnv(tmuxPane, locationOut, windowNameOut).Some? ==>
      var ctx := ContextFromEnv(tmuxPane, locationOut, windowNameOut).value;
      ctx.paneId == tmuxPane && ctx.location == Strip(locationOut.value)
      && ctx.windowName == Strip(windowNameOut.value)
  {
  }

  /** One line of `tmux list-panes -a -F '<location>|<cwd>|<pane id>|<window name>'`. */
  datatype PaneRow = PaneRow(location: string, cwd: string, paneId: string, windowName: string)

  /**
   * A listing line as the loop reads it: empty lines and lines with fewer than
   * two '|'-fields are skipped; a missing pane id or window name is "".
   */
  function ParsePaneLine(line: string): Option<PaneRow> {
    if line == "" then None
    else
      var parts := Split(line, '|');
      if |parts| < 2 then None
      else Some(PaneRow(parts[0], parts[1],
                        if |parts| > 2 then parts[2] else "",
                        if |parts| > 3 then parts[3] else ""))
  }

  /** A line with only a location and a directory gets empty pane id and window name. */
  lemma PaneLineDefaults(location: string, cwd: string)
    requires '|' !in location && '|' !in cwd
    ensures ParsePaneLine(location + "|" + cwd) == Some(PaneRow(location, cwd, "", ""))
  {
    assert location + "|" + cwd == location + ['|'] + cwd;
    SplitAtFirst(location, cwd, '|');
    SplitNoSeparator(cwd, '|');
  }

  /** A line without any '|' is skipped. */
  lemma PaneLineNeedsTwoFields(line: string)
    requires '|' !in line
    ensures ParsePaneLine(line) == None
  {
    if line != "" {
      SplitNoSeparator(line, '|');
    }
  }

  /** The cwd test: the pane's directory is the target or a '/'-terminated prefix of it. */
  predicate CwdMatches(paneCwd: string, cwd: string) {
    paneCwd == cwd || StartsWith(cwd, paneCwd + "/")
  }

  /** The test as path containment, character by character. */
  lemma CwdMatchesIsDirectoryPrefix(paneCwd: string, cwd: string)
    ensures CwdMatches(paneCwd, cwd) <==>
      cwd == paneCwd
      || (|paneCwd| < |cwd| && cwd[..|paneCwd|] == paneCwd && cwd[|paneCwd|] == '/')
  {
    if |paneCwd| < |cwd| && cwd[..|paneCwd|] == paneCwd && cwd[|paneCwd|] == '/' {
      assert cwd[..|paneCwd| + 1] == cwd[..|paneCwd|] + [cwd[|paneCwd|]];
    }
    if StartsWith(cwd, paneCwd + "/") {
      assert cwd[..|paneCwd|] == (paneCwd + "/")[..|paneCwd|];
      assert cwd[|paneCwd|] == (paneCwd + "/")[|paneCwd|];
    }
  }

  /** A pane at /a/b is picked for /a/b and /a/b/c, not for /a/bc or /a. */
  lemma CwdMatchExamples()
    ensures CwdMatches("/a/b", "/a/b")
    ensures CwdMatches("/a/b", "/a/b/c")
    ensures !CwdMatches("/a/b", "/a/bc")
    ensures !CwdMatches("/a/b", "/a")
  {
    CwdMatchesIsDirectoryPrefix("/a/b", "/a/b/c");
    CwdMatchesIsDirectoryPrefix("/a/b", "/a/bc");
    assert "/a/bc"[4] == 'c';
  }

  /** The line gives a pane whose directory contains `cwd`. */
  predicate LineMatches(line: string, cwd: string) {
    ParsePaneLine(line).Some? && CwdMatches(ParsePaneLine(line).value.cwd, cwd)
  }

  /** The context the loop returns for a matching row. */
  function RowContext(row: PaneRow): TmuxContext {
    MakeContext(row.location, row.windowName, row.paneId)
  }

  /** The first matching line in listing order. */
  function FirstMatch(lines: seq<string>, cwd: string): Option<TmuxContext> {
    if lines == [] then None
    else if LineMatches(lines[0], cwd) then Some(RowContext(ParsePaneLine(lines[0]).value))
    else FirstMatch(lines[1..], cwd)
  }

  /** The lines the loop walks over: `stdout.strip().split('\n')`. */
  function ListingLines(listing: string): seq<string> {
    Split(Strip(listing), '\n')
  }

  /** What `find_tmux_pane_by_cwd` returns, for the `list-panes` output (`None`: the command failed). */
  function PaneLookup(cwd: string, listing: Option<string>): Option<TmuxContext> {
    if cwd == "" || listing.None? then None
    else FirstMatch(ListingLines(listing.value), cwd)
  }

  /** The match found is the first: the line at `i` wins when no earlier line matches. */
  lemma {:induction false} FirstMatchIsFirst(lines: seq<string>, cwd: string, i: nat)
    requires i < |lines| && LineMatches(lines[i], cwd)
    requires forall j :: 0 <= j < i ==> !LineMatches(lines[j], cwd)
    ensures FirstMatch(lines, cwd) == Some(RowContext(ParsePaneLine(lines[i]).value))
  {
    if i > 0 {
      assert !LineMatches(lines[0], cwd);
      assert lines[1..][i - 1] == lines[i];
      FirstMatchIsFirst(lines[1..], cwd, i - 1);
    }
  }

  /** There is no match iff no line matches. */
  lemma {:induction false} FirstMatchNone(lines: seq<string>, cwd: string)
    ensures FirstMatch(lines, cwd) == None <==> forall j :: 0 <= j < |lines| ==> !LineMatches(lines[j], cwd)
  {
    if lines != [] {
      FirstMatchNone(lines[1..], cwd);
      if !LineMatches(lines[0], cwd) {
        forall j | 0 < j < |lines| ensures lines[j] == lines[1..][j - 1] { }
      }
    }
  }

  /**
   * Ties are broken by listing order, not by specificity: a pane at a less
   * specific directory listed earlier wins over a more specific one.
   */
  lemma FirstMatchNotMostSpecific(first: string, second: string, cwd: string)
    requires LineMatches(first, cwd) && LineMatches(second, cwd)
    ensures FirstMatch([first, second], cwd) == Some(RowContext(ParsePaneLine(first).value))
  {
  }

  /** A full four-field line parses into its four fields. */
  lemma PaneLineFourFields(location: string, cwd: string, paneId: string, windowName: string)
    requires '|' !in location && '|' !in cwd && '|' !in paneId && '|' !in windowName
    ensures ParsePaneLine(location + "|" + cwd + "|" + paneId + "|" + windowName)
         == Some(PaneRow(location, cwd, paneId, windowName))
  {
    var tail := paneId + ['|'] + windowName;
    var rest := cwd + ['|'] + tail;
    assert location + "|" + cwd + "|" + paneId + "|" + windowName == location + ['|'] + rest;
    SplitAtFirst(location, rest, '|');
    SplitAtFirst(cwd, tail, '|');
    SplitAtFirst(paneId, windowName, '|');
    SplitNoSeparator(windowName, '|');
  }

  /** Two panes at /x and /x/y and a target of /x/y/z: the pane listed first wins. */
  lemma ListingOrderExample(loc1: string, id1: string, win1: string, loc2: string, id2: string, win2: string)
    requires '|' !in loc1 && '|' !in id1 && '|' !in win1
    requires '|' !in loc2 && '|' !in id2 && '|' !in win2
    ensures FirstMatch([loc1 + "|/x|" + id1 + "|" + win1, loc2 + "|/x/y|" + id2 + "|" + win2], "/x/y/z")
         == Some(MakeContext(loc1, win1, id1))
  {
    var first := loc1 + "|/x|" + id1 + "|" + win1;
    var second := loc2 + "|/x/y|" + id2 + "|" + win2;
    assert first == loc1 + "|" + "/x" + "|" + id1 + "|" + win1;
    assert second == loc2 + "|" + "/x/y" + "|" + id2 + "|" + win2;
    PaneLineFourFields(loc1, "/x", id1, win1);
    PaneLineFourFields(loc2, "/x/y", id2, win2);
    CwdMatchesIsDirectoryPrefix("/x", "/x/y/z");
    CwdMatchesIsDirectoryPrefix("/x/y", "/x/y/z");
    FirstMatchNotMostSpecific(first, second, "/x/y/z");
  }

  /** A listing of one line with no surrounding whitespace is that one line. */
  lemma SingleLineListing(line: string)
    requires '\n' !in line && line != [] && !IsSpace(line[0]) && !IsSpace(line[|line| - 1])
    ensures ListingLines(line) == [line]
  {
    assert TrimLeft(line) == line;
    assert TrimRight(line) == line;
    SplitNoSeparator(line, '\n');
  }

  /** A pane at the root directory does not match a subdirectory such as /home: "//" is not a prefix of it. */
  lemma RootPaneMissesSubdirectories(cwd: string)
    requires |cwd| >= 2 && cwd[0] == '/' && cwd[1] != '/'
    ensures !CwdMatches("/", cwd)
  {
    CwdMatchesIsDirectoryPrefix("/", cwd);
  }

  /** A pane whose directory field is empty matches every absolute directory. */
  lemma EmptyPaneCwdMatchesAbsolute(cwd: string)
    requires cwd != [] && cwd[0] == '/'
    ensures CwdMatches("", cwd)
  {
    CwdMatchesIsDirectoryPrefix("", cwd);
  }

  /**
   * `find_tmux_pane_by_cwd`: an empty cwd or a failed listing gives None;
   * otherwise the lines are walked in order and the first pane whose
   * directory contains `cwd` is returned, its location split into parts.
   */
  method FindPaneByCwd(cwd: string, listing: Option<string>) returns (r: Option<TmuxContext>)
    ensures r == PaneLookup(cwd, listing)
  {
    if cwd == "" || listing.None? {
      return None;
    }
    var lines := ListingLines(listing.value);
    var i := 0;
    while i < |lines|
      invariant 0 <= i <= |lines|
      invariant FirstMatch(lines[i..], cwd) == FirstMatch(lines, cwd)
    {
      var line := lines[i];
      assert lines[i..][0] == line && lines[i..][1..] == lines[i + 1..];
      i := i + 1;
      if line == "" {
        continue;
      }
      var parts := Split(line, '|');
      if |parts| >= 2 {
        var location := parts[0];
        var paneCwd := parts[1];
        var paneId := if |parts| > 2 then parts[2] else "";
        var windowName := if |parts| > 3 then parts[3] else "";
        if paneCwd == cwd || StartsWith(cwd, paneCwd + "/") {
          var locParts := SplitLocation(location);
          return Some(TmuxContext(location, locParts.session, locParts.window,
                                  windowName, locParts.pane, paneId));
        }
      }
    }
    return None;
  }
}
