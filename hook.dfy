/**
 * The hook's main sequence (`main`): resolve the tmux context, build the
 * notification, save it, decide whether to show a popup, sweep the cache.
 * Every tmux query, the clock, the UUID and the environment are inputs;
 * the bell and the popup command themselves are not modelled, only the
 * decision to run the popup.
 */
module Hook {
  import opened Wrappers
  import opened Text
  import opened Tmux
  import opened Transcript
  import opened Notifications
  import opened Store

  /** The three branches of the display decision. */
  datatype Decision =
    | Popup(id: string)          // `show_popup(notification["id"])`
    | QueuedTmuxDown             // immediate, but the tmux server is not running
    | QueuedNotImmediate         // not immediate: sound and cache only

  /** Show a popup iff the notification is immediate and tmux is running. */
  function Dispatch(n: Notification, tmuxRunning: bool): (d: Decision)
    ensures d.Popup? <==> n.isImmediate && tmuxRunning
    ensures d.Popup? ==> d.id == n.id
    ensures d == QueuedTmuxDown <==> n.isImmediate && !tmuxRunning
  {
    if n.isImmediate && tmuxRunning then Popup(n.id)
    else if n.isImmediate then QueuedTmuxDown
    else QueuedNotImmediate
  }

  /**
   * The decision does not look at the tmux context: an immediate
   * notification without a location still gets a popup when tmux runs.
   */
  lemma PopupWithoutLocation(n: Notification)
    requires n.isImmediate && n.tmux.None?
    ensures Dispatch(n, true) == Popup(n.id)
  {
  }

  /** What the hook learns from its surroundings: environment, tmux outputs, the transcript file. */
  datatype Surroundings = Surroundings(
    tmuxPane: string,                     // $TMUX_PANE, "" when unset
    projectDir: Option<string>,           // $CLAUDE_PROJECT_DIR
    displayLocation: Option<string>,      // `display-message` location output; None: the command failed
    displayWindowName: Option<string>,    // `display-message` window name output
    paneListing: Option<string>,          // `list-panes -a` output
    tmuxRunning: bool,                    // `list-sessions` exited with 0
    transcript: Option<seq<Line>>)        // the transcript file's lines; None: no such file

  /** The context `main` resolves: from `$TMUX_PANE` first, else by the event's cwd. */
  function ResolveContext(e: Event, env: Surroundings): Option<TmuxContext> {
    var fromEnv := ContextFromEnv(env.tmuxPane, env.displayLocation, env.displayWindowName);
    if fromEnv.Some? then fromEnv else PaneLookup(e.cwd.GetOr(""), env.paneListing)
  }

  /**
   * `main` after stdin has been decoded into `e`: `id`, `timestamp` and
   * `now` stand for the UUID and the two readings of the clock.
   */
  method HandleEvent(store: NotificationStore, e: Event, env: Surroundings, id: string, timestamp: int, now: int)
    returns (n: Notification, decision: Decision)
    requires store.Valid()
    modifies store
    ensures store.Valid() && store.present
    ensures n.tmux == ResolveContext(e, env)
    ensures n.id == id && n.timestamp == timestamp && !n.read
    ensures n.kind == ResolveType(e) && n.isImmediate == IsImmediate(n.kind)
    ensures n.message == ResolveMessage(e, env.transcript)
    ensures n.cwd == e.cwd.GetOr(env.projectDir.GetOr(""))
    ensures n.sessionId == e.sessionId.GetOr("") && n.transcriptPath == e.transcriptPath.GetOr("")
    ensures decision == Dispatch(n, env.tmuxRunning)
    ensures store.files == Swept(old(store.files)[id + ".json" := Saved(n)], now, MaxAgeSeconds(24))
  {
    var context := ContextFromEnv(env.tmuxPane, env.displayLocation, env.displayWindowName);
    if context.None? {
      context := FindPaneByCwd(e.cwd.GetOr(""), env.paneListing);
    }
    n := CreateNotification(e, context, id, timestamp, env.projectDir, env.transcript);
    var _ := store.Save(n);
    decision := Dispatch(n, env.tmuxRunning);
    store.Sweep(now, 24);
  }

  /** The record just saved survives the sweep unless it is already more than 24 hours old. */
  lemma FreshRecordSurvives(files: map<string, FileContent>, n: Notification, now: int)
    requires now - n.timestamp <= MaxAgeSeconds(24)
    ensures var name := n.id + ".json";
      name in Swept(files[name := Saved(n)], now, MaxAgeSeconds(24))
      && Swept(files[name := Saved(n)], now, MaxAgeSeconds(24))[name] == Saved(n)
  {
  }

  /**
   * An "error" event with a real message in /repo, outside tmux, where the
   * listing has one pane at /repo: the context is that pane, the type is
   * immediate and the message is kept (HandleEvent then decides Popup when
   * tmux is running).
   */
  lemma ErrorEventInRepoPops(env: Surroundings, msg: string, loc: string, paneId: string, win: string)
    requires msg != "" && msg != NoMessage
    requires env.tmuxPane == "" && env.tmuxRunning
    requires '|' !in loc && '|' !in paneId && '|' !in win && '\n' !in loc && '\n' !in paneId && '\n' !in win
    requires loc != [] && !IsSpace(loc[0]) && win != [] && !IsSpace(win[|win| - 1])
    requires env.paneListing == Some(loc + "|/repo|" + paneId + "|" + win)
    ensures var e := Event(Some("error"), None, Some(msg), Some("/repo"), None, None);
      ResolveContext(e, env) == Some(MakeContext(loc, win, paneId))
      && IsImmediate(ResolveType(e)) && ResolveMessage(e, env.transcript) == msg
  {
    var e := Event(Some("error"), None, Some(msg), Some("/repo"), None, None);
    var line := loc + "|/repo|" + paneId + "|" + win;
    assert line == loc + "|" + "/repo" + "|" + paneId + "|" + win;
    PaneLineFourFields(loc, "/repo", paneId, win);
    assert LineMatches(line, "/repo");
    assert line[0] == loc[0] && line[|line| - 1] == win[|win| - 1];
    SingleLineListing(line);
    assert PaneLookup("/repo", env.paneListing) == Some(MakeContext(loc, win, paneId));
  }
}
