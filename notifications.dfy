/**
 * Notification construction (`create_notification`): the event's type is
 * resolved with fallbacks, an unhelpful message is replaced by the latest
 * assistant text of the transcript, urgency is decided from the type, and
 * the record is assembled, unread, with the tmux context when there is one.
 * The UUID, the clock and `$CLAUDE_PROJECT_DIR` are inputs.
 */
module Notifications {
  import opened Wrappers
  import opened Text
  import opened Tmux
  import opened Transcript

  /** The hook's stdin object: each recognised key, `None` when absent. */
  datatype Event = Event(
    notificationType: Option<string>,
    hookEventName: Option<string>,
    message: Option<string>,
    cwd: Option<string>,
    sessionId: Option<string>,
    transcriptPath: Option<string>)

  /** The record written to the cache directory; `timestamp` is in whole seconds. */
  datatype Notification = Notification(
    id: string,
    timestamp: int,
    kind: string,
    message: string,
    cwd: string,
    sessionId: string,
    isImmediate: bool,
    read: bool,
    transcriptPath: string,
    tmux: Option<TmuxContext>)

  /** The types that always ask for a popup. */
  const ImmediateTypes: set<string> :=
    {"permission_prompt", "idle_prompt", "auth_required", "elicitation_dialog", "error", "Stop"}

  /** The placeholder for an absent message. */
  const NoMessage: string := "No message"

  /** The transcript is read with the default cap of 500 characters. */
  const MaxMessageChars: nat := 500

  /** `hook_data.get("notification_type") or hook_data.get("hook_event_name", "unknown")`. */
  function ResolveType(e: Event): string {
    if e.notificationType.Some? && e.notificationType.value != "" then e.notificationType.value
    else e.hookEventName.GetOr("unknown")
  }

  /**
   * Type resolution: a non-empty notification type wins; otherwise the hook
   * event name is used whenever the key is present, even when it is "";
   * only when both fail is the type "unknown".
   */
  lemma ResolveTypeFallbacks(e: Event)
    ensures e.notificationType.Some? && e.notificationType.value != "" ==>
      ResolveType(e) == e.notificationType.value
    ensures (e.notificationType.None? || e.notificationType.value == "") && e.hookEventName.Some? ==>
      ResolveType(e) == e.hookEventName.value
    ensures ResolveType(e) == "unknown" <==>
      if e.notificationType.Some? && e.notificationType.value != "" then e.notificationType.value == "unknown"
      else e.hookEventName.None? || e.hookEventName.value == "unknown"
  {
  }

  /** The urgency verdict: a type of the fixed set, or any spelling of "stop". */
  predicate IsImmediate(kind: string) {
    kind in ImmediateTypes || Lower(kind) == "stop"
  }

  /** "stop" in any letter case is immediate, although only "Stop" is in the fixed set. */
  lemma StopInAnyCaseIsImmediate()
    ensures IsImmediate("Stop") && IsImmediate("stop") && IsImmediate("STOP")
    ensures "stop" !in ImmediateTypes && "STOP" !in ImmediateTypes
  {
    assert Lower("stop") == "stop";
    assert Lower("STOP") == "stop";
  }

  /** Any other type is never immediate. */
  lemma OtherTypesNeverImmediate(kind: string)
    requires kind !in ImmediateTypes && Lower(kind) != "stop"
    ensures !IsImmediate(kind)
  {
  }

  /**
   * The message after the transcript fallback: the transcript is consulted
   * only for an absent, "" or "No message" message, and its text replaces
   * the message only when it yields one.
   */
  function ResolveMessage(e: Event, transcript: Option<seq<Line>>): string {
    var message := e.message.GetOr(NoMessage);
    if message == NoMessage || message == "" then
      var last := TranscriptMessage(e.transcriptPath.GetOr(""), transcript, MaxMessageChars);
      if last.Some? && last.value != "" then last.value else message
    else message
  }

  /**
   * The fallback: a useful message is kept whatever the transcript holds;
   * otherwise the transcript's text is taken if there is one, and if there is
   * none the message is kept as it was ("" stays "", absent becomes "No message").
   */
  lemma ResolveMessageFallback(e: Event, transcript: Option<seq<Line>>)
    ensures var m := e.message.GetOr(NoMessage);
      m != NoMessage && m != "" ==> ResolveMessage(e, transcript) == m
    ensures var m := e.message.GetOr(NoMessage);
      var last := TranscriptMessage(e.transcriptPath.GetOr(""), transcript, MaxMessageChars);
      (m == NoMessage || m == "") ==>
        ResolveMessage(e, transcript) == if last.Some? then last.value else m
    ensures var m := e.message.GetOr(NoMessage);
      ResolveMessage(e, transcript) == m || |ResolveMessage(e, transcript)| <= MaxMessageChars + 3
  {
    TranscriptMessageCases(e.transcriptPath.GetOr(""), transcript, MaxMessageChars);
  }

  /** An empty message stays empty when the transcript yields nothing; it does not become the placeholder. */
  lemma EmptyMessageStaysEmpty(e: Event, transcript: Option<seq<Line>>)
    requires e.message == Some("")
    requires e.transcriptPath.GetOr("") == "" || transcript.None?
    ensures ResolveMessage(e, transcript) == ""
  {
  }

  /**
   * `create_notification`: `id` and `timestamp` stand for `uuid4()` and
   * `datetime.now()`, `projectDir` for `$CLAUDE_PROJECT_DIR`, `transcript` for
   * the decoded lines of the file at the event's transcript path.
   */
  method CreateNotification(e: Event, context: Option<TmuxContext>, id: string, timestamp: int,
                            projectDir: Option<string>, transcript: Option<seq<Line>>)
    returns (n: Notification)
    ensures n.id == id && n.timestamp == timestamp
    ensures n.kind == ResolveType(e)
    ensures n.message == ResolveMessage(e, transcript)
    ensures n.cwd == e.cwd.GetOr(projectDir.GetOr(""))
    ensures n.sessionId == e.sessionId.GetOr("") && n.transcriptPath == e.transcriptPath.GetOr("")
    ensures n.isImmediate == IsImmediate(n.kind)
    ensures !n.read
    ensures n.tmux == context
  {
    var kind := ResolveType(e);
    var message := e.message.GetOr(NoMessage);
    var cwd := e.cwd.GetOr(projectDir.GetOr(""));
    var sessionId := e.sessionId.GetOr("");
    var transcriptPath := e.transcriptPath.GetOr("");

    if message == NoMessage || message == "" {
      var last := LastAssistantMessage(transcriptPath, transcript, MaxMessageChars);
      if last.Some? && last.value != "" {
        message := last.value;
      }
    }

    var isImmediate := kind in ImmediateTypes;
    if Lower(kind) == "stop" {
      var lowered := Lower(message);
      if Contains(lowered, "error") || Contains(lowered, "failed") {
        isImmediate := true;
      }
      isImmediate := true;
    }

    n := Notification(id, timestamp, kind, message, cwd, sessionId, isImmediate, false, transcriptPath, None);
    if context.Some? {
      n := n.(tmux := context);
    }
  }

  /** The empty event `{}` yields type "unknown", message "No message", not immediate. */
  lemma EmptyEventDefaults(transcript: Option<seq<Line>>)
    ensures var e := Event(None, None, None, None, None, None);
      ResolveType(e) == "unknown" && ResolveMessage(e, transcript) == NoMessage && !IsImmediate(ResolveType(e))
  {
    assert Lower("unknown") == "unknown";
  }
}
