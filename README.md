# tmux notification hook: a Dafny model

This project models the decision logic of `claude-hooks/tmux-notification.py`. That is the hook an agent runs once for each event. The hook does five things:

- It finds the tmux pane the event belongs to.
- It builds a notification record from the event.
- It saves the record into a cache directory.
- It decides whether to show a popup.
- It deletes old records.

Everything outside the process becomes a plain input: the tmux command outputs, the environment, the clock, the UUID and the transcript file. What the model proves is what the code decides from those inputs.

Modules (one file each):

- `Wrappers` (`wrappers.dfy`): the `Option` type.
- `Text` (`text.dfy`): the Python string operations the hook uses: `split`, `strip`, `startswith`, `lower` and the substring test, plus `EndsWith`, which stands for the `*.json` pattern that `cleanup_old_notifications` globs for.
- `Tmux` (`tmux.dfy`): splitting a `session:window.pane` location, `get_tmux_context`, and parsing plus matching of the pane listing. `find_tmux_pane_by_cwd` is the method `FindPaneByCwd`.
- `Transcript` (`transcript.dfy`): `get_last_claude_message`. It is the method `LastAssistantMessage`, with a backward loop and a nested loop over content blocks.
- `Notifications` (`notifications.dfy`): type resolution, the message fallback, urgency, and `create_notification` as the method `CreateNotification`.
- `Store` (`store.dfy`): the cache directory as a class holding a map from file name to content. `Save` models `save_notification`. `Sweep` models `cleanup_old_notifications` and is a loop over the entries.
- `Hook` (`hook.dfy`): the popup decision and `main` as `HandleEvent`.

Behaviour of the code worth knowing, which the model keeps as written:

- The popup is shown when the notification is immediate and tmux is running. The code does not check for a resolved location, although the comment just above that test (claude-hooks/tmux-notification.py:448-451) lists one.
- When the transcript yields no text, the message keeps its original value. So `""` stays `""`; only an absent message becomes `"No message"`.
- The transcript scan does not stop at the last assistant record. It keeps going backwards until it finds an assistant record that has a non-empty text block.
- A transcript line that is valid JSON but not an object makes the whole lookup return nothing. Its `.get` raises `AttributeError`, which the outer handler catches.
- The sweep deletes a record only for an undecodable file, a missing or unparsable timestamp, or age. No other field is checked.
- A `stop` type in any letter case is immediate. The check for "error"/"failed" in the message is redundant and is kept as written.

## Model

| member | source | states |
|---|---|---|
| `Text.Split` | claude-hooks/tmux-notification.py:58 | `str.split` on one character always gives at least one piece, and no piece contains the separator |
| `Text.JoinSplit` | claude-hooks/tmux-notification.py:58 | joining the pieces with the separator gives back the original text |
| `Text.SplitNoSeparator` | claude-hooks/tmux-notification.py:68-73 | text without the separator splits into itself alone |
| `Text.SplitAtFirst` | claude-hooks/tmux-notification.py:68-73 | the first separator ends the first piece, and the rest is split on its own |
| `Text.SplitHeadIsPrefix` | claude-hooks/tmux-notification.py:68-69 | the first piece is the prefix of the text up to the first separator, or all of it |
| `Text.TrimLeft` | claude-hooks/tmux-notification.py:55 | only leading whitespace is removed, and the result does not start with whitespace |
| `Text.TrimRight` | claude-hooks/tmux-notification.py:55 | only trailing whitespace is removed, and the result does not end with whitespace |
| `Text.Strip` | claude-hooks/tmux-notification.py:185 | the result is a stretch of the input with no whitespace at either end, and everything cut off before and after it is whitespace |
| `Text.LowerChar` | claude-hooks/tmux-notification.py:285 | upper-case ASCII letters map to lower case, and every other character is unchanged |
| `Text.Lower` | claude-hooks/tmux-notification.py:285 | lower-casing keeps the length and lowers each character in place |
| `Tmux.LocationRoundTrip` | claude-hooks/tmux-notification.py:68-73 | `s:w.p` with no extra separators splits back into exactly `s`, `w` and `p` |
| `Tmux.SessionBeforeFirstColon` | claude-hooks/tmux-notification.py:68-69 | the session name has no ':' and is the text of the location before its first ':' |
| `Tmux.LocationWithoutColon` | claude-hooks/tmux-notification.py:68-73 | a location without ':' gives session = the whole location, window "0" and pane "0" (from the default "0.0") |
| `Tmux.LocationWithoutDot` | claude-hooks/tmux-notification.py:197-202 | `s:w` with no '.' gives window `w` and the default pane index "0" |
| `Tmux.MakeContext` | claude-hooks/tmux-notification.py:204-211 | the context keeps the location verbatim and takes its session, window and pane from the location split |
| `Tmux.ContextFromEnvAllOrNothing` | claude-hooks/tmux-notification.py:170-213 | a context comes from `$TMUX_PANE` iff it is set and both tmux queries succeed; it is never partial, and the pane id is `$TMUX_PANE` |
| `Tmux.PaneLineDefaults` | claude-hooks/tmux-notification.py:58-63 | a line with only location and cwd gets pane id "" and window name "" |
| `Tmux.PaneLineNeedsTwoFields` | claude-hooks/tmux-notification.py:56-59 | a line without any field separator is skipped |
| `Tmux.PaneLineFourFields` | claude-hooks/tmux-notification.py:58-63 | a four-field line is read as location, cwd, pane id and window name |
| `Tmux.CwdMatchesIsDirectoryPrefix` | claude-hooks/tmux-notification.py:66 | a pane matches iff its cwd equals the target, or is a proper prefix of it followed by '/' |
| `Tmux.CwdMatchExamples` | claude-hooks/tmux-notification.py:66 | a pane at /a/b matches /a/b and /a/b/c, and does not match /a/bc or /a |
| `Tmux.RootPaneMissesSubdirectories` | claude-hooks/tmux-notification.py:66 | a pane at "/" does not match /home and similar subdirectories |
| `Tmux.EmptyPaneCwdMatchesAbsolute` | claude-hooks/tmux-notification.py:66 | a pane whose cwd field is empty matches every absolute directory |
| `Tmux.FirstMatchIsFirst` | claude-hooks/tmux-notification.py:55-83 | the result is the context of the first matching line in listing order |
| `Tmux.FirstMatchNone` | claude-hooks/tmux-notification.py:55-86 | there is no result iff no line of the listing matches |
| `Tmux.FirstMatchNotMostSpecific` | claude-hooks/tmux-notification.py:55-83 | of two matching lines the earlier wins, whatever their specificity |
| `Tmux.ListingOrderExample` | claude-hooks/tmux-notification.py:55-83 | with panes at /x then /x/y and target /x/y/z, the pane at /x is returned |
| `Tmux.SingleLineListing` | claude-hooks/tmux-notification.py:55 | a one-line listing with no surrounding whitespace yields exactly that line |
| `Tmux.FindPaneByCwd` | claude-hooks/tmux-notification.py:41-93 | the loop returns the lookup specification: None for an empty cwd or a failed listing, otherwise the first match |
| `Transcript.FirstText` | claude-hooks/tmux-notification.py:239-242 | there is a result iff some block is a text block with non-empty text, and the result is the text of the first such block |
| `Transcript.LatestIsMostRecent` | claude-hooks/tmux-notification.py:230-253 | a text is found iff some record offers one and every later line is skipped; the text is that record's |
| `Transcript.SkippedLineIsTransparent` | claude-hooks/tmux-notification.py:233-250 | an undecodable line, or a record with no text block, does not change the result |
| `Transcript.NonObjectAborts` | claude-hooks/tmux-notification.py:230-257 | a non-object line met before any text ends the lookup with nothing |
| `Transcript.Truncate` | claude-hooks/tmux-notification.py:244-246 | the result is `text[:max_chars]`, plus "..." iff the text is longer; it is at most `max_chars + 3` long and equals the text when that is short enough |
| `Transcript.TruncateNonEmpty` | claude-hooks/tmux-notification.py:242-246 | truncating a non-empty text never gives "" |
| `Transcript.LatestFoundNonEmpty` | claude-hooks/tmux-notification.py:242 | a text found by the scan is never empty |
| `Transcript.TranscriptMessageCases` | claude-hooks/tmux-notification.py:215-223 | a missing path or file gives None; a returned message is non-empty and at most `max_chars + 3` long |
| `Transcript.LastAssistantMessage` | claude-hooks/tmux-notification.py:215-257 | the nested backward loops return the scan specification, truncated |
| `Notifications.ResolveTypeFallbacks` | claude-hooks/tmux-notification.py:265 | a non-empty `notification_type` wins; otherwise `hook_event_name` is used whenever present, even ""; otherwise "unknown" |
| `Notifications.StopInAnyCaseIsImmediate` | claude-hooks/tmux-notification.py:32-39 | "Stop", "stop" and "STOP" are immediate, though only "Stop" is in the fixed set |
| `Notifications.OtherTypesNeverImmediate` | claude-hooks/tmux-notification.py:282-290 | a type outside the set whose lower case is not "stop" is never immediate |
| `Notifications.ResolveMessageFallback` | claude-hooks/tmux-notification.py:266-279 | a useful message is kept; otherwise the transcript text replaces it if there is one, else it is kept as it was |
| `Notifications.EmptyMessageStaysEmpty` | claude-hooks/tmux-notification.py:274-279 | an empty message with no transcript text stays "" and does not become "No message" |
| `Notifications.CreateNotification` | claude-hooks/tmux-notification.py:259-308 | the record has the given id and time, the resolved type and message, `read == false`, and the tmux key iff a context was given; urgency depends only on the type, whatever the message holds |
| `Notifications.EmptyEventDefaults` | claude-hooks/tmux-notification.py:265-282 | the event `{}` gives type "unknown", message "No message", and is not immediate |
| `Store.Swept` | claude-hooks/tmux-notification.py:378-390 | an entry survives iff it is not a `*.json` file that is undecodable, undated or older than the limit; survivors are unchanged |
| `Store.SweepIdempotent` | claude-hooks/tmux-notification.py:372-390 | sweeping twice at the same time gives the same result as sweeping once |
| `Store.SweepBoundary` | claude-hooks/tmux-notification.py:384-387 | with 24 hours, a record 23 h or exactly 24 h old is kept, and one 25 h old is deleted |
| `Store.SweepSparesUnlisted` | claude-hooks/tmux-notification.py:378 | a file not matching `*.json` is never touched |
| `Store.NotificationStore.Save` | claude-hooks/tmux-notification.py:310-318 | the directory exists afterwards, `<id>.json` holds the record, and nothing else changes |
| `Store.NotificationStore.Sweep` | claude-hooks/tmux-notification.py:372-390 | with no directory nothing happens; otherwise the directory becomes the swept map, whatever order the entries are visited in |
| `Hook.Dispatch` | claude-hooks/tmux-notification.py:452-458 | a popup with the notification's id iff it is immediate and tmux runs; "tmux down" iff immediate and tmux is not running |
| `Hook.PopupWithoutLocation` | claude-hooks/tmux-notification.py:448-454 | an immediate notification with no tmux context still gets a popup when tmux runs |
| `Hook.HandleEvent` | claude-hooks/tmux-notification.py:392-462 | the context is from `$TMUX_PANE`, else from the cwd; the record is built (type, message, urgency, cwd with the project-directory fallback, session id, transcript path), saved and dispatched; the cache is swept with 24 hours |
| `Hook.FreshRecordSurvives` | claude-hooks/tmux-notification.py:425-461 | the record just saved survives the sweep unless it is already more than 24 hours old |
| `Hook.ErrorEventInRepoPops` | claude-hooks/tmux-notification.py:408-421 | an "error" event in /repo with one pane listed at /repo resolves that pane, is immediate, and keeps its message |

## Left out

- The tmux commands (`list-panes`, `display-message`, `list-clients`, `run-shell`, `display-popup`, `list-sessions`) are not run. Their outputs and exit status are inputs; `None` stands for a failed command.
- `get_tmux_context` catches only `CalledProcessError`. Any other exception from it (for example, no tmux binary) would end `main` with exit code 1. That path is not modelled.
- `play_notification_sound` and all TTY writes are not modelled, because they are pure I/O.
- `show_popup` is not modelled: its script existence and executable checks, and its command string. The model stops at the decision to call it.
- `log_debug` and the debug log file are not modelled, because they have no effect on any decision.
- JSON is not modelled. Events, transcript lines and stored files arrive already decoded. Keys whose values are not strings (null, numbers, lists) are not modelled; an event field is a string or absent.
- `uuid4()`, `datetime.now()`, `isoformat` and `fromisoformat` are not modelled. The id and clock are parameters, and a timestamp is a whole number of seconds.
- Sub-second precision and the float division by 3600 are not modelled. The sweep compares `now - timestamp > hours * 3600` in whole seconds.
- Mixed timezone-aware and naive timestamps are not modelled. They raise an uncaught `TypeError`.
- `CLAUDE_PROJECT_DIR` is a parameter, not read from the environment.
- Reading stdin is not modelled, and neither are the `sys.exit` codes of `main`.
- `get_current_tmux_location` and `get_active_tmux_client` are not modelled, because nothing calls them.
- The sweep's uncaught exceptions are not modelled: a file that vanishes before `unlink`, JSON that is not an object, a timestamp that is not a string, and a directory whose name ends in `.json`. The source does not handle any of them.
- Text.Lower, Text.LowerChar: fold ASCII letters only, where Python's `str.lower()` folds all of Unicode. For the comparison with "stop" the two agree. The other use is the redundant "error"/"failed" test, which cannot change the result.
- A transcript `"text"` value that is not a string is not modelled. A read failure of an existing transcript file is modelled like a missing file, because both give None.
- Store.NotificationStore.Save: does not model a failure to create the directory or write the file.
- Store.NotificationStore.Sweep: the directory order is a nondeterministic choice, not the order `glob` yields. The result does not depend on it.
