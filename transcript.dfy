/**
 * The fallback message source: the transcript is a file of JSON records,
 * one per line, and the hook takes the text of the most recent assistant
 * record (`get_last_claude_message`). JSON decoding is not modelled: each
 * line arrives already classified.
 */
module Transcript {
  import opened Wrappers

  /** One element of a message's "content" list. */
  datatype Block =
    | TextBlock(text: string)   // a dict with "type" == "text"; a missing "text" is ""
    | OtherBlock                // any other element

  /** The "content" value of a message dict. */
  datatype Content = Blocks(blocks: seq<Block>) | NotAList

  /** The "message" value of a record; a missing key is the empty dict, `MessageDict(Blocks([]))`. */
  datatype MessageField = MessageDict(content: Content) | NotADict

  /** A decoded record: its "type" value and its "message" value. */
  datatype Entry = Entry(kind: string, message: MessageField)

  /** One line of the transcript after `json.loads`. */
  datatype Line =
    | Undecodable        // json.loads raised JSONDecodeError (also every blank line)
    | NonObject          // valid JSON that is not an object: `.get` raises AttributeError
    | Decoded(entry: Entry)

  /** The first non-empty text block of a list, in order. */
  function FirstText(blocks: seq<Block>): (r: Option<string>)
    ensures r.Some? ==> r.value != ""
    ensures r.Some? <==> exists i :: 0 <= i < |blocks| && blocks[i].TextBlock? && blocks[i].text != ""
    ensures r.Some? ==> exists i :: (0 <= i < |blocks| && blocks[i] == TextBlock(r.value)
      && forall j :: 0 <= j < i ==> !(blocks[j].TextBlock? && blocks[j].text != ""))
  {
    if blocks == [] then None
    else if blocks[0].TextBlock? && blocks[0].text != "" then Some(blocks[0].text)
    else
      var r := FirstText(blocks[1..]);
      assert forall i :: 0 < i < |blocks| ==> blocks[i] == blocks[1..][i - 1];
      if r.Some? then
        var k :| (0 <= k < |blocks| - 1 && blocks[1..][k] == TextBlock(r.value)
          && forall j :: 0 <= j < k ==> !(blocks[1..][j].TextBlock? && blocks[1..][j].text != ""));
        assert blocks[k + 1] == TextBlock(r.value);
        r
      else r
  }

  /** The text an entry offers: only an assistant record with a text block offers any. */
  function EntryText(e: Entry): Option<string> {
    if e.kind == "assistant" && e.message.MessageDict? && e.message.content.Blocks?
    then FirstText(e.message.content.blocks)
    else None
  }

  /** Outcome of the backward scan. */
  datatype ScanResult =
    | Found(text: string)
    | NotFound
    | Aborted   // a non-object line was met: the outer handler turns it into None

  /** The backward scan from the last line: skip undecodable lines and entries without text. */
  function Latest(lines: seq<Line>): ScanResult {
    if lines == [] then NotFound
    else
      var rest := lines[..|lines| - 1];
      match lines[|lines| - 1]
      case Undecodable => Latest(rest)
      case NonObject => Aborted
      case Decoded(e) => if EntryText(e).Some? then Found(EntryText(e).value) else Latest(rest)
  }

  /** A line that the scan passes over. */
  predicate Skipped(line: Line) {
    line.Undecodable? || (line.Decoded? && EntryText(line.entry).None?)
  }

  /**
   * The scan returns the text of the most recent entry that offers text:
   * every later line is one it passes over.
   */
  lemma {:induction false} LatestIsMostRecent(lines: seq<Line>)
    ensures Latest(lines).Found? <==>
      exists i :: 0 <= i < |lines| && lines[i].Decoded? && EntryText(lines[i].entry).Some?
        && (forall j :: i < j < |lines| ==> Skipped(lines[j]))
    ensures Latest(lines).Found? ==>
      exists i :: 0 <= i < |lines| && lines[i].Decoded? && EntryText(lines[i].entry) == Some(Latest(lines).text)
        && (forall j :: i < j < |lines| ==> Skipped(lines[j]))
  {
    if lines != [] {
      var n := |lines| - 1;
      var rest := lines[..n];
      LatestIsMostRecent(rest);
      assert forall j :: 0 <= j < n ==> rest[j] == lines[j];
      if Skipped(lines[n]) {
        if Latest(lines).Found? {
          var i :| 0 <= i < n && rest[i].Decoded? && EntryText(rest[i].entry) == Some(Latest(rest).text)
            && (forall j :: i < j < n ==> Skipped(rest[j]));
          assert forall j :: i < j < |lines| ==> Skipped(lines[j]);
        }
      }
    }
  }

  /** A record that offers no text does not stop the search: appending it changes nothing. */
  lemma SkippedLineIsTransparent(lines: seq<Line>, line: Line)
    requires Skipped(line)
    ensures Latest(lines + [line]) == Latest(lines)
  {
    assert (lines + [line])[..|lines|] == lines;
  }

  /** A non-object line after every text-bearing entry makes the call give up. */
  lemma {:induction false} NonObjectAborts(lines: seq<Line>, later: seq<Line>)
    requires forall j :: 0 <= j < |later| ==> Skipped(later[j])
    ensures Latest(lines + [NonObject] + later) == Aborted
    decreases |later|
  {
    if later == [] {
      assert lines + [NonObject] + later == lines + [NonObject];
      assert (lines + [NonObject])[|lines|] == NonObject;
    } else {
      var n := |later| - 1;
      var front := lines + [NonObject] + later[..n];
      assert lines + [NonObject] + later == front + [later[n]];
      SkippedLineIsTransparent(front, later[n]);
      NonObjectAborts(lines, later[..n]);
    }
  }

  /** Python's `text[:max_chars]`, plus "..." iff the text was longer. */
  function Truncate(text: string, maxChars: nat): (r: string)
    ensures |text| <= maxChars ==> r == text
    ensures |text| > maxChars ==> |r| == maxChars + 3 && r[maxChars..] == "..."
    ensures |r| <= maxChars + 3
    ensures forall i :: 0 <= i < |r| && i < maxChars && i < |text| ==> r[i] == text[i]
  {
    var result := if |text| <= maxChars then text else text[..maxChars];
    if |text| > maxChars then result + "..." else result
  }

  /** A truncated text is never empty when the text was not. */
  lemma TruncateNonEmpty(text: string, maxChars: nat)
    requires text != ""
    ensures Truncate(text, maxChars) != ""
  {
  }

  /**
   * What `get_last_claude_message` returns: `path` is `transcript_path`
   * ("" when absent), `file` the decoded lines of that file, `None` when it
   * does not exist.
   */
  function TranscriptMessage(path: string, file: Option<seq<Line>>, maxChars: nat): Option<string> {
    if path == "" || file.None? then None
    else
      match Latest(file.value)
      case Found(text) => Some(Truncate(text, maxChars))
      case _ => None
  }

  /** The characterisation of the call: a missing path or file gives nothing; otherwise the latest text, truncated. */
  lemma TranscriptMessageCases(path: string, file: Option<seq<Line>>, maxChars: nat)
    ensures path == "" || file.None? ==> TranscriptMessage(path, file, maxChars) == None
    ensures TranscriptMessage(path, file, maxChars).Some? ==>
      var r := TranscriptMessage(path, file, maxChars).value;
      r != "" && |r| <= maxChars + 3
  {
    if TranscriptMessage(path, file, maxChars).Some? {
      var text := Latest(file.value).text;
      LatestFoundNonEmpty(file.value);
      TruncateNonEmpty(text, maxChars);
    }
  }

  /** A found text is never empty. */
  lemma {:induction false} LatestFoundNonEmpty(lines: seq<Line>)
    ensures Latest(lines).Found? ==> Latest(lines).text != ""
  {
    if lines != [] {
      LatestFoundNonEmpty(lines[..|lines| - 1]);
    }
  }

  /**
   * `get_last_claude_message`: walk the lines from the last one backwards;
   * skip undecodable ones; in an assistant record walk the content blocks
   * and return the first non-empty text, truncated.
   */
  method LastAssistantMessage(path: string, file: Option<seq<Line>>, maxChars: nat) returns (r: Option<string>)
    ensures r == TranscriptMessage(path, file, maxChars)
  {
    if path == "" || file.None? {
      return None;
    }
    var lines := file.value;
    var i := |lines|;
    assert lines[..i] == lines;
    while i > 0
      invariant 0 <= i <= |lines|
      invariant Latest(lines[..i]) == Latest(lines)
    {
      i := i - 1;
      assert lines[..i + 1][..i] == lines[..i];
      match lines[i]
      case Undecodable =>
        continue;
      case NonObject =>
        return None;
      case Decoded(e) =>
        if e.kind == "assistant" && e.message.MessageDict? && e.message.content.Blocks? {
          var blocks := e.message.content.blocks;
          var j := 0;
          while j < |blocks|
            invariant 0 <= j <= |blocks|
            invariant FirstText(blocks[j..]) == FirstText(blocks)
          {
            assert blocks[j..][1..] == blocks[j + 1..];
            var block := blocks[j];
            if block.TextBlock? && block.text != "" {
              return Some(Truncate(block.text, maxChars));
            }
            j := j + 1;
          }
        }
    }
    return None;
  }
}
