/**
 * The calls a handler makes on the chat platform and on the downloader, as a
 * trace of events, and the status message those calls leave behind. Edit
 * texts join a prefix written as Unicode characters to a progress token whose
 * characters stand for bytes of the line.
 */
module Status {
  import opened Wrappers
  import opened Progress
  import opened Delivery

  datatype Event =
    | Reply(text: string)                  // a plain reply to the command (the usage hint)
    | Post(text: string, delivered: bool)  // the status message is sent; `delivered` is the call's success
    | Spawn(args: seq<string>)             // the attempt to start the downloader with this argument vector, whether or not it starts
    | Edit(text: string)                   // the status message is rewritten
    | TelegramSend(attachment: Attachment) // SendAudio, SendVideo or SendDocument
    | Upload(length: nat)                  // the WhatsApp media upload of the file's bytes
    | WhatsAppSend(document: Document)     // the WhatsApp document message
    | Delete                               // Telegram deletes the status message
    | Revoke                               // WhatsApp revokes the status message for everyone
  {
    /** The calls that deliver the file to the chat. */
    predicate IsSend()
    {
      TelegramSend? || WhatsAppSend?
    }
  }

  type Trace = seq<Event>

  predicate NoSend(t: Trace)
  {
    forall i :: 0 <= i < |t| ==> !t[i].IsSend()
  }

  predicate NoPost(t: Trace)
  {
    forall i :: 0 <= i < |t| ==> !t[i].Post?
  }

  predicate AllEdits(t: Trace)
  {
    forall i :: 0 <= i < |t| ==> t[i].Edit?
  }

  const TelegramProgressPrefix := "Downloading\U{2026} "
  const WhatsAppProgressPrefix := "Downloading... "

  /** The edit one stdout line causes: one edit when the line carries a token, none otherwise. */
  function EditFor(line: string, prefix: string): Trace
  {
    match ProgressToken(line)
    case None => []
    case Some(token) => [Edit(prefix + token)]
  }

  /** The edits the progress reader issues for the lines read so far, in line order. */
  function ProgressEdits(lines: seq<string>, prefix: string): (r: Trace)
    ensures |r| <= |lines| && AllEdits(r)
  {
    if lines == [] then []
    else ProgressEdits(lines[..|lines| - 1], prefix) + EditFor(lines[|lines| - 1], prefix)
  }

  /** The tokens of the qualifying lines, in line order: the reference for ProgressEdits. */
  function Tokens(lines: seq<string>): seq<string>
  {
    if lines == [] then []
    else
      match ProgressToken(lines[0])
      case None => Tokens(lines[1..])
      case Some(token) => [token] + Tokens(lines[1..])
  }

  /**
   * The progress reader: for every line, in order, one edit showing the
   * prefix and the line's token when the line qualifies, nothing otherwise.
   */
  method ReadProgress(lines: seq<string>, prefix: string) returns (edits: Trace)
    ensures edits == ProgressEdits(lines, prefix)
  {
    edits := [];
    var i := 0;
    while i < |lines|
      invariant 0 <= i <= |lines|
      invariant edits == ProgressEdits(lines[..i], prefix)
    {
      var line := lines[i];
      if Percent in line {
        var idx := IndexOf(line, Percent);
        if idx >= 2 {
          var p := line[idx - 2..idx + 1];
          edits := edits + [Edit(prefix + p)];
        }
      }
      assert lines[..i + 1][..i] == lines[..i];
      i := i + 1;
    }
    assert lines[..i] == lines;
  }

  /** The progress edits of consecutive stretches of output are consecutive. */
  lemma {:induction false} ProgressEditsAppend(a: seq<string>, b: seq<string>, prefix: string)
    ensures ProgressEdits(a + b, prefix) == ProgressEdits(a, prefix) + ProgressEdits(b, prefix)
    decreases |b|
  {
    if b == [] {
      assert a + b == a;
    } else {
      var init := b[..|b| - 1];
      assert (a + b)[..|a + b| - 1] == a + init;
      assert (a + b)[|a + b| - 1] == b[|b| - 1];
      ProgressEditsAppend(a, init, prefix);
    }
  }

  /** Exactly one edit per qualifying line, in line order, showing the prefix and that line's token. */
  lemma {:induction false} ProgressEditsShowTokens(lines: seq<string>, prefix: string)
    ensures |ProgressEdits(lines, prefix)| == |Tokens(lines)|
    ensures forall k :: 0 <= k < |Tokens(lines)| ==>
              ProgressEdits(lines, prefix)[k] == Edit(prefix + Tokens(lines)[k])
  {
    if lines != [] {
      var rest := lines[1..];
      ProgressEditsShowTokens(rest, prefix);
      assert lines == [lines[0]] + rest;
      ProgressEditsAppend([lines[0]], rest, prefix);
      assert [lines[0]][..0] == [];
    }
  }

  /** Lines without a percent sign, or whose first one comes too early, cause no edit. */
  lemma NonQualifyingLinesSilent(lines: seq<string>, prefix: string)
    requires forall i :: 0 <= i < |lines| ==> ProgressToken(lines[i]) == None
    ensures ProgressEdits(lines, prefix) == []
  {
    ProgressEditsShowTokens(lines, prefix);
    TokensEmpty(lines);
  }

  lemma {:induction false} TokensEmpty(lines: seq<string>)
    requires forall i :: 0 <= i < |lines| ==> ProgressToken(lines[i]) == None
    ensures Tokens(lines) == []
  {
    if lines != [] {
      assert ProgressToken(lines[0]) == None;
      TokensEmpty(lines[1..]);
    }
  }

  /** The status message after one call. */
  function Apply(status: Option<string>, e: Event): Option<string>
  {
    match e
    case Post(text, delivered) => if delivered then Some(text) else status
    case Edit(text) => if status.Some? then Some(text) else status
    case Delete => None
    case Revoke => None
    case _ => status
  }

  /** The text of the status message visible in the chat after the calls of `t` (None: no status message). */
  function StatusAfter(t: Trace): Option<string>
  {
    if t == [] then None else Apply(StatusAfter(t[..|t| - 1]), t[|t| - 1])
  }

  lemma StatusAfterSnoc(t: Trace, e: Event)
    ensures StatusAfter(t + [e]) == Apply(StatusAfter(t), e)
  {
    var u := t + [e];
    assert u[..|u| - 1] == t && u[|u| - 1] == e;
  }

  /** Without a status post there is never a status message, whatever else is called. */
  lemma {:induction false} NoPostNoStatus(t: Trace)
    requires NoPost(t)
    ensures StatusAfter(t) == None
  {
    if t != [] {
      NoPostNoStatus(t[..|t| - 1]);
    }
  }

  /** Edits to an existing status message keep it in the chat. */
  lemma {:induction false} EditsKeepStatus(t: Trace, edits: Trace)
    requires AllEdits(edits) && StatusAfter(t).Some?
    ensures StatusAfter(t + edits).Some?
    decreases |edits|
  {
    if edits != [] {
      var init := edits[..|edits| - 1];
      assert t + edits == (t + init) + [edits[|edits| - 1]];
      EditsKeepStatus(t, init);
      StatusAfterSnoc(t + init, edits[|edits| - 1]);
    } else {
      assert t + edits == t;
    }
  }
}
