/** NEWLINE-delimited frames reassembled from a stream that arrives in arbitrary chunks. */
module Framing {
  import opened Prelude
  import opened Text

  /** A JavaScript string is a sequence of UTF-16 code units. */
  newtype CodeUnit = n: int | 0 <= n < 0x1_0000

  type JsString = seq<CodeUnit>

  const NEWLINE: CodeUnit := 10

  /** Code units removed by `String.prototype.trim`. */
  predicate JsSpace(c: CodeUnit) {
    || 0x09 <= c <= 0x0d || c == 0x20 || c == 0xa0 || c == 0x1680
    || 0x2000 <= c <= 0x200a || c == 0x2028 || c == 0x2029 || c == 0x202f || c == 0x205f || c == 0x3000 || c == 0xfeff
  }

  /** One by one: tab to carriage return, space, no-break space, the space separators, the line and paragraph
      separators, and the byte order mark. */
  lemma JsSpacesListed(c: CodeUnit)
    ensures JsSpace(c) <==>
              c in {9, 10, 11, 12, 13, 32, 160, 5760, 8192, 8193, 8194, 8195, 8196, 8197, 8198, 8199, 8200, 8201, 8202,
                    8232, 8233, 8239, 8287, 12288, 65279}
  {
  }

  ghost predicate HasNewline(s: JsString) {
    exists k :: 0 <= k < |s| && s[k] == NEWLINE
  }

  /** Position of the first newline, or -1. */
  function IndexOfNewline(s: JsString): (i: int)
    ensures -1 <= i < |s|
  {
    if s == [] then -1
    else if s[0] == NEWLINE then 0
    else
      var i := IndexOfNewline(s[1..]);
      if i < 0 then -1 else i + 1
  }

  lemma {:induction false} IndexFindsFirst(s: JsString)
    ensures var i := IndexOfNewline(s);
            if i < 0 then !HasNewline(s) else s[i] == NEWLINE && forall k :: 0 <= k < i ==> s[k] != NEWLINE
  {
    if s != [] && s[0] != NEWLINE {
      IndexFindsFirst(s[1..]);
      assert forall k :: 0 < k < |s| ==> s[k] == s[1..][k - 1];
    }
  }

  lemma FirstNewlineAt(s: JsString, i: nat)
    requires i < |s| && s[i] == NEWLINE && forall k :: 0 <= k < i ==> s[k] != NEWLINE
    ensures IndexOfNewline(s) == i
  {
    IndexFindsFirst(s);
  }

  /** The message in one line: nothing if the line is blank. */
  function Message(line: JsString): seq<JsString> {
    var text := Trim(line, JsSpace);
    if text == [] then [] else [text]
  }

  /** The non-blank trimmed lines of a stream that are complete. */
  function Messages(stream: JsString): seq<JsString>
    decreases |stream|
  {
    var i := IndexOfNewline(stream);
    if i < 0 then [] else Message(stream[..i]) + Messages(stream[i + 1..])
  }

  /** What follows the last newline. */
  function Tail(stream: JsString): JsString
    decreases |stream|
  {
    var i := IndexOfNewline(stream);
    if i < 0 then stream else Tail(stream[i + 1..])
  }

  lemma {:induction false} TailHasNoNewline(stream: JsString)
    ensures |Tail(stream)| <= |stream| && !HasNewline(Tail(stream))
    decreases |stream|
  {
    IndexFindsFirst(stream);
    var i := IndexOfNewline(stream);
    if i >= 0 {
      TailHasNoNewline(stream[i + 1..]);
    }
  }

  /** The complete lines, with their newlines. */
  function Lines(stream: JsString): JsString
    decreases |stream|
  {
    var i := IndexOfNewline(stream);
    if i < 0 then [] else stream[..i + 1] + Lines(stream[i + 1..])
  }

  lemma CutLine(stream: JsString, i: nat, lines: JsString, tail: JsString)
    requires i < |stream| && stream[i + 1..] == lines + tail
    ensures stream == (stream[..i + 1] + lines) + tail
  {
    ConcatAssociative(stream[..i + 1], lines, tail);
  }

  /** The tail is what follows the complete lines. */
  lemma {:induction false} TailFollowsLines(stream: JsString)
    ensures stream == Lines(stream) + Tail(stream)
    decreases |stream|
  {
    IndexFindsFirst(stream);
    var i := IndexOfNewline(stream);
    if i >= 0 {
      TailFollowsLines(stream[i + 1..]);
      CutLine(stream, i, Lines(stream[i + 1..]), Tail(stream[i + 1..]));
    }
  }

  lemma {:induction false} LinesEndInNewline(stream: JsString)
    ensures Lines(stream) == [] || Lines(stream)[|Lines(stream)| - 1] == NEWLINE
    decreases |stream|
  {
    IndexFindsFirst(stream);
    var i := IndexOfNewline(stream);
    if i >= 0 {
      LinesEndInNewline(stream[i + 1..]);
    }
  }

  lemma TailOfLine(line: JsString)
    requires !HasNewline(line)
    ensures Tail(line) == line && Messages(line) == []
  {
    IndexFindsFirst(line);
  }

  lemma TakeFirstLine(s: JsString, line: JsString, rest: JsString)
    requires IndexOfNewline(s) == |line| && s == line + [NEWLINE] + rest
    ensures Messages(s) == Message(line) + Messages(rest) && Tail(s) == Tail(rest)
  {
    assert s[..|line|] == line && s[|line| + 1..] == rest;
  }

  /** Appending to a stream is appending to its tail, once the complete lines are taken off. */
  lemma {:induction false} StreamAppend(stream: JsString, chunk: JsString)
    ensures Messages(stream + chunk) == Messages(stream) + Messages(Tail(stream) + chunk)
    ensures Tail(stream + chunk) == Tail(Tail(stream) + chunk)
    decreases |stream|
  {
    var i := IndexOfNewline(stream);
    IndexFindsFirst(stream);
    if i < 0 {
      assert [] + Messages(stream + chunk) == Messages(stream + chunk);
    } else {
      var line, rest := stream[..i], stream[i + 1..];
      assert stream == line + [NEWLINE] + rest;
      assert stream + chunk == line + [NEWLINE] + (rest + chunk);
      FirstNewlineStays(stream, chunk);
      TakeFirstLine(stream, line, rest);
      TakeFirstLine(stream + chunk, line, rest + chunk);
      StreamAppend(rest, chunk);
      ConcatAssociative(Message(line), Messages(rest), Messages(Tail(rest) + chunk));
    }
  }

  lemma FirstNewlineStays(stream: JsString, chunk: JsString)
    requires IndexOfNewline(stream) >= 0
    ensures IndexOfNewline(stream + chunk) == IndexOfNewline(stream)
  {
    IndexFindsFirst(stream);
    FirstNewlineAt(stream + chunk, IndexOfNewline(stream));
  }

  function Collect(messages: seq<JsString>, text: JsString): seq<JsString> {
    if |text| > 0 then messages + [text] else messages
  }

  /** Taking the first line off the buffer moves its message over. */
  lemma TakeLine(messages: seq<JsString>, buffer: JsString, line: JsString, rest: JsString)
    requires IndexOfNewline(buffer) == |line| && line == buffer[..|line|] && rest == buffer[|line| + 1..]
    ensures messages + Messages(buffer) == Collect(messages, Trim(line, JsSpace)) + Messages(rest)
    ensures Tail(buffer) == Tail(rest)
  {
    IndexFindsFirst(buffer);
    assert buffer == line + [NEWLINE] + rest;
    TakeFirstLine(buffer, line, rest);
    ConcatAssociative(messages, Message(line), Messages(rest));
    assert messages + Message(line) == Collect(messages, Trim(line, JsSpace));
  }

  lemma NothingToTake(messages: seq<JsString>, buffer: JsString)
    requires IndexOfNewline(buffer) < 0
    ensures messages + Messages(buffer) == messages && Tail(buffer) == buffer
  {
  }

  datatype Pushed = Frames(messages: seq<JsString>) | Overflow

  /** One push: the limit is checked on the whole buffer, before any line is taken off. */
  function Push(maxBytes: int, buffer: JsString, chunk: JsString): (JsString, Pushed) {
    if |buffer + chunk| > maxBytes then ([], Overflow)
    else (Tail(buffer + chunk), Frames(Messages(buffer + chunk)))
  }

  class MessageBuffer {
    const maxBytes: int
    var buffer: JsString

    constructor (maxBytes: int)
      ensures this.maxBytes == maxBytes && buffer == []
    {
      this.maxBytes, buffer := maxBytes, [];
    }

    method PushChunk(chunk: JsString) returns (r: Pushed)
      modifies this
      ensures (buffer, r) == Push(maxBytes, old(buffer), chunk)
    {
      buffer := buffer + chunk;
      if |buffer| > maxBytes {
        buffer := [];
        return Overflow;
      }
      var messages := DrainLines();
      r := Frames(messages);
    }

    /** Takes complete lines off the front of the buffer. */
    method DrainLines() returns (messages: seq<JsString>)
      modifies this
      ensures messages == Messages(old(buffer)) && buffer == Tail(old(buffer))
    {
      messages := [];
      var newlineIndex := IndexOfNewline(buffer);
      while newlineIndex != -1
        invariant newlineIndex == IndexOfNewline(buffer)
        invariant messages + Messages(buffer) == Messages(old(buffer)) && Tail(buffer) == Tail(old(buffer))
        decreases |buffer|
      {
        var head, rest := buffer[..newlineIndex], buffer[newlineIndex + 1..];
        TakeLine(messages, buffer, head, rest);
        var line := Trim(head, JsSpace);
        buffer := rest;
        if |line| > 0 {
          messages := messages + [line];
        }
        newlineIndex := IndexOfNewline(buffer);
      }
      NothingToTake(messages, buffer);
    }

    method Clear()
      modifies this
      ensures buffer == []
    {
      buffer := [];
    }
  }

  // ---------- independence of chunking ----------

  function Join(chunks: seq<JsString>): JsString {
    if chunks == [] then [] else chunks[0] + Join(chunks[1..])
  }

  /** Pushes the chunks in turn; `None` as soon as one push overflows. */
  function PushAll(maxBytes: int, buffer: JsString, chunks: seq<JsString>): Option<(JsString, seq<JsString>)>
    decreases |chunks|
  {
    if chunks == [] then Some((buffer, []))
    else
      var (next, r) := Push(maxBytes, buffer, chunks[0]);
      if r.Overflow? then None
      else
        match PushAll(maxBytes, next, chunks[1..])
        case None => None
        case Some((last, messages)) => Some((last, r.messages + messages))
  }

  /** However the stream is cut, the messages are its non-blank trimmed lines and the buffer its tail. */
  lemma {:induction false} ReassemblyFrom(maxBytes: int, buffer: JsString, chunks: seq<JsString>)
    requires !HasNewline(buffer) && PushAll(maxBytes, buffer, chunks).Some?
    ensures var (last, messages) := PushAll(maxBytes, buffer, chunks).value;
            messages == Messages(buffer + Join(chunks)) && last == Tail(buffer + Join(chunks))
    decreases |chunks|
  {
    if chunks == [] {
      assert buffer + Join(chunks) == buffer;
      TailOfLine(buffer);
    } else {
      var soFar, ahead := buffer + chunks[0], Join(chunks[1..]);
      TailHasNoNewline(soFar);
      ReassemblyFrom(maxBytes, Tail(soFar), chunks[1..]);
      ConcatAssociative(buffer, chunks[0], ahead);
      StreamAppend(soFar, ahead);
    }
  }

  /** From an empty buffer, any cut of the same stream that overflows nowhere gives the same result. */
  lemma ChunkingIsIrrelevant(maxBytes: int, chunks: seq<JsString>)
    requires PushAll(maxBytes, [], chunks).Some?
    ensures PushAll(maxBytes, [], chunks) == Some((Tail(Join(chunks)), Messages(Join(chunks))))
  {
    ReassemblyFrom(maxBytes, [], chunks);
    assert [] + Join(chunks) == Join(chunks);
  }

  /** A push overflows exactly when the unterminated tail of the stream so far and the chunk exceed the limit. */
  ghost predicate NeverOverflows(maxBytes: int, buffer: JsString, chunks: seq<JsString>) {
    forall k :: 0 <= k < |chunks| ==> |Tail(buffer + Join(chunks[..k]))| + |chunks[k]| <= maxBytes
  }

  /** The tail in front of chunk `k` does not depend on whether the first chunk has been pushed already. */
  lemma SameTailAhead(buffer: JsString, chunks: seq<JsString>, k: nat)
    requires k + 1 < |chunks|
    ensures Tail(Tail(buffer + chunks[0]) + Join(chunks[1..][..k])) == Tail(buffer + Join(chunks[..k + 1]))
  {
    assert chunks[..k + 1][1..] == chunks[1..][..k];
    assert buffer + Join(chunks[..k + 1]) == (buffer + chunks[0]) + Join(chunks[1..][..k]);
    StreamAppend(buffer + chunks[0], Join(chunks[1..][..k]));
  }

  lemma {:induction false} OverflowCondition(maxBytes: int, buffer: JsString, chunks: seq<JsString>)
    requires !HasNewline(buffer)
    ensures PushAll(maxBytes, buffer, chunks).Some? <==> NeverOverflows(maxBytes, buffer, chunks)
    decreases |chunks|
  {
    if chunks != [] {
      var rest, next := chunks[1..], Tail(buffer + chunks[0]);
      assert buffer + Join(chunks[..0]) == buffer;
      TailOfLine(buffer);
      TailHasNoNewline(buffer + chunks[0]);
      OverflowCondition(maxBytes, next, rest);
      SplitNeverOverflows(maxBytes, buffer, chunks);
    }
  }

  lemma SplitNeverOverflows(maxBytes: int, buffer: JsString, chunks: seq<JsString>)
    requires chunks != [] && Tail(buffer + Join(chunks[..0])) == buffer
    ensures NeverOverflows(maxBytes, buffer, chunks) <==>
              |buffer + chunks[0]| <= maxBytes && NeverOverflows(maxBytes, Tail(buffer + chunks[0]), chunks[1..])
  {
    var rest, next := chunks[1..], Tail(buffer + chunks[0]);
    forall k | 0 <= k < |rest|
      ensures |Tail(next + Join(rest[..k]))| + |rest[k]| == |Tail(buffer + Join(chunks[..k + 1]))| + |chunks[k + 1]|
    {
      SameTailAhead(buffer, chunks, k);
    }
    if |buffer + chunks[0]| <= maxBytes && NeverOverflows(maxBytes, next, rest) {
      forall k | 0 <= k < |chunks|
        ensures |Tail(buffer + Join(chunks[..k]))| + |chunks[k]| <= maxBytes
      {
        if k > 0 {
          assert |Tail(next + Join(rest[..k - 1]))| + |rest[k - 1]| <= maxBytes;
        }
      }
    }
    if NeverOverflows(maxBytes, buffer, chunks) {
      assert |Tail(buffer + Join(chunks[..0]))| + |chunks[0]| <= maxBytes;
    }
  }

  /** Whatever the limit, some stream keeps it in one cut and exceeds it in another: two full lines, one by one or at
      once. */
  lemma OverflowDependsOnChunks(maxBytes: int, line: JsString)
    requires maxBytes >= 1 && |line| == maxBytes - 1 && !HasNewline(line)
    ensures var full := line + [NEWLINE];
            && Join([full, full]) == Join([full + full])
            && PushAll(maxBytes, [], [full, full]).Some? && PushAll(maxBytes, [], [full + full]).None?
  {
    var full := line + [NEWLINE];
    var two, one, last := [full, full], [full + full], [full];
    assert two[1..] == last && one[1..] == [] && last[1..] == [];
    assert Join(last) == full + Join([]) == full;
    assert Join(two) == full + Join(last) && Join(one) == full + full + Join([]);
    FirstNewlineAt(full, |line|);
    assert full[|line| + 1..] == [];
    assert [] + full == full && [] + (full + full) == full + full;
    assert Tail(full) == Tail([]) == [];
    assert PushAll(maxBytes, [], last).Some?;
  }

  // ---------- round trip ----------

  /** `JSON.stringify` output: no raw newline, nothing to trim, not empty. */
  ghost predicate Serialized(text: JsString) {
    !HasNewline(text) && text != [] && Trim(text, JsSpace) == text
  }

  function FormatFrame(text: JsString): JsString {
    text + [NEWLINE]
  }

  function FormatAll(texts: seq<JsString>): JsString {
    if texts == [] then [] else FormatFrame(texts[0]) + FormatAll(texts[1..])
  }

  lemma {:induction false} FormattedMessages(texts: seq<JsString>)
    requires forall t :: t in texts ==> Serialized(t)
    ensures Messages(FormatAll(texts)) == texts && Tail(FormatAll(texts)) == []
  {
    if texts != [] {
      var text, rest := texts[0], FormatAll(texts[1..]);
      var stream := FormatAll(texts);
      assert stream == (text + [NEWLINE]) + rest;
      var i := |text|;
      assert texts[0] in texts && Serialized(text);
      assert stream[i] == NEWLINE && forall k :: 0 <= k < i ==> stream[k] == text[k];
      FirstNewlineAt(stream, i);
      assert stream[..i] == text && stream[i + 1..] == rest;
      FormattedMessages(texts[1..]);
      assert texts == [text] + texts[1..];
    }
  }

  /** Serialized messages come out exactly and in order, however their frames are cut into chunks. */
  lemma FramesRoundTrip(maxBytes: int, texts: seq<JsString>, chunks: seq<JsString>)
    requires (forall t :: t in texts ==> Serialized(t)) && Join(chunks) == FormatAll(texts)
    requires PushAll(maxBytes, [], chunks).Some?
    ensures PushAll(maxBytes, [], chunks) == Some(([], texts))
  {
    ChunkingIsIrrelevant(maxBytes, chunks);
    FormattedMessages(texts);
  }
}
