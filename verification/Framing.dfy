// The line reader over a child's output pipe (gui/Observability.swift, CLIStream.start):
// bytes arrive in chunks of any size, lines leave whole, over-long lines are dropped.
module Framing {
  type Byte = b: int | 0 <= b < 256

  const NEWLINE: Byte := 10
  const LINE_CAP := 1_048_576

  // ---- the lines of a stream, whatever its chunks ------------------------------------------

  predicate Plain(s: seq<Byte>) {
    NEWLINE !in s
  }

  // The newline-separated pieces, the unterminated last one included.
  function Pieces(s: seq<Byte>): (r: seq<seq<Byte>>)
    ensures |r| > 0
  {
    if s == [] then [[]]
    else
      var front := Pieces(s[..|s| - 1]);
      var last := s[|s| - 1];
      if last == NEWLINE then front + [[]] else front[..|front| - 1] + [front[|front| - 1] + [last]]
  }

  function Join(pieces: seq<seq<Byte>>): seq<Byte>
    requires pieces != []
  {
    if |pieces| == 1 then pieces[0]
    else Join(pieces[..|pieces| - 1]) + [NEWLINE] + pieces[|pieces| - 1]
  }

  function Kept(pieces: seq<seq<Byte>>): seq<seq<Byte>> {
    if pieces == [] then [] else Kept(pieces[..|pieces| - 1]) + Keep(pieces[|pieces| - 1])
  }

  function Keep(line: seq<Byte>): seq<seq<Byte>> {
    if 0 < |line| <= LINE_CAP then [line] else []
  }

  // What must reach the receiver: the non-empty pieces within the cap, in order.
  function Framed(s: seq<Byte>): seq<seq<Byte>> {
    Kept(Pieces(s))
  }

  // The bytes after the last newline, and what the terminated pieces deliver.
  function Tail(s: seq<Byte>): seq<Byte> {
    Pieces(s)[|Pieces(s)| - 1]
  }

  function Finished(s: seq<Byte>): seq<seq<Byte>> {
    Kept(Pieces(s)[..|Pieces(s)| - 1])
  }

  // ---- splitting and joining are inverse -----------------------------------------------------

  ghost predicate AllPlain(pieces: seq<seq<Byte>>) {
    forall i :: 0 <= i < |pieces| ==> Plain(pieces[i])
  }

  lemma {:induction false} PiecesArePlain(s: seq<Byte>)
    ensures AllPlain(Pieces(s))
  {
    if s != [] {
      PiecesArePlain(s[..|s| - 1]);
    }
  }

  lemma {:induction false} JoinOfPieces(s: seq<Byte>)
    ensures Join(Pieces(s)) == s
  {
    if s != [] {
      var front, last := s[..|s| - 1], s[|s| - 1];
      JoinOfPieces(front);
      assert s == front + [last];
    }
  }

  lemma {:induction false} PiecesOfJoin(pieces: seq<seq<Byte>>)
    requires pieces != [] && AllPlain(pieces)
    ensures Pieces(Join(pieces)) == pieces
  {
    var last := pieces[|pieces| - 1];
    if |pieces| == 1 {
      AppendPieces([], last);
      assert [] + last == last && pieces == [last];
    } else {
      PiecesOfJoin(pieces[..|pieces| - 1]);
      AppendLast(Join(pieces[..|pieces| - 1]), last);
      assert pieces == pieces[..|pieces| - 1] + [last];
    }
  }

  lemma AppendLast(s: seq<Byte>, last: seq<Byte>)
    requires Plain(last)
    ensures Pieces(s + [NEWLINE] + last) == Pieces(s) + [last]
  {
    AppendPieces(s + [NEWLINE], last);
    NewLast(Pieces(s), last, Pieces(s + [NEWLINE] + last));
  }

  lemma NewLast(front: seq<seq<Byte>>, last: seq<Byte>, pieces: seq<seq<Byte>>)
    requires Extends(front + [[]], pieces, last)
    ensures pieces == front + [last]
  {
    assert (front + [[]])[..|front|] == front;
    assert [] + last == last;
  }

  // q is p with w added to its last piece.
  ghost predicate Extends(p: seq<seq<Byte>>, q: seq<seq<Byte>>, w: seq<Byte>) {
    p != [] && q == p[..|p| - 1] + [p[|p| - 1] + w]
  }

  lemma ExtendsTwice(p: seq<seq<Byte>>, q: seq<seq<Byte>>, r: seq<seq<Byte>>, v: seq<Byte>, w: seq<Byte>)
    requires Extends(p, q, v) && Extends(q, r, w)
    ensures Extends(p, r, v + w)
  {
    assert q[..|q| - 1] == p[..|p| - 1];
    assert p[|p| - 1] + v + w == p[|p| - 1] + (v + w);
  }

  lemma {:induction false} AppendPieces(s: seq<Byte>, w: seq<Byte>)
    requires Plain(w)
    ensures Extends(Pieces(s), Pieces(s + w), w)
  {
    if w == [] {
      assert s + w == s;
      ExtendsByNothing(Pieces(s));
    } else {
      AppendPieces(s, w[..|w| - 1]);
      AllButLast(s, w);
      ExtendsTwice(Pieces(s), Pieces(s + w[..|w| - 1]), Pieces(s + w), w[..|w| - 1], [w[|w| - 1]]);
    }
  }

  lemma ExtendsByNothing(p: seq<seq<Byte>>)
    requires p != []
    ensures Extends(p, p, [])
  {
    assert p[|p| - 1] + [] == p[|p| - 1];
  }

  lemma AllButLast(s: seq<Byte>, w: seq<Byte>)
    requires w != []
    ensures s + w == s + w[..|w| - 1] + [w[|w| - 1]] && w == w[..|w| - 1] + [w[|w| - 1]]
  {
  }

  lemma AppendPlain(s: seq<Byte>, w: seq<Byte>)
    requires Plain(w)
    ensures Pieces(s + w) == Pieces(s)[..|Pieces(s)| - 1] + [Tail(s) + w]
    ensures Finished(s + w) == Finished(s) && Tail(s + w) == Tail(s) + w
  {
    AppendPieces(s, w);
    var pieces := Pieces(s + w);
    assert pieces[..|pieces| - 1] == Pieces(s)[..|Pieces(s)| - 1];
  }

  // ---- the chunks -----------------------------------------------------------------------------

  // What the reader sees: an empty chunk is the end of the stream.
  function Stream(chunks: seq<seq<Byte>>): seq<Byte> {
    if chunks == [] || chunks[0] == [] then [] else chunks[0] + Stream(chunks[1..])
  }

  function Concat(chunks: seq<seq<Byte>>): seq<Byte> {
    if chunks == [] then [] else chunks[0] + Concat(chunks[1..])
  }

  // Two ways to cut the same bytes into non-empty chunks give the same lines.
  lemma {:induction false} ChunkingDoesNotMatter(chunks: seq<seq<Byte>>, others: seq<seq<Byte>>)
    requires forall i :: 0 <= i < |chunks| ==> chunks[i] != []
    requires forall i :: 0 <= i < |others| ==> others[i] != []
    requires Concat(chunks) == Concat(others)
    ensures Framed(Stream(chunks)) == Framed(Stream(others)) == Framed(Concat(chunks))
  {
    StreamIsConcat(chunks);
    StreamIsConcat(others);
  }

  lemma {:induction false} StreamIsConcat(chunks: seq<seq<Byte>>)
    requires forall i :: 0 <= i < |chunks| ==> chunks[i] != []
    ensures Stream(chunks) == Concat(chunks)
  {
    if chunks != [] {
      StreamIsConcat(chunks[1..]);
    }
  }

  // ---- the reader -----------------------------------------------------------------------------

  // `gone` are the bytes that already left the buffer; while a line is being dropped, the
  // removed part of it alone is over the cap.
  ghost predicate Reading(gone: seq<Byte>, dropping: bool, lines: seq<seq<Byte>>) {
    lines == Finished(gone) && if dropping then |Tail(gone)| > LINE_CAP else Tail(gone) == []
  }

  method FirstNewline(buffer: seq<Byte>) returns (at: int)
    ensures at < 0 ==> Plain(buffer)
    ensures at >= 0 ==> at < |buffer| && buffer[at] == NEWLINE && Plain(buffer[..at])
  {
    at := 0;
    while at < |buffer|
      invariant at <= |buffer| && Plain(buffer[..at])
    {
      if buffer[at] == NEWLINE {
        return;
      }
      at := at + 1;
    }
    at := -1;
  }

  // Takes every terminated line out of the buffer.
  method TakeLines(buffer0: seq<Byte>, dropping0: bool, ghost gone0: seq<Byte>)
    returns (buffer: seq<Byte>, dropping: bool, lines: seq<seq<Byte>>, ghost gone: seq<Byte>)
    requires Reading(gone0, dropping0, Finished(gone0))
    ensures gone + buffer == gone0 + buffer0 && Plain(buffer)
    ensures Reading(gone, dropping, Finished(gone0) + lines)
  {
    buffer, dropping, lines, gone := buffer0, dropping0, [], gone0;
    var newline := FirstNewline(buffer);
    while newline >= 0
      invariant newline < |buffer|
      invariant newline < 0 ==> Plain(buffer)
      invariant newline >= 0 ==> buffer[newline] == NEWLINE && Plain(buffer[..newline])
      invariant gone + buffer == gone0 + buffer0
      invariant Reading(gone, dropping, Finished(gone0) + lines)
      decreases |buffer|
    {
      var line := buffer[..newline];
      LineTaken(gone, dropping, lines, Finished(gone0), line);
      Consumed(gone, buffer, newline);
      gone := gone + line + [NEWLINE];
      buffer := buffer[newline + 1..];
      if !dropping && line != [] && |line| <= LINE_CAP {
        lines := lines + [line];
      }
      dropping := false;
      newline := FirstNewline(buffer);
    }
  }

  lemma Consumed(gone: seq<Byte>, buffer: seq<Byte>, newline: nat)
    requires newline < |buffer| && buffer[newline] == NEWLINE
    ensures gone + buffer[..newline] + [NEWLINE] + buffer[newline + 1..] == gone + buffer
  {
  }

  lemma LineTaken(gone: seq<Byte>, dropping: bool, lines: seq<seq<Byte>>, before: seq<seq<Byte>>, line: seq<Byte>)
    requires Reading(gone, dropping, before + lines) && Plain(line)
    ensures Reading(gone + line + [NEWLINE], false, before + (lines + if dropping then [] else Keep(line)))
  {
    AppendLine(gone, line);
    KeepTaken(Tail(gone), dropping, line);
    assert before + (lines + Keep(Tail(gone) + line)) == before + lines + Keep(Tail(gone) + line);
  }

  lemma AppendLine(gone: seq<Byte>, line: seq<Byte>)
    requires Plain(line)
    ensures Tail(gone + line + [NEWLINE]) == []
    ensures Finished(gone + line + [NEWLINE]) == Finished(gone) + Keep(Tail(gone) + line)
  {
    AppendPlain(gone, line);
  }

  lemma KeepTaken(tail: seq<Byte>, dropping: bool, line: seq<Byte>)
    requires if dropping then |tail| > LINE_CAP else tail == []
    ensures Keep(tail + line) == if dropping then [] else Keep(line)
  {
    if !dropping {
      assert [] + line == line;
    }
  }

  // One chunk: its terminated lines leave, and an over-long rest is dropped.
  method TakeChunk(chunk: seq<Byte>, buffer0: seq<Byte>, dropping0: bool, lines0: seq<seq<Byte>>, ghost gone0: seq<Byte>)
    returns (buffer: seq<Byte>, dropping: bool, lines: seq<seq<Byte>>, ghost gone: seq<Byte>)
    requires Reading(gone0, dropping0, lines0)
    ensures gone + buffer == gone0 + (buffer0 + chunk)
    ensures Reading(gone, dropping, lines) && Plain(buffer) && |buffer| <= LINE_CAP
  {
    var more;
    buffer, dropping, more, gone := TakeLines(buffer0 + chunk, dropping0, gone0);
    lines := lines0 + more;
    if |buffer| > LINE_CAP {
      AppendPlain(gone, buffer);
      assert gone + buffer + [] == gone + buffer;
      gone := gone + buffer;
      buffer := [];
      dropping := true;
    }
  }

  // Whatever the chunks, exactly the framed lines of the stream are delivered.
  method Read(chunks: seq<seq<Byte>>) returns (lines: seq<seq<Byte>>)
    ensures lines == Framed(Stream(chunks))
  {
    lines := [];
    var buffer: seq<Byte>, dropping := [], false;
    ghost var gone: seq<Byte> := [];
    var i := 0;
    while i < |chunks|
      invariant i <= |chunks|
      invariant Stream(chunks) == gone + buffer + Stream(chunks[i..])
      invariant Reading(gone, dropping, lines) && Plain(buffer) && |buffer| <= LINE_CAP
    {
      if chunks[i] == [] {
        break;
      }
      NextChunk(gone, buffer, chunks, i);
      buffer, dropping, lines, gone := TakeChunk(chunks[i], buffer, dropping, lines, gone);
      i := i + 1;
    }
    assert Stream(chunks) == gone + buffer;
    EndOfStream(gone, buffer, dropping, lines);
    if buffer != [] && !dropping {
      lines := lines + [buffer];
    }
  }

  lemma NextChunk(gone: seq<Byte>, buffer: seq<Byte>, chunks: seq<seq<Byte>>, i: nat)
    requires i < |chunks| && chunks[i] != []
    ensures gone + buffer + Stream(chunks[i..]) == gone + (buffer + chunks[i]) + Stream(chunks[i + 1..])
  {
    assert chunks[i..][1..] == chunks[i + 1..];
  }

  lemma EndOfStream(gone: seq<Byte>, buffer: seq<Byte>, dropping: bool, lines: seq<seq<Byte>>)
    requires Reading(gone, dropping, lines) && Plain(buffer) && |buffer| <= LINE_CAP
    ensures Framed(gone + buffer) == lines + if buffer != [] && !dropping then [buffer] else []
  {
    AppendPlain(gone, buffer);
    if !dropping {
      assert [] + buffer == buffer;
    }
  }
}
