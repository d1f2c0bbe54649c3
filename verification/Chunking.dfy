/** The line-aware chunker: content is cut into bounded chunks that know the lines they came from. */
module Chunking {
  import opened Prelude

  datatype Chunk = Chunk(content: string, startLine: int, endLine: int)

  datatype ChunkError = PositiveChunkBudgetRequired

  /** The characters `str.splitlines` breaks lines at. */
  predicate IsBreak(c: char) {
    || '\n' <= c <= '\r'
    || '\U{1c}' <= c <= '\U{1e}'
    || c == '\U{85}' || c == '\U{2028}' || c == '\U{2029}'
  }

  /** The length of the first line, its break included; a carriage return and a line feed are one break. */
  function FirstLine(s: string): (k: nat)
    requires s != []
    ensures 0 < k <= |s|
    ensures forall i :: 0 <= i < k - 1 && IsBreak(s[i]) ==> i == k - 2 && s[i] == '\r' && s[i + 1] == '\n'
    ensures k < |s| ==> IsBreak(s[k - 1]) && !(s[k - 1] == '\r' && s[k] == '\n')
  {
    if IsBreak(s[0]) then if s[0] == '\r' && |s| > 1 && s[1] == '\n' then 2 else 1
    else if |s| == 1 then 1
    else 1 + FirstLine(s[1..])
  }

  /** The lines of a text, each with its break. */
  function SplitLines(s: string): (lines: seq<string>)
    ensures forall i :: 0 <= i < |lines| ==> lines[i] != []
    decreases |s|
  {
    if s == [] then [] else [s[..FirstLine(s)]] + SplitLines(s[FirstLine(s)..])
  }

  function Join(texts: seq<string>): string {
    if texts == [] then [] else Join(texts[..|texts| - 1]) + texts[|texts| - 1]
  }

  lemma {:induction false} JoinCons(text: string, texts: seq<string>)
    ensures Join([text] + texts) == text + Join(texts)
  {
    if texts == [] {
      assert [text] + texts == [text];
    } else {
      var k := |texts| - 1;
      assert ([text] + texts)[..|texts|] == [text] + texts[..k];
      JoinCons(text, texts[..k]);
    }
  }

  lemma JoinAppend(texts: seq<string>, text: string)
    ensures Join(texts + [text]) == Join(texts) + text
  {
    assert (texts + [text])[..|texts|] == texts;
  }

  /** Splitting loses nothing. */
  lemma {:induction false} SplitLinesJoin(s: string)
    ensures Join(SplitLines(s)) == s
    decreases |s|
  {
    if s == [] {
    } else {
      var k := FirstLine(s);
      SplitLinesJoin(s[k..]);
      JoinCons(s[..k], SplitLines(s[k..]));
      assert s == s[..k] + s[k..];
    }
  }

  /** How many characters the first `k` lines hold. */
  ghost function Offset(lines: seq<string>, k: int): int
    requires 0 <= k <= |lines|
  {
    if k == 0 then 0 else Offset(lines, k - 1) + |lines[k - 1]|
  }

  lemma {:induction false} OffsetIsJoin(lines: seq<string>, k: nat)
    requires k <= |lines|
    ensures Offset(lines, k) == |Join(lines[..k])|
  {
    if k == 0 {
    } else {
      OffsetIsJoin(lines, k - 1);
      assert lines[..k][..k - 1] == lines[..k - 1];
    }
  }

  lemma {:induction false} OffsetGrows(lines: seq<string>, j: nat, k: nat)
    requires j <= k <= |lines|
    ensures Offset(lines, j) <= Offset(lines, k)
    decreases k
  {
    if j == k {
    } else {
      OffsetGrows(lines, j, k - 1);
    }
  }

  // ---- What a list of chunks says about its source ---------------------------------------

  function Text(chunks: seq<Chunk>): string {
    if chunks == [] then [] else Text(chunks[..|chunks| - 1]) + chunks[|chunks| - 1].content
  }

  /** A text of `size` characters from position `pos` on starts in line `start` and ends in line `end`. */
  ghost predicate Spans(lines: seq<string>, start: int, end: int, pos: int, size: int) {
    && 1 <= start <= end <= |lines| && size > 0
    && Offset(lines, start - 1) <= pos < Offset(lines, start)
    && Offset(lines, end - 1) < pos + size <= Offset(lines, end)
  }

  /** A chunk from position `pos` on is as full as the limit allows without breaking lines for nothing: it breaks a
      line only where what is left of it does not fit, and then has the full size; otherwise it ends with a line, and
      the next line would not have fitted. */
  ghost predicate Fills(lines: seq<string>, start: int, end: int, pos: int, size: int, limit: int) {
    && 1 <= start <= end <= |lines|
    && if Offset(lines, start) - pos > limit then size == limit
       else pos + size == Offset(lines, end) && (end < |lines| ==> size + |lines[end]| > limit)
  }

  /** Every chunk is bounded, carries exactly the lines its text begins and ends in, and is as full as may be. */
  ghost predicate ExactSpans(lines: seq<string>, chunks: seq<Chunk>, limit: int) {
    chunks == [] ||
    var init, last := chunks[..|chunks| - 1], chunks[|chunks| - 1];
    && ExactSpans(lines, init, limit)
    && |last.content| <= limit
    && Spans(lines, last.startLine, last.endLine, |Text(init)|, |last.content|)
    && Fills(lines, last.startLine, last.endLine, |Text(init)|, |last.content|, limit)
  }

  lemma ExactSpansAppend(lines: seq<string>, chunks: seq<Chunk>, c: Chunk, limit: int)
    requires ExactSpans(lines, chunks, limit) && |c.content| <= limit
    requires Spans(lines, c.startLine, c.endLine, |Text(chunks)|, |c.content|)
    requires Fills(lines, c.startLine, c.endLine, |Text(chunks)|, |c.content|, limit)
    ensures ExactSpans(lines, chunks + [c], limit) && Text(chunks + [c]) == Text(chunks) + c.content
  {
    assert (chunks + [c])[..|chunks|] == chunks;
  }

  lemma {:induction false} ExactSpansPrefix(lines: seq<string>, chunks: seq<Chunk>, limit: int, k: nat)
    requires ExactSpans(lines, chunks, limit) && k <= |chunks|
    ensures ExactSpans(lines, chunks[..k], limit)
  {
    if k < |chunks| {
      ExactSpansPrefix(lines, chunks[..|chunks| - 1], limit, k);
      assert chunks[..|chunks| - 1][..k] == chunks[..k];
    } else {
      assert chunks[..k] == chunks;
    }
  }

  lemma SpanAt(lines: seq<string>, chunks: seq<Chunk>, limit: int, i: nat)
    requires ExactSpans(lines, chunks, limit) && i < |chunks|
    ensures |chunks[i].content| <= limit
    ensures Spans(lines, chunks[i].startLine, chunks[i].endLine, |Text(chunks[..i])|, |chunks[i].content|)
    ensures Fills(lines, chunks[i].startLine, chunks[i].endLine, |Text(chunks[..i])|, |chunks[i].content|, limit)
    ensures Text(chunks[..i + 1]) == Text(chunks[..i]) + chunks[i].content
  {
    ExactSpansPrefix(lines, chunks, limit, i + 1);
    assert chunks[..i + 1][..i] == chunks[..i];
  }

  /** A position lies in one line only. */
  lemma OneLine(lines: seq<string>, a: int, b: int, pos: int)
    requires 1 <= a <= |lines| && 1 <= b <= |lines|
    requires Offset(lines, a - 1) <= pos < Offset(lines, a) && Offset(lines, b - 1) <= pos < Offset(lines, b)
    ensures a == b
  {
    if a < b {
      OffsetGrows(lines, a, b - 1);
    } else if b < a {
      OffsetGrows(lines, b, a - 1);
    }
  }

  /** Exact spans are in step with the text: the first starts at line 1, the last ends at the last line,
      each next begins on its predecessor's last line or the line after, and no chunk is empty or too long. */
  lemma SpansInStep(lines: seq<string>, chunks: seq<Chunk>, limit: int)
    requires ExactSpans(lines, chunks, limit) && Text(chunks) == Join(lines) && lines != []
    requires forall i :: 0 <= i < |lines| ==> lines[i] != []
    ensures chunks != [] && chunks[0].startLine == 1 && chunks[|chunks| - 1].endLine == |lines|
    ensures forall i :: 0 <= i < |chunks| ==>
      0 < |chunks[i].content| <= limit && chunks[i].startLine <= chunks[i].endLine
    ensures forall i, j :: 0 <= i && j == i + 1 && j < |chunks| ==>
      chunks[i].endLine <= chunks[j].startLine <= chunks[i].endLine + 1
  {
    FirstAndLast(lines, chunks, limit);
    forall i | 0 <= i < |chunks| ensures 0 < |chunks[i].content| <= limit && chunks[i].startLine <= chunks[i].endLine {
      SpanAt(lines, chunks, limit, i);
    }
    forall i, j | 0 <= i && j == i + 1 && j < |chunks|
      ensures chunks[i].endLine <= chunks[j].startLine <= chunks[i].endLine + 1
    {
      NextInStep(lines, chunks, limit, i);
    }
  }

  lemma FirstAndLast(lines: seq<string>, chunks: seq<Chunk>, limit: int)
    requires ExactSpans(lines, chunks, limit) && Text(chunks) == Join(lines) && lines != []
    requires forall i :: 0 <= i < |lines| ==> lines[i] != []
    ensures chunks != [] && chunks[0].startLine == 1 && chunks[|chunks| - 1].endLine == |lines|
  {
    assert Join(lines) != [];
    var n := |chunks| - 1;
    assert lines[..|lines|] == lines;
    OffsetIsJoin(lines, |lines|);
    SpanAt(lines, chunks, limit, 0);
    OneLine(lines, chunks[0].startLine, 1, 0);
    SpanAt(lines, chunks, limit, n);
    assert chunks[..n + 1] == chunks;
    LastLineOf(lines, chunks[n].endLine, Offset(lines, |lines|));
  }

  lemma NextInStep(lines: seq<string>, chunks: seq<Chunk>, limit: int, i: nat)
    requires ExactSpans(lines, chunks, limit) && i + 1 < |chunks|
    requires forall i :: 0 <= i < |lines| ==> lines[i] != []
    ensures chunks[i].endLine <= chunks[i + 1].startLine <= chunks[i].endLine + 1
  {
    SpanAt(lines, chunks, limit, i);
    SpanAt(lines, chunks, limit, i + 1);
    NextLine(lines, chunks[i].endLine, chunks[i + 1].startLine, |Text(chunks[..i + 1])|);
  }

  lemma LastLineOf(lines: seq<string>, end: int, total: int)
    requires 1 <= end <= |lines| && total == Offset(lines, |lines|) && total <= Offset(lines, end)
    requires forall i :: 0 <= i < |lines| ==> lines[i] != []
    ensures end == |lines|
  {
    if end < |lines| {
      OffsetGrows(lines, end + 1, |lines|);
    }
  }

  lemma NextLine(lines: seq<string>, end: int, start: int, pos: int)
    requires 1 <= end <= |lines| && 1 <= start <= |lines|
    requires Offset(lines, end - 1) < pos <= Offset(lines, end)
    requires Offset(lines, start - 1) <= pos < Offset(lines, start)
    requires forall i :: 0 <= i < |lines| ==> lines[i] != []
    ensures end <= start <= end + 1
  {
    if pos < Offset(lines, end) {
      OneLine(lines, end, start, pos);
    } else {
      if start <= end {
        OffsetGrows(lines, start, end);
      }
      if end + 1 < start {
        OffsetGrows(lines, end + 1, start - 1);
      }
    }
  }

  // ---- The chunker -----------------------------------------------------------------------

  /** Where the chunker stands: `line` lines and `taken` characters of the next one are behind it; what
      is not yet in a chunk waits in the buffer, whose text starts in line `startLine`. */
  ghost predicate Standing(lines: seq<string>, limit: int, line: int, taken: int,
                           chunks: seq<Chunk>, buffer: seq<string>, startLine: int) {
    && (forall i :: 0 <= i < |lines| ==> lines[i] != [])
    && 0 <= line < |lines| && 0 <= taken < |lines[line]|
    && ExactSpans(lines, chunks, limit)
    && Text(chunks) + Join(buffer) == Join(lines[..line]) + lines[line][..taken]
    && |Join(buffer)| <= limit
    && (buffer != [] ==>
        && taken == 0 && Join(buffer) != []
        && 1 <= startLine <= line
        && Offset(lines, startLine - 1) <= |Text(chunks)| < Offset(lines, startLine))
  }

  /** The buffer becomes a chunk that ends with the last line behind it. */
  method Flush(ghost lines: seq<string>, ghost limit: int, line: int, chunks: seq<Chunk>, buffer: seq<string>,
               startLine: int)
    returns (r: seq<Chunk>)
    requires Standing(lines, limit, line, 0, chunks, buffer, startLine) && buffer != []
    requires |Join(buffer)| + |lines[line]| > limit
    ensures Standing(lines, limit, line, 0, r, [], line + 1)
  {
    OffsetIsJoin(lines, line);
    OffsetGrows(lines, startLine, line);
    var c := Chunk(Join(buffer), startLine, line);
    assert |Text(chunks)| + |c.content| == Offset(lines, line);
    assert Offset(lines, line - 1) < Offset(lines, line);
    ExactSpansAppend(lines, chunks, c, limit);
    r := chunks + [c];
  }

  /** A piece of a line longer than the limit becomes a chunk of that line. */
  method CutPiece(ghost lines: seq<string>, limit: int, line: int, ghost taken: int, chunks: seq<Chunk>,
                  remaining: string)
    returns (r: seq<Chunk>, rest: string)
    requires Standing(lines, limit, line, taken, chunks, [], line + 1)
    requires remaining == lines[line][taken..] && |remaining| > limit > 0
    ensures Standing(lines, limit, line, taken + limit, r, [], line + 1)
    ensures rest == lines[line][taken + limit..]
  {
    OffsetIsJoin(lines, line);
    var c := Chunk(remaining[..limit], line + 1, line + 1);
    PieceJoins(lines[line], taken, limit, Text(chunks), Join(lines[..line]));
    ExactSpansAppend(lines, chunks, c, limit);
    r := chunks + [c];
    rest := remaining[limit..];
  }

  lemma PieceJoins(text: string, taken: nat, limit: nat, before: string, above: string)
    requires taken + limit <= |text| && before + Join([]) == above + text[..taken]
    ensures |before| == |above| + taken
    ensures (before + text[taken..][..limit]) + Join([]) == above + text[..taken + limit]
    ensures text[taken..][limit..] == text[taken + limit..]
  {
    assert before + Join([]) == before;
    assert text[..taken + limit] == text[..taken] + text[taken..][..limit];
    assert (above + text[..taken]) + text[taken..][..limit] == above + (text[..taken] + text[taken..][..limit]);
  }

  /** A line longer than the limit is cut until what remains fits. */
  method CutLong(ghost lines: seq<string>, limit: int, line: int, chunks: seq<Chunk>, buffer: seq<string>,
                 startLine: int, text: string)
    returns (r: seq<Chunk>, buffer': seq<string>, startLine': int, rest: string, ghost taken: int)
    requires Standing(lines, limit, line, 0, chunks, buffer, startLine) && limit > 0 && text == lines[line]
    ensures Standing(lines, limit, line, taken, r, buffer', startLine')
    ensures 0 < |rest| <= limit && rest == text[taken..]
  {
    r, buffer', startLine', rest, taken := chunks, buffer, startLine, text, 0;
    assert rest == text[taken..];
    while |rest| > limit
      invariant Standing(lines, limit, line, taken, r, buffer', startLine')
      invariant rest == text[taken..] && |rest| > 0
      invariant buffer' == [] ==> Standing(lines, limit, line, taken, r, [], line + 1)
      decreases |rest|
    {
      if buffer' != [] {
        r := Flush(lines, limit, line, r, buffer', startLine');
        buffer', startLine' := [], line + 1;
      }
      r, rest := CutPiece(lines, limit, line, taken, r, rest);
      taken := taken + limit;
      startLine' := line + 1;
    }
  }

  /** What remains of a line joins the buffer, after a flush if it would not fit. */
  method TakeRest(ghost lines: seq<string>, limit: int, line: int, ghost taken: int, chunks: seq<Chunk>,
                  buffer: seq<string>, startLine: int, rest: string)
    returns (r: seq<Chunk>, buffer': seq<string>, startLine': int)
    requires Standing(lines, limit, line, taken, chunks, buffer, startLine)
    requires rest == lines[line][taken..] && 0 < |rest| <= limit
    ensures ExactSpans(lines, r, limit) && |Join(buffer')| <= limit && Join(buffer') != [] && buffer' != []
    ensures Text(r) + Join(buffer') == Join(lines[..line + 1])
    ensures 1 <= startLine' <= line + 1 && Offset(lines, startLine' - 1) <= |Text(r)| < Offset(lines, startLine')
  {
    r, buffer', startLine' := chunks, buffer, startLine;
    if buffer' != [] && |Join(buffer')| + |rest| > limit {
      r := Flush(lines, limit, line, r, buffer', startLine');
      buffer' := [];
    }
    OffsetIsJoin(lines, line);
    OffsetIsJoin(lines, line + 1);
    if buffer' == [] {
      startLine' := line + 1;
      assert Text(r) + Join([]) == Text(r);
    }
    RestJoins(lines, line, taken, Text(r), buffer', rest);
    buffer' := buffer' + [rest];
  }

  lemma RestJoins(lines: seq<string>, line: nat, taken: nat, text: string, buffer: seq<string>, rest: string)
    requires line < |lines| && taken <= |lines[line]| && rest == lines[line][taken..]
    requires text + Join(buffer) == Join(lines[..line]) + lines[line][..taken]
    ensures text + Join(buffer + [rest]) == Join(lines[..line + 1])
    ensures |Join(buffer + [rest])| == |Join(buffer)| + |rest|
  {
    JoinAppend(buffer, rest);
    assert lines[..line + 1] == lines[..line] + [lines[line]];
    JoinAppend(lines[..line], lines[line]);
    assert lines[line] == lines[line][..taken] + rest;
    assert text + (Join(buffer) + rest) == (text + Join(buffer)) + rest;
    assert Join(lines[..line]) + (lines[line][..taken] + rest) == (Join(lines[..line]) + lines[line][..taken]) + rest;
  }

  /** Chunking refuses a limit below one, and otherwise loses nothing: the chunks' texts join up to the
      content, and each carries exactly the lines its text begins and ends in. */
  method ChunkContent(content: string, limit: int) returns (r: Result<seq<Chunk>, ChunkError>)
    ensures r.Err? <==> limit <= 0
    ensures r.Ok? ==> Text(r.value) == content && r.value != []
    ensures r.Ok? && content == [] ==> r.value == [Chunk([], 1, 1)]
    ensures r.Ok? && content != [] ==> ExactSpans(SplitLines(content), r.value, limit)
  {
    if limit <= 0 {
      return Err(PositiveChunkBudgetRequired);
    }
    if content == [] {
      return Ok([Chunk([], 1, 1)]);
    }
    SplitLinesJoin(content);
    var lines := SplitLines(content);
    var chunks := ChunkLines(lines, limit);
    r := Ok(chunks);
  }

  /** What is left in the buffer after the last line makes the last chunk. */
  lemma LastChunk(lines: seq<string>, chunks: seq<Chunk>, c: Chunk, limit: int)
    requires lines != [] && (forall i :: 0 <= i < |lines| ==> lines[i] != [])
    requires ExactSpans(lines, chunks, limit) && 0 < |c.content| <= limit
    requires Text(chunks) + c.content == Join(lines[..|lines|])
    requires 1 <= c.startLine <= c.endLine == |lines|
    requires Offset(lines, c.startLine - 1) <= |Text(chunks)| < Offset(lines, c.startLine)
    ensures ExactSpans(lines, chunks + [c], limit) && Text(chunks + [c]) == Join(lines)
  {
    assert lines[..|lines|] == lines;
    OffsetIsJoin(lines, |lines|);
    assert Offset(lines, |lines| - 1) < Offset(lines, |lines|);
    OffsetGrows(lines, c.startLine, |lines|);
    ExactSpansAppend(lines, chunks, c, limit);
  }

  method ChunkLines(lines: seq<string>, limit: int) returns (chunks: seq<Chunk>)
    requires limit > 0 && lines != [] && forall i :: 0 <= i < |lines| ==> lines[i] != []
    ensures ExactSpans(lines, chunks, limit) && Text(chunks) == Join(lines) && chunks != []
  {
    chunks := [];
    var buffer: seq<string>, startLine := [], 1;
    for line := 0 to |lines|
      invariant line < |lines| ==> Standing(lines, limit, line, 0, chunks, buffer, startLine)
      invariant line == |lines| ==>
        && ExactSpans(lines, chunks, limit) && 0 < |Join(buffer)| <= limit
        && Text(chunks) + Join(buffer) == Join(lines[..line])
        && 1 <= startLine <= line && Offset(lines, startLine - 1) <= |Text(chunks)| < Offset(lines, startLine)
    {
      var rest: string;
      ghost var taken: int;
      chunks, buffer, startLine, rest, taken := CutLong(lines, limit, line, chunks, buffer, startLine, lines[line]);
      chunks, buffer, startLine := TakeRest(lines, limit, line, taken, chunks, buffer, startLine, rest);
    }
    var c := Chunk(Join(buffer), startLine, |lines|);
    LastChunk(lines, chunks, c, limit);
    chunks := chunks + [c];
  }
}
