/**
 * The NDJSON line splitter of the stream engine: chunks of text are
 * appended to a buffer that is cut at every newline; each piece is trimmed
 * and kept when non-empty, and the leftover is flushed at end of stream.
 * The specification is the whole-text view: split on '\n', trim, drop the
 * blank pieces.
 */
module Ndjson {

  /** The characters `String.prototype.trim` removes: JavaScript white space and line terminators. */
  predicate IsTrimmable(c: char)
  {
    || c == '\t' || c == '\n' || c == '\U{000B}' || c == '\U{000C}' || c == '\r' || c == ' '
    || c == '\U{00A0}' || c == '\U{1680}' || ('\U{2000}' <= c <= '\U{200A}')
    || c == '\U{2028}' || c == '\U{2029}' || c == '\U{202F}' || c == '\U{205F}'
    || c == '\U{3000}' || c == '\U{FEFF}'
  }

  /** `s` without its leading white space. */
  function TrimStart(s: string): (r: string)
    ensures |r| <= |s| && r == s[|s| - |r|..]
    ensures r == [] || !IsTrimmable(r[0])
    decreases |s|
  {
    if s != [] && IsTrimmable(s[0]) then TrimStart(s[1..]) else s
  }

  /** What `TrimStart` drops is white space. */
  lemma {:induction false} TrimStartDropsWhiteSpace(s: string)
    ensures forall k :: 0 <= k < |s| - |TrimStart(s)| ==> IsTrimmable(s[k])
    decreases |s|
  {
    if s != [] && IsTrimmable(s[0]) {
      TrimStartDropsWhiteSpace(s[1..]);
      forall k | 1 <= k < |s| - |TrimStart(s)|
        ensures IsTrimmable(s[k])
      {
        assert s[k] == s[1..][k - 1];
      }
    }
  }

  /** `s` without its trailing white space. */
  function TrimEnd(s: string): (r: string)
    ensures |r| <= |s| && r == s[..|r|]
    ensures r == [] || !IsTrimmable(r[|r| - 1])
    decreases |s|
  {
    if s != [] && IsTrimmable(s[|s| - 1]) then TrimEnd(s[..|s| - 1]) else s
  }

  /** What `TrimEnd` drops is white space. */
  lemma {:induction false} TrimEndDropsWhiteSpace(s: string)
    ensures forall k :: |TrimEnd(s)| <= k < |s| ==> IsTrimmable(s[k])
    decreases |s|
  {
    if s != [] && IsTrimmable(s[|s| - 1]) {
      TrimEndDropsWhiteSpace(s[..|s| - 1]);
      forall k | |TrimEnd(s)| <= k < |s| - 1
        ensures IsTrimmable(s[k])
      {
        assert s[k] == s[..|s| - 1][k];
      }
    }
  }

  /** `String.prototype.trim`. */
  function Trim(s: string): (r: string)
    ensures |r| <= |s|
    ensures r == [] || (!IsTrimmable(r[0]) && !IsTrimmable(r[|r| - 1]))
  {
    var t := TrimStart(s);
    var r := TrimEnd(t);
    assert r != [] ==> !IsTrimmable(r[0]) by {
      if r != [] { assert r[0] == t[0]; }
    }
    r
  }

  /** `Trim(s)` sits in `s` right after the white space `TrimStart` dropped. */
  lemma TrimIsSlice(s: string)
    ensures |s| - |TrimStart(s)| + |Trim(s)| <= |s|
    ensures Trim(s) == s[|s| - |TrimStart(s)|..|s| - |TrimStart(s)| + |Trim(s)|]
  {
    var t := TrimStart(s);
    var r := TrimEnd(t);
    var a := |s| - |t|;
    assert Trim(s) == r;
    assert r == t[..|r|] && t == s[a..];
    assert s[a..][..|r|] == s[a..a + |r|];
  }

  /** Everything in `s` after `Trim(s)` is white space. */
  lemma TrimBackIsWhiteSpace(s: string)
    ensures forall k :: |s| - |TrimStart(s)| + |Trim(s)| <= k < |s| ==> IsTrimmable(s[k])
  {
    var t := TrimStart(s);
    TrimEndDropsWhiteSpace(t);
    var a := |s| - |t|;
    forall k | a + |Trim(s)| <= k < |s|
      ensures IsTrimmable(s[k])
    {
      assert s[k] == t[k - a];
    }
  }

  /**
   * `Trim` cuts out a middle part `s[a..b]` of the string: everything
   * before it and everything after it is white space, and (by `Trim`'s own
   * contract) the part neither starts nor ends with white space.
   */
  lemma TrimDropsOnlyEdges(s: string)
    ensures var a := |s| - |TrimStart(s)|; var b := a + |Trim(s)|;
      && b <= |s| && Trim(s) == s[a..b]
      && (forall k :: 0 <= k < a ==> IsTrimmable(s[k]))
      && (forall k :: b <= k < |s| ==> IsTrimmable(s[k]))
  {
    TrimStartDropsWhiteSpace(s);
    TrimIsSlice(s);
    TrimBackIsWhiteSpace(s);
  }

  /** A string trims to nothing exactly when it is all white space. */
  lemma TrimBlank(s: string)
    ensures Trim(s) == [] <==> forall k :: 0 <= k < |s| ==> IsTrimmable(s[k])
  {
    var t := TrimStart(s);
    TrimStartDropsWhiteSpace(s);
    TrimEndDropsWhiteSpace(t);
    assert Trim(s) == [] ==> t == [];
    assert t == [] ==> forall k :: 0 <= k < |s| ==> IsTrimmable(s[k]);
    assert (forall k :: 0 <= k < |s| ==> IsTrimmable(s[k])) ==> t == [] by {
      if t != [] { assert t[0] == s[|s| - |t|]; }
    }
  }

  /** Trimming is idempotent: a trimmed line is its own trim. */
  lemma TrimIdempotent(s: string)
    ensures Trim(Trim(s)) == Trim(s)
  {
    var r := Trim(s);
    if r != [] {
      assert TrimStart(r) == r;
      assert TrimEnd(r) == r;
    }
  }

  /** `s.indexOf(c)`: the first index of `c` in `s`, or -1. */
  function IndexOf(s: string, c: char): (r: int)
    ensures -1 <= r < |s|
    ensures r == -1 <==> c !in s
    ensures 0 <= r ==> s[r] == c && c !in s[..r]
    decreases |s|
  {
    if s == [] then -1
    else if s[0] == c then 0
    else
      var i := IndexOf(s[1..], c);
      assert s[1..] == s[1..];
      if i == -1 then -1
      else
        assert s[..i + 1] == [s[0]] + s[1..][..i];
        i + 1
  }

  /** Pieces joined back with '\n' between them. */
  function JoinLines(parts: seq<string>): string
    requires |parts| >= 1
    decreases |parts|
  {
    if |parts| == 1 then parts[0] else parts[0] + "\n" + JoinLines(parts[1..])
  }

  /** `text.split("\n")`: the newline-free pieces between newlines, which join back to `text`. */
  function SplitLines(text: string): (r: seq<string>)
    ensures |r| >= 1
    ensures forall i :: 0 <= i < |r| ==> '\n' !in r[i]
    ensures JoinLines(r) == text
    decreases |text|
  {
    var i := IndexOf(text, '\n');
    if i == -1 then [text]
    else
      var rest := SplitLines(text[i + 1..]);
      var r := [text[..i]] + rest;
      assert r[0] == text[..i] && r[1..] == rest && |r| > 1;
      assert JoinLines(r) == text[..i] + "\n" + JoinLines(rest);
      assert text == text[..i] + "\n" + text[i + 1..];
      r
  }

  /** Cutting at the first newline: the piece before it, then the pieces of the rest. */
  lemma SplitAtFirstNewline(x: string, y: string)
    requires '\n' !in x
    ensures SplitLines(x + "\n" + y) == [x] + SplitLines(y)
  {
    var t := x + "\n" + y;
    assert t[|x|] == '\n';
    assert t[..|x|] == x;
    assert IndexOf(t, '\n') == |x|;
    assert t[|x| + 1..] == y;
  }

  /** Splitting is the inverse of joining newline-free pieces. */
  lemma {:induction false} SplitJoin(parts: seq<string>)
    requires |parts| >= 1
    requires forall i :: 0 <= i < |parts| ==> '\n' !in parts[i]
    ensures SplitLines(JoinLines(parts)) == parts
    decreases |parts|
  {
    if |parts| == 1 {
      assert IndexOf(parts[0], '\n') == -1;
    } else {
      SplitJoin(parts[1..]);
      SplitAtFirstNewline(parts[0], JoinLines(parts[1..]));
      assert parts == [parts[0]] + parts[1..];
    }
  }

  /** One piece as a line: its trim, unless that is empty. */
  function Keep(piece: string): (r: seq<string>)
  {
    if |Trim(piece)| > 0 then [Trim(piece)] else []
  }

  /** Each piece trimmed, blank ones dropped, order kept. */
  function TrimmedNonBlank(parts: seq<string>): (r: seq<string>)
    ensures |r| <= |parts|
    decreases |parts|
  {
    if parts == [] then [] else Keep(parts[0]) + TrimmedNonBlank(parts[1..])
  }

  /** A line as the reader yields it: non-empty and its own trim. */
  predicate IsLine(s: string)
  {
    s != "" && Trim(s) == s
  }

  /** A kept piece is a line. */
  lemma KeepIsTrimmed(piece: string, j: nat)
    requires j < |Keep(piece)|
    ensures IsLine(Keep(piece)[j])
  {
    TrimIdempotent(piece);
  }

  /** What is kept is non-empty and already trimmed. */
  lemma {:induction false} TrimmedNonBlankAreTrimmed(parts: seq<string>, i: nat)
    requires i < |TrimmedNonBlank(parts)|
    ensures IsLine(TrimmedNonBlank(parts)[i])
    decreases |parts|
  {
    var k := Keep(parts[0]);
    var rest := TrimmedNonBlank(parts[1..]);
    assert TrimmedNonBlank(parts) == k + rest;
    if i < |k| {
      assert TrimmedNonBlank(parts)[i] == k[i];
      KeepIsTrimmed(parts[0], i);
    } else {
      assert TrimmedNonBlank(parts)[i] == rest[i - |k|];
      TrimmedNonBlankAreTrimmed(parts[1..], i - |k|);
    }
  }

  lemma {:induction false} TrimmedNonBlankAppend(a: seq<string>, b: seq<string>)
    ensures TrimmedNonBlank(a + b) == TrimmedNonBlank(a) + TrimmedNonBlank(b)
    decreases |a|
  {
    if a == [] {
      assert a + b == b;
    } else {
      assert (a + b)[0] == a[0] && (a + b)[1..] == a[1..] + b;
      TrimmedNonBlankAppend(a[1..], b);
    }
  }

  /** The lines of a whole text: its newline-separated pieces, trimmed, without the blank ones. */
  function Lines(text: string): seq<string>
  {
    TrimmedNonBlank(SplitLines(text))
  }

  /** Every line produced is non-empty and already trimmed. */
  lemma LinesAreTrimmed(text: string, i: nat)
    requires i < |Lines(text)|
    ensures IsLine(Lines(text)[i])
  {
    TrimmedNonBlankAreTrimmed(SplitLines(text), i);
  }

  /** A piece before the first newline is emitted on its own, ahead of the lines of the rest. */
  lemma LinesAfterNewline(x: string, y: string)
    requires '\n' !in x
    ensures Lines(x + "\n" + y) == Keep(x) + Lines(y)
  {
    SplitAtFirstNewline(x, y);
    assert ([x] + SplitLines(y))[0] == x && ([x] + SplitLines(y))[1..] == SplitLines(y);
  }

  /** A newline-free text is a single (possibly blank) line. */
  lemma LinesWithoutNewline(x: string)
    requires '\n' !in x
    ensures Lines(x) == Keep(x)
  {
    assert IndexOf(x, '\n') == -1;
    assert SplitLines(x) == [x];
    assert [x][1..] == [];
  }

  /** The lines of `a + "\n" + b` are those of `a` followed by those of `b`: a cut at a newline is free. */
  lemma {:induction false} LinesOfJoin(a: string, b: string)
    ensures Lines(a + "\n" + b) == Lines(a) + Lines(b)
    decreases |a|
  {
    var i := IndexOf(a, '\n');
    if i == -1 {
      LinesAfterNewline(a, b);
      LinesWithoutNewline(a);
    } else {
      var x, a' := a[..i], a[i + 1..];
      assert a == x + "\n" + a';
      assert a + "\n" + b == x + "\n" + (a' + "\n" + b);
      LinesAfterNewline(x, a' + "\n" + b);
      LinesAfterNewline(x, a');
      LinesOfJoin(a', b);
      AppendAssoc(Keep(x), Lines(a'), Lines(b));
    }
  }

  /** The text delivered by a stream of chunks. */
  function Concat(chunks: seq<string>): string
    decreases |chunks|
  {
    if chunks == [] then "" else chunks[0] + Concat(chunks[1..])
  }

  lemma ConcatFrom(chunks: seq<string>, i: nat)
    requires i < |chunks|
    ensures Concat(chunks[i..]) == chunks[i] + Concat(chunks[i + 1..])
  {
    assert chunks[i..][0] == chunks[i] && chunks[i..][1..] == chunks[i + 1..];
  }

  /** Cutting the buffer at its first newline emits the trimmed piece before it, if non-blank. */
  lemma CutAtNewline(buffer: string, newlineIndex: int, rest: string)
    requires 0 <= newlineIndex == IndexOf(buffer, '\n')
    ensures Lines(buffer + rest) == Keep(buffer[..newlineIndex]) + Lines(buffer[newlineIndex + 1..] + rest)
  {
    var x, y := buffer[..newlineIndex], buffer[newlineIndex + 1..];
    assert buffer == x + "\n" + y;
    assert buffer + rest == x + "\n" + (y + rest);
    LinesAfterNewline(x, y + rest);
  }

  /** The inner-loop step: cutting one line off the buffer keeps the account of emitted lines. */
  lemma CutStep(prev: seq<string>, buffer: string, newlineIndex: int, tail: string, total: seq<string>)
    requires 0 <= newlineIndex == IndexOf(buffer, '\n')
    requires prev + Lines(buffer + tail) == total
    ensures (prev + Keep(buffer[..newlineIndex])) + Lines(buffer[newlineIndex + 1..] + tail) == total
  {
    CutAtNewline(buffer, newlineIndex, tail);
    AppendAssoc(prev, Keep(buffer[..newlineIndex]), Lines(buffer[newlineIndex + 1..] + tail));
  }

  lemma AppendAssoc(a: seq<string>, b: seq<string>, c: seq<string>)
    ensures a + (b + c) == (a + b) + c
  {
  }

  /** The outer-loop step: appending a chunk to the buffer keeps the account of emitted lines. */
  lemma AppendStep(lines: seq<string>, buffer: string, chunks: seq<string>, i: nat, total: seq<string>)
    requires i < |chunks|
    requires lines + Lines(buffer + Concat(chunks[i..])) == total
    ensures lines + Lines((buffer + chunks[i]) + Concat(chunks[i + 1..])) == total
  {
    ConcatFrom(chunks, i);
    assert buffer + Concat(chunks[i..]) == (buffer + chunks[i]) + Concat(chunks[i + 1..]);
  }

  /** End of stream: with no newline left, the rest of the account is the flushed buffer. */
  lemma FlushStep(lines: seq<string>, buffer: string, chunks: seq<string>, total: seq<string>)
    requires '\n' !in buffer
    requires lines + Lines(buffer + Concat(chunks[|chunks|..])) == total
    ensures lines + Keep(buffer) == total
  {
    assert buffer + Concat(chunks[|chunks|..]) == buffer;
    LinesWithoutNewline(buffer);
  }

  /**
   * `readNdjsonLines`: the chunks are appended to a buffer one at a time;
   * after each append every complete line is cut off, trimmed and emitted
   * when non-empty, and at the end of the stream the leftover is emitted
   * when its trim is non-empty. The result is the lines of the whole text,
   * however it was cut into chunks.
   */
  method ReadNdjsonLines(chunks: seq<string>) returns (lines: seq<string>)
    ensures lines == Lines(Concat(chunks))
  {
    var buffer := "";
    lines := [];
    ghost var total := Lines(Concat(chunks));
    var i := 0;
    assert chunks[i..] == chunks && buffer + Concat(chunks) == Concat(chunks);
    assert lines + total == total;
    while i < |chunks|
      invariant 0 <= i <= |chunks|
      invariant '\n' !in buffer
      invariant lines + Lines(buffer + Concat(chunks[i..])) == total
    {
      ghost var tail := Concat(chunks[i + 1..]);
      AppendStep(lines, buffer, chunks, i, total);
      buffer := buffer + chunks[i];
      var newlineIndex := IndexOf(buffer, '\n');
      while newlineIndex != -1
        invariant newlineIndex == IndexOf(buffer, '\n')
        invariant lines + Lines(buffer + tail) == total
        decreases |buffer|
      {
        CutStep(lines, buffer, newlineIndex, tail, total);
        var line := Trim(buffer[..newlineIndex]);
        ghost var emitted, prev := Keep(buffer[..newlineIndex]), lines;
        buffer := buffer[newlineIndex + 1..];
        if |line| > 0 {
          lines := lines + [line];
        }
        assert lines == prev + emitted;
        newlineIndex := IndexOf(buffer, '\n');
      }
      i := i + 1;
    }
    FlushStep(lines, buffer, chunks, total);
    ghost var prev := lines;
    if |Trim(buffer)| > 0 {
      lines := lines + [Trim(buffer)];
    }
    assert lines == prev + Keep(buffer);
  }
}
