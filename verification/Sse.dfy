// Server-Sent Events: the incremental line decoder, the event accumulator and
// the driver loop of src/network/sse.ts, proved against definitions that read
// the whole text at once.

module Sse {

  datatype Option<+T> = None | Some(value: T)

  // ---------------------------------------------------------------- lines

  predicate IsTerminator(c: char) { c == '\n' || c == '\r' }

  /** Where the first line terminator of `t` is, or |t| when it has none. */
  function FirstTerminator(t: string): (i: nat)
    ensures i <= |t|
    ensures forall k :: 0 <= k < i ==> !IsTerminator(t[k])
    ensures i < |t| ==> IsTerminator(t[i])
  {
    if t == "" || IsTerminator(t[0]) then 0 else 1 + FirstTerminator(t[1..])
  }

  /** Where the line after the one that ends at `i` begins: CRLF is one terminator. */
  function AfterTerminator(t: string, i: nat): (j: nat)
    requires i < |t| && IsTerminator(t[i])
    ensures i < j <= |t|
  {
    if t[i] == '\r' && i + 1 < |t| && t[i + 1] == '\n' then i + 2 else i + 1
  }

  /** The terminated lines of a whole text, split once at CRLF, LF or CR. */
  ghost function Lines(t: string): seq<string> {
    var i := FirstTerminator(t);
    if i == |t| then [] else [t[..i]] + Lines(t[AfterTerminator(t, i)..])
  }

  /** What follows the last terminator of a whole text. */
  ghost function Rest(t: string): string {
    var i := FirstTerminator(t);
    if i == |t| then t else Rest(t[AfterTerminator(t, i)..])
  }

  predicate EndsWithCr(t: string) { t != "" && t[|t| - 1] == '\r' }

  /** How the whole split of `t` changes when the character `c` follows it. */
  ghost predicate Snoc(t: string, c: char, u: string) {
    if c == '\n' && EndsWithCr(t) then Lines(u) == Lines(t) && Rest(u) == Rest(t) == ""
    else if IsTerminator(c) then Lines(u) == Lines(t) + [Rest(t)] && Rest(u) == ""
    else Lines(u) == Lines(t) && Rest(u) == Rest(t) + [c]
  }

  lemma {:induction false} SnocOpen(t: string, c: char)
    requires FirstTerminator(t) == |t|
    ensures Snoc(t, c, t + [c])
  {
    var u := t + [c];
    assert forall k :: 0 <= k < |t| ==> u[k] == t[k];
    if IsTerminator(c) {
      FirstIs(u, |t|);
      assert u[..|t|] == t && u[|t| + 1..] == "";
      assert Lines("") == [] && Rest("") == "";
    } else {
      FirstIs(u, |u|);
    }
  }

  lemma EmptyText()
    ensures Lines("") == [] && Rest("") == ""
  {
  }

  lemma {:induction false} Unfold(t: string, i: nat)
    requires i < |t| && IsTerminator(t[i])
    requires forall k :: 0 <= k < i ==> !IsTerminator(t[k])
    ensures Lines(t) == [t[..i]] + Lines(t[AfterTerminator(t, i)..])
    ensures Rest(t) == Rest(t[AfterTerminator(t, i)..])
  {
    FirstIs(t, i);
  }

  /** One more character: the whole split changes in exactly one of three ways. */
  lemma {:induction false} SnocChar(t: string, c: char)
    ensures Snoc(t, c, t + [c])
    decreases |t|
  {
    hide Lines, Rest;
    var u := t + [c];
    var i := FirstTerminator(t);
    if i == |t| {
      SnocOpen(t, c);
      return;
    }
    assert forall k :: 0 <= k < |t| ==> u[k] == t[k];
    var j := AfterTerminator(t, i);
    Unfold(t, i);
    Unfold(u, i);
    assert u[..i] == t[..i];
    var r := t[j..];
    if c == '\n' && t[i] == '\r' && i == |t| - 1 {
      assert r == "" && u[i + 2..] == "" && AfterTerminator(u, i) == i + 2 && AfterTerminator(t, i) == i + 1;
      EmptyText();
    } else {
      assert AfterTerminator(u, i) == j;
      assert u[j..] == r + [c];
      SnocChar(r, c);
      SnocTail(t, j, c, u);
    }
  }

  /** The step of `SnocChar`: the same line goes in front on both sides. */
  lemma {:induction false} SnocTail(t: string, j: nat, c: char, u: string)
    requires j <= |t| && t != "" && (c == '\n' && j == |t| ==> t[|t| - 1] != '\r')
    requires exists w: string :: Lines(t) == [w] + Lines(t[j..]) && Lines(u) == [w] + Lines(t[j..] + [c])
    requires Rest(t) == Rest(t[j..]) && Rest(u) == Rest(t[j..] + [c])
    requires Snoc(t[j..], c, t[j..] + [c])
    ensures Snoc(t, c, u)
  {
    hide Lines, Rest;
    var r := t[j..];
    var w: string :| Lines(t) == [w] + Lines(r) && Lines(u) == [w] + Lines(r + [c]);
    assert [w] + (Lines(r) + [Rest(r)]) == ([w] + Lines(r)) + [Rest(r)];
    if r != "" { assert r[|r| - 1] == t[|t| - 1]; }
  }

  /** `FirstTerminator` is determined by what it promises. */
  lemma {:induction false} FirstIs(t: string, i: nat)
    requires i <= |t|
    requires forall k :: 0 <= k < i ==> !IsTerminator(t[k])
    requires i < |t| ==> IsTerminator(t[i])
    ensures FirstTerminator(t) == i
  {
  }

  /** What a decoder may drop from the front of `c` when the text so far is `t`. */
  function Pairing(t: string, c: string): string {
    if EndsWithCr(t) && c != "" && c[0] == '\n' then c[1..] else c
  }

  /** Appending a non-empty piece: only the unterminated tail is ever looked at again. */
  lemma {:induction false} Absorb(t: string, c: string)
    requires c != ""
    ensures Lines(t + c) == Lines(t) + Lines(Rest(t) + Pairing(t, c))
    ensures Rest(t + c) == Rest(Rest(t) + Pairing(t, c))
    decreases |c|
  {
    hide Lines, Rest;
    var n := |c| - 1;
    var last := c[n];
    RestIsOpen(t);
    if n == 0 {
      assert c == [last];
      SnocChar(t, last);
      if Pairing(t, c) == "" {
        assert Rest(t) + Pairing(t, c) == Rest(t);
      } else {
        assert Pairing(t, c) == c;
        SnocChar(Rest(t), last);
        assert Lines(t) + [] == Lines(t);
      }
    } else {
      var d := c[..n];
      assert c == d + [last];
      Absorb(t, d);
      SameEnding(t, d);
      SnocBoth(Lines(t), t + d, Rest(t) + Pairing(t, d), last);
      assert t + c == (t + d) + [last];
      assert Rest(t) + Pairing(t, c) == (Rest(t) + Pairing(t, d)) + [last];
    }
  }

  /** A decoder that has kept only the tail still knows whether a CR came last. */
  lemma {:induction false} SameEnding(t: string, d: string)
    requires d != ""
    ensures EndsWithCr(t + d) <==> EndsWithCr(Rest(t) + Pairing(t, d))
  {
    hide Lines, Rest, FirstTerminator, AfterTerminator;
    RestIsOpen(t);
    var r := Rest(t) + Pairing(t, d);
    assert (t + d)[|t + d| - 1] == d[|d| - 1];
    if Pairing(t, d) != "" {
      assert r[|r| - 1] == d[|d| - 1];
    } else {
      assert r == "" && d[0] == '\n';
    }
  }

  /** The step of `Absorb`: one more character behind two texts that split alike. */
  lemma {:induction false} SnocBoth(front: seq<string>, x: string, r: string, last: char)
    requires EndsWithCr(x) <==> EndsWithCr(r)
    requires Lines(x) == front + Lines(r) && Rest(x) == Rest(r)
    ensures Lines(x + [last]) == front + Lines(r + [last])
    ensures Rest(x + [last]) == Rest(r + [last])
  {
    hide Lines, Rest, FirstTerminator, AfterTerminator;
    SnocChar(x, last);
    SnocChar(r, last);
    assert front + (Lines(r) + [Rest(r)]) == (front + Lines(r)) + [Rest(r)];
  }

  /** The tail holds no terminator, so on its own it is not yet a line. */
  lemma {:induction false} RestIsOpen(t: string)
    ensures forall k :: 0 <= k < |Rest(t)| ==> !IsTerminator(Rest(t)[k])
    ensures Lines(Rest(t)) == [] && Rest(Rest(t)) == Rest(t)
    ensures EndsWithCr(t) ==> Rest(t) == ""
    decreases |t|
  {
    var i := FirstTerminator(t);
    if i < |t| {
      RestIsOpen(t[AfterTerminator(t, i)..]);
    }
  }

  /** The text a decoder in effect goes on from: an empty chunk makes it forget a
      carriage return that came last, so a new text starts there. */
  function Continue(t: string, chunk: string): string {
    if chunk == "" && EndsWithCr(t) then "" else t + chunk
  }

  /** The scan of `b` has reached `i`, with the current line starting at `start`. */
  ghost predicate Scanned(b: string, i: nat, start: nat, lines: seq<string>) {
    && start <= i <= |b|
    && lines == Lines(b[..i])
    && Rest(b[..i]) == b[start..i]
    && (i < |b| && EndsWithCr(b[..i]) ==> b[i] != '\n')
  }

  lemma {:induction false} ScanPlain(b: string, i: nat, start: nat, lines: seq<string>)
    requires Scanned(b, i, start, lines) && i < |b| && !IsTerminator(b[i])
    ensures Scanned(b, i + 1, start, lines)
  {
    hide Lines, Rest, FirstTerminator, AfterTerminator;
    assert b[..i + 1] == b[..i] + [b[i]];
    SnocChar(b[..i], b[i]);
    assert b[start..i + 1] == b[start..i] + [b[i]];
  }

  lemma {:induction false} ScanTerminator(b: string, i: nat, start: nat, lines: seq<string>)
    requires Scanned(b, i, start, lines) && i < |b| && IsTerminator(b[i])
    ensures var j := AfterTerminator(b, i); Scanned(b, j, j, lines + [b[start..i]])
  {
    hide Lines, Rest, FirstTerminator;
    assert b[..i + 1] == b[..i] + [b[i]];
    SnocChar(b[..i], b[i]);
    var j := AfterTerminator(b, i);
    if j == i + 2 {
      assert b[..i + 2] == b[..i + 1] + [b[i + 1]];
      SnocChar(b[..i + 1], b[i + 1]);
    }
    assert b[j..j] == "";
  }

  /** What one push makes of the kept tail and the new text is what the whole split says. */
  lemma {:induction false} DecodedSegment(t: string, chunk: string, b: string)
    requires b == Rest(t) + Pairing(t, chunk)
    ensures var u := Continue(t, chunk);
            && Rest(u) == Rest(b)
            && EndsWithCr(u) == EndsWithCr(b)
            && (chunk == "" ==> Lines(b) == [])
            && (chunk != "" ==> Lines(u) == Lines(t) + Lines(b))
  {
    hide Lines, Rest, FirstTerminator, AfterTerminator;
    RestIsOpen(t);
    if chunk == "" {
      assert b == Rest(t);
      EmptyText();
      if !EndsWithCr(t) {
        assert t + chunk == t;
      }
    } else {
      Absorb(t, chunk);
      SameEnding(t, chunk);
    }
  }

  /** Nothing before the kept tail's end needs a second look. */
  lemma {:induction false} ScanStart(t: string, b: string)
    requires Rest(t) <= b
    ensures Scanned(b, |Rest(t)|, 0, [])
    ensures !EndsWithCr(Rest(t))
  {
    hide Lines, Rest, FirstTerminator, AfterTerminator;
    RestIsOpen(t);
    assert b[..|Rest(t)|] == Rest(t);
  }

  lemma {:induction false} ScanEnd(t: string, chunk: string, b: string, start: nat, lines: seq<string>)
    requires b == Rest(t) + Pairing(t, chunk)
    requires Scanned(b, |b|, start, lines)
    ensures var u := Continue(t, chunk);
            && Rest(u) == b[start..]
            && EndsWithCr(u) == EndsWithCr(b)
            && (chunk == "" ==> lines == [])
            && (chunk != "" ==> Lines(u) == Lines(t) + lines)
  {
    hide Lines, Rest, FirstTerminator, AfterTerminator;
    assert b[..|b|] == b;
    DecodedSegment(t, chunk, b);
  }

  /** Splits text into lines as it arrives. `segment` is everything fed since the
      decoder last forgot a carriage return; `examined` counts loop iterations. */
  class LineDecoder {
    var buffer: string
    var scanned: nat
    var pendingLineFeed: bool
    ghost var segment: string
    ghost var examined: nat

    ghost predicate Valid()
      reads this
    {
      && buffer == Rest(segment)
      && scanned == |buffer|
      && pendingLineFeed == EndsWithCr(segment)
    }

    constructor ()
      ensures Valid() && segment == "" && examined == 0
    {
      EmptyText();
      buffer, scanned, pendingLineFeed, segment, examined := "", 0, false, "", 0;
    }

    /** Between pushes the buffer holds no terminator. */
    lemma BufferIsOpen()
      requires Valid()
      ensures forall k :: 0 <= k < |buffer| ==> !IsTerminator(buffer[k])
    {
      RestIsOpen(segment);
    }

    method Push(chunk: string) returns (lines: seq<string>)
      requires Valid()
      modifies this
      ensures Valid()
      ensures segment == Continue(old(segment), chunk)
      ensures chunk == "" ==> lines == []
      ensures chunk != "" ==> Lines(segment) == Lines(old(segment)) + lines
      ensures examined <= old(examined) + |chunk|
    {
      hide Lines, Rest, FirstTerminator, Scanned;
      var text := chunk;
      if pendingLineFeed {
        if text != "" && text[0] == '\n' { text := text[1..]; }
        pendingLineFeed := false;
      }
      ghost var before := segment;
      assert text == Pairing(before, chunk);
      var b := buffer + text;
      var lf := pendingLineFeed;
      lines := [];
      var start, i := 0, scanned;
      ghost var steps, from := 0, i;
      ScanStart(before, b);
      while i < |b|
        modifies {}
        invariant from <= i <= |b| && Scanned(b, i, start, lines)
        invariant start <= i
        invariant lf <==> i == |b| && EndsWithCr(b)
        invariant steps <= i - from
      {
        var ch := b[i];
        steps := steps + 1;
        if IsTerminator(ch) {
          ScanTerminator(b, i, start, lines);
        } else {
          ScanPlain(b, i, start, lines);
        }
        if ch == '\n' {
          lines := lines + [b[start..i]];
          start := i + 1;
        } else if ch == '\r' {
          lines := lines + [b[start..i]];
          if i + 1 < |b| {
            if b[i + 1] == '\n' { i := i + 1; }
          } else {
            lf := true;
          }
          start := i + 1;
        }
        i := i + 1;
      }
      ScanEnd(before, chunk, b, start, lines);
      segment := Continue(before, chunk);
      buffer := b[start..];
      scanned := |buffer|;
      examined := examined + steps;
      pendingLineFeed := lf;
    }

    /** The tail of a text that stops without a terminator. */
    method Flush() returns (tail: Option<string>)
      requires Valid()
      modifies this
      ensures tail == if Rest(old(segment)) == "" then None else Some(Rest(old(segment)))
      ensures buffer == "" && scanned == 0 && pendingLineFeed == old(pendingLineFeed)
    {
      var rest := buffer;
      buffer := "";
      scanned := 0;
      segment := "";
      tail := if |rest| > 0 then Some(rest) else None;
    }
  }

  // --------------------------------------------------------------- chunks

  function Flatten(chunks: seq<string>): string {
    if chunks == [] then "" else Flatten(chunks[..|chunks| - 1]) + chunks[|chunks| - 1]
  }

  /** The decoder's segment after a run of pushes, and every line those pushes returned. */
  function SegmentOf(chunks: seq<string>): string {
    if chunks == [] then "" else Continue(SegmentOf(chunks[..|chunks| - 1]), chunks[|chunks| - 1])
  }

  ghost function Pushed(chunks: seq<string>): seq<string> {
    if chunks == [] then [] else
      var front, c := chunks[..|chunks| - 1], chunks[|chunks| - 1];
      Pushed(front) + (if c == "" then [] else NewLines(SegmentOf(front), c))
  }

  /** The lines one non-empty push returns when the segment so far is `t`. */
  ghost function NewLines(t: string, c: string): seq<string> {
    Lines(Rest(t) + Pairing(t, c))
  }

  function Tail(rest: string): seq<string> { if rest == "" then [] else [rest] }

  /** Every line of a text, its unterminated end included. */
  ghost function AllLines(t: string): seq<string> { Lines(t) + Tail(Rest(t)) }

  /** What a decoder returns over a run of pushes and the final flush. */
  ghost function DecodedLines(chunks: seq<string>): seq<string> {
    Pushed(chunks) + Tail(Rest(SegmentOf(chunks)))
  }

  /** Chunk `n` brings the LF of a CRLF whose CR ended the text before an empty chunk. */
  predicate BreakAt(chunks: seq<string>, n: nat)
    requires 0 < n < |chunks|
  {
    chunks[n - 1] == "" && EndsWithCr(Flatten(chunks[..n])) && chunks[n] != "" && chunks[n][0] == '\n'
  }

  ghost predicate BreaksCrLf(chunks: seq<string>) {
    exists n :: 0 < n < |chunks| && BreakAt(chunks, n)
  }

  lemma ChunksSnoc(front: seq<string>, c: string)
    ensures Flatten(front + [c]) == Flatten(front) + c
    ensures SegmentOf(front + [c]) == Continue(SegmentOf(front), c)
  {
    assert (front + [c])[..|front|] == front;
  }

  lemma LastCharacter(t: string, c: string)
    requires c != ""
    ensures EndsWithCr(t + c) <==> EndsWithCr(c)
  {
    assert (t + c)[|t + c| - 1] == c[|c| - 1];
  }

  lemma {:induction false} SegmentEnding(chunks: seq<string>)
    ensures EndsWithCr(SegmentOf(chunks)) <==>
              EndsWithCr(Flatten(chunks)) && !(chunks != [] && chunks[|chunks| - 1] == "")
    ensures Rest(SegmentOf(chunks)) == Rest(Flatten(chunks))
  {
    hide Lines, Rest, FirstTerminator, AfterTerminator;
    if chunks == [] {
      assert Flatten(chunks) == "" && SegmentOf(chunks) == "";
    } else {
      hide Flatten, SegmentOf;
      var front, c := chunks[..|chunks| - 1], chunks[|chunks| - 1];
      SegmentEnding(front);
      ChunksSnoc(front, c);
      assert front + [c] == chunks;
      var t, f := SegmentOf(front), Flatten(front);
      RestIsOpen(f);
      EmptyText();
      if c == "" {
        assert f + c == f && t + c == t;
      } else {
        LastCharacter(t, c);
        LastCharacter(f, c);
        SameRest(t, f, c);
      }
    }
  }

  lemma {:induction false} SameRest(t: string, f: string, c: string)
    requires c != "" && Rest(t) == Rest(f) && (EndsWithCr(t) ==> EndsWithCr(f))
    ensures Rest(t + c) == Rest(f + c)
  {
    hide Lines, Rest, FirstTerminator, AfterTerminator;
    Absorb(t, c);
    Absorb(f, c);
    RestIsOpen(f);
    if Pairing(t, c) != Pairing(f, c) {
      LeadingLf(c);
      assert Rest(t) + c == c && Rest(f) + c[1..] == c[1..];
    }
  }

  /** A text that opens with LF has one blank line more than without it. */
  lemma {:induction false} LeadingLf(c: string)
    requires c != "" && c[0] == '\n'
    ensures Lines(c) == [""] + Lines(c[1..]) && Rest(c) == Rest(c[1..])
  {
    assert c[..0] == "";
    Unfold(c, 0);
  }

  /** How many blank lines a run of pushes returns that the whole text does not have. */
  ghost function Spurious(chunks: seq<string>): nat {
    if chunks == [] then 0 else
      Spurious(chunks[..|chunks| - 1])
      + (if |chunks| > 1 && BreakAt(chunks, |chunks| - 1) then 1 else 0)
  }

  lemma {:induction false} SpuriousIffBreaks(chunks: seq<string>)
    ensures Spurious(chunks) > 0 <==> BreaksCrLf(chunks)
  {
    if chunks != [] {
      var n := |chunks| - 1;
      var front := chunks[..n];
      SpuriousIffBreaks(front);
      assert forall k :: 0 < k < n ==> front[..k] == chunks[..k];
      if BreaksCrLf(front) {
        var k :| 0 < k < n && BreakAt(front, k);
        assert BreakAt(chunks, k);
      }
      if BreaksCrLf(chunks) {
        var k :| 0 < k < |chunks| && BreakAt(chunks, k);
        if k < n { assert BreakAt(front, k); }
      }
    }
  }

  /** The pushed lines are the lines of the whole text, but for the spurious blank ones. */
  lemma {:induction false} PushedLines(chunks: seq<string>)
    ensures |Pushed(chunks)| == |Lines(Flatten(chunks))| + Spurious(chunks)
    ensures Spurious(chunks) == 0 ==> Pushed(chunks) == Lines(Flatten(chunks))
  {
    hide Lines, Rest, FirstTerminator, AfterTerminator;
    if chunks == [] {
      EmptyText();
    } else {
      var front, c := chunks[..|chunks| - 1], chunks[|chunks| - 1];
      PushedLines(front);
      var t, f := SegmentOf(front), Flatten(front);
      SegmentEnding(front);
      if c == "" {
        assert f + c == f;
        assert Pushed(front) + [] == Pushed(front);
      } else {
        Absorb(f, c);
        RestIsOpen(f);
        if Pairing(t, c) != Pairing(f, c) {
          LeadingLf(c);
          assert Rest(t) + c == c && Rest(f) + c[1..] == c[1..];
          assert chunks[..|chunks| - 1] == front;
          assert BreakAt(chunks, |chunks| - 1);
        }
      }
    }
  }

  /** The lines do not depend on how the text was cut, exactly when no empty chunk
      stands between a CR and its LF. */
  lemma {:induction false} LinesIndependentOfChunks(chunks: seq<string>)
    ensures DecodedLines(chunks) == AllLines(Flatten(chunks)) <==> !BreaksCrLf(chunks)
  {
    hide Lines, Rest, FirstTerminator, AfterTerminator, Pushed, Spurious, BreaksCrLf;
    PushedLines(chunks);
    SegmentEnding(chunks);
    SpuriousIffBreaks(chunks);
    if BreaksCrLf(chunks) {
      assert |DecodedLines(chunks)| > |AllLines(Flatten(chunks))|;
    }
  }

  // --------------------------------------------------------------- events

  datatype Event = Event(event: Option<string>, data: string, id: Option<string>)

  /** The characters `String.prototype.trim` removes. */
  predicate IsTrimmed(c: char) {
    '\t' <= c <= '\r' || c == ' ' || c == '\U{00a0}' || c == '\U{1680}' || '\U{2000}' <= c <= '\U{200a}' ||
    c == '\U{2028}' || c == '\U{2029}' || c == '\U{202f}' || c == '\U{205f}' || c == '\U{3000}' || c == '\U{feff}'
  }

  function TrimStart(s: string): string {
    if s != "" && IsTrimmed(s[0]) then TrimStart(s[1..]) else s
  }

  function Trim(s: string): string {
    if s != "" && IsTrimmed(s[|s| - 1]) then Trim(s[..|s| - 1]) else TrimStart(s)
  }

  /** One field's value, with exactly one leading space removed. */
  function FieldValue(line: string, nameLength: nat): string {
    var raw := if nameLength < |line| then line[nameLength + 1..] else "";
    if raw != "" && raw[0] == ' ' then raw[1..] else raw
  }

  predicate StartsWith(line: string, prefix: string) { prefix <= line }

  const EVENT := "event:"
  const ID := "id:"
  const DATA := "data:"

  /** The trimmed value of the last line of a block with this field name. */
  function LastValue(block: seq<string>, name: string): Option<string>
    requires name != ""
  {
    if block == [] then None else
      var line := block[|block| - 1];
      if StartsWith(line, name) then Some(Trim(FieldValue(line, |name| - 1)))
      else LastValue(block[..|block| - 1], name)
  }

  /** The values of a block's data lines, in order. */
  function DataValues(block: seq<string>): seq<string> {
    if block == [] then [] else
      var line := block[|block| - 1];
      DataValues(block[..|block| - 1]) + (if StartsWith(line, DATA) then [FieldValue(line, 4)] else [])
  }

  function Join(values: seq<string>): string {
    if values == [] then ""
    else if |values| == 1 then values[0]
    else Join(values[..|values| - 1]) + "\n" + values[|values| - 1]
  }

  /** The one event a block of non-blank lines stands for, if any. */
  function EventOfBlock(block: seq<string>): Option<Event> {
    if DataValues(block) == [] || Join(DataValues(block)) == "[DONE]" then None
    else Some(Event(LastValue(block, EVENT), Join(DataValues(block)), LastValue(block, ID)))
  }

  function Delivered(e: Option<Event>): seq<Event> { if e.Some? then [e.value] else [] }

  function FirstBlank(lines: seq<string>): (i: nat)
    ensures i <= |lines|
    ensures forall k :: 0 <= k < i ==> lines[k] != ""
    ensures i < |lines| ==> lines[i] == ""
  {
    if lines == [] || lines[0] == "" then 0 else 1 + FirstBlank(lines[1..])
  }

  /** The events of a whole list of lines: one per block between blank lines, the
      last block counted even when no blank line ends it. */
  function Events(lines: seq<string>): seq<Event> {
    var i := FirstBlank(lines);
    if i == |lines| then Delivered(EventOfBlock(lines))
    else Delivered(EventOfBlock(lines[..i])) + Events(lines[i + 1..])
  }

  /** The lines after the last blank one, and the events of the blocks before it. */
  function OpenBlock(lines: seq<string>): seq<string> {
    if lines == [] || lines[|lines| - 1] == "" then []
    else OpenBlock(lines[..|lines| - 1]) + [lines[|lines| - 1]]
  }

  function ClosedEvents(lines: seq<string>): seq<Event> {
    if lines == [] then [] else
      var front := lines[..|lines| - 1];
      ClosedEvents(front) + (if lines[|lines| - 1] == "" then Delivered(EventOfBlock(OpenBlock(front))) else [])
  }

  lemma ClosedSnoc(lines: seq<string>, line: string)
    ensures line == "" ==> OpenBlock(lines + [line]) == []
                           && ClosedEvents(lines + [line]) == ClosedEvents(lines) + Delivered(EventOfBlock(OpenBlock(lines)))
    ensures line != "" ==> OpenBlock(lines + [line]) == OpenBlock(lines) + [line]
                           && ClosedEvents(lines + [line]) == ClosedEvents(lines)
  {
    assert (lines + [line])[..|lines|] == lines;
  }

  lemma {:induction false} EventsUnfold(lines: seq<string>, i: nat)
    requires i == FirstBlank(lines) < |lines|
    ensures Events(lines) == Delivered(EventOfBlock(lines[..i])) + Events(lines[i + 1..])
  {
    hide EventOfBlock, Delivered;
  }

  lemma EventsOfLastBlock(lines: seq<string>)
    requires FirstBlank(lines) == |lines|
    ensures Events(lines) == Delivered(EventOfBlock(lines))
  {
  }

  /** Collecting line by line gives the events of the list read as a whole. */
  lemma {:induction false} EventsLineByLine(lines: seq<string>)
    ensures Events(lines) == ClosedEvents(lines) + Delivered(EventOfBlock(OpenBlock(lines)))
    decreases |lines|
  {
    hide EventOfBlock, Delivered, Events, ClosedEvents, OpenBlock;
    var i := FirstBlank(lines);
    if i == |lines| {
      NoBlank(lines);
      EventsOfLastBlock(lines);
    } else {
      EventsUnfold(lines, i);
      var rest := lines[i + 1..];
      EventsLineByLine(rest);
      NoBlank(lines[..i]);
      ClosedSnoc(lines[..i], "");
      BlockBoundary(lines[..i] + [""], rest);
      assert lines == lines[..i] + [""] + rest;
      var first, last := Delivered(EventOfBlock(lines[..i])), Delivered(EventOfBlock(OpenBlock(rest)));
      assert [] + first == first;
      assert first + (ClosedEvents(rest) + last) == first + ClosedEvents(rest) + last;
    }
  }

  lemma {:induction false} NoBlank(lines: seq<string>)
    requires forall k :: 0 <= k < |lines| ==> lines[k] != ""
    ensures OpenBlock(lines) == lines && ClosedEvents(lines) == []
  {
    hide EventOfBlock, Delivered;
    if lines != [] { NoBlank(lines[..|lines| - 1]); }
  }

  lemma {:induction false} BlockBoundary(head: seq<string>, rest: seq<string>)
    requires head != [] && head[|head| - 1] == ""
    ensures OpenBlock(head + rest) == OpenBlock(rest)
    ensures ClosedEvents(head + rest) == ClosedEvents(head) + ClosedEvents(rest)
    decreases |rest|
  {
    hide EventOfBlock, Delivered, ClosedEvents, OpenBlock;
    if rest == [] {
      assert head + rest == head;
      ClosedSnoc(head[..|head| - 1], "");
      assert head[..|head| - 1] + [""] == head;
      NoBlank(rest);
      assert ClosedEvents(head) + [] == ClosedEvents(head);
    } else {
      var front, line := rest[..|rest| - 1], rest[|rest| - 1];
      BlockBoundary(head, front);
      ClosedSnoc(head + front, line);
      ClosedSnoc(front, line);
      assert (head + front) + [line] == head + rest && front + [line] == rest;
      var more := Delivered(EventOfBlock(OpenBlock(front)));
      assert ClosedEvents(head) + (ClosedEvents(front) + more) == ClosedEvents(head) + ClosedEvents(front) + more;
    }
  }

  /** What one more line does to the fields of a block. */
  lemma FieldsSnoc(block: seq<string>, line: string)
    ensures LastValue(block + [line], EVENT) ==
              if StartsWith(line, EVENT) then Some(Trim(FieldValue(line, 5))) else LastValue(block, EVENT)
    ensures LastValue(block + [line], ID) ==
              if StartsWith(line, ID) then Some(Trim(FieldValue(line, 2))) else LastValue(block, ID)
    ensures DataValues(block + [line]) ==
              DataValues(block) + (if StartsWith(line, DATA) then [FieldValue(line, 4)] else [])
  {
    hide Trim, FieldValue;
    assert (block + [line])[..|block|] == block;
  }

  lemma JoinSnoc(values: seq<string>, value: string)
    ensures Join(values + [value]) == (if values == [] then "" else Join(values) + "\n") + value
    ensures Join([]) == ""
  {
    assert (values + [value])[..|values|] == values;
  }

  /** The field names and the comment mark exclude each other. */
  lemma OneField(line: string)
    ensures StartsWith(line, ":") ==> !(StartsWith(line, EVENT)) && !(StartsWith(line, ID)) && !(StartsWith(line, DATA))
    ensures StartsWith(line, EVENT) ==> !(StartsWith(line, ID)) && !(StartsWith(line, DATA))
    ensures StartsWith(line, ID) ==> !(StartsWith(line, DATA))
  {
    if line != "" {
      assert EVENT[0] == 'e' && ID[0] == 'i' && DATA[0] == 'd' && ":"[0] == ':';
    }
  }

  class EventAccumulator {
    var event: Option<string>
    var id: Option<string>
    var data: string
    var hasData: bool
    ghost var block: seq<string>

    ghost predicate Valid()
      reads this
    {
      && event == LastValue(block, EVENT)
      && id == LastValue(block, ID)
      && data == Join(DataValues(block))
      && hasData == (DataValues(block) != [])
    }

    constructor ()
      ensures Valid() && block == []
    {
      event, id, data, hasData, block := None, None, "", false, [];
    }

    method Push(line: string) returns (out: Option<Event>)
      requires Valid()
      modifies this
      ensures Valid()
      ensures line == "" ==> out == EventOfBlock(old(block)) && block == []
      ensures line != "" ==> out == None && block == old(block) + [line]
    {
      hide LastValue, DataValues, Join, Trim, FieldValue, StartsWith, EventOfBlock;
      if line == "" {
        out := Dispatch();
        return;
      }
      out := None;
      FieldsSnoc(block, line);
      OneField(line);
      assert DataValues(block) + [] == DataValues(block);
      block := block + [line];
      if StartsWith(line, ":") { return; }
      if StartsWith(line, EVENT) {
        event := Some(Trim(FieldValue(line, 5)));
      } else if StartsWith(line, ID) {
        id := Some(Trim(FieldValue(line, 2)));
      } else if StartsWith(line, DATA) {
        JoinSnoc(DataValues(old(block)), FieldValue(line, 4));
        if hasData { data := data + "\n"; }
        data := data + FieldValue(line, 4);
        hasData := true;
      }
    }

    method Dispatch() returns (out: Option<Event>)
      requires Valid()
      modifies this
      ensures Valid() && block == []
      ensures out == EventOfBlock(old(block))
    {
      if !hasData {
        Reset();
        return None;
      }
      var e := Event(event, data, id);
      Reset();
      out := if e.data == "[DONE]" then None else Some(e);
    }

    method Reset()
      modifies this
      ensures Valid() && block == []
    {
      event, id, data, hasData, block := None, None, "", false, [];
    }
  }

  // --------------------------------------------------------------- driver

  method FeedLines(events: EventAccumulator, lines: seq<string>, ghost seen: seq<string>) returns (out: seq<Event>)
    requires events.Valid() && events.block == OpenBlock(seen)
    modifies events
    ensures events.Valid() && events.block == OpenBlock(seen + lines)
    ensures ClosedEvents(seen + lines) == ClosedEvents(seen) + out
  {
    hide EventOfBlock, OpenBlock, ClosedEvents;
    out := [];
    assert seen + lines[..0] == seen;
    for i := 0 to |lines|
      invariant events.Valid() && events.block == OpenBlock(seen + lines[..i])
      invariant ClosedEvents(seen + lines[..i]) == ClosedEvents(seen) + out
    {
      assert seen + lines[..i + 1] == (seen + lines[..i]) + [lines[i]];
      ClosedSnoc(seen + lines[..i], lines[i]);
      var e := events.Push(lines[i]);
      assert ClosedEvents(seen) + (out + Delivered(e)) == ClosedEvents(seen) + out + Delivered(e);
      out := out + Delivered(e);
    }
    assert lines[..|lines|] == lines;
  }

  lemma NothingYet()
    ensures OpenBlock(Pushed([])) == [] && ClosedEvents(Pushed([])) == [] && SegmentOf([]) == ""
  {
  }

  /** What the pushed lines gain from chunk `i`, said of the lines a push returns. */
  lemma {:induction false} PushedSnoc(chunks: seq<string>, i: nat, lines: seq<string>)
    requires i < |chunks|
    requires var t, c := SegmentOf(chunks[..i]), chunks[i];
             if c == "" then lines == [] else Lines(t + c) == Lines(t) + lines
    ensures SegmentOf(chunks[..i + 1]) == Continue(SegmentOf(chunks[..i]), chunks[i])
    ensures Pushed(chunks[..i + 1]) == Pushed(chunks[..i]) + lines
  {
    hide Lines, Rest, FirstTerminator, AfterTerminator;
    var front, c := chunks[..i], chunks[i];
    assert chunks[..i + 1][..i] == front;
    var t := SegmentOf(front);
    if c != "" {
      Absorb(t, c);
      assert lines == (Lines(t) + lines)[|Lines(t)|..] == (Lines(t) + NewLines(t, c))[|Lines(t)|..] == NewLines(t, c);
    }
  }

  /** The driver: what one stream yields, chunk by chunk, then flushed. */
  method ParseSSEStream(chunks: seq<string>) returns (out: seq<Event>)
    ensures out == Events(DecodedLines(chunks))
  {
    hide Lines, Rest, FirstTerminator, AfterTerminator, OpenBlock, ClosedEvents, Events, EventOfBlock, Pushed, SegmentOf;
    var lines := new LineDecoder();
    var events := new EventAccumulator();
    out := [];
    NothingYet();
    for i := 0 to |chunks|
      invariant fresh(lines) && fresh(events) && lines.Valid() && events.Valid()
      invariant lines.segment == SegmentOf(chunks[..i])
      invariant events.block == OpenBlock(Pushed(chunks[..i]))
      invariant out == ClosedEvents(Pushed(chunks[..i]))
    {
      var more := lines.Push(chunks[i]);
      PushedSnoc(chunks, i, more);
      var yielded := FeedLines(events, more, Pushed(chunks[..i]));
      out := out + yielded;
    }
    assert chunks[..|chunks|] == chunks;
    var tail := lines.Flush();
    var pushed := Pushed(chunks);
    var rest := Tail(Rest(SegmentOf(chunks)));
    if tail.Some? {
      ClosedSnoc(pushed, tail.value);
      var e := events.Push(tail.value);
      out := out + Delivered(e);
    } else {
      assert pushed + rest == pushed;
    }
    assert events.block == OpenBlock(pushed + rest) && out == ClosedEvents(pushed + rest);
    EventsLineByLine(pushed + rest);
    var last := events.Dispatch();
    out := out + Delivered(last);
  }

  /** Any two cuts of one text that part no CR from its LF by an empty chunk, and so any two cuts
      into non-empty chunks, yield the same events, those of the text read as a whole. */
  lemma {:induction false} EventsIndependentOfChunks(chunks: seq<string>, others: seq<string>)
    requires Flatten(chunks) == Flatten(others)
    requires !BreaksCrLf(chunks) && !BreaksCrLf(others)
    ensures Events(DecodedLines(chunks)) == Events(DecodedLines(others)) == Events(AllLines(Flatten(chunks)))
  {
    hide Lines, Rest, Events, DecodedLines, AllLines, BreaksCrLf;
    LinesIndependentOfChunks(chunks);
    LinesIndependentOfChunks(others);
  }

  lemma {:induction false} NonBlankTail(lines: seq<string>, more: seq<string>)
    requires forall k :: 0 <= k < |more| ==> more[k] != ""
    ensures OpenBlock(lines + more) == OpenBlock(lines) + more && ClosedEvents(lines + more) == ClosedEvents(lines)
    decreases |more|
  {
    hide EventOfBlock, Delivered, ClosedEvents, OpenBlock;
    if more == [] {
      assert lines + more == lines && OpenBlock(lines) + more == OpenBlock(lines);
    } else {
      var front, line := more[..|more| - 1], more[|more| - 1];
      NonBlankTail(lines, front);
      ClosedSnoc(lines + front, line);
      assert (lines + front) + [line] == lines + more;
      assert (OpenBlock(lines) + front) + [line] == OpenBlock(lines) + more;
    }
  }

  /** The lines up to the first blank one, and the events of what comes after it. */
  function FirstBlock(lines: seq<string>): seq<string> { lines[..FirstBlank(lines)] }

  function LaterEvents(lines: seq<string>): seq<Event> {
    if FirstBlank(lines) == |lines| then [] else Events(lines[FirstBlank(lines) + 1..])
  }

  /** The events of two lists of lines put together: only the block at the seam mixes them. */
  lemma EventsAtSeam(before: seq<string>, after: seq<string>)
    ensures Events(before + after) ==
            ClosedEvents(before) + Delivered(EventOfBlock(OpenBlock(before) + FirstBlock(after))) + LaterEvents(after)
  {
    hide EventOfBlock, Delivered, Events, ClosedEvents, OpenBlock;
    var i, r := FirstBlank(after), FirstBlock(after);
    NonBlankTail(before, r);
    EventsLineByLine(before + after);
    if i == |after| {
      assert r == after;
    } else {
      var rest := after[i + 1..];
      var head := before + r + [""];
      assert before + after == head + rest;
      ClosedSnoc(before + r, "");
      BlockBoundary(head, rest);
      EventsLineByLine(rest);
      Regroup(ClosedEvents(before), Delivered(EventOfBlock(OpenBlock(before) + r)), ClosedEvents(rest),
              Delivered(EventOfBlock(OpenBlock(rest))));
    }
  }

  lemma Regroup(a: seq<Event>, b: seq<Event>, c: seq<Event>, d: seq<Event>)
    ensures ((a + b) + c) + d == (a + b) + (c + d)
  {
  }

  /** A blank line put in between changes the events exactly when cutting the block there does. */
  lemma ExtraBlankLine(before: seq<string>, after: seq<string>)
    ensures Events(before + [""] + after) == Events(before + after) <==>
            Delivered(EventOfBlock(OpenBlock(before))) + Delivered(EventOfBlock(FirstBlock(after)))
            == Delivered(EventOfBlock(OpenBlock(before) + FirstBlock(after)))
  {
    hide EventOfBlock, Delivered, Events, ClosedEvents, OpenBlock, FirstBlock, LaterEvents;
    EventsAtSeam(before, after);
    EventsAtSeam(before + [""], after);
    ClosedSnoc(before, "");
    assert [] + FirstBlock(after) == FirstBlock(after);
    Cancel(ClosedEvents(before), Delivered(EventOfBlock(OpenBlock(before))), Delivered(EventOfBlock(FirstBlock(after))),
           Delivered(EventOfBlock(OpenBlock(before) + FirstBlock(after))), LaterEvents(after));
  }

  lemma Cancel(p: seq<Event>, a: seq<Event>, b: seq<Event>, c: seq<Event>, q: seq<Event>)
    ensures (p + a) + b + q == p + c + q <==> a + b == c
  {
    var x, y := (p + a) + b + q, p + c + q;
    assert x == p + (a + b) + q;
    if x == y {
      assert |a + b| == |c|;
      assert a + b == x[|p|..|p| + |a + b|] && c == y[|p|..|p| + |c|];
    }
  }

  /** A stream with one broken CRLF: the blank line its decoder returns too many. */
  lemma {:induction false} OneBreak(chunks: seq<string>) returns (before: seq<string>, after: seq<string>)
    requires Spurious(chunks) == 1
    ensures Pushed(chunks) == before + [""] + after && Lines(Flatten(chunks)) == before + after
  {
    hide Lines, Rest, FirstTerminator, AfterTerminator, BreakAt, Pushed, Flatten, SegmentOf;
    var front, c := chunks[..|chunks| - 1], chunks[|chunks| - 1];
    assert front + [c] == chunks;
    ChunksSnoc(front, c);
    PushedSnocLines(front, c);
    if Spurious(front) == 0 {
      PushedLines(front);
      before, after := BreakLast(front, c);
    } else {
      before, after := OneBreak(front);
      SegmentEnding(front);
      if c == "" {
        assert Flatten(front) + c == Flatten(front) && Pushed(front) + [] == Pushed(front);
      } else {
        NoFurtherBreak(front, c);
        Absorb(Flatten(front), c);
        var more := NewLines(SegmentOf(front), c);
        assert before + [""] + after + more == before + [""] + (after + more);
        assert before + after + more == before + (after + more);
        after := after + more;
      }
    }
  }

  lemma PushedSnocLines(front: seq<string>, c: string)
    ensures Pushed(front + [c]) == Pushed(front) + (if c == "" then [] else NewLines(SegmentOf(front), c))
    ensures Spurious(front + [c]) == Spurious(front) + (if front != [] && BreakAt(front + [c], |front|) then 1 else 0)
  {
    assert (front + [c])[..|front|] == front;
    hide BreakAt;
  }

  lemma {:induction false} BreakLast(front: seq<string>, c: string) returns (before: seq<string>, after: seq<string>)
    requires front != [] && BreakAt(front + [c], |front|) && Pushed(front) == Lines(Flatten(front))
    ensures Pushed(front + [c]) == before + [""] + after && Lines(Flatten(front + [c])) == before + after
  {
    hide Lines, Rest, FirstTerminator, AfterTerminator, Pushed, Flatten, SegmentOf;
    assert (front + [c])[..|front|] == front;
    ChunksSnoc(front, c);
    PushedSnocLines(front, c);
    SegmentEnding(front);
    RestIsOpen(Flatten(front));
    Absorb(Flatten(front), c);
    LeadingLf(c);
    before, after := Lines(Flatten(front)), Lines(c[1..]);
    assert Rest(SegmentOf(front)) + c == c && Rest(Flatten(front)) + c[1..] == c[1..];
    assert before + ([""] + after) == before + [""] + after;
  }

  lemma {:induction false} NoFurtherBreak(front: seq<string>, c: string)
    requires c != "" && !(front != [] && BreakAt(front + [c], |front|))
    ensures Lines(Rest(Flatten(front)) + Pairing(Flatten(front), c)) == NewLines(SegmentOf(front), c)
  {
    hide Lines, Rest, FirstTerminator, AfterTerminator;
    assert (front + [c])[..|front|] == front;
    SegmentEnding(front);
    assert Pairing(SegmentOf(front), c) == Pairing(Flatten(front), c);
  }

  /** Of a stream with one broken CRLF, exactly when its events are still those of the text: when
      the block that holds the break is worth the same cut in two there as whole. */
  lemma {:induction false} OneBreakHarmlessIff(chunks: seq<string>) returns (before: seq<string>, after: seq<string>)
    requires Spurious(chunks) == 1
    ensures DecodedLines(chunks) == before + [""] + after && AllLines(Flatten(chunks)) == before + after
    ensures Events(DecodedLines(chunks)) == Events(AllLines(Flatten(chunks))) <==>
            Delivered(EventOfBlock(OpenBlock(before))) + Delivered(EventOfBlock(FirstBlock(after)))
            == Delivered(EventOfBlock(OpenBlock(before) + FirstBlock(after)))
  {
    hide Lines, Rest, Pushed, Spurious, Flatten, SegmentOf, Tail, EventOfBlock, Delivered, Events, OpenBlock, FirstBlock;
    before, after := OneBreak(chunks);
    SegmentEnding(chunks);
    var tail := Tail(Rest(Flatten(chunks)));
    assert before + [""] + after + tail == before + [""] + (after + tail);
    assert before + after + tail == before + (after + tail);
    after := after + tail;
    ExtraBlankLine(before, after);
  }

  /** With an empty chunk between the CR and the LF, one event comes out as two. */
  lemma {:induction false} EmptyChunkSplitsAnEvent()
    ensures var chunks := ["data:a\r", "", "\ndata:b"];
            && Events(AllLines(Flatten(chunks))) == [Event(None, "a\nb", None)]
            && Events(DecodedLines(chunks)) == [Event(None, "a", None), Event(None, "b", None)]
  {
    hide Lines, Rest, FirstTerminator, Events, Pushed, SegmentOf, Flatten, EventOfBlock, OpenBlock, ClosedEvents, DataValues, Join, LastValue, AllLines, DecodedLines;
    var a, b := "data:a", "data:b";
    var chunks := ["data:a\r", "", "\ndata:b"];
    BothReadings(chunks);
    DataBlocks(a, b);
    EventsLineByLine([a, b]);
    NoBlank([a, b]);
    EventsLineByLine([a, "", b]);
    NoBlank([a]);
    NoBlank([b]);
    ClosedSnoc([a], "");
    BlockBoundary([a] + [""], [b]);
    assert [a] + [""] + [b] == [a, "", b];
  }

  lemma {:induction false} DataBlocks(a: string, b: string)
    requires a == "data:a" && b == "data:b"
    ensures EventOfBlock([a, b]) == Some(Event(None, "a\nb", None))
    ensures EventOfBlock([a]) == Some(Event(None, "a", None)) && EventOfBlock([b]) == Some(Event(None, "b", None))
  {
    hide LastValue, DataValues, Join;
    FieldsSnoc([], a);
    FieldsSnoc([], b);
    FieldsSnoc([a], b);
    assert [] + [a] == [a] && [] + [b] == [b] && [a] + [b] == [a, b];
    NoFields();
    OneField(a);
    OneField(b);
    assert FieldValue(a, 4) == "a" && FieldValue(b, 4) == "b";
    JoinSnoc([], "a");
    JoinSnoc([], "b");
    JoinSnoc(["a"], "b");
    var none: seq<string> := [];
    assert none + ["a"] == ["a"] && none + ["b"] == ["b"] && ["a"] + ["b"] == ["a", "b"];
    assert "" + "a" == "a" && "" + "b" == "b" && "a" + "\n" + "b" == "a\nb";
    assert |"[DONE]"| == 6;
  }

  lemma NoFields()
    ensures LastValue([], EVENT) == None && LastValue([], ID) == None && DataValues([]) == []
  {
  }

  lemma {:induction false} BothReadings(chunks: seq<string>)
    requires chunks == ["data:a\r", "", "\ndata:b"]
    ensures AllLines(Flatten(chunks)) == ["data:a", "data:b"]
    ensures DecodedLines(chunks) == ["data:a", "", "data:b"]
  {
    hide Lines, Rest, FirstTerminator, Pushed, SegmentOf, Flatten;
    var a, b := "data:a", "data:b";
    OneLine(a, "\r", "");
    OneLine("", "\n", b);
    OneLine(a, "\r\n", b);
    ThreeChunks(chunks);
    assert a + "\r" + "" == chunks[0] && "" + "\n" + b == chunks[2];
    assert chunks[0] + "" + chunks[2] == a + "\r\n" + b;
    assert chunks[0][|chunks[0]| - 1] == '\r';
  }

  lemma {:induction false} ThreeChunks(chunks: seq<string>)
    requires |chunks| == 3 && chunks[0] != "" && EndsWithCr(chunks[0]) && chunks[1] == "" && chunks[2] != ""
    ensures Flatten(chunks) == chunks[0] + chunks[1] + chunks[2]
    ensures SegmentOf(chunks) == chunks[2]
    ensures Pushed(chunks) == Lines(chunks[0]) + Lines(chunks[2])
  {
    hide Lines, Rest, FirstTerminator, Pushed, SegmentOf, Flatten;
    NoChunks();
    EmptyText();
    assert chunks[..0] == [] && chunks[..3] == chunks;
    var none: seq<string> := [];
    assert "" + chunks[0] == chunks[0] && "" + chunks[2] == chunks[2];
    assert none + Lines(chunks[0]) == Lines(chunks[0]);
    FlattenSnoc(chunks, 0);
    FlattenSnoc(chunks, 1);
    FlattenSnoc(chunks, 2);
    PushedSnoc(chunks, 0, Lines(chunks[0]));
    PushedSnoc(chunks, 1, []);
    PushedSnoc(chunks, 2, Lines(chunks[2]));
  }

  lemma NoChunks()
    ensures Flatten([]) == "" && SegmentOf([]) == "" && Pushed([]) == []
  {
  }

  lemma FlattenSnoc(chunks: seq<string>, i: nat)
    requires i < |chunks|
    ensures Flatten(chunks[..i + 1]) == Flatten(chunks[..i]) + chunks[i]
  {
    assert chunks[..i + 1][..i] == chunks[..i];
  }

  lemma {:induction false} OneLine(line: string, end: string, rest: string)
    requires end in {"\r", "\n", "\r\n"}
    requires forall k :: 0 <= k < |line| ==> !IsTerminator(line[k])
    requires forall k :: 0 <= k < |rest| ==> !IsTerminator(rest[k])
    ensures Lines(line + end + rest) == [line] && Rest(line + end + rest) == rest
  {
    var t := line + end + rest;
    var i := |line|;
    assert forall k :: 0 <= k < i ==> t[k] == line[k];
    assert t[i] == end[0] && t[..i] == line;
    Unfold(t, i);
    if rest != "" { assert t[i + |end|] == rest[0]; }
    assert t[i + |end|..] == rest;
    assert AfterTerminator(t, i) == i + |end|;
    FirstIs(rest, |rest|);
  }
}
