// Events written down in the event stream format and parsed back by src/network/sse.ts: what a
// field's value is, which line of a block counts, and that the data arrives as it was sent.

module SseRoundTrip {
  import opened Sse

  // ---------------------------------------------------------------- trimming

  /** White space, by code point: what ECMAScript's `trim` takes off. */
  lemma TrimmedCharacters(c: char)
    ensures IsTrimmed(c) <==>
              c as int in {9, 10, 11, 12, 13, 32, 160, 5760, 8192, 8193, 8194, 8195, 8196, 8197, 8198, 8199, 8200, 8201,
                           8202, 8232, 8233, 8239, 8287, 12288, 65279}
  {
  }

  ghost predicate AllTrimmed(s: string) { forall i :: 0 <= i < |s| ==> IsTrimmed(s[i]) }

  predicate TrimsToItself(s: string) { s == "" || (!IsTrimmed(s[0]) && !IsTrimmed(s[|s| - 1])) }

  lemma {:induction false} TrimStartCuts(s: string) returns (front: string)
    ensures s == front + TrimStart(s) && AllTrimmed(front)
    ensures TrimStart(s) == "" || !IsTrimmed(TrimStart(s)[0])
  {
    hide IsTrimmed;
    if s != "" && IsTrimmed(s[0]) {
      var more := TrimStartCuts(s[1..]);
      front := [s[0]] + more;
    } else {
      front := "";
    }
  }

  /** Trimming cuts white space off both ends, and all of it. */
  lemma {:induction false} TrimCuts(s: string) returns (front: string, back: string)
    ensures s == front + Trim(s) + back && AllTrimmed(front) && AllTrimmed(back) && TrimsToItself(Trim(s))
    decreases |s|
  {
    hide IsTrimmed;
    if s != "" && IsTrimmed(s[|s| - 1]) {
      front, back := TrimCuts(s[..|s| - 1]);
      assert s == front + Trim(s) + (back + [s[|s| - 1]]);
      back := back + [s[|s| - 1]];
    } else {
      front := TrimStartCuts(s);
      back := "";
      assert front + TrimStart(s) + "" == s;
      if TrimStart(s) != "" { assert TrimStart(s)[|TrimStart(s)| - 1] == s[|s| - 1]; }
    }
  }

  lemma TrimmedStays(s: string)
    requires TrimsToItself(s)
    ensures Trim(s) == s
  {
  }

  // ------------------------------------------------------------------ fields

  /** A field's line: a space after the colon where asked for, or where the value starts with one. */
  function FieldLine(name: string, value: string, spaced: bool): string {
    name + (if spaced || (value != "" && value[0] == ' ') then " " else "") + value
  }

  /** The value of a field is what was written, leading spaces of its own included. */
  lemma ValueReadsBack(name: string, value: string, spaced: bool)
    requires name != ""
    ensures FieldValue(FieldLine(name, value, spaced), |name| - 1) == value
    ensures StartsWith(FieldLine(name, value, spaced), name) && FieldLine(name, value, spaced) != ""
  {
    var line := FieldLine(name, value, spaced);
    var raw := line[|name|..];
    assert line == name + raw;
    if spaced || (value != "" && value[0] == ' ') {
      assert raw == " " + value && raw[1..] == value;
    } else {
      assert raw == value;
    }
  }

  /** In a block, the last event line and the last id line count, and each data line adds one more
      line to the data. */
  lemma OneMoreField(block: seq<string>, value: string, spaced: bool)
    requires EventOfBlock(block).Some?
    ensures var e := EventOfBlock(block).value;
            && EventOfBlock(block + [FieldLine(DATA, value, spaced)]) == Some(e.(data := e.data + "\n" + value))
            && (TrimsToItself(value) ==>
                  && EventOfBlock(block + [FieldLine(EVENT, value, spaced)]) == Some(e.(event := Some(value)))
                  && EventOfBlock(block + [FieldLine(ID, value, spaced)]) == Some(e.(id := Some(value))))
  {
    hide Trim, FieldValue, LastValue, DataValues, Join, FieldLine, TrimsToItself;
    var x, y, z := FieldLine(DATA, value, spaced), FieldLine(EVENT, value, spaced), FieldLine(ID, value, spaced);
    ValueReadsBack(DATA, value, spaced);
    ValueReadsBack(EVENT, value, spaced);
    ValueReadsBack(ID, value, spaced);
    FieldsSnoc(block, x);
    FieldsSnoc(block, y);
    FieldsSnoc(block, z);
    OneField(x);
    OneField(y);
    OneField(z);
    assert DataValues(block) + [] == DataValues(block);
    JoinSnoc(DataValues(block), value);
    var data := Join(DataValues(block));
    assert (data + "\n" + value)[|data|] == '\n';
    if TrimsToItself(value) { TrimmedStays(value); }
  }

  /** A comment or a field of any other name adds nothing, wherever in the block it stands. */
  lemma {:induction false} OtherLinesIgnored(block: seq<string>, line: string, more: seq<string>)
    requires !StartsWith(line, EVENT) && !StartsWith(line, ID) && !StartsWith(line, DATA)
    ensures EventOfBlock(block + [line] + more) == EventOfBlock(block + more)
  {
    SameFields(block, line, more);
    hide LastValue, DataValues, Join, StartsWith;
  }

  lemma {:induction false} SameFields(block: seq<string>, line: string, more: seq<string>)
    requires !StartsWith(line, EVENT) && !StartsWith(line, ID) && !StartsWith(line, DATA)
    ensures LastValue(block + [line] + more, EVENT) == LastValue(block + more, EVENT)
    ensures LastValue(block + [line] + more, ID) == LastValue(block + more, ID)
    ensures DataValues(block + [line] + more) == DataValues(block + more)
    decreases |more|
  {
    hide Trim, FieldValue, LastValue, DataValues, StartsWith;
    if more == [] {
      FieldsSnoc(block, line);
      assert block + [line] + more == block + [line] && block + more == block;
      assert DataValues(block) + [] == DataValues(block);
    } else {
      var front, last := more[..|more| - 1], more[|more| - 1];
      SameFields(block, line, front);
      assert block + [line] + more == (block + [line] + front) + [last];
      assert block + more == (block + front) + [last];
      FieldsSnoc(block + [line] + front, last);
      FieldsSnoc(block + front, last);
    }
  }

  // ----------------------------------------------------------------- writing

  /** The lines of some data. */
  function SplitLf(data: string): (lines: seq<string>)
    ensures lines != []
    ensures forall i :: 0 <= i < |lines| ==> '\n' !in lines[i] && ('\r' !in data ==> '\r' !in lines[i])
  {
    if data == "" then [""] else
      var front, c := SplitLf(data[..|data| - 1]), data[|data| - 1];
      if c == '\n' then front + [""] else front[|front| - 1 := front[|front| - 1] + [c]]
  }

  /** One more character of data: a new line, or one more in the last line. */
  lemma JoinGrows(lines: seq<string>, c: char)
    requires lines != []
    ensures Join(lines + [""]) == Join(lines) + "\n"
    ensures Join(lines[|lines| - 1 := lines[|lines| - 1] + [c]]) == Join(lines) + [c]
  {
    hide Join;
    var init, last := lines[..|lines| - 1], lines[|lines| - 1];
    var head := if init == [] then "" else Join(init) + "\n";
    assert lines == init + [last] && lines[|lines| - 1 := last + [c]] == init + [last + [c]];
    JoinSnoc(lines, "");
    JoinSnoc(init, last);
    JoinSnoc(init, last + [c]);
    assert (Join(lines) + "\n") + "" == Join(lines) + "\n";
    assert head + (last + [c]) == (head + last) + [c];
  }

  lemma {:induction false} JoinSplit(data: string)
    ensures Join(SplitLf(data)) == data
  {
    if data == "" {
      JoinSnoc([], "");
      assert [] + [""] == [""];
    } else {
      var front, c := data[..|data| - 1], data[|data| - 1];
      JoinSplit(front);
      JoinGrows(SplitLf(front), c);
      hide Join;
      assert front + [c] == data;
    }
  }

  function DataLines(values: seq<string>, spaced: bool): seq<string> {
    if values == [] then [] else
      DataLines(values[..|values| - 1], spaced) + [FieldLine(DATA, values[|values| - 1], spaced)]
  }

  function OptionalLine(name: string, value: Option<string>, spaced: bool): seq<string> {
    if value.Some? then [FieldLine(name, value.value, spaced)] else []
  }

  /** An event's block of lines, without the blank line that ends it. */
  function BlockOf(e: Event, spaced: bool): seq<string> {
    OptionalLine(EVENT, e.event, spaced) + OptionalLine(ID, e.id, spaced) + DataLines(SplitLf(e.data), spaced)
  }

  function LinesOf(events: seq<Event>, spaced: bool): seq<string> {
    if events == [] then [] else BlockOf(events[0], spaced) + [""] + LinesOf(events[1..], spaced)
  }

  function Text(lines: seq<string>, end: string): string {
    if lines == [] then "" else lines[0] + end + Text(lines[1..], end)
  }

  predicate OneLineOnly(s: string) { '\n' !in s && '\r' !in s }

  /** An event the format can carry: its name and id are trimmed single lines. */
  predicate Writable(e: Event) {
    && '\r' !in e.data
    && (e.event.Some? ==> OneLineOnly(e.event.value) && TrimsToItself(e.event.value))
    && (e.id.Some? ==> OneLineOnly(e.id.value) && TrimsToItself(e.id.value))
  }

  /** The end mark of some providers is no event. */
  function Kept(events: seq<Event>): seq<Event> {
    if events == [] then [] else (if events[0].data == "[DONE]" then [] else [events[0]]) + Kept(events[1..])
  }

  // -------------------------------------------------------------- round trip

  lemma {:induction false} DataBlock(head: seq<string>, values: seq<string>, spaced: bool)
    ensures LastValue(head + DataLines(values, spaced), EVENT) == LastValue(head, EVENT)
    ensures LastValue(head + DataLines(values, spaced), ID) == LastValue(head, ID)
    ensures DataValues(head + DataLines(values, spaced)) == DataValues(head) + values
  {
    hide Trim, FieldValue, LastValue, DataValues, StartsWith, FieldLine;
    if values == [] {
      assert head + [] == head && DataValues(head) + [] == DataValues(head);
    } else {
      var front, v := values[..|values| - 1], values[|values| - 1];
      DataBlock(head, front, spaced);
      var line := FieldLine(DATA, v, spaced);
      ValueReadsBack(DATA, v, spaced);
      OneField(line);
      FieldsSnoc(head + DataLines(front, spaced), line);
      assert head + DataLines(values, spaced) == (head + DataLines(front, spaced)) + [line];
      assert (DataValues(head) + front) + [v] == DataValues(head) + values;
    }
  }

  lemma {:induction false} HeadBlock(e: Event, spaced: bool)
    requires Writable(e)
    ensures var head := OptionalLine(EVENT, e.event, spaced) + OptionalLine(ID, e.id, spaced);
            LastValue(head, EVENT) == e.event && LastValue(head, ID) == e.id && DataValues(head) == []
  {
    hide Trim, FieldValue, LastValue, DataValues, StartsWith, FieldLine, TrimsToItself;
    NoFields();
    var none: seq<string> := [];
    var first := OptionalLine(EVENT, e.event, spaced);
    if e.event.Some? {
      var line := FieldLine(EVENT, e.event.value, spaced);
      ValueReadsBack(EVENT, e.event.value, spaced);
      OneField(line);
      FieldsSnoc(none, line);
      TrimmedStays(e.event.value);
      assert none + [line] == first;
    }
    assert LastValue(first, EVENT) == e.event && LastValue(first, ID) == None && DataValues(first) == [];
    if e.id.Some? {
      var line := FieldLine(ID, e.id.value, spaced);
      ValueReadsBack(ID, e.id.value, spaced);
      OneField(line);
      FieldsSnoc(first, line);
      TrimmedStays(e.id.value);
    } else {
      assert first + [] == first;
    }
  }

  /** A written block is worth the event it was written for. */
  lemma BlockReadsBack(e: Event, spaced: bool)
    requires Writable(e)
    ensures EventOfBlock(BlockOf(e, spaced)) == if e.data == "[DONE]" then None else Some(e)
  {
    hide LastValue, DataValues, Join, DataLines, SplitLf, OptionalLine;
    var values := SplitLf(e.data);
    HeadBlock(e, spaced);
    DataBlock(OptionalLine(EVENT, e.event, spaced) + OptionalLine(ID, e.id, spaced), values, spaced);
    JoinSplit(e.data);
    assert [] + values == values;
  }

  predicate Solid(lines: seq<string>) { forall k :: 0 <= k < |lines| ==> lines[k] != "" && OneLineOnly(lines[k]) }

  lemma FieldLineSolid(name: string, value: string, spaced: bool)
    requires name in [EVENT, ID, DATA] && OneLineOnly(value)
    ensures FieldLine(name, value, spaced) != "" && OneLineOnly(FieldLine(name, value, spaced))
  {
  }

  lemma {:induction false} DataLinesSolid(values: seq<string>, spaced: bool)
    requires forall i :: 0 <= i < |values| ==> OneLineOnly(values[i])
    ensures Solid(DataLines(values, spaced))
  {
    hide FieldLine, OneLineOnly;
    if values != [] {
      DataLinesSolid(values[..|values| - 1], spaced);
      assert [EVENT, ID, DATA][2] == DATA;
      FieldLineSolid(DATA, values[|values| - 1], spaced);
    }
  }

  lemma BlockSolid(e: Event, spaced: bool)
    requires Writable(e)
    ensures Solid(BlockOf(e, spaced))
  {
    hide FieldLine, DataLines, SplitLf, TrimsToItself;
    DataLinesSolid(SplitLf(e.data), spaced);
    assert [EVENT, ID, DATA][0] == EVENT && [EVENT, ID, DATA][1] == ID;
    if e.event.Some? { FieldLineSolid(EVENT, e.event.value, spaced); }
    if e.id.Some? { FieldLineSolid(ID, e.id.value, spaced); }
  }

  lemma FirstBlankIs(lines: seq<string>, rest: seq<string>)
    requires Solid(lines)
    ensures FirstBlank(lines + [""] + rest) == |lines|
  {
    var all := lines + [""] + rest;
    assert all[|lines|] == "" && forall k :: 0 <= k < |lines| ==> all[k] == lines[k];
  }

  lemma {:induction false} EventsReadBack(events: seq<Event>, spaced: bool)
    requires forall i :: 0 <= i < |events| ==> Writable(events[i])
    ensures Events(LinesOf(events, spaced)) == Kept(events)
    ensures forall k :: 0 <= k < |LinesOf(events, spaced)| ==> OneLineOnly(LinesOf(events, spaced)[k])
    decreases |events|
  {
    hide EventOfBlock, BlockOf, Writable, Events, OneLineOnly;
    if events == [] {
      NoLines();
    } else {
      var block, rest := BlockOf(events[0], spaced), LinesOf(events[1..], spaced);
      var lines := block + [""] + rest;
      BlockReadsBack(events[0], spaced);
      BlockSolid(events[0], spaced);
      EventsReadBack(events[1..], spaced);
      FirstBlankIs(block, rest);
      EventsUnfold(lines, |block|);
      assert lines[..|block|] == block && lines[|block| + 1..] == rest;
      assert OneLineOnly("") by { EmptyIsOneLine(); }
    }
  }

  lemma EmptyIsOneLine()
    ensures OneLineOnly("")
  {
  }

  lemma NoLines()
    ensures Events([]) == []
  {
    hide LastValue, Join;
  }

  /** The whole split of a text gives back the lines it was put together from. */
  lemma {:induction false} TextSplits(lines: seq<string>, end: string)
    requires end in {"\r", "\n", "\r\n"} && forall k :: 0 <= k < |lines| ==> OneLineOnly(lines[k])
    ensures Lines(Text(lines, end)) == lines && Rest(Text(lines, end)) == ""
  {
    hide Lines, Rest;
    if lines == [] {
      EmptyText();
    } else {
      var line, rest := lines[0], Text(lines[1..], end);
      TextSplits(lines[1..], end);
      var t := line + end + rest;
      assert forall k :: 0 <= k < |line| ==> t[k] == line[k] && line[k] in line;
      assert t[|line|] == end[0] && t[..|line|] == line && t[|line| + |end|..] == rest;
      Unfold(t, |line|);
      if rest != "" {
        NotLineFeed(lines[1..], end);
        assert t[|line| + |end|] == rest[0];
      }
      assert AfterTerminator(t, |line|) == |line| + |end|;
      assert [line] + lines[1..] == lines;
    }
  }

  lemma NotLineFeed(lines: seq<string>, end: string)
    requires lines != [] && OneLineOnly(lines[0]) && end != ""
    ensures Text(lines, end) != "" && (end[0] != '\n' ==> Text(lines, end)[0] != '\n')
  {
    if lines[0] != "" { assert Text(lines, end)[0] == lines[0][0]; }
    else { assert Text(lines, end) == end + Text(lines[1..], end); }
  }

  /** Whatever events are sent, with any of the three line ends and however the text is cut, short
      of an empty chunk inside a CRLF: exactly they arrive, in order, with their data as it was,
      leading spaces and line breaks included; only a "[DONE]" does not. */
  lemma RoundTrip(events: seq<Event>, spaced: bool, end: string, chunks: seq<string>)
    requires forall i :: 0 <= i < |events| ==> Writable(events[i])
    requires end in {"\r", "\n", "\r\n"}
    requires Flatten(chunks) == Text(LinesOf(events, spaced), end) && !BreaksCrLf(chunks)
    ensures Events(DecodedLines(chunks)) == Kept(events)
  {
    hide Events, DecodedLines, Lines, Rest, Text, LinesOf, Writable, Flatten, BreaksCrLf;
    LinesIndependentOfChunks(chunks);
    EventsReadBack(events, spaced);
    TextSplits(LinesOf(events, spaced), end);
    assert LinesOf(events, spaced) + [] == LinesOf(events, spaced);
  }
}
