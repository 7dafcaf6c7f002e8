/** The incremental event-stream reader: framing over arbitrary chunks and block parsing.

    `Events` says what a whole text means; `ReadStream` is the loop over chunks and yields exactly
    that, so where the chunks were cut cannot matter. `ParsePrinted` is the round trip. */
module SseClient {
  import opened Options

  datatype SseEvent = SseEvent(event: string, data: string)

  const DELIMITER: string := "\n\n"

  // ---- strings ------------------------------------------------------------------------------

  function Concat(parts: seq<string>): string
  {
    if parts == [] then "" else Concat(parts[..|parts| - 1]) + parts[|parts| - 1]
  }

  predicate BoundaryAt(s: string, i: int)
  {
    0 <= i && i + 2 <= |s| && s[i] == '\n' && s[i + 1] == '\n'
  }

  /** `indexOf("\n\n", from)`: the first boundary at or after `from`, or -1. */
  function FindBoundary(s: string, from: nat): (r: int)
    ensures r == -1 || (from <= r && BoundaryAt(s, r))
    ensures forall i: int {:trigger BoundaryAt(s, i)} :: from <= i && (r == -1 || i < r) ==> !BoundaryAt(s, i)
    decreases |s| - from
  {
    if from + 2 > |s| then -1
    else if BoundaryAt(s, from) then from
    else FindBoundary(s, from + 1)
  }

  /** `split(separator)`: the parts between the separators, in order; never empty. */
  function Split(s: string, separator: char): (parts: seq<string>)
    ensures |parts| >= 1
    ensures forall i :: 0 <= i < |parts| ==> separator !in parts[i]
  {
    if s == "" then [""]
    else
      var rest := Split(s[1..], separator);
      if s[0] == separator then [""] + rest else [[s[0]] + rest[0]] + rest[1..]
  }

  /** `join(separator)` */
  function Join(parts: seq<string>, separator: string): string
  {
    if parts == [] then ""
    else if |parts| == 1 then parts[0]
    else parts[0] + separator + Join(parts[1..], separator)
  }

  /** The white space and line terminators that `trim()` removes. */
  predicate IsSpace(c: char)
  {
    || '\t' <= c <= '\r' || c == ' ' || c == '\U{00A0}' || c == '\U{1680}'
    || '\U{2000}' <= c <= '\U{200A}' || c == '\U{2028}' || c == '\U{2029}' || c == '\U{202F}'
    || c == '\U{205F}' || c == '\U{3000}' || c == '\U{FEFF}'
  }

  /** `s.trim()` is empty */
  predicate Blank(s: string)
  {
    forall i :: 0 <= i < |s| ==> IsSpace(s[i])
  }

  // ---- one block ----------------------------------------------------------------------------

  /** `indexOf(":")` on a line */
  function Colon(line: string): (r: int)
    ensures -1 <= r < |line|
    ensures r >= 0 ==> line[r] == ':' && ':' !in line[..r] && forall k :: 0 <= k < r ==> line[k] != ':'
    ensures r == -1 <==> ':' !in line
  {
    if line == "" then -1
    else if line[0] == ':' then 0
    else
      var r := Colon(line[1..]);
      if r == -1 then -1
      else
        assert line[..r + 1] == [line[0]] + line[1..][..r];
        r + 1
  }

  function FieldValue(raw: string): string
  {
    if raw != "" && raw[0] == ' ' then raw[1..] else raw
  }

  datatype Block = Block(event: string, dataLines: seq<string>)

  /** The effect of one line on the event name and the data lines. */
  function ParseLine(block: Block, line: string): Block
  {
    if line == "" || line[0] == ':' then block
    else
      var colon := Colon(line);
      if colon == -1 then block
      else
        var field, value := line[..colon], FieldValue(line[colon + 1..]);
        if field == "event" then block.(event := value)
        else if field == "data" then block.(dataLines := block.dataLines + [value])
        else block
  }

  function ParseLines(block: Block, lines: seq<string>): Block
  {
    if lines == [] then block else ParseLine(ParseLines(block, lines[..|lines| - 1]), lines[|lines| - 1])
  }

  function Finish(block: Block): Option<SseEvent>
  {
    if block.dataLines == [] then None else Some(SseEvent(block.event, Join(block.dataLines, "\n")))
  }

  function ParseBlock(raw: string): Option<SseEvent>
  {
    Finish(ParseLines(Block("message", []), Split(raw, '\n')))
  }

  method ParseSseBlock(raw: string) returns (r: Option<SseEvent>)
    ensures r == ParseBlock(raw)
  {
    var event := "message";
    var dataLines: seq<string> := [];
    var lines := Split(raw, '\n');
    for i := 0 to |lines|
      invariant Block(event, dataLines) == ParseLines(Block("message", []), lines[..i])
    {
      var line := lines[i];
      assert lines[..i + 1][..i] == lines[..i];
      if line == "" {
        continue;
      }
      if line[0] == ':' {
        continue;
      }
      var colonIdx := Colon(line);
      if colonIdx == -1 {
        continue;
      }
      var field := line[..colonIdx];
      var value := FieldValue(line[colonIdx + 1..]);
      if field == "event" {
        event := value;
      } else if field == "data" {
        dataLines := dataLines + [value];
      }
    }
    assert lines[..|lines|] == lines;
    if dataLines == [] {
      return None;
    }
    r := Some(SseEvent(event, Join(dataLines, "\n")));
  }

  // ---- what a block means -----------------------------------------------------------------------

  /** The line gives the field this value; one space after the colon is not part of it. */
  predicate Carries(line: string, field: string, value: string)
  {
    || line == field + ": " + value
    || (line == field + ":" + value && (value != "" ==> value[0] != ' '))
  }

  lemma ColonAfter(line: string, field: string, rest: string)
    requires ':' !in field && line == field + ":" + rest
    ensures Colon(line) == |field| && line[..|field|] == field && line[|field| + 1..] == rest
  {
    assert line[|field|] == ':';
    assert forall k :: 0 <= k < |field| ==> line[k] == field[k] && line[k] != ':';
    var c := Colon(line);
    hide Colon;
    assert c >= 0 && line[c] == ':' && c >= |field|;
  }

  lemma CarriesMeans(line: string, field: string, value: string)
    requires ':' !in field
    ensures Carries(line, field, value) <==>
              Colon(line) == |field| && line[..|field|] == field && FieldValue(line[|field| + 1..]) == value
  {
    var c := Colon(line);
    if c == |field| && line[..c] == field {
      var rest := line[c + 1..];
      assert line == field + ":" + rest;
      hide Colon;
      CarriesAfter(line, field, rest, value);
    } else {
      NotCarried(line, field, value);
    }
  }

  lemma CarriesAfter(line: string, field: string, rest: string, value: string)
    requires line == field + ":" + rest
    ensures Carries(line, field, value) <==> FieldValue(rest) == value
  {
    assert line[|field| + 1..] == rest;
    if line == field + ": " + value {
      assert line[|field| + 1..] == " " + value;
    }
    if line == field + ":" + value {
      assert line[|field| + 1..] == value;
    }
    if rest != "" && rest[0] == ' ' {
      assert rest == " " + rest[1..];
      assert field + ":" + rest == field + ": " + rest[1..];
    }
  }

  lemma NotCarried(line: string, field: string, value: string)
    requires ':' !in field && !(Colon(line) == |field| && line[..|field|] == field)
    ensures !Carries(line, field, value)
  {
    if line == field + ": " + value {
      assert line == field + ":" + (" " + value);
      ColonAfter(line, field, " " + value);
    } else if line == field + ":" + value {
      ColonAfter(line, field, value);
    }
  }

  /** What the line gives the field, if anything. */
  ghost function Carried(line: string, field: string): (v: Option<string>)
    ensures v.Some? ==> Carries(line, field, v.value)
    ensures v.None? ==> forall w :: !Carries(line, field, w)
  {
    if w :| Carries(line, field, w) then Some(w) else None
  }

  /** The values of the data lines, in order. */
  ghost function DataOf(lines: seq<string>): seq<string>
  {
    if lines == [] then []
    else
      var last := Carried(lines[|lines| - 1], "data");
      DataOf(lines[..|lines| - 1]) + if last.Some? then [last.value] else []
  }

  /** The value of the last event line. */
  ghost function NameOf(lines: seq<string>): string
  {
    if lines == [] then "message"
    else
      var last := Carried(lines[|lines| - 1], "event");
      if last.Some? then last.value else NameOf(lines[..|lines| - 1])
  }

  lemma ValueCarried(line: string, field: string)
    requires ':' !in field && Colon(line) > 0
    ensures
      var c := Colon(line);
      Carried(line, field) == if line[..c] == field then Some(FieldValue(line[c + 1..])) else None
  {
    var c := Colon(line);
    CarriesMeans(line, field, FieldValue(line[c + 1..]));
    var v := Carried(line, field);
    if v.Some? {
      CarriesMeans(line, field, v.value);
    }
    hide Carried, Carries, FieldValue, Colon;
  }

  lemma NothingCarried(line: string, field: string)
    requires ':' !in field && field != "" && Colon(line) <= 0
    ensures Carried(line, field) == None
  {
    var v := Carried(line, field);
    if v.Some? {
      CarriesMeans(line, field, v.value);
    }
    hide Carried, Carries, FieldValue, Colon;
  }

  lemma LineMeans(block: Block, line: string)
    ensures
      var name, data := Carried(line, "event"), Carried(line, "data");
      ParseLine(block, line) ==
      Block(if name.Some? then name.value else block.event, block.dataLines + if data.Some? then [data.value] else [])
  {
    var name, data, c := Carried(line, "event"), Carried(line, "data"), Colon(line);
    assert block.dataLines + [] == block.dataLines;
    if c > 0 {
      var field, value := line[..c], FieldValue(line[c + 1..]);
      ValueCarried(line, "event");
      ValueCarried(line, "data");
      hide Carried, Carries, FieldValue, Colon;
      assert ParseLine(block, line) ==
             if field == "event" then block.(event := value)
             else if field == "data" then block.(dataLines := block.dataLines + [value]) else block;
    } else {
      NothingCarried(line, "event");
      NothingCarried(line, "data");
      assert ParseLine(block, line) == block;
    }
  }

  /** A block is an event exactly if some line carries data: all the data, line by line, under the name given
      last, or "message". */
  lemma BlockMeans(raw: string)
    ensures
      var lines := Split(raw, '\n');
      ParseBlock(raw) ==
      if DataOf(lines) == [] then None else Some(SseEvent(NameOf(lines), Join(DataOf(lines), "\n")))
  {
    LinesMean(Split(raw, '\n'));
  }

  lemma {:induction false} LinesMean(lines: seq<string>)
    ensures ParseLines(Block("message", []), lines) == Block(NameOf(lines), DataOf(lines))
  {
    if lines != [] {
      LinesMean(lines[..|lines| - 1]);
      LineMeans(ParseLines(Block("message", []), lines[..|lines| - 1]), lines[|lines| - 1]);
      hide ParseLine, Carried;
    }
  }

  // ---- framing ------------------------------------------------------------------------------

  function AsSeq(e: Option<SseEvent>): seq<SseEvent>
  {
    if e.Some? then [e.value] else []
  }

  /** The events of the complete blocks of a text. */
  function CompleteEvents(text: string): seq<SseEvent>
  {
    var b := FindBoundary(text, 0);
    if b == -1 then [] else AsSeq(ParseBlock(text[..b])) + CompleteEvents(text[b + 2..])
  }

  /** What follows the last complete block. */
  function Remainder(text: string): string
  {
    var b := FindBoundary(text, 0);
    if b == -1 then text else Remainder(text[b + 2..])
  }

  /** The events of a whole text: its complete blocks, then the unterminated last one. */
  function Events(text: string): seq<SseEvent>
  {
    CompleteEvents(text) + AsSeq(if Blank(Remainder(text)) then None else ParseBlock(Remainder(text)))
  }

  /** More text does not move the first boundary. */
  lemma SameBoundary(text: string, more: string)
    requires FindBoundary(text, 0) != -1
    ensures FindBoundary(text + more, 0) == FindBoundary(text, 0)
  {
    var b := FindBoundary(text, 0);
    hide FindBoundary;
    assert BoundaryAt(text + more, b);
    forall i | 0 <= i < b
      ensures !BoundaryAt(text + more, i)
    {
      assert !BoundaryAt(text, i);
    }
  }

  /** One complete block is taken off the front. */
  lemma TakeBlock(text: string, b: int)
    requires b == FindBoundary(text, 0) && b != -1
    ensures b + 2 <= |text|
    ensures CompleteEvents(text) == AsSeq(ParseBlock(text[..b])) + CompleteEvents(text[b + 2..])
    ensures Remainder(text) == Remainder(text[b + 2..])
  {
  }

  /** Without a boundary everything is still pending. */
  lemma NoBlock(text: string)
    requires FindBoundary(text, 0) == -1
    ensures CompleteEvents(text) == [] && Remainder(text) == text
  {
  }

  /** More text does not change the blocks already complete, and goes on where they end. */
  lemma {:induction false} Resume(text: string, more: string)
    ensures CompleteEvents(text + more) == CompleteEvents(text) + CompleteEvents(Remainder(text) + more)
    ensures Remainder(text + more) == Remainder(Remainder(text) + more)
    decreases |text|
  {
    hide CompleteEvents, Remainder, FindBoundary, BoundaryAt, ParseBlock, AsSeq;
    var b := FindBoundary(text, 0);
    if b == -1 {
      NoBlock(text);
    } else {
      SameBoundary(text, more);
      TakeBlock(text, b);
      TakeBlock(text + more, b);
      assert (text + more)[..b] == text[..b];
      assert (text + more)[b + 2..] == text[b + 2..] + more;
      Resume(text[b + 2..], more);
    }
  }

  /** How the reader ended: the body was read to its end, or a read failed or was aborted. */
  datatype End = Done | Failed(aborted: bool)

  /** The reading loop of `openSse` over the decoded chunks. `errors` counts the calls of `onError`,
      `closes` those of `onClose`. */
  method ReadStream(chunks: seq<string>, end: End) returns (events: seq<SseEvent>, errors: nat, closes: nat)
    ensures end.Done? ==> events == Events(Concat(chunks)) && errors == 0
    ensures end.Failed? ==> events == CompleteEvents(Concat(chunks)) && errors == (if end.aborted then 0 else 1)
    ensures closes == 1
  {
    hide CompleteEvents, Remainder, FindBoundary, BoundaryAt, ParseBlock, Blank, Concat;
    events, errors, closes := [], 0, 0;
    var buffer := "";
    NothingRead(chunks);
    for i := 0 to |chunks|
      invariant events == CompleteEvents(Concat(chunks[..i])) && buffer == Remainder(Concat(chunks[..i]))
    {
      OneMoreChunk(chunks, i);
      ghost var delivered, pending := events, buffer + chunks[i];
      buffer := buffer + chunks[i];
      var boundary := FindBoundary(buffer, 0);
      while boundary != -1
        invariant boundary == FindBoundary(buffer, 0)
        invariant delivered + CompleteEvents(pending) == events + CompleteEvents(buffer)
        invariant Remainder(pending) == Remainder(buffer)
        decreases |buffer|
      {
        TakeBlock(buffer, boundary);
        var raw := buffer[..boundary];
        buffer := buffer[boundary + 2..];
        var parsed := ParseSseBlock(raw);
        if parsed.Some? {
          events := events + [parsed.value];
        }
        boundary := FindBoundary(buffer, 0);
      }
      NoBlock(buffer);
    }
    assert chunks[..|chunks|] == chunks;
    if end.Done? {
      if !Blank(buffer) {
        var parsed := ParseSseBlock(buffer);
        if parsed.Some? {
          events := events + [parsed.value];
        }
      }
    } else if !end.aborted {
      errors := errors + 1;
    }
    closes := closes + 1;
  }

  lemma NothingRead(chunks: seq<string>)
    ensures Concat(chunks[..0]) == "" && CompleteEvents("") == [] && Remainder("") == ""
  {
  }

  /** Reading one more chunk goes on from the pending text. */
  lemma OneMoreChunk(chunks: seq<string>, i: nat)
    requires i < |chunks|
    ensures
      var before, now := Concat(chunks[..i]), Concat(chunks[..i + 1]);
      && CompleteEvents(now) == CompleteEvents(before) + CompleteEvents(Remainder(before) + chunks[i])
      && Remainder(now) == Remainder(Remainder(before) + chunks[i])
  {
    assert chunks[..i + 1][..i] == chunks[..i];
    assert Concat(chunks[..i + 1]) == Concat(chunks[..i]) + chunks[i];
    hide CompleteEvents, Remainder, Concat;
    Resume(Concat(chunks[..i]), chunks[i]);
  }

  /** The events already delivered when chunk `i` has been read are a prefix of all of them. */
  lemma DeliveredIsPrefix(chunks: seq<string>, i: nat)
    requires i <= |chunks|
    ensures CompleteEvents(Concat(chunks[..i])) <= Events(Concat(chunks))
    decreases |chunks| - i
  {
    hide CompleteEvents, Remainder, Concat, Blank, ParseBlock;
    if i == |chunks| {
      assert chunks[..i] == chunks;
    } else {
      OneMoreChunk(chunks, i);
      DeliveredIsPrefix(chunks, i + 1);
      assert CompleteEvents(Concat(chunks[..i])) <= CompleteEvents(Concat(chunks[..i + 1]));
    }
  }

  /** The `trim` test before the flush is redundant: a blank remainder holds no event. */
  lemma {:induction false} BlankHasNoEvent(text: string)
    requires Blank(text)
    ensures ParseBlock(text) == None
  {
    var lines := Split(text, '\n');
    SplitParts(text);
    BlankLines(Block("message", []), lines);
  }

  lemma {:induction false} BlankLines(block: Block, lines: seq<string>)
    requires forall i :: 0 <= i < |lines| ==> ':' !in lines[i]
    ensures ParseLines(block, lines) == block
  {
    if lines != [] {
      BlankLines(block, lines[..|lines| - 1]);
      assert Colon(lines[|lines| - 1]) == -1;
    }
  }

  /** A character of a part is a character of the text. */
  lemma {:induction false} SplitParts(text: string)
    ensures forall i, j :: 0 <= i < |Split(text, '\n')| && 0 <= j < |Split(text, '\n')[i]| ==>
            Split(text, '\n')[i][j] in text
  {
    if text != "" {
      SplitParts(text[1..]);
      var rest, parts := Split(text[1..], '\n'), Split(text, '\n');
      forall i, j | 0 <= i < |parts| && 0 <= j < |parts[i]|
        ensures parts[i][j] in text
      {
        if text[0] == '\n' {
          assert parts[i] == rest[i - 1];
          assert rest[i - 1][j] in text[1..];
        } else if i > 0 {
          assert parts[i] == rest[i];
          assert rest[i][j] in text[1..];
        } else if j > 0 {
          assert rest[0][j - 1] in text[1..];
        }
      }
    }
  }

  // ---- printing and parsing back -------------------------------------------------------------

  function DataLines(parts: seq<string>): seq<string>
  {
    if parts == [] then [] else DataLines(parts[..|parts| - 1]) + ["data: " + parts[|parts| - 1]]
  }

  /** One `event:` line, one `data:` line per line of data. */
  function PrintLines(e: SseEvent): seq<string>
  {
    ["event: " + e.event] + DataLines(Split(e.data, '\n'))
  }

  function Print(e: SseEvent): string
  {
    Join(PrintLines(e), "\n") + DELIMITER
  }

  function PrintAll(events: seq<SseEvent>): string
  {
    if events == [] then "" else Print(events[0]) + PrintAll(events[1..])
  }

  predicate NamesFitOneLine(events: seq<SseEvent>)
  {
    forall i :: 0 <= i < |events| ==> '\n' !in events[i].event
  }

  predicate SolidLines(lines: seq<string>)
  {
    forall i :: 0 <= i < |lines| ==> lines[i] != "" && '\n' !in lines[i]
  }

  lemma {:induction false} SplitOne(part: string, rest: string)
    requires '\n' !in part
    ensures Split(part, '\n') == [part]
    ensures Split(part + "\n" + rest, '\n') == [part] + Split(rest, '\n')
  {
    var s := part + "\n" + rest;
    if part == "" {
      assert s[1..] == rest;
    } else {
      SplitOne(part[1..], rest);
      assert s[0] == part[0] && s[1..] == part[1..] + "\n" + rest;
      assert [part[0]] + part[1..] == part;
      assert ([part[1..]] + Split(rest, '\n'))[1..] == Split(rest, '\n');
    }
  }

  lemma {:induction false} SplitJoin(lines: seq<string>)
    requires lines != [] && SolidLines(lines)
    ensures Split(Join(lines, "\n"), '\n') == lines
  {
    hide Split;
    if |lines| == 1 {
      SplitOne(lines[0], "");
    } else {
      SplitJoin(lines[1..]);
      SplitOne(lines[0], Join(lines[1..], "\n"));
      assert Join(lines, "\n") == lines[0] + "\n" + Join(lines[1..], "\n");
    }
  }

  lemma {:induction false} JoinSplit(s: string)
    ensures Join(Split(s, '\n'), "\n") == s
  {
    if s != "" {
      JoinSplit(s[1..]);
      var rest := Split(s[1..], '\n');
      if s[0] == '\n' {
        assert ([""] + rest)[1..] == rest;
      } else if |rest| > 1 {
        assert ([[s[0]] + rest[0]] + rest[1..])[1..] == rest[1..];
      }
    }
  }

  /** Non-empty lines joined by single newlines hold no blank line and do not touch one. */
  lemma {:induction false} JoinedHasNoBoundary(lines: seq<string>)
    requires lines != [] && SolidLines(lines)
    ensures
      var j := Join(lines, "\n");
      j != "" && j[0] != '\n' && j[|j| - 1] != '\n' && (forall i: int :: !BoundaryAt(j, i))
  {
    if |lines| == 1 {
    } else {
      JoinedHasNoBoundary(lines[1..]);
      var first, tail, j := lines[0], Join(lines[1..], "\n"), Join(lines, "\n");
      forall i: int
        ensures !BoundaryAt(j, i)
      {
        if 0 <= i < |j| {
          if i < |first| {
            assert j[i] == first[i];
          } else if i == |first| {
            assert i + 1 < |j| ==> j[i + 1] == tail[0];
          } else {
            assert j[i] == tail[i - |first| - 1];
            assert BoundaryAt(j, i) ==> BoundaryAt(tail, i - |first| - 1);
          }
        }
      }
    }
  }

  lemma BoundaryAfterBlock(lines: seq<string>, rest: string)
    requires lines != [] && SolidLines(lines)
    ensures FindBoundary(Join(lines, "\n") + DELIMITER + rest, 0) == |Join(lines, "\n")|
  {
    hide FindBoundary, Join;
    JoinedHasNoBoundary(lines);
    var j := Join(lines, "\n");
    var text := j + DELIMITER + rest;
    assert BoundaryAt(text, |j|);
    forall i: int | 0 <= i < |j|
      ensures !BoundaryAt(text, i)
    {
      assert text[i] == j[i];
      if i + 1 < |j| {
        assert text[i + 1] == j[i + 1];
        assert !BoundaryAt(j, i);
      }
    }
  }

  lemma {:induction false} ColonAt(line: string, k: nat)
    requires k < |line| && line[k] == ':' && ':' !in line[..k]
    ensures Colon(line) == k
  {
    if k > 0 {
      assert line[0] in line[..k];
      assert line[..k][1..] == line[1..][..k - 1];
      ColonAt(line[1..], k - 1);
    }
  }

  lemma FieldLine(name: string, value: string, block: Block)
    requires name != "" && ':' !in name
    ensures
      var line := name + ": " + value;
      ParseLine(block, line) ==
        if name == "event" then block.(event := value)
        else if name == "data" then block.(dataLines := block.dataLines + [value])
        else block
  {
    var line := name + ": " + value;
    assert line[..|name|] == name;
    ColonAt(line, |name|);
    assert line[|name| + 1..] == " " + value;
    assert (" " + value)[1..] == value;
  }

  lemma LastLine(block: Block, lines: seq<string>, line: string)
    ensures ParseLines(block, lines + [line]) == ParseLine(ParseLines(block, lines), line)
  {
    assert (lines + [line])[..|lines|] == lines;
  }

  lemma {:induction false} ParseDataLines(event: string, parts: seq<string>)
    ensures ParseLines(Block("message", []), ["event: " + event] + DataLines(parts)) == Block(event, parts)
  {
    hide ParseLines, ParseLine;
    var start := Block("message", []);
    if parts == [] {
      FieldLine("event", event, start);
      assert "event" + ": " + event == "event: " + event;
      LastLine(start, [], "event: " + event);
      NoLines(start);
      assert ["event: " + event] + DataLines([]) == [] + ["event: " + event];
    } else {
      var shorter, last := parts[..|parts| - 1], parts[|parts| - 1];
      ParseDataLines(event, shorter);
      FieldLine("data", last, Block(event, shorter));
      assert "data" + ": " + last == "data: " + last && shorter + [last] == parts;
      LastLine(start, ["event: " + event] + DataLines(shorter), "data: " + last);
      assert ["event: " + event] + DataLines(parts) == ["event: " + event] + DataLines(shorter) + ["data: " + last];
    }
  }

  lemma NoLines(block: Block)
    ensures ParseLines(block, []) == block
  {
  }

  lemma {:induction false} DataLinesAreSolid(parts: seq<string>)
    requires forall i :: 0 <= i < |parts| ==> '\n' !in parts[i]
    ensures SolidLines(DataLines(parts))
  {
    if parts != [] {
      DataLinesAreSolid(parts[..|parts| - 1]);
    }
  }

  lemma ParsePrintedBlock(e: SseEvent)
    requires '\n' !in e.event
    ensures SolidLines(PrintLines(e)) && ParseBlock(Join(PrintLines(e), "\n")) == Some(e)
  {
    var parts := Split(e.data, '\n');
    DataLinesAreSolid(parts);
    assert SolidLines(PrintLines(e));
    SplitJoin(PrintLines(e));
    ParseDataLines(e.event, parts);
    JoinSplit(e.data);
  }

  lemma {:induction false} CompletePrinted(events: seq<SseEvent>)
    requires NamesFitOneLine(events)
    ensures CompleteEvents(PrintAll(events)) == events && Remainder(PrintAll(events)) == ""
  {
    if events == [] {
      NothingRead([]);
    } else {
      var e, rest, text := events[0], PrintAll(events[1..]), PrintAll(events);
      ParsePrintedBlock(e);
      BoundaryAfterBlock(PrintLines(e), rest);
      var block := Join(PrintLines(e), "\n");
      assert text == block + DELIMITER + rest;
      hide FindBoundary, ParseBlock, Join, PrintLines, PrintAll, CompleteEvents, Remainder;
      TakeBlock(text, |block|);
      assert text[..|block|] == block && text[|block| + 2..] == rest;
      CompletePrinted(events[1..]);
      assert events == [e] + events[1..];
    }
  }

  /** A parsed event name comes from one line. */
  lemma {:induction false} ParsedNameFits(block: Block, lines: seq<string>)
    requires '\n' !in block.event
    requires forall i :: 0 <= i < |lines| ==> '\n' !in lines[i]
    ensures '\n' !in ParseLines(block, lines).event
  {
    if lines != [] {
      ParsedNameFits(block, lines[..|lines| - 1]);
    }
  }

  lemma {:induction false} CompleteNamesFit(text: string)
    ensures NamesFitOneLine(CompleteEvents(text))
    decreases |text|
  {
    var b := FindBoundary(text, 0);
    hide FindBoundary;
    if b == -1 {
      NoBlock(text);
    } else {
      TakeBlock(text, b);
      ParsedNameFits(Block("message", []), Split(text[..b], '\n'));
      CompleteNamesFit(text[b + 2..]);
    }
  }

  lemma EventNamesFit(text: string)
    ensures NamesFitOneLine(Events(text))
  {
    CompleteNamesFit(text);
    ParsedNameFits(Block("message", []), Split(Remainder(text), '\n'));
    hide CompleteEvents, Remainder, ParseLines, Split, Blank;
    assert Events(text) ==
        CompleteEvents(text) + AsSeq(if Blank(Remainder(text)) then None else ParseBlock(Remainder(text)));
  }

  /** Printing a list of events and reading it back, however the printed text was cut into chunks, gives
      the same list if and only if no event name contains a newline. */
  lemma ParsePrinted(events: seq<SseEvent>, chunks: seq<string>)
    requires Concat(chunks) == PrintAll(events)
    ensures Events(Concat(chunks)) == events <==> NamesFitOneLine(events)
  {
    if NamesFitOneLine(events) {
      CompletePrinted(events);
    }
    EventNamesFit(Concat(chunks));
  }
}
