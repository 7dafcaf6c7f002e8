/** `CompanyEventLog` and `CompanyEventIndex`: day files of JSON lines are the truth, the table of events is
    an index that any of its writes may miss and that `rebuildFromDisk` restores. */
module EventIndex {
  import opened Options

  /** An event; an empty `id`, `at` or `kind` is a missing one. */
  datatype Event = Event(
    id: string,
    at: string,
    kind: string,
    role: Option<string>,
    taskPath: Option<string>,
    payload: string)

  /** A line of a day file: blank, torn or malformed, or the event it parses to. */
  datatype Line = Junk | Entry(event: Event)

  /** A day file; it is `open` while its last line lacks the newline. */
  datatype DayFile = DayFile(lines: seq<Line>, open: bool)

  type Rows = map<string, Event>

  /** The day files, by name. */
  type Files = map<string, DayFile>

  predicate Valid(e: Event)
  {
    e.id != "" && e.at != "" && e.kind != ""
  }

  // ---- the table ------------------------------------------------------------------------------

  /** INSERT OR IGNORE. */
  function Insert(rows: Rows, e: Event): Rows
  {
    if e.id in rows then rows else rows[e.id := e]
  }

  function ReplayLine(rows: Rows, line: Line): Rows
  {
    if line.Entry? && Valid(line.event) then Insert(rows, line.event) else rows
  }

  function Replay(rows: Rows, lines: seq<Line>): Rows
  {
    if lines == [] then rows else ReplayLine(Replay(rows, lines[..|lines| - 1]), lines[|lines| - 1])
  }

  /** The lines of the files, in the order the files are read. */
  function Lines(files: Files, names: seq<string>): seq<Line>
  {
    if names == [] then []
    else
      var last := names[|names| - 1];
      Lines(files, names[..|names| - 1]) + if last in files then files[last].lines else []
  }

  /** The event table: `rows` is None while the database is closed. */
  class CompanyEventIndex {
    var rows: Option<Rows>

    constructor ()
      ensures rows == None
    {
      rows := None;
    }

    method Open(stored: Rows)
      modifies this
      ensures rows == if old(rows).Some? then old(rows) else Some(stored)
    {
      if rows.None? {
        rows := Some(stored);
      }
    }

    /** False where the source throws. */
    method Append(e: Event) returns (ok: bool)
      modifies this
      ensures ok == (old(rows).Some? && e.id != "" && e.at != "" && e.kind != "")
      ensures rows == if ok then Some(Insert(old(rows).value, e)) else old(rows)
    {
      if rows.None? || e.id == "" || e.at == "" || e.kind == "" {
        return false;
      }
      if e.id !in rows.value {
        rows := Some(rows.value[e.id := e]);
      }
      return true;
    }

    method RebuildFromDisk(files: Files, names: seq<string>) returns (ok: bool)
      requires forall name :: name in names ==> name in files
      modifies this
      ensures ok == old(rows).Some?
      ensures rows == if ok then Some(Replay(old(rows).value, Lines(files, names))) else old(rows)
    {
      if rows.None? {
        return false;
      }
      ghost var start, done: seq<Line> := rows.value, [];
      hide Replay, Lines;
      NoLines(start, files, names);
      for i := 0 to |names|
        invariant done == Lines(files, names[..i])
        invariant rows == Some(Replay(start, done))
      {
        var content := files[names[i]].lines;
        ghost var before := done;
        NothingTaken(before, content);
        for j := 0 to |content|
          invariant done == before + content[..j]
          invariant rows == Some(Replay(start, done))
        {
          OneMoreTaken(before, content, j);
          ReplayOneMore(start, done, content[j]);
          done := done + [content[j]];
          if content[j].Junk? {
            continue;
          }
          var e := content[j].event;
          if e.id == "" || e.at == "" || e.kind == "" {
            continue;
          }
          var _ := Append(e);
        }
        assert content[..|content|] == content;
        LinesOneMore(files, names, i);
      }
      assert names[..|names|] == names;
      return true;
    }
  }

  /** The log: the line goes to its day file first, then to the index if there is one. */
  class CompanyEventLog {
    const index: CompanyEventIndex?
    var files: Files

    constructor (index: CompanyEventIndex?)
      ensures this.index == index && files == map[]
    {
      this.index, files := index, map[];
    }

    /** `indexDown`: the write to the index throws, and the error is swallowed. */
    method Append(e: Event, day: string, indexDown: bool)
      modifies this, index
      ensures files == Appended(old(files), day, Entry(e), true)
      ensures index != null ==>
                index.rows == if old(index.rows).Some? && Valid(e) && !indexDown
                              then Some(Insert(old(index.rows).value, e)) else old(index.rows)
    {
      files := Appended(files, day, Entry(e), true);
      if index != null && !indexDown {
        var _ := index.Append(e);
      }
    }
  }

  function FileOf(files: Files, day: string): DayFile
  {
    if day in files then files[day] else DayFile([], false)
  }

  /** The file ends in the middle of a line. */
  predicate OpenEnd(file: DayFile)
  {
    file.open && file.lines != []
  }

  /** `appendFile` of a line, `whole` if its newline is written too. On an open end the text runs together with
      what is there, and JSON after the beginning of a JSON object, or after a whole one, does not parse. */
  function Appended(files: Files, day: string, line: Line, whole: bool): Files
  {
    var file := FileOf(files, day);
    var lines := if OpenEnd(file) then file.lines[..|file.lines| - 1] + [Junk] else file.lines + [line];
    files[day := DayFile(lines, !whole)]
  }

  lemma NoLines(rows: Rows, files: Files, names: seq<string>)
    ensures Lines(files, names[..0]) == [] && Replay(rows, []) == rows
  {
  }

  lemma NothingTaken(before: seq<Line>, content: seq<Line>)
    ensures before + content[..0] == before
  {
  }

  lemma OneMoreTaken(before: seq<Line>, content: seq<Line>, j: nat)
    requires j < |content|
    ensures before + content[..j + 1] == before + content[..j] + [content[j]]
  {
  }

  lemma LinesOneMore(files: Files, names: seq<string>, i: nat)
    requires i < |names| && names[i] in files
    ensures Lines(files, names[..i + 1]) == Lines(files, names[..i]) + files[names[i]].lines
  {
    assert names[..i + 1][..i] == names[..i];
  }

  lemma ReplayOneMore(rows: Rows, lines: seq<Line>, line: Line)
    ensures Replay(rows, lines + [line]) == ReplayLine(Replay(rows, lines), line)
  {
    assert (lines + [line])[..|lines|] == lines;
  }

  // ---- what a replay comes to -------------------------------------------------------------------

  /** The event stands in `lines`, and is one the index takes. */
  predicate LoggedIn(lines: seq<Line>, e: Event)
  {
    Valid(e) && Entry(e) in lines
  }

  predicate Logged(files: Files, e: Event)
  {
    Valid(e) && exists name :: name in files && Entry(e) in files[name].lines
  }

  /** The rows are exactly the events of the log, each under its id. */
  ghost predicate Indexes(rows: Rows, files: Files)
  {
    && (forall id :: id in rows ==> Logged(files, rows[id]) && rows[id].id == id)
    && (forall e :: Logged(files, e) ==> e.id in rows && rows[e.id] == e)
  }

  ghost predicate Enumerates(names: seq<string>, files: Files)
  {
    forall name :: name in files <==> name in names
  }

  lemma {:induction false} ReplayKeepsRows(rows: Rows, lines: seq<Line>)
    ensures forall id :: id in rows ==> id in Replay(rows, lines) && Replay(rows, lines)[id] == rows[id]
  {
    if lines != [] {
      ReplayKeepsRows(rows, lines[..|lines| - 1]);
    }
  }

  lemma {:induction false} ReplayAddsLogged(rows: Rows, lines: seq<Line>)
    ensures forall id :: id in Replay(rows, lines) && id !in rows ==>
              LoggedIn(lines, Replay(rows, lines)[id]) && Replay(rows, lines)[id].id == id
    ensures forall e :: LoggedIn(lines, e) ==> e.id in Replay(rows, lines)
  {
    if lines != [] {
      ReplayAddsLogged(rows, lines[..|lines| - 1]);
      assert lines == lines[..|lines| - 1] + [lines[|lines| - 1]];
    }
  }

  lemma {:induction false} LinesOfFiles(files: Files, names: seq<string>, line: Line)
    ensures line in Lines(files, names) <==> exists name :: name in names && name in files && line in files[name].lines
  {
    if names != [] {
      LinesOfFiles(files, names[..|names| - 1], line);
      assert names == names[..|names| - 1] + [names[|names| - 1]];
    }
  }

  lemma LoggedInFiles(files: Files, names: seq<string>, e: Event)
    requires Enumerates(names, files)
    ensures LoggedIn(Lines(files, names), e) <==> Logged(files, e)
  {
    LinesOfFiles(files, names, Entry(e));
  }

  /** Two replays, from whatever rows, agree exactly if the first rows are among those a replay from an
      empty table gives. */
  lemma ReplayIsRebuildIff(rows: Rows, lines: seq<Line>)
    ensures
      var rebuilt := Replay(map[], lines);
      Replay(rows, lines) == rebuilt <==> forall id :: id in rows ==> id in rebuilt && rebuilt[id] == rows[id]
  {
    var rebuilt, replayed := Replay(map[], lines), Replay(rows, lines);
    ReplayKeepsRows(rows, lines);
    if forall id :: id in rows ==> id in rebuilt && rebuilt[id] == rows[id] {
      SameReplay(rows, lines);
    }
  }

  lemma {:induction false} SameReplay(rows: Rows, lines: seq<Line>)
    requires forall id :: id in rows ==> id in Replay(map[], lines) && Replay(map[], lines)[id] == rows[id]
    ensures Replay(rows, lines) == Replay(map[], lines)
  {
    ReplayAddsLogged(map[], lines);
    ReplayAddsLogged(rows, lines);
    ReplayKeepsRows(rows, lines);
    FirstWins(rows, lines);
  }

  /** A replay adds the first event of each new id. */
  lemma {:induction false} FirstWins(rows: Rows, lines: seq<Line>)
    ensures forall id :: id !in rows ==>
              (id in Replay(rows, lines) <==> id in Replay(map[], lines)) &&
              (id in Replay(rows, lines) ==> Replay(rows, lines)[id] == Replay(map[], lines)[id])
  {
    if lines != [] {
      FirstWins(rows, lines[..|lines| - 1]);
    }
  }

  // ---- runs -------------------------------------------------------------------------------------

  /** `used` (the ids given out) and `merged` (the events whose line ran together with another) are history. */
  datatype State = State(files: Files, rows: Rows, used: set<string>, merged: set<Event>)

  /** A tear is a write cut off before the end of the line or, if not `cut`, just before its newline; such a
      write never gets to the index. */
  datatype Step =
    | Append(event: Event, day: string, indexed: bool)
    | Tear(event: Event, day: string, cut: bool)
    | DropIndex
    | Rebuild(names: seq<string>)

  const Nothing := State(map[], map[], {}, {})

  /** The id of an appended event is a fresh one; a rebuild reads every file. */
  ghost predicate Allowed(s: State, step: Step)
  {
    match step
    case Append(e, _, _) => e.id !in s.used
    case Tear(e, _, _) => e.id !in s.used
    case Rebuild(names) => Enumerates(names, s.files)
    case DropIndex => true
  }

  /** The event of a line, if the index takes it. */
  function EventsOf(line: Line): set<Event>
  {
    if line.Entry? && Valid(line.event) then {line.event} else {}
  }

  /** What is lost when `line` is appended: on an open end, both lines. */
  function Merged(file: DayFile, line: Line): set<Event>
  {
    if OpenEnd(file) then EventsOf(file.lines[|file.lines| - 1]) + EventsOf(line) else {}
  }

  function Write(s: State, e: Event, day: string, line: Line, whole: bool): State
  {
    s.(files := Appended(s.files, day, line, whole), used := s.used + {e.id},
       merged := s.merged + Merged(FileOf(s.files, day), line))
  }

  function Next(s: State, step: Step): State
  {
    match step
    case Append(e, day, indexed) =>
      Write(s, e, day, Entry(e), true).(rows := if indexed && Valid(e) then Insert(s.rows, e) else s.rows)
    case Tear(e, day, cut) => Write(s, e, day, if cut then Junk else Entry(e), false)
    case DropIndex => s.(rows := map[])
    case Rebuild(names) => s.(rows := Replay(s.rows, Lines(s.files, names)))
  }

  function Run(s: State, steps: seq<Step>): State
    decreases |steps|
  {
    if steps == [] then s else Next(Run(s, steps[..|steps| - 1]), steps[|steps| - 1])
  }

  ghost predicate AllAllowed(s: State, steps: seq<Step>)
  {
    forall n :: 0 <= n < |steps| ==> Allowed(Run(s, steps[..n]), steps[n])
  }

  /** Line `i` of a day is this event. */
  predicate Place(files: Files, day: string, i: int, e: Event)
  {
    day in files && 0 <= i < |files[day].lines| && files[day].lines[i] == Entry(e) && Valid(e)
  }

  /** Every id stands on one line at most, and all are used ones. */
  ghost predicate PlacesOk(s: State)
  {
    && (forall day, i, e, day', i', e' :: Place(s.files, day, i, e) && Place(s.files, day', i', e') && e.id == e'.id ==>
          day' == day && i' == i)
    && (forall day, i, e :: Place(s.files, day, i, e) ==> e.id in s.used)
  }

  /** Merged events are in no line any more; a row is an event of the log or a merged one. */
  ghost predicate RowsOk(s: State)
  {
    && (forall e :: e in s.merged ==> Valid(e) && e.id in s.used && NoPlace(s.files, e.id))
    && (forall e, e' :: e in s.merged && e' in s.merged && e.id == e'.id ==> e == e')
    && (forall id :: id in s.rows ==> s.rows[id].id == id && (Logged(s.files, s.rows[id]) || s.rows[id] in s.merged))
  }

  ghost predicate NoPlace(files: Files, id: string)
  {
    forall day, i, e :: Place(files, day, i, e) ==> e.id != id
  }

  lemma LoggedIsPlaced(files: Files, e: Event)
    ensures Logged(files, e) <==> exists day, i :: Place(files, day, i, e)
  {
    if Logged(files, e) {
      var day :| day in files && Entry(e) in files[day].lines;
      var i :| 0 <= i < |files[day].lines| && files[day].lines[i] == Entry(e);
      assert Place(files, day, i, e);
    }
  }

  /** Where the lines of the files are after a write. */
  lemma PlacesAfterWrite(s: State, e: Event, day: string, line: Line, whole: bool, day': string, i: int, e': Event)
    ensures
      var s' := Write(s, e, day, line, whole);
      var file := FileOf(s.files, day);
      Place(s'.files, day', i, e') <==>
        if day' != day then Place(s.files, day', i, e')
        else if OpenEnd(file) then Place(s.files, day, i, e') && i < |file.lines| - 1
        else Place(s.files, day, i, e') || (i == |file.lines| && line == Entry(e') && Valid(e'))
  {
  }

  lemma WriteKeepsPlaces(s: State, e: Event, day: string, line: Line, whole: bool)
    requires PlacesOk(s) && e.id !in s.used && (line == Junk || line == Entry(e))
    ensures PlacesOk(Write(s, e, day, line, whole))
  {
    var s' := Write(s, e, day, line, whole);
    forall d, i, e'
      ensures Place(s'.files, d, i, e') ==>
                Place(s.files, d, i, e') || (d == day && i == |FileOf(s.files, day).lines| && e' == e)
    {
      PlacesAfterWrite(s, e, day, line, whole, d, i, e');
    }
    assert s'.used == s.used + {e.id};
    hide Place, Write;
  }

  lemma MergedHasNoPlace(s: State, e: Event, day: string, line: Line, whole: bool, gone: Event)
    requires PlacesOk(s) && e.id !in s.used && (line == Junk || line == Entry(e))
    requires gone in Merged(FileOf(s.files, day), line)
    ensures Valid(gone) && gone.id in s.used + {e.id} && NoPlace(Write(s, e, day, line, whole).files, gone.id)
    ensures gone.id in s.used ==> Logged(s.files, gone)
    ensures gone.id !in s.used ==> gone == e
  {
    var s', file := Write(s, e, day, line, whole), FileOf(s.files, day);
    var last := |file.lines| - 1;
    if line != Entry(gone) {
      assert Place(s.files, day, last, gone);
    }
    forall d, i, e' | Place(s'.files, d, i, e')
      ensures e'.id != gone.id
    {
      PlacesAfterWrite(s, e, day, line, whole, d, i, e');
      assert Place(s.files, d, i, e');
    }
  }

  lemma KeptPlaces(s: State, e: Event, day: string, line: Line, whole: bool, e': Event)
    requires Logged(s.files, e')
    ensures Logged(Write(s, e, day, line, whole).files, e') || e' in Merged(FileOf(s.files, day), line)
  {
    LoggedIsPlaced(s.files, e');
    var d, i :| Place(s.files, d, i, e');
    PlacesAfterWrite(s, e, day, line, whole, d, i, e');
    LoggedIsPlaced(Write(s, e, day, line, whole).files, e');
  }

  lemma WriteKeepsRows(s: State, e: Event, day: string, line: Line, whole: bool)
    requires PlacesOk(s) && RowsOk(s) && e.id !in s.used && (line == Junk || line == Entry(e))
    ensures RowsOk(Write(s, e, day, line, whole))
  {
    var s', lost := Write(s, e, day, line, whole), Merged(FileOf(s.files, day), line);
    assert s'.merged == s.merged + lost && s'.rows == s.rows && s'.used == s.used + {e.id};
    forall gone | gone in lost
      ensures Valid(gone) && gone.id in s'.used && NoPlace(s'.files, gone.id)
      ensures gone.id in s.used ==> Logged(s.files, gone)
      ensures gone.id !in s.used ==> gone == e
    {
      MergedHasNoPlace(s, e, day, line, whole, gone);
    }
    forall gone | gone in s.merged
      ensures NoPlace(s'.files, gone.id)
    {
      MergedStaysGone(s, e, day, line, whole, gone);
    }
    forall id | id in s.rows && Logged(s.files, s.rows[id])
      ensures Logged(s'.files, s.rows[id]) || s.rows[id] in lost
    {
      KeptPlaces(s, e, day, line, whole, s.rows[id]);
    }
    forall a, b | a in s'.merged && b in s'.merged && a.id == b.id
      ensures a == b
    {
      SameMerged(s, lost, e, a, b);
    }
    hide Logged, NoPlace, Write, Merged;
  }

  lemma MergedStaysGone(s: State, e: Event, day: string, line: Line, whole: bool, gone: Event)
    requires NoPlace(s.files, gone.id) && gone.id in s.used && e.id !in s.used && (line == Junk || line == Entry(e))
    ensures NoPlace(Write(s, e, day, line, whole).files, gone.id)
  {
    forall d, i, e' | Place(Write(s, e, day, line, whole).files, d, i, e')
      ensures e'.id != gone.id
    {
      PlacesAfterWrite(s, e, day, line, whole, d, i, e');
    }
  }

  lemma SameMerged(s: State, lost: set<Event>, e: Event, a: Event, b: Event)
    requires PlacesOk(s) && RowsOk(s) && a in s.merged + lost && b in s.merged + lost && a.id == b.id
    requires forall gone :: gone in lost && gone.id in s.used ==> Logged(s.files, gone)
    requires forall gone :: gone in lost && gone.id !in s.used ==> gone == e
    ensures a == b
  {
    LoggedIsPlaced(s.files, a);
    LoggedIsPlaced(s.files, b);
  }

  /** An id has one event, in the log or among the merged. */
  lemma SameLogged(s: State, a: Event, b: Event)
    requires PlacesOk(s) && Logged(s.files, a) && Logged(s.files, b) && a.id == b.id
    ensures a == b
  {
    LoggedIsPlaced(s.files, a);
    LoggedIsPlaced(s.files, b);
  }

  lemma IndexedKeepsRows(s: State, e: Event, day: string)
    requires PlacesOk(s) && RowsOk(s) && e.id !in s.used && Valid(e)
    ensures
      var s' := Write(s, e, day, Entry(e), true);
      RowsOk(s'.(rows := Insert(s.rows, e)))
  {
    var s', file := Write(s, e, day, Entry(e), true), FileOf(s.files, day);
    WriteKeepsRows(s, e, day, Entry(e), true);
    PlacesAfterWrite(s, e, day, Entry(e), true, day, |file.lines|, e);
    LoggedIsPlaced(s'.files, e);
    hide Logged, NoPlace, Place;
    assert Logged(s'.files, e) || e in s'.merged;
  }

  lemma NextKeepsInv(s: State, step: Step)
    requires PlacesOk(s) && RowsOk(s) && Allowed(s, step)
    ensures PlacesOk(Next(s, step)) && RowsOk(Next(s, step))
  {
    match step
    case Append(e, day, indexed) =>
      WriteKeepsPlaces(s, e, day, Entry(e), true);
      WriteKeepsRows(s, e, day, Entry(e), true);
      if Valid(e) {
        IndexedKeepsRows(s, e, day);
      }
      hide RowsOk, Place, Appended, Merged;
    case Tear(e, day, cut) =>
      WriteKeepsPlaces(s, e, day, if cut then Junk else Entry(e), false);
      WriteKeepsRows(s, e, day, if cut then Junk else Entry(e), false);
    case DropIndex =>
    case Rebuild(names) => RebuildKeepsRows(s, names);
  }

  lemma RebuildKeepsRows(s: State, names: seq<string>)
    requires RowsOk(s) && Enumerates(names, s.files)
    ensures RowsOk(s.(rows := Replay(s.rows, Lines(s.files, names))))
  {
    var lines := Lines(s.files, names);
    hide Logged, LoggedIn, NoPlace, Lines, Replay;
    ReplayKeepsRows(s.rows, lines);
    ReplayAddsLogged(s.rows, lines);
    forall e
      ensures LoggedIn(lines, e) <==> Logged(s.files, e)
    {
      LoggedInFiles(s.files, names, e);
    }
    hide Enumerates;
  }

  /** Every run keeps: an event of the index is one of the log, or its line ran together with another. */
  lemma {:induction false} RunKeepsInv(steps: seq<Step>)
    requires AllAllowed(Nothing, steps)
    ensures PlacesOk(Run(Nothing, steps)) && RowsOk(Run(Nothing, steps))
    decreases |steps|
  {
    if steps != [] {
      var shorter := steps[..|steps| - 1];
      assert AllAllowed(Nothing, shorter) by {
        assert forall n :: 0 <= n < |shorter| ==> shorter[..n] == steps[..n] && shorter[n] == steps[n];
      }
      RunKeepsInv(shorter);
      assert Allowed(Run(Nothing, shorter), steps[|steps| - 1]);
      hide AllAllowed, PlacesOk, RowsOk, Next, Allowed;
      NextKeepsInv(Run(Nothing, shorter), steps[|steps| - 1]);
    }
  }

  // ---- what a rebuild comes to --------------------------------------------------------------------

  /** From an empty table, in whatever order the files are read, a rebuild is exactly the log. */
  lemma RebuildFromEmpty(s: State, names: seq<string>)
    requires PlacesOk(s) && Enumerates(names, s.files)
    ensures Indexes(Replay(map[], Lines(s.files, names)), s.files)
  {
    ReplayAddsLogged(map[], Lines(s.files, names));
    var rows := Replay(map[], Lines(s.files, names));
    forall e
      ensures LoggedIn(Lines(s.files, names), e) <==> Logged(s.files, e)
    {
      LoggedInFiles(s.files, names, e);
    }
    forall e | Logged(s.files, e)
      ensures e.id in rows && rows[e.id] == e
    {
      SameLogged(s, rows[e.id], e);
    }
    hide Logged, LoggedIn;
  }

  lemma IndexIsUnique(rows: Rows, rows': Rows, files: Files)
    requires Indexes(rows, files) && Indexes(rows', files)
    ensures rows == rows'
  {
    hide Logged;
    assert forall id :: id in rows ==> id in rows' && rows'[id] == rows[id];
    assert forall id :: id in rows' ==> id in rows;
  }

  /** The rows that no line of the log holds are the merged ones. */
  lemma MergedRows(s: State)
    requires PlacesOk(s) && RowsOk(s)
    ensures forall id :: id in s.rows ==> (s.rows[id] in s.merged <==> !Logged(s.files, s.rows[id]))
  {
    forall id | id in s.rows && s.rows[id] in s.merged
      ensures !Logged(s.files, s.rows[id])
    {
      LoggedIsPlaced(s.files, s.rows[id]);
    }
    hide Logged;
  }

  /** What any rebuild is: the log, and the rows of merged events that were there before. */
  lemma RebuiltRows(s: State, names: seq<string>)
    requires PlacesOk(s) && RowsOk(s) && Enumerates(names, s.files)
    ensures
      var rows := Replay(s.rows, Lines(s.files, names));
      && (forall id :: id in s.rows ==> id in rows && rows[id] == s.rows[id])
      && (forall e :: Logged(s.files, e) ==> e.id in rows && rows[e.id] == e)
      && (forall id :: id in rows && id !in s.rows ==> Logged(s.files, rows[id]) && rows[id].id == id)
  {
    ReplayKeepsRows(s.rows, Lines(s.files, names));
    ReplayAddsLogged(s.rows, Lines(s.files, names));
    var rows := Replay(s.rows, Lines(s.files, names));
    forall e
      ensures LoggedIn(Lines(s.files, names), e) <==> Logged(s.files, e)
    {
      LoggedInFiles(s.files, names, e);
    }
    forall e | Logged(s.files, e)
      ensures e.id in rows && rows[e.id] == e
    {
      if rows[e.id] in s.merged {
        LoggedIsPlaced(s.files, e);
      } else {
        SameLogged(s, rows[e.id], e);
      }
    }
    hide Logged, LoggedIn;
  }

  /** After any run of appends, of which the index may have missed any, of writes cut off anywhere, dropped
      databases and earlier rebuilds: a rebuild brings in the whole log and a second one changes nothing. From
      an empty table it is exactly the log, in whatever order the files are read; from the table there is it
      is the same if and only if no row in it is of an event whose line ran together with another. */
  lemma RebuildRestoresIff(steps: seq<Step>, names: seq<string>, names': seq<string>)
    requires AllAllowed(Nothing, steps)
    requires Enumerates(names, Run(Nothing, steps).files) && Enumerates(names', Run(Nothing, steps).files)
    ensures
      var s := Run(Nothing, steps);
      var rebuilt, fromEmpty := Next(s, Rebuild(names)), Next(s.(rows := map[]), Rebuild(names'));
      && Indexes(fromEmpty.rows, s.files)
      && (forall e :: Logged(s.files, e) ==> e.id in rebuilt.rows && rebuilt.rows[e.id] == e)
      && Next(rebuilt, Rebuild(names')) == rebuilt
      && (rebuilt.rows == fromEmpty.rows <==> forall id :: id in s.rows ==> s.rows[id] !in s.merged)
  {
    var s := Run(Nothing, steps);
    RunKeepsInv(steps);
    hide Run, AllAllowed;
    RebuildFromEmpty(s, names');
    RebuiltRows(s, names);
    var rebuilt := Next(s, Rebuild(names));
    NextKeepsInv(s, Rebuild(names));
    RebuiltRows(rebuilt, names');
    SecondRebuild(s, rebuilt, names');
    MergedRows(s);
    hide PlacesOk, Logged, Replay, Lines;
    SameIffLogged(s.rows, rebuilt.rows, Next(s.(rows := map[]), Rebuild(names')).rows, s.files);
  }

  lemma SecondRebuild(s: State, rebuilt: State, names: seq<string>)
    requires rebuilt.files == s.files
    requires forall e :: Logged(s.files, e) ==> e.id in rebuilt.rows && rebuilt.rows[e.id] == e
    requires
      var rows := Replay(rebuilt.rows, Lines(rebuilt.files, names));
      && (forall id :: id in rebuilt.rows ==> id in rows && rows[id] == rebuilt.rows[id])
      && (forall id :: id in rows && id !in rebuilt.rows ==> Logged(rebuilt.files, rows[id]) && rows[id].id == id)
    ensures Next(rebuilt, Rebuild(names)) == rebuilt
  {
    hide Logged, Replay, Lines;
    assert Replay(rebuilt.rows, Lines(rebuilt.files, names)) == rebuilt.rows;
  }

  lemma SameIffLogged(before: Rows, rebuilt: Rows, fromEmpty: Rows, files: Files)
    requires Indexes(fromEmpty, files)
    requires forall id :: id in before ==> before[id].id == id && id in rebuilt && rebuilt[id] == before[id]
    requires forall e :: Logged(files, e) ==> e.id in rebuilt && rebuilt[e.id] == e
    requires forall id :: id in rebuilt && id !in before ==> Logged(files, rebuilt[id]) && rebuilt[id].id == id
    ensures rebuilt == fromEmpty <==> forall id :: id in before ==> Logged(files, before[id])
  {
    hide Logged;
    if forall id :: id in before ==> Logged(files, before[id]) {
      assert Indexes(rebuilt, files);
      IndexIsUnique(rebuilt, fromEmpty, files);
    }
  }

  predicate NothingTorn(steps: seq<Step>)
  {
    forall n :: 0 <= n < |steps| ==> !steps[n].Tear?
  }

  lemma {:induction false} NothingMerges(steps: seq<Step>)
    requires NothingTorn(steps)
    ensures Run(Nothing, steps).merged == {}
    ensures forall day :: day in Run(Nothing, steps).files ==> !Run(Nothing, steps).files[day].open
    decreases |steps|
  {
    if steps != [] {
      NothingMerges(steps[..|steps| - 1]);
      hide Replay, Lines, Insert;
    }
  }

  /** So with no write cut off, every rebuild is exactly the log. */
  lemma RebuildRestoresIndex(steps: seq<Step>, names: seq<string>)
    requires AllAllowed(Nothing, steps) && NothingTorn(steps) && Enumerates(names, Run(Nothing, steps).files)
    ensures
      var s := Run(Nothing, steps);
      Indexes(Next(s, Rebuild(names)).rows, s.files)
  {
    NothingMerges(steps);
    hide Run, Next, Indexes, AllAllowed;
    RebuildRestoresIff(steps, names, names);
  }

  // ---- where a rebuild does not restore -----------------------------------------------------------

  /** An append behind a broken line: the event is indexed, no line holds it, and a rebuild keeps the row that
      one from an empty table lacks. */
  lemma TornEndKeepsRow(first: Event, second: Event)
    requires Valid(second) && first.id != second.id
    ensures
      var steps := [Tear(first, "d", true), Append(second, "d", true)];
      var s := Run(Nothing, steps);
      && AllAllowed(Nothing, steps)
      && s.files == map["d" := DayFile([Junk], false)]
      && Next(s, Rebuild(["d"])).rows == map[second.id := second]
      && Next(s.(rows := map[]), Rebuild(["d"])).rows == map[]
  {
    var steps := [Tear(first, "d", true), Append(second, "d", true)];
    TwoSteps(steps);
    TornFirst(first);
    AppendedSecond(first.id, second);
    assert Lines(map["d" := DayFile([Junk], false)], ["d"]) == [Junk] by {
      assert ["d"][..0] == [];
    }
    JunkAddsNothing(map[second.id := second]);
    JunkAddsNothing(map[]);
    hide Run, Write, Insert, Replay, Lines, Valid;
  }

  /** One day file with one unreadable line. */
  function JunkFile(open: bool): Files
  {
    map["d" := DayFile([Junk], open)]
  }

  lemma TornFirst(first: Event)
    ensures Next(Nothing, Tear(first, "d", true)) == State(JunkFile(true), map[], {first.id}, {})
  {
    assert Merged(DayFile([], false), Junk) == {};
    assert [] + [Junk] == [Junk];
    assert Appended(map[], "d", Junk, false) == JunkFile(true);
  }

  lemma AppendedSecond(id: string, second: Event)
    requires Valid(second)
    ensures
      var s := Next(State(JunkFile(true), map[], {id}, {}), Append(second, "d", true));
      s.files == JunkFile(false) && s.rows == map[second.id := second]
  {
    assert [Junk][..0] + [Junk] == [Junk];
    assert Appended(JunkFile(true), "d", Entry(second), true) == JunkFile(false);
  }

  lemma JunkAddsNothing(rows: Rows)
    ensures Replay(rows, [Junk]) == rows
  {
    assert [Junk][..0] == [];
    assert Replay(rows, []) == rows;
  }

  lemma TwoSteps(steps: seq<Step>)
    requires |steps| == 2
    ensures steps[..0] == [] && steps[..1] == [steps[0]]
    ensures Run(Nothing, []) == Nothing && Run(Nothing, [steps[0]]) == Next(Nothing, steps[0])
    ensures Run(Nothing, steps) == Next(Next(Nothing, steps[0]), steps[1])
  {
    assert [steps[0]][..0] == [];
    assert Run(Nothing, [steps[0]]) == Next(Nothing, steps[0]);
  }

  /** With an id used twice the index can be stuck with the wrong event: here the write of the first one is
      lost, and no rebuild brings it in. */
  lemma RepeatedIdSticks()
    ensures
      var first, second := Event("x", "1", "a", None, None, ""), Event("x", "2", "b", None, None, "");
      var s := Run(Nothing, [Append(first, "d", false), Append(second, "d", true)]);
      && Next(s, Rebuild(["d"])).rows == map["x" := second]
      && Next(s.(rows := map[]), Rebuild(["d"])).rows == map["x" := first]
  {
    var first, second := Event("x", "1", "a", None, None, ""), Event("x", "2", "b", None, None, "");
    LostAndKept(first, second);
    hide Run;
    assert Lines(map["d" := DayFile([Entry(first), Entry(second)], false)], ["d"]) == [Entry(first), Entry(second)] by {
      assert ["d"][..0] == [];
    }
    ReplayOfTwo(map["x" := second], first, second);
    ReplayOfTwo(map[], first, second);
  }

  lemma ReplayOfTwo(rows: Rows, first: Event, second: Event)
    ensures Replay(rows, [Entry(first), Entry(second)]) == ReplayLine(ReplayLine(rows, Entry(first)), Entry(second))
  {
    var lines := [Entry(first), Entry(second)];
    hide ReplayLine;
    assert lines[..1] == [Entry(first)] && [Entry(first)][..0] == [];
    assert Replay(rows, []) == rows;
    assert Replay(rows, [Entry(first)]) == ReplayLine(rows, Entry(first));
  }

  lemma LostAndKept(first: Event, second: Event)
    requires Valid(second)
    ensures
      var s := Run(Nothing, [Append(first, "d", false), Append(second, "d", true)]);
      && s.files == map["d" := DayFile([Entry(first), Entry(second)], false)]
      && s.rows == map[second.id := second]
  {
    var steps := [Append(first, "d", false), Append(second, "d", true)];
    TwoSteps(steps);
    hide Run;
    assert [Entry(first)] + [Entry(second)] == [Entry(first), Entry(second)];
    assert [] + [Entry(first)] == [Entry(first)];
    assert Next(Nothing, steps[0]).files == map["d" := DayFile([Entry(first)], false)];
  }
}
