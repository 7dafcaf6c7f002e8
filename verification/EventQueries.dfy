/** The queries of `CompanyEventIndex`: what SQL selects from the table, against a pass over the log. */
module EventQueries {
  import opened Options
  import opened EventIndex

  // ---- order of texts ---------------------------------------------------------------------------

  predicate Less(a: string, b: string)
  {
    b != "" && (a == "" || a[0] < b[0] || (a[0] == b[0] && Less(a[1..], b[1..])))
  }

  lemma {:induction false} LessIsTotal(a: string, b: string)
    ensures Less(a, b) || Less(b, a) || a == b
    ensures !(Less(a, b) && Less(b, a)) && !Less(a, a)
  {
    if a != "" && b != "" {
      LessIsTotal(a[1..], b[1..]);
      assert a == [a[0]] + a[1..] && b == [b[0]] + b[1..];
    }
    LessIsIrreflexive(a);
  }

  lemma {:induction false} LessIsIrreflexive(a: string)
    ensures !Less(a, a)
  {
    if a != "" {
      LessIsIrreflexive(a[1..]);
    }
  }

  lemma {:induction false} LessIsTransitive(a: string, b: string, c: string)
    requires Less(a, b) && Less(b, c)
    ensures Less(a, c)
  {
    if a != "" && a[0] == b[0] && b[0] == c[0] {
      LessIsTransitive(a[1..], b[1..], c[1..]);
    }
  }

  /** ORDER BY at DESC, id DESC. */
  predicate Newer(x: Event, y: Event)
  {
    Less(y.at, x.at) || (y.at == x.at && Less(y.id, x.id))
  }

  lemma NewerIsTotal(x: Event, y: Event)
    ensures Newer(x, y) || Newer(y, x) || x.id == y.id
    ensures !(Newer(x, y) && Newer(y, x))
  {
    LessIsTotal(x.at, y.at);
    LessIsTotal(x.id, y.id);
  }

  lemma NewerIsTransitive(x: Event, y: Event, z: Event)
    requires Newer(x, y) && Newer(y, z)
    ensures Newer(x, z)
  {
    if Less(z.at, y.at) && Less(y.at, x.at) {
      LessIsTransitive(z.at, y.at, x.at);
    } else if z.at == y.at && y.at == x.at {
      LessIsTransitive(z.id, y.id, x.id);
    }
  }

  // ---- recent -----------------------------------------------------------------------------------

  /** The options of `recent`; an empty text is no filter. */
  datatype Query = Query(limit: nat, since: string, role: string)

  predicate Wanted(q: Query, e: Event)
  {
    && (q.since != "" ==> Less(q.since, e.at))
    && (q.role != "" ==> e.role == Some(q.role))
  }

  /** WHERE ... */
  function Selected(rows: Rows, q: Query): set<Event>
  {
    set id | id in rows && Wanted(q, rows[id]) :: rows[id]
  }

  ghost predicate DistinctIds(events: set<Event>)
  {
    forall e, e' :: e in events && e' in events && e.id == e'.id ==> e == e'
  }

  /** The rows SQL may answer with: the newest of the selected ones, newest first, at most `limit`. */
  ghost predicate Answers(r: seq<Event>, selected: set<Event>, limit: nat)
  {
    && (forall i :: 0 <= i < |r| ==> r[i] in selected)
    && (forall i, j :: 0 <= i < j < |r| ==> Newer(r[i], r[j]))
    && |r| <= limit
    && (forall e :: e in selected && e !in r ==> |r| == limit && forall i :: 0 <= i < |r| ==> Newer(r[i], e))
  }

  /** Keep the newest `limit` events, newest first, while reading the log. */
  function Keep(kept: seq<Event>, e: Event, limit: nat): seq<Event>
  {
    if limit == 0 then []
    else if kept == [] then [e]
    else if Newer(e, kept[0]) then [e] + (if |kept| < limit then kept else kept[..limit - 1])
    else [kept[0]] + Keep(kept[1..], e, limit - 1)
  }

  function RecentOfLog(lines: seq<Line>, q: Query): seq<Event>
  {
    if lines == [] then []
    else
      var kept, line := RecentOfLog(lines[..|lines| - 1], q), lines[|lines| - 1];
      if line.Entry? && Valid(line.event) && Wanted(q, line.event) then Keep(kept, line.event, q.limit) else kept
  }

  lemma {:induction false} KeepAnswers(kept: seq<Event>, selected: set<Event>, e: Event, limit: nat)
    requires Answers(kept, selected, limit) && e !in selected && DistinctIds(selected + {e})
    ensures Answers(Keep(kept, e, limit), selected + {e}, limit)
    decreases limit, 1
  {
    if limit > 0 && kept != [] {
      NewerIsTotal(e, kept[0]);
      assert kept[0] in selected && kept[0].id != e.id;
      if Newer(e, kept[0]) {
        KeepFirst(kept, selected, e, limit);
      } else {
        KeepLater(kept, selected, e, limit);
      }
    }
  }

  lemma KeepFirst(kept: seq<Event>, selected: set<Event>, e: Event, limit: nat)
    requires Answers(kept, selected, limit) && limit > 0 && kept != [] && Newer(e, kept[0])
    ensures Answers([e] + (if |kept| < limit then kept else kept[..limit - 1]), selected + {e}, limit)
  {
    var r := [e] + if |kept| < limit then kept else kept[..limit - 1];
    forall j | 0 <= j < |kept|
      ensures Newer(e, kept[j])
    {
      if j > 0 {
        NewerIsTransitive(e, kept[0], kept[j]);
      }
    }
    forall x | x in selected && x !in kept
      ensures Newer(e, x)
    {
      NewerIsTransitive(e, kept[0], x);
    }
    hide Newer;
    forall x | x in selected + {e} && x !in r
      ensures |r| == limit && forall i :: 0 <= i < |r| ==> Newer(r[i], x)
    {
      assert r[0] == e;
      assert x in kept ==> |kept| == limit && x == kept[limit - 1];
    }
  }

  lemma KeepLater(kept: seq<Event>, selected: set<Event>, e: Event, limit: nat)
    requires Answers(kept, selected, limit) && e !in selected && DistinctIds(selected + {e})
    requires limit > 0 && kept != [] && Newer(kept[0], e)
    ensures Answers([kept[0]] + Keep(kept[1..], e, limit - 1), selected + {e}, limit)
    decreases limit, 0
  {
    var first, others := kept[0], selected - {kept[0]};
    assert Answers(kept[1..], others, limit - 1) by { TailAnswers(kept, selected, limit); }
    KeepAnswers(kept[1..], others, e, limit - 1);
    var later := Keep(kept[1..], e, limit - 1);
    forall x | x in others + {e}
      ensures Newer(first, x)
    {
      assert x in kept || x !in kept;
    }
    hide Newer, Keep, DistinctIds;
    assert selected + {e} == {first} + (others + {e});
    ConsAnswers(first, later, others + {e}, limit);
  }

  lemma TailAnswers(kept: seq<Event>, selected: set<Event>, limit: nat)
    requires Answers(kept, selected, limit) && kept != []
    ensures Answers(kept[1..], selected - {kept[0]}, limit - 1)
  {
    forall i | 0 <= i < |kept[1..]|
      ensures kept[1..][i] in selected - {kept[0]}
    {
      NewerIsTotal(kept[0], kept[i + 1]);
    }
    hide Newer;
  }

  lemma ConsAnswers(first: Event, later: seq<Event>, others: set<Event>, limit: nat)
    requires limit > 0 && Answers(later, others, limit - 1) && forall x :: x in others ==> Newer(first, x)
    ensures Answers([first] + later, {first} + others, limit)
  {
    hide Newer;
  }

  lemma {:induction false} AnswersAreUnique(r: seq<Event>, r': seq<Event>, selected: set<Event>, limit: nat)
    requires DistinctIds(selected) && Answers(r, selected, limit) && Answers(r', selected, limit)
    ensures r == r'
    decreases |r|
  {
    EmptyAnswer(r, r', selected, limit);
    EmptyAnswer(r', r, selected, limit);
    if r != [] {
      SameHead(r, r', selected, limit);
      TailAnswers(r, selected, limit);
      TailAnswers(r', selected, limit);
      hide Answers;
      AnswersAreUnique(r[1..], r'[1..], selected - {r[0]}, limit - 1);
    }
  }

  lemma EmptyAnswer(r: seq<Event>, r': seq<Event>, selected: set<Event>, limit: nat)
    requires Answers(r, selected, limit) && Answers(r', selected, limit)
    ensures r == [] ==> r' == []
  {
    assert |r'| > 0 ==> r'[0] in selected;
    assert r == [] && limit > 0 ==> forall e :: e in selected ==> e in r;
    hide Newer;
  }

  lemma SameHead(r: seq<Event>, r': seq<Event>, selected: set<Event>, limit: nat)
    requires DistinctIds(selected) && Answers(r, selected, limit) && Answers(r', selected, limit)
    requires r != [] && r' != []
    ensures r[0] == r'[0]
  {
    hide Newer;
    HeadIsNewest(r, selected, limit);
    HeadIsNewest(r', selected, limit);
    NewerIsTotal(r[0], r'[0]);
  }

  lemma HeadIsNewest(r: seq<Event>, selected: set<Event>, limit: nat)
    requires Answers(r, selected, limit) && r != []
    ensures r[0] in selected && forall e :: e in selected && e != r[0] ==> Newer(r[0], e)
  {
    hide Newer;
  }

  /** No id stands on two lines of the log. */
  predicate NoRepeatedIds(lines: seq<Line>)
  {
    forall i, j :: 0 <= i < j < |lines| && IsEvent(lines[i]) && IsEvent(lines[j]) ==>
        lines[i].event.id != lines[j].event.id
  }

  predicate IsEvent(line: Line)
  {
    line.Entry? && Valid(line.event)
  }

  lemma {:induction false} LogAnswers(lines: seq<Line>, q: Query)
    requires NoRepeatedIds(lines)
    ensures Answers(RecentOfLog(lines, q), Selected(Replay(map[], lines), q), q.limit)
    ensures DistinctIds(Selected(Replay(map[], lines), q))
  {
    hide Answers, Selected, Wanted, DistinctIds;
    if lines == [] {
      NothingAnswers(q);
    } else {
      var shorter, line := lines[..|lines| - 1], lines[|lines| - 1];
      LogAnswers(shorter, q);
      ReplayAddsLogged(map[], shorter);
      var rows := Replay(map[], shorter);
      if IsEvent(line) {
        NewIdIsNotIn(lines);
        assert Replay(map[], lines) == rows[line.event.id := line.event];
        hide Replay;
        OneMoreAnswers(rows, line.event, RecentOfLog(shorter, q), q);
      }
    }
  }

  lemma NothingAnswers(q: Query)
    ensures Answers([], Selected(map[], q), q.limit) && DistinctIds(Selected(map[], q))
  {
  }

  lemma OneMoreAnswers(rows: Rows, e: Event, kept: seq<Event>, q: Query)
    requires e.id !in rows && forall id :: id in rows ==> rows[id].id == id
    requires Answers(kept, Selected(rows, q), q.limit) && DistinctIds(Selected(rows, q))
    ensures Answers(if Wanted(q, e) then Keep(kept, e, q.limit) else kept, Selected(rows[e.id := e], q), q.limit)
    ensures DistinctIds(Selected(rows[e.id := e], q))
  {
    SelectedGrows(rows, e, q);
    hide Answers, Selected, Wanted;
    if Wanted(q, e) {
      KeepAnswers(kept, Selected(rows, q), e, q.limit);
    } else {
      assert Selected(rows, q) + {} == Selected(rows, q);
    }
  }

  lemma SelectedGrows(rows: Rows, e: Event, q: Query)
    requires e.id !in rows && (forall id :: id in rows ==> rows[id].id == id) && DistinctIds(Selected(rows, q))
    ensures e !in Selected(rows, q) && DistinctIds(Selected(rows, q) + {e})
    ensures Selected(rows[e.id := e], q) == Selected(rows, q) + if Wanted(q, e) then {e} else {}
  {
    var rows' := rows[e.id := e];
    hide Wanted;
    assert forall id :: id in rows ==> rows'[id] == rows[id];
    assert rows'[e.id] == e;
  }

  lemma NewIdIsNotIn(lines: seq<Line>)
    requires NoRepeatedIds(lines) && lines != [] && IsEvent(lines[|lines| - 1])
    ensures lines[|lines| - 1].event.id !in Replay(map[], lines[..|lines| - 1])
  {
    var shorter := lines[..|lines| - 1];
    forall id | id in Replay(map[], shorter)
      ensures id != lines[|lines| - 1].event.id
    {
      ReplayAddsLogged(map[], shorter);
      var i :| 0 <= i < |shorter| && shorter[i] == Entry(Replay(map[], shorter)[id]);
      assert IsEvent(lines[i]) && lines[i].event.id == id;
    }
  }

  /** What `recent` answers from a rebuilt index is what one pass over the log would keep, and nothing else
      is a correct answer; so it does not depend on the order of the files or on earlier losses. */
  lemma RecentIsAPassOverTheLog(lines: seq<Line>, q: Query, r: seq<Event>)
    requires NoRepeatedIds(lines)
    ensures Answers(r, Selected(Replay(map[], lines), q), q.limit) <==> r == RecentOfLog(lines, q)
  {
    LogAnswers(lines, q);
    if Answers(r, Selected(Replay(map[], lines), q), q.limit) {
      AnswersAreUnique(r, RecentOfLog(lines, q), Selected(Replay(map[], lines), q), q.limit);
    }
  }

  // ---- what the answer is, word for word --------------------------------------------------------

  /** `a` comes before `b` in the order of texts: it is a proper beginning of it, or has the smaller character
      where they first differ. */
  predicate Precedes(a: string, b: string)
  {
    || (|a| < |b| && a == b[..|a|])
    || exists k :: 0 <= k < |a| && k < |b| && a[..k] == b[..k] && a[k] < b[k]
  }

  lemma {:induction false} LessMeans(a: string, b: string)
    ensures Less(a, b) <==> Precedes(a, b)
  {
    if a != "" && b != "" && a[0] == b[0] {
      LessMeans(a[1..], b[1..]);
      PrecedesInTail(a, b);
      hide Precedes;
    } else if a != "" && b != "" {
      assert a[..0] == b[..0];
      assert forall k :: 0 < k < |a| && k < |b| ==> a[..k][0] != b[..k][0];
    }
  }

  lemma PrecedesInTail(a: string, b: string)
    requires a != "" && b != "" && a[0] == b[0]
    ensures Precedes(a, b) <==> Precedes(a[1..], b[1..])
  {
    var a', b' := a[1..], b[1..];
    assert forall k :: 0 <= k <= |a'| && k <= |b'| ==>
        a[..k + 1] == [a[0]] + a'[..k] && b[..k + 1] == [b[0]] + b'[..k];
    if Precedes(a', b') && !(|a'| < |b'| && a' == b'[..|a'|]) {
      var k :| 0 <= k < |a'| && k < |b'| && a'[..k] == b'[..k] && a'[k] < b'[k];
      assert a[..k + 1] == b[..k + 1] && a[k + 1] < b[k + 1];
    }
    if Precedes(a, b) && !(|a| < |b| && a == b[..|a|]) {
      var k :| 0 <= k < |a| && k < |b| && a[..k] == b[..k] && a[k] < b[k];
      assert k > 0 && a'[..k - 1] == a[1..k] && b'[..k - 1] == b[1..k];
      assert a[..k][1..] == b[..k][1..];
      assert a'[k - 1] < b'[k - 1];
    }
  }

  /** The event is on a line of the log and has its fields. */
  predicate InLog(lines: seq<Line>, e: Event)
  {
    Entry(e) in lines && e.id != "" && e.at != "" && e.kind != ""
  }

  /** It was asked for: it is later than `since` and of the role, if these are given. */
  predicate AskedFor(q: Query, e: Event)
  {
    (q.since == "" || Precedes(q.since, e.at)) && (q.role == "" || e.role == Some(q.role))
  }

  /** Later, or at the same time with the greater id. */
  predicate ComesFirst(x: Event, y: Event)
  {
    Precedes(y.at, x.at) || (x.at == y.at && Precedes(y.id, x.id))
  }

  /** `recent` on a rebuilt index: events of the log that were asked for, newest first, at most `limit`, and every
      other one that was asked for is older than all of a full answer. */
  lemma RecentMeans(lines: seq<Line>, q: Query, r: seq<Event>)
    requires NoRepeatedIds(lines) && Answers(r, Selected(Replay(map[], lines), q), q.limit)
    ensures |r| <= q.limit
    ensures forall i :: 0 <= i < |r| ==> InLog(lines, r[i]) && AskedFor(q, r[i])
    ensures forall i, j :: 0 <= i < j < |r| ==> ComesFirst(r[i], r[j])
    ensures forall e :: InLog(lines, e) && AskedFor(q, e) && e !in r ==>
              |r| == q.limit && forall i :: 0 <= i < |r| ==> ComesFirst(r[i], e)
  {
    forall e: Event, f: Event
      ensures Newer(e, f) <==> ComesFirst(e, f)
    {
      LessMeans(f.at, e.at);
      LessMeans(f.id, e.id);
    }
    forall e: Event
      ensures e in Selected(Replay(map[], lines), q) <==> InLog(lines, e) && AskedFor(q, e)
    {
      SelectedMeans(lines, q, e);
    }
    hide Newer, ComesFirst, Selected, InLog, AskedFor;
  }

  lemma SelectedMeans(lines: seq<Line>, q: Query, e: Event)
    requires NoRepeatedIds(lines)
    ensures e in Selected(Replay(map[], lines), q) <==> InLog(lines, e) && AskedFor(q, e)
  {
    RebuiltHoldsEvents(lines);
    EventsAreInLog(lines, e);
    LessMeans(q.since, e.at);
    hide Precedes, Less, Replay, Events, InLog;
    var rows := Replay(map[], lines);
    assert e in rows.Values <==> exists id :: id in rows && rows[id] == e;
  }

  lemma {:induction false} EventsAreInLog(lines: seq<Line>, e: Event)
    ensures e in Events(lines) <==> InLog(lines, e)
  {
    if lines != [] {
      var n := |lines| - 1;
      EventsAreInLog(lines[..n], e);
      assert lines == lines[..n] + [lines[n]];
    }
  }

  // ---- pending dispatches -----------------------------------------------------------------------

  predicate Started(e: Event)
  {
    e.kind == "dispatch-started"
  }

  predicate Terminal(e: Event)
  {
    e.kind == "dispatch-completed" || e.kind == "dispatch-failed" || e.kind == "dispatch-error"
  }

  /** `t` is a terminal event for the task file of `s`; without a file (NULL) nothing compares equal. */
  predicate Closes(t: Event, s: Event)
  {
    Terminal(t) && t.taskPath.Some? && t.taskPath == s.taskPath
  }

  /** WHERE s.type = 'dispatch-started' AND NOT EXISTS (... t.at >= s.at). */
  predicate PendingRow(rows: set<Event>, s: Event)
  {
    s in rows && Started(s) && forall t :: t in rows && Closes(t, s) ==> Less(t.at, s.at)
  }

  /** The rows SQL may answer with, in an order ORDER BY at ASC allows. */
  ghost predicate PendingAnswers(r: seq<Event>, rows: set<Event>)
  {
    (forall e :: e in r <==> PendingRow(rows, e)) && ByTime(r)
  }

  predicate ByTime(r: seq<Event>)
  {
    forall i, j :: 0 <= i < j < |r| ==> r[i] != r[j] && !Less(r[j].at, r[i].at)
  }

  /** The pass over the log: a start opens, a terminal event closes all that is open for its file. */
  function Open(events: seq<Event>): seq<Event>
  {
    if events == [] then []
    else
      var open, e := Open(events[..|events| - 1]), events[|events| - 1];
      if Started(e) then open + [e] else if Terminal(e) then StillOpen(open, e) else open
  }

  function StillOpen(open: seq<Event>, t: Event): (r: seq<Event>)
    ensures forall e :: e in r <==> e in open && !Closes(t, e)
  {
    if open == [] then []
    else
      var rest := StillOpen(open[..|open| - 1], t);
      if Closes(t, open[|open| - 1]) then rest else rest + [open[|open| - 1]]
  }

  predicate Increasing(events: seq<Event>)
  {
    forall i, j :: 0 <= i < j < |events| ==> Less(events[i].at, events[j].at)
  }

  predicate SameFile(e: Event, f: Event)
  {
    e.taskPath.Some? && e.taskPath == f.taskPath
  }

  /** The timestamps of the events of one task file never go back; those of different files may, as an event
      gets its timestamp before its line is appended. */
  predicate FilesInOrder(events: seq<Event>)
  {
    forall i, j :: 0 <= i < j < |events| && SameFile(events[i], events[j]) ==> !Less(events[j].at, events[i].at)
  }

  predicate Distinct(events: seq<Event>)
  {
    forall i, j :: 0 <= i < j < |events| ==> events[i] != events[j]
  }

  function Elements(events: seq<Event>): set<Event>
  {
    set e | e in events
  }

  /** The start at place `i` is not closed by anything after it. */
  predicate OpenAt(events: seq<Event>, i: int)
    requires 0 <= i < |events|
  {
    Started(events[i]) && forall k :: i < k < |events| ==> !Closes(events[k], events[i])
  }

  lemma {:induction false} OpenMeans(events: seq<Event>)
    ensures forall e :: e in Open(events) <==> exists i :: 0 <= i < |events| && events[i] == e && OpenAt(events, i)
  {
    if events != [] {
      var n := |events| - 1;
      var shorter, last := events[..n], events[n];
      OpenMeans(shorter);
      forall i | 0 <= i < n
        ensures OpenAt(events, i) <==> OpenAt(shorter, i) && !Closes(last, events[i])
      {
        assert OpenAt(shorter, i) ==> forall k :: i < k < n ==> !Closes(shorter[k], shorter[i]);
      }
      hide OpenAt;
      forall e
        ensures e in Open(events) <==> exists i :: 0 <= i < |events| && events[i] == e && OpenAt(events, i)
      {
        LastIsOpen(events);
        if i :| 0 <= i < n && shorter[i] == e && OpenAt(shorter, i) {
          assert events[i] == e;
        }
      }
    }
  }

  lemma LastIsOpen(events: seq<Event>)
    requires events != []
    ensures OpenAt(events, |events| - 1) <==> Started(events[|events| - 1])
  {
  }

  lemma {:induction false} OpenIsInOrder(events: seq<Event>)
    requires Increasing(events)
    ensures Increasing(Open(events))
  {
    if events != [] {
      var n := |events| - 1;
      OpenIsInOrder(events[..n]);
      hide Less;
      if Terminal(events[n]) {
        StillOpenIsInOrder(Open(events[..n]), events[n]);
      } else {
        forall e | e in Open(events[..n])
          ensures Less(e.at, events[n].at)
        {
          OpenMeans(events[..n]);
          var k :| 0 <= k < n && events[..n][k] == e && OpenAt(events[..n], k);
          assert Less(events[k].at, events[n].at);
        }
        var open := Open(events[..n]);
        assert Increasing(open) && forall i :: 0 <= i < |open| ==> open[i] in open;
      }
    }
  }

  lemma {:induction false} StillOpenIsInOrder(open: seq<Event>, t: Event)
    requires Increasing(open)
    ensures Increasing(StillOpen(open, t))
  {
    if open != [] {
      var n := |open| - 1;
      StillOpenIsInOrder(open[..n], t);
      hide Less;
      var rest := StillOpen(open[..n], t);
      forall i | 0 <= i < |rest|
        ensures Less(rest[i].at, open[n].at)
      {
        assert rest[i] in open[..n];
        var k :| 0 <= k < n && open[k] == rest[i];
      }
    }
  }

  /** A terminal event before the start of its file, but not earlier by its timestamp. */
  predicate Masked(events: seq<Event>, i: int)
    requires 0 <= i < |events|
  {
    Started(events[i]) && exists j :: 0 <= j < i && Closes(events[j], events[i]) && !Less(events[j].at, events[i].at)
  }

  lemma PendingIsOpenUnlessMasked(events: seq<Event>, i: int)
    requires FilesInOrder(events) && 0 <= i < |events|
    ensures PendingRow(Elements(events), events[i]) <==> OpenAt(events, i) && !Masked(events, i)
  {
    hide Less;
    if OpenAt(events, i) && !Masked(events, i) {
      forall t | t in Elements(events) && Closes(t, events[i])
        ensures Less(t.at, events[i].at)
      {
        var k :| 0 <= k < |events| && events[k] == t;
        assert k != i;
        assert k < i;
      }
    }
    if PendingRow(Elements(events), events[i]) {
      forall k | 0 <= k < |events| && Closes(events[k], events[i])
        ensures Less(events[k].at, events[i].at)
      {
        assert events[k] in Elements(events);
      }
    }
  }

  /** With timestamps that never go back within a task file, the query and the pass over the log agree exactly if
      every start masked by an earlier terminal event of the same timestamp is closed by a later one anyway. */
  lemma PendingIsAPassIff(events: seq<Event>)
    requires FilesInOrder(events) && Distinct(events)
    ensures (forall e :: e in Open(events) <==> PendingRow(Elements(events), e)) <==>
            (forall i :: 0 <= i < |events| && Masked(events, i) ==> !OpenAt(events, i))
  {
    OpenMeans(events);
    forall i | 0 <= i < |events|
      ensures PendingRow(Elements(events), events[i]) <==> OpenAt(events, i) && !Masked(events, i)
      ensures events[i] in Open(events) <==> OpenAt(events, i)
    {
      PendingIsOpenUnlessMasked(events, i);
    }
    hide OpenAt, Masked;
    forall e | PendingRow(Elements(events), e)
      ensures exists i :: 0 <= i < |events| && events[i] == e
    {
    }
  }

  /** The events of the log that the index takes. */
  function Events(lines: seq<Line>): seq<Event>
  {
    if lines == [] then []
    else Events(lines[..|lines| - 1]) + if IsEvent(lines[|lines| - 1]) then [lines[|lines| - 1].event] else []
  }

  lemma NewValue(rows: Rows, e: Event)
    requires e.id !in rows
    ensures rows[e.id := e].Values == rows.Values + {e}
  {
    var rows' := rows[e.id := e];
    assert forall id :: id in rows ==> id in rows' && rows'[id] == rows[id];
    assert rows'[e.id] == e;
  }

  lemma {:induction false} RebuiltHoldsEvents(lines: seq<Line>)
    requires NoRepeatedIds(lines)
    ensures Replay(map[], lines).Values == Elements(Events(lines))
  {
    if lines != [] {
      var shorter, line := lines[..|lines| - 1], lines[|lines| - 1];
      RebuiltHoldsEvents(shorter);
      if IsEvent(line) {
        NewIdIsNotIn(lines);
        var rows := Replay(map[], shorter);
        assert Replay(map[], lines) == rows[line.event.id := line.event];
        NewValue(rows, line.event);
        assert Elements(Events(lines)) == Elements(Events(shorter)) + {line.event};
      }
    }
  }

  lemma {:induction false} EventsAreLogged(lines: seq<Line>)
    ensures forall e :: e in Events(lines) ==>
              exists i :: 0 <= i < |lines| && IsEvent(lines[i]) && lines[i].event == e
  {
    if lines != [] {
      var n := |lines| - 1;
      EventsAreLogged(lines[..n]);
      forall e | e in Events(lines)
        ensures exists i :: 0 <= i < |lines| && IsEvent(lines[i]) && lines[i].event == e
      {
        if e in Events(lines[..n]) {
          var i :| 0 <= i < n && IsEvent(lines[..n][i]) && lines[..n][i].event == e;
          assert lines[i] == lines[..n][i];
        } else {
          assert IsEvent(lines[n]) && lines[n].event == e;
        }
      }
    }
  }

  lemma {:induction false} EventsAreDistinct(lines: seq<Line>)
    requires NoRepeatedIds(lines)
    ensures Distinct(Events(lines))
  {
    if lines != [] {
      var n := |lines| - 1;
      EventsAreDistinct(lines[..n]);
      EventsAreLogged(lines[..n]);
      assert IsEvent(lines[n]) ==> lines[n].event !in Events(lines[..n]);
    }
  }

  /** `t` reports that the dispatch of the task file of `s` is over. */
  predicate ReportsEnd(t: Event, s: Event)
  {
    && (t.kind == "dispatch-completed" || t.kind == "dispatch-failed" || t.kind == "dispatch-error")
    && t.taskPath.Some? && s.taskPath.Some? && t.taskPath.value == s.taskPath.value
  }

  /** `pendingDispatches` and the pass, word for word: the query gives the starts whose file has no end at that time
      or later, the pass those with no end behind them. */
  lemma PendingMeans(events: seq<Event>, e: Event)
    ensures PendingRow(Elements(events), e) <==>
              e in events && e.kind == "dispatch-started"
              && forall k :: 0 <= k < |events| && ReportsEnd(events[k], e) ==> Precedes(events[k].at, e.at)
    ensures e in Open(events) <==>
              exists i :: 0 <= i < |events| && events[i] == e && e.kind == "dispatch-started"
                && forall k :: i < k < |events| ==> !ReportsEnd(events[k], e)
  {
    forall t: Event
      ensures Closes(t, e) <==> ReportsEnd(t, e)
      ensures Less(t.at, e.at) <==> Precedes(t.at, e.at)
    {
      LessMeans(t.at, e.at);
    }
    OpenMeans(events);
    hide Closes, ReportsEnd, Precedes, Less, Open;
    assert forall t :: t in Elements(events) <==> exists k :: 0 <= k < |events| && events[k] == t;
  }

  /** The timestamps of the events of one task file increase. */
  predicate FilesIncrease(events: seq<Event>)
  {
    forall i, j :: 0 <= i < j < |events| && SameFile(events[i], events[j]) ==> Less(events[i].at, events[j].at)
  }

  /** With timestamps that increase within each task file they always agree, whatever crashed and was dispatched
      again: the correct answers of `pendingDispatches` are what the pass over the log leaves open, by time. */
  lemma PendingIsAPassByTime(lines: seq<Line>, r: seq<Event>)
    requires NoRepeatedIds(lines) && FilesIncrease(Events(lines))
    ensures PendingAnswers(r, Replay(map[], lines).Values) <==>
            (forall e :: e in r <==> e in Open(Events(lines))) && ByTime(r)
  {
    RebuiltHoldsEvents(lines);
    EventsAreDistinct(lines);
    hide Events, Replay;
    NothingIsMasked(Events(lines));
    PendingIsAPassIff(Events(lines));
    hide Masked, OpenAt, PendingRow, ByTime, Open, Distinct, FilesInOrder;
  }

  lemma NothingIsMasked(events: seq<Event>)
    requires FilesIncrease(events)
    ensures FilesInOrder(events) && forall i :: 0 <= i < |events| ==> !Masked(events, i)
  {
    forall i, j | 0 <= i < j < |events| && SameFile(events[i], events[j])
      ensures !Less(events[j].at, events[i].at)
    {
      LessIsTotal(events[i].at, events[j].at);
    }
    hide Less;
  }

  /** ... and with timestamps that increase over the whole log there is one such answer, in the order of the
      log. */
  lemma PendingIsAPassOverTheLog(lines: seq<Line>, r: seq<Event>)
    requires NoRepeatedIds(lines) && Increasing(Events(lines))
    ensures PendingAnswers(r, Replay(map[], lines).Values) <==> r == Open(Events(lines))
  {
    var open := Open(Events(lines));
    assert FilesIncrease(Events(lines));
    PendingIsAPassByTime(lines, r);
    OpenIsInOrder(Events(lines));
    OpenAnswers(open);
    hide Events, Replay, Less, Open, PendingAnswers, ByTime, FilesIncrease;
    if (forall e :: e in r <==> e in open) && ByTime(r) {
      SortedIsUnique(r, open);
    }
  }

  lemma OpenAnswers(open: seq<Event>)
    requires Increasing(open)
    ensures ByTime(open)
  {
    forall i, j | 0 <= i < j < |open|
      ensures open[i] != open[j] && !Less(open[j].at, open[i].at)
    {
      LessIsTotal(open[i].at, open[j].at);
    }
  }

  /** A sequence with the same elements in weakly increasing order is the strictly increasing one. */
  lemma {:induction false} SortedIsUnique(r: seq<Event>, sorted: seq<Event>)
    requires Increasing(sorted) && forall e :: e in r <==> e in sorted
    requires ByTime(r)
    ensures r == sorted
  {
    NoneIsNone(r, sorted);
    if r != [] {
      assert r[0] in sorted;
      FirstIsFirst(r, sorted);
      hide Less;
      OpenAnswers(sorted);
      forall e
        ensures e in r[1..] <==> e in r && e != r[0]
        ensures e in sorted[1..] <==> e in sorted && e != sorted[0]
      {
        assert r == [r[0]] + r[1..] && sorted == [sorted[0]] + sorted[1..];
      }
      SortedIsUnique(r[1..], sorted[1..]);
    }
  }

  lemma NoneIsNone(r: seq<Event>, sorted: seq<Event>)
    requires forall e :: e in sorted ==> e in r
    ensures r == [] ==> sorted == []
  {
    assert |sorted| > 0 ==> sorted[0] in r;
  }

  lemma FirstIsFirst(r: seq<Event>, sorted: seq<Event>)
    requires Increasing(sorted) && (forall e :: e in r <==> e in sorted) && r != []
    requires ByTime(r)
    ensures sorted != [] && r[0] == sorted[0]
  {
    hide Less;
    assert r[0] in sorted;
    var k :| 0 <= k < |sorted| && sorted[k] == r[0];
    assert sorted[0] in r;
    var j :| 0 <= j < |r| && r[j] == sorted[0];
  }
}
