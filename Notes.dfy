/** Note ordering on the client (liveql-n4m.js): every notes dictionary that
    enters the graph is sorted by start time, then by pitch. */
module Notes {
  import opened Json

  /** A note: the two fields the ordering reads, and the other optional
      fields (note_id, duration, velocity, ...) carried through unchanged.
      Times are integers in this model. */
  datatype Note = Note(pitch: int, startTime: int, other: map<string, Value>)

  datatype NotesDictionary = NotesDictionary(notes: seq<Note>)

  /** a strictly precedes b: earlier start, or same start and lower pitch. */
  predicate Before(a: Note, b: Note)
  {
    a.startTime < b.startTime || (a.startTime == b.startTime && a.pitch < b.pitch)
  }

  /** compareNotes: negative, zero or positive as a sorts before, level with
      or after b. */
  function CompareNotes(a: Note, b: Note): (r: int)
    ensures r < 0 <==> Before(a, b)
    ensures r > 0 <==> Before(b, a)
    ensures r == 0 <==> a.startTime == b.startTime && a.pitch == b.pitch
  {
    if a.startTime < b.startTime then -1
    else if a.startTime > b.startTime then 1
    else a.pitch - b.pitch
  }

  /** The comparator is antisymmetric and transitive, so it is a consistent
      comparator for Array.prototype.sort. */
  lemma CompareNotesConsistent(a: Note, b: Note, c: Note)
    ensures CompareNotes(a, b) < 0 <==> CompareNotes(b, a) > 0
    ensures CompareNotes(a, b) <= 0 && CompareNotes(b, c) <= 0 ==> CompareNotes(a, c) <= 0
    ensures CompareNotes(a, b) < 0 && CompareNotes(b, c) <= 0 ==> CompareNotes(a, c) < 0
  {
  }

  /** No note is preceded by one it should come before. */
  predicate Sorted(s: seq<Note>)
  {
    forall i, j :: 0 <= i < j < |s| ==> !Before(s[j], s[i])
  }

  /** Insert x into a sorted list, before the first note it does not follow. */
  function Insert(x: Note, s: seq<Note>): (r: seq<Note>)
    requires Sorted(s)
    ensures Sorted(r)
    ensures multiset(r) == multiset(s) + multiset{x}
    ensures |r| == |s| + 1
    ensures forall i :: 0 <= i < |r| ==> r[i] == x || r[i] in s
  {
    if s == [] then [x]
    else
      assert s == [s[0]] + s[1..];
      if CompareNotes(x, s[0]) <= 0 then [x] + s
      else
        var t := Insert(x, s[1..]);
        assert forall k :: 0 <= k < |t| ==> !Before(t[k], s[0]);
        [s[0]] + t
  }

  /** `[...notes].sort(compareNotes)` on a copy: a sorted permutation of the
      notes. */
  function SortNotes(s: seq<Note>): (r: seq<Note>)
    ensures Sorted(r)
    ensures multiset(r) == multiset(s)
    ensures |r| == |s|
  {
    if s == [] then []
    else
      assert s == [s[0]] + s[1..];
      Insert(s[0], SortNotes(s[1..]))
  }

  /** sortJsonNotesDictionary: the notes of a reply, sorted. */
  function SortNotesDictionary(d: NotesDictionary): (r: NotesDictionary)
    ensures Sorted(r.notes)
    ensures multiset(r.notes) == multiset(d.notes) && |r.notes| == |d.notes|
    ensures forall t, p :: Level(r.notes, t, p) == Level(d.notes, t, p)
  {
    var sorted := SortNotes(d.notes);
    assert forall t, p :: Level(sorted, t, p) == Level(d.notes, t, p) by {
      forall t, p
        ensures Level(sorted, t, p) == Level(d.notes, t, p)
      {
        SortNotesStable(d.notes, t, p);
      }
    }
    NotesDictionary(sorted)
  }

  /** Sorting already-sorted notes changes nothing. */
  lemma {:induction false} SortSortedIsIdentity(s: seq<Note>)
    requires Sorted(s)
    ensures SortNotes(s) == s
  {
    if s != [] {
      SortSortedIsIdentity(s[1..]);
      var t := s[1..];
      if t != [] {
        assert CompareNotes(s[0], t[0]) <= 0;
      }
    }
  }

  /** The notes of s that start at time t with pitch p, in their order in
      s: the notes the comparator ranks level with each other. */
  function Level(s: seq<Note>, t: int, p: int): seq<Note>
  {
    if s == [] then []
    else (if s[0].startTime == t && s[0].pitch == p then [s[0]] else []) + Level(s[1..], t, p)
  }

  lemma {:induction false} LevelAppend(a: seq<Note>, b: seq<Note>, t: int, p: int)
    ensures Level(a + b, t, p) == Level(a, t, p) + Level(b, t, p)
  {
    if a == [] {
      assert a + b == b;
    } else {
      var ab := a + b;
      assert ab[0] == a[0] && ab[1..] == a[1..] + b;
      LevelAppend(a[1..], b, t, p);
    }
  }

  /** The two ways Insert unfolds on a non-empty list. */
  lemma InsertUnfold(x: Note, s: seq<Note>)
    requires Sorted(s) && s != []
    ensures Sorted(s[1..])
    ensures CompareNotes(x, s[0]) <= 0 ==> Insert(x, s) == [x] + s
    ensures CompareNotes(x, s[0]) > 0 ==> Insert(x, s) == [s[0]] + Insert(x, s[1..])
  {
  }

  /** A note placed in front of a list, when it strictly precedes x, is
      never level with x. */
  lemma LevelInFront(a: Note, x: Note, tail: seq<Note>, rest: seq<Note>, t: int, p: int)
    requires Before(a, x)
    requires Level(tail, t, p) == Level([x], t, p) + Level(rest, t, p)
    ensures Level([a] + tail, t, p) == Level([x], t, p) + Level([a] + rest, t, p)
  {
    LevelAppend([a], tail, t, p);
    LevelAppend([a], rest, t, p);
  }

  /** Insert puts x before every note it is level with, so a note taken
      earlier from the input stays in front of the level notes after it. */
  lemma {:induction false} InsertLevel(x: Note, s: seq<Note>, t: int, p: int)
    requires Sorted(s)
    ensures Level(Insert(x, s), t, p) == Level([x], t, p) + Level(s, t, p)
  {
    if s != [] {
      InsertUnfold(x, s);
      if CompareNotes(x, s[0]) <= 0 {
        LevelAppend([x], s, t, p);
      } else {
        InsertLevel(x, s[1..], t, p);
        LevelInFront(s[0], x, Insert(x, s[1..]), s[1..], t, p);
        assert [s[0]] + s[1..] == s;
      }
    }
  }

  lemma SortNotesUnfold(s: seq<Note>)
    requires s != []
    ensures Sorted(SortNotes(s[1..]))
    ensures SortNotes(s) == Insert(s[0], SortNotes(s[1..]))
  {
  }

  /** The sort is stable: notes the comparator ranks level keep their input
      order, as Array.prototype.sort guarantees. */
  lemma {:induction false} SortNotesStable(s: seq<Note>, t: int, p: int)
    ensures Level(SortNotes(s), t, p) == Level(s, t, p)
  {
    if s != [] {
      SortNotesUnfold(s);
      SortNotesStable(s[1..], t, p);
      InsertLevel(s[0], SortNotes(s[1..]), t, p);
      LevelAppend([s[0]], s[1..], t, p);
      assert [s[0]] + s[1..] == s;
    }
  }

  /** Three notes out of order come back ordered by start time, then pitch. */
  lemma SortExample()
    ensures SortNotes([Note(67, 1, map[]), Note(60, 0, map[]), Note(55, 0, map[])])
         == [Note(55, 0, map[]), Note(60, 0, map[]), Note(67, 1, map[])]
  {
  }
}
