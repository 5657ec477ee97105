/** The graph resolver layer (liveql-n4m.js): which actions each field and
    mutation issues, and how note replies are ordered. A resolver's awaited
    results are parameters; the actions it issues are returned in issue
    order. */
module Resolvers {
  import opened Wrappers
  import opened Json
  import opened Protocol
  import opened Notes

  /** A snapshot as the client receives it. */
  type Record = map<string, Value>

  // ---------------------------------------------------------------------
  // The get actions of the four node kinds

  /** A get that leaves id, path and type to the host's base record, so
      every node snapshot keeps them. */
  predicate KeepsBase(p: Params)
    requires p.GetParams?
  {
    !Names(p, "id") && !Names(p, "path") && !Names(p, "type")
  }

  /** Query.song: the song by path, its playing flag, the view reference
      and the track list. */
  function GetSong(): (p: Params)
    ensures p.GetParams? && p.idOrPath == Str("live_set") && KeepsBase(p)
    ensures p.propertyKeysSingle == Some(["is_playing"]) && p.propertyKeysMultiple.None?
    ensures p.childKeysSingle == Some(["view"]) && p.childKeysMultiple == Some(["tracks"])
  {
    GetParams(Str("live_set"), Some(["is_playing"]), None, Some(["view"]), Some(["tracks"]))
  }

  /** A track by id: its two scalar properties and its clip slot list. */
  function GetTrack(id: Value): (p: Params)
    ensures p.GetParams? && p.idOrPath == id && KeepsBase(p)
    ensures p.propertyKeysSingle == Some(["has_midi_input", "name"]) && p.propertyKeysMultiple.None?
    ensures p.childKeysSingle.None? && p.childKeysMultiple == Some(["clip_slots"])
  {
    GetParams(id, Some(["has_midi_input", "name"]), None, None, Some(["clip_slots"]))
  }

  /** A clip slot by id: whether it holds a clip, and the clip reference. */
  function GetClipSlot(id: Value): (p: Params)
    ensures p.GetParams? && p.idOrPath == id && KeepsBase(p)
    ensures p.propertyKeysSingle == Some(["has_clip"]) && p.propertyKeysMultiple.None?
    ensures p.childKeysSingle == Some(["clip"]) && p.childKeysMultiple.None?
  {
    GetParams(id, Some(["has_clip"]), None, Some(["clip"]), None)
  }

  const ClipProperties: seq<string> := ["end_time", "is_arrangement_clip", "is_midi_clip", "length",
                                        "name", "signature_denominator", "signature_numerator", "start_time"]

  /** A clip by id: its eight scalar properties and no child reference;
      among them every property clip_set_properties can change, so the
      re-read after that mutation reports each change. */
  function GetClip(id: Value): (p: Params)
    ensures p.GetParams? && p.idOrPath == id && KeepsBase(p)
    ensures p.propertyKeysSingle == Some(ClipProperties) && p.propertyKeysMultiple.None?
    ensures p.childKeysSingle.None? && p.childKeysMultiple.None?
    ensures forall k :: k in ClipSettable ==> k in Keys(p.propertyKeysSingle)
  {
    GetParams(id, Some(ClipProperties), None, None, None)
  }

  /** Song.view: a get of the object the song's view field refers to, for
      the view's two child references only. */
  function SongView(parent: Record): (p: Params)
    ensures p.GetParams? && p.idOrPath == Field(parent, "view") && KeepsBase(p)
    ensures p.propertyKeysSingle.None? && p.propertyKeysMultiple.None?
    ensures p.childKeysSingle == Some(["detail_clip", "selected_track"]) && p.childKeysMultiple.None?
  {
    GetParams(Field(parent, "view"), None, None, Some(["detail_clip", "selected_track"]), None)
  }

  // ---------------------------------------------------------------------
  // Child lists: one get per listed id

  /** `parent[key].map(fetch)`: None when the field is not an array (the
      resolver throws). */
  function FetchEach(parent: Record, key: string, fetch: Value -> Params): (r: Option<seq<Params>>)
    ensures r.Some? <==> Field(parent, key).Arr?
    ensures r.Some? ==> |r.value| == |parent[key].items|
    ensures r.Some? ==> forall i :: 0 <= i < |r.value| ==> r.value[i] == fetch(parent[key].items[i])
  {
    var v := Field(parent, key);
    if v.Arr? then Some(seq(|v.items|, i requires 0 <= i < |v.items| => fetch(v.items[i]))) else None
  }

  /** Song.tracks: one track get per id, in list order. */
  function SongTracks(parent: Record): (r: Option<seq<Params>>)
    ensures r.Some? <==> Field(parent, "tracks").Arr?
    ensures r.Some? ==> |r.value| == |parent["tracks"].items|
    ensures r.Some? ==> forall i :: 0 <= i < |r.value| ==> r.value[i] == GetTrack(parent["tracks"].items[i])
  {
    FetchEach(parent, "tracks", GetTrack)
  }

  /** Track.clip_slots: one clip slot get per id, in list order. */
  function TrackClipSlots(parent: Record): (r: Option<seq<Params>>)
    ensures r.Some? <==> Field(parent, "clip_slots").Arr?
    ensures r.Some? ==> |r.value| == |parent["clip_slots"].items|
    ensures r.Some? ==> forall i :: 0 <= i < |r.value| ==> r.value[i] == GetClipSlot(parent["clip_slots"].items[i])
  {
    FetchEach(parent, "clip_slots", GetClipSlot)
  }

  // ---------------------------------------------------------------------
  // Null guards on single child references

  /** The id a null guard lets through: the field's value when it is truthy.
      Null, 0, "" and an absent field never become a fetch target. */
  function ChildTarget(parent: Record, key: string): (t: Option<Value>)
    ensures t.Some? <==> Truthy(Field(parent, key))
    ensures t.Some? ==> key in parent && t.value == parent[key]
    ensures t.Some? ==> t.value != Null && t.value != Num(0)
  {
    if Truthy(Field(parent, key)) then Some(parent[key]) else None
  }

  /** SongView.detail_clip: a clip get for a truthy id, no action otherwise. */
  function DetailClip(parent: Record): (r: Option<Params>)
    ensures r.None? <==> !Truthy(Field(parent, "detail_clip"))
    ensures r.Some? ==> r.value == GetClip(parent["detail_clip"]) && r.value.idOrPath != Num(0)
  {
    match ChildTarget(parent, "detail_clip")
    case None => None
    case Some(id) => Some(GetClip(id))
  }

  /** SongView.selected_track: a track get for a truthy id, no action otherwise. */
  function SelectedTrack(parent: Record): (r: Option<Params>)
    ensures r.None? <==> !Truthy(Field(parent, "selected_track"))
    ensures r.Some? ==> r.value == GetTrack(parent["selected_track"]) && r.value.idOrPath != Num(0)
  {
    match ChildTarget(parent, "selected_track")
    case None => None
    case Some(id) => Some(GetTrack(id))
  }

  /** ClipSlot.clip: a clip get for a truthy id, no action otherwise. */
  function ClipSlotClip(parent: Record): (r: Option<Params>)
    ensures r.None? <==> !Truthy(Field(parent, "clip"))
    ensures r.Some? ==> r.value == GetClip(parent["clip"]) && r.value.idOrPath != Num(0)
  {
    match ChildTarget(parent, "clip")
    case None => None
    case Some(id) => Some(GetClip(id))
  }

  // ---------------------------------------------------------------------
  // Notes

  /** getNotesExtended's call: the method name, then the four range arguments. */
  function GetNotesExtended(id: Value, fromPitch: Value, pitchSpan: Value, fromTime: Value, timeSpan: Value): (p: Params)
    ensures p.CallParams? && p.idOrPath == id && |p.args| == 5 && p.args[0] == Str("get_notes_extended")
    ensures p.args[1..] == [fromPitch, pitchSpan, fromTime, timeSpan]
  {
    CallParams(id, [Str("get_notes_extended"), fromPitch, pitchSpan, fromTime, timeSpan])
  }

  /** The action Clip.notes issues: none unless is_midi_clip is truthy, else
      the whole pitch range 0..128 from time 0 over the clip's length (an
      absent length is sent as null). */
  function NotesRequest(parent: Record): (r: Option<Params>)
    ensures r.None? <==> !Truthy(Field(parent, "is_midi_clip"))
    ensures r.Some? ==> r.value.CallParams? && r.value.idOrPath == Field(parent, "id")
    ensures r.Some? ==> r.value.args == [Str("get_notes_extended"), Num(0), Num(128), Num(0), Field(parent, "length")]
  {
    if Truthy(Field(parent, "is_midi_clip"))
    then Some(GetNotesExtended(Field(parent, "id"), Num(0), Num(128), Num(0), Field(parent, "length")))
    else None
  }

  /** The value of Clip.notes given the reply to its call: null for a clip
      that is not MIDI, otherwise the reply's notes in sorted order. */
  function NotesField(parent: Record, reply: NotesDictionary): (r: Option<seq<Note>>)
    ensures r.None? <==> NotesRequest(parent).None?
    ensures r.Some? ==> Sorted(r.value) && multiset(r.value) == multiset(reply.notes)
    ensures r.Some? ==> forall t, p :: Level(r.value, t, p) == Level(reply.notes, t, p)
  {
    if Truthy(Field(parent, "is_midi_clip")) then Some(SortNotesDictionary(reply).notes) else None
  }

  // ---------------------------------------------------------------------
  // clip_set_properties

  const ClipSettable: seq<string> := ["name", "signature_denominator", "signature_numerator"]

  /** a is b with some elements left out, order kept. */
  predicate Subsequence(a: seq<string>, b: seq<string>)
    decreases |b|
  {
    if a == [] then true
    else if b == [] then false
    else if a[0] == b[0] then Subsequence(a[1..], b[1..])
    else Subsequence(a, b[1..])
  }

  /** The property names of a list of set actions. */
  function SetProperties(r: seq<Params>): (names: seq<string>)
    ensures |names| == |r|
    ensures forall i :: 0 <= i < |r| && r[i].SetParams? ==> names[i] == r[i].property
  {
    seq(|r|, i requires 0 <= i < |r| => if r[i].SetParams? then r[i].property else "")
  }

  predicate Distinct(keys: seq<string>)
  {
    forall i, j :: 0 <= i < j < |keys| ==> keys[i] != keys[j]
  }

  /** `keys.map(s => properties[s] === undefined ? null : set(id, s, ...)).filter(x => x !== null)`:
      one set per key with a defined value, in key order. */
  function PropertySets(id: Value, properties: map<string, Value>, keys: seq<string>): (r: seq<Params>)
    ensures |r| <= |keys|
    ensures forall i :: 0 <= i < |r| ==>
      r[i].SetParams? && r[i].idOrPath == id && r[i].property in keys &&
      r[i].property in properties && r[i].value == properties[r[i].property]
    ensures (forall k :: k in keys ==> k !in properties) ==> r == []
  {
    if keys == [] then []
    else if keys[0] in properties then [SetParams(id, keys[0], properties[keys[0]])] + PropertySets(id, properties, keys[1..])
    else PropertySets(id, properties, keys[1..])
  }

  /** Every listed key with a defined value gets its set. */
  lemma {:induction false} PropertySetsComplete(id: Value, properties: map<string, Value>, keys: seq<string>, k: string)
    requires k in keys && k in properties
    ensures exists i :: (0 <= i < |PropertySets(id, properties, keys)| &&
                         PropertySets(id, properties, keys)[i] == SetParams(id, k, properties[k]))
  {
    var r := PropertySets(id, properties, keys);
    if keys[0] == k {
      assert r[0] == SetParams(id, k, properties[k]);
    } else {
      PropertySetsComplete(id, properties, keys[1..], k);
      var rest := PropertySets(id, properties, keys[1..]);
      var i :| 0 <= i < |rest| && rest[i] == SetParams(id, k, properties[k]);
      var j := if keys[0] in properties then i + 1 else i;
      assert r[j] == rest[i];
    }
  }

  /** The sets follow the order of the key list. */
  lemma {:induction false} PropertySetsOrdered(id: Value, properties: map<string, Value>, keys: seq<string>)
    requires Distinct(keys)
    ensures Subsequence(SetProperties(PropertySets(id, properties, keys)), keys)
  {
    if keys != [] {
      var tail := keys[1..];
      PropertySetsOrdered(id, properties, tail);
      var rest := PropertySets(id, properties, tail);
      var names := SetProperties(rest);
      if keys[0] in properties {
        var r := PropertySets(id, properties, keys);
        assert SetProperties(r) == [keys[0]] + names;
      } else if names != [] {
        assert names[0] == rest[0].property && rest[0].property in tail;
      }
    }
  }

  /** The actions clip_set_properties issues: one set per defined field in
      the order name, signature_denominator, signature_numerator, then one
      get of the same clip once they have all succeeded. An explicit null is
      defined and is sent. */
  function ClipSetPropertiesActions(id: Value, properties: map<string, Value>): (r: seq<Params>)
    ensures 1 <= |r| <= 4 && r[|r| - 1] == GetClip(id)
    ensures forall i :: 0 <= i < |r| - 1 ==>
      r[i].SetParams? && r[i].idOrPath == id && r[i].property in ClipSettable &&
      r[i].property in properties && r[i].value == properties[r[i].property]
    ensures forall k :: k in ClipSettable && k in properties ==>
      exists i :: 0 <= i < |r| - 1 && r[i] == SetParams(id, k, properties[k])
    ensures Subsequence(SetProperties(r[..|r| - 1]), ClipSettable)
    ensures (forall k :: k in ClipSettable ==> k !in properties) ==> r == [GetClip(id)]
  {
    var sets := PropertySets(id, properties, ClipSettable);
    var r := sets + [GetClip(id)];
    assert forall i :: 0 <= i < |sets| ==> r[i] == sets[i];
    PropertySetsOrdered(id, properties, ClipSettable);
    assert forall k :: k in ClipSettable && k in properties ==>
      exists i :: 0 <= i < |r| - 1 && r[i] == SetParams(id, k, properties[k])
    by {
      forall k | k in ClipSettable && k in properties
        ensures exists i :: 0 <= i < |r| - 1 && r[i] == SetParams(id, k, properties[k])
      {
        PropertySetsComplete(id, properties, ClipSettable, k);
      }
    }
    r
  }

  lemma ClipSetPropertiesExamples(id: Value)
    ensures ClipSetPropertiesActions(id, map["name" := Str("A")]) == [SetParams(id, "name", Str("A")), GetClip(id)]
    ensures ClipSetPropertiesActions(id, map[]) == [GetClip(id)]
  {
  }

  // ---------------------------------------------------------------------
  // Mutations

  datatype Mutation =
    | SongStartPlaying(id: int)
    | SongStopPlaying(id: int)
    | TrackSetName(id: int, name: string)
    | ClipSetProperties(id: int, properties: map<string, Value>)
    | ClipAddNewNotes(id: int, notesDictionary: Value)
    | ClipApplyNoteModifications(id: int, notesDictionary: Value)
    | ClipGetNotesExtended(id: int, fromPitch: int, pitchSpan: int, fromTime: int, timeSpan: int)
    | ClipGetSelectedNotesExtended(id: int)
    | ClipSelectAllNotes(id: int)
    | ClipRemoveNotesById(id: int, ids: seq<int>)

  /** Mutations whose field is a node re-fetched after the change. */
  predicate Refetches(m: Mutation)
  {
    !m.ClipGetNotesExtended? && !m.ClipGetSelectedNotesExtended?
  }

  /** What clip_get_notes_extended and clip_get_selected_notes_extended
      return once their call replies: the reply's notes sorted by start time
      and pitch, stably, whatever order the host sent them in. */
  function NotesQueryResult(m: Mutation, reply: NotesDictionary): (r: NotesDictionary)
    requires !Refetches(m)
    ensures Sorted(r.notes)
    ensures multiset(r.notes) == multiset(reply.notes)
    ensures forall t, p :: Level(r.notes, t, p) == Level(reply.notes, t, p)
  {
    SortNotesDictionary(reply)
  }

  function Nums(xs: seq<int>): (r: seq<Value>)
    ensures |r| == |xs| && forall i :: 0 <= i < |r| ==> r[i] == Num(xs[i])
  {
    seq(|xs|, i requires 0 <= i < |xs| => Num(xs[i]))
  }

  /** The actions a mutation issues, in order, when each awaited action
      succeeds: the change on the object the mutation names, then, for the
      node-returning mutations, one get that re-reads the affected node. */
  function MutationActions(m: Mutation): (r: seq<Params>)
    ensures |r| >= 1
    ensures forall i :: 0 <= i < |r| - 1 ==> !r[i].GetParams? && r[i].idOrPath == Num(m.id)
    ensures Refetches(m) <==> r[|r| - 1].GetParams?
    ensures !Refetches(m) ==> |r| == 1 && r[0].CallParams? && r[0].idOrPath == Num(m.id)
    ensures (m.SongStartPlaying? || m.SongStopPlaying?) ==> r[|r| - 1] == GetSong()
    ensures m.TrackSetName? ==> r == [SetParams(Num(m.id), "name", Str(m.name)), GetTrack(Num(m.id))]
    ensures Refetches(m) && !m.SongStartPlaying? && !m.SongStopPlaying? && !m.TrackSetName? ==>
      r[|r| - 1] == GetClip(Num(m.id))
    ensures m.ClipSetProperties? ==> r == ClipSetPropertiesActions(Num(m.id), m.properties)
    ensures Refetches(m) && !m.ClipSetProperties? ==> |r| == 2
    ensures m.SongStartPlaying? ==> r[0] == CallParams(Num(m.id), [Str("start_playing")])
    ensures m.SongStopPlaying? ==> r[0] == CallParams(Num(m.id), [Str("stop_playing")])
    ensures m.ClipAddNewNotes? ==> r[0] == CallParams(Num(m.id), [Str("add_new_notes"), m.notesDictionary])
    ensures m.ClipApplyNoteModifications? ==>
      r[0] == CallParams(Num(m.id), [Str("apply_note_modifications"), m.notesDictionary])
    ensures m.ClipSelectAllNotes? ==> r[0] == CallParams(Num(m.id), [Str("select_all_notes")])
    ensures m.ClipRemoveNotesById? ==>
      r[0].CallParams? && r[0].idOrPath == Num(m.id) && |r[0].args| == |m.ids| + 1 &&
      r[0].args[0] == Str("remove_notes_by_id") && r[0].args[1..] == Nums(m.ids)
    ensures m.ClipGetNotesExtended? ==>
      r == [GetNotesExtended(Num(m.id), Num(m.fromPitch), Num(m.pitchSpan), Num(m.fromTime), Num(m.timeSpan))]
    ensures m.ClipGetSelectedNotesExtended? ==> r == [CallParams(Num(m.id), [Str("get_selected_notes_extended")])]
  {
    var id := Num(m.id);
    if m.ClipSetProperties? then ClipSetPropertiesActions(id, m.properties)
    else match m
    case SongStartPlaying(_) => [CallParams(id, [Str("start_playing")]), GetSong()]
    case SongStopPlaying(_) => [CallParams(id, [Str("stop_playing")]), GetSong()]
    case TrackSetName(_, name) => [SetParams(id, "name", Str(name)), GetTrack(id)]
    case ClipAddNewNotes(_, nd) => [CallParams(id, [Str("add_new_notes"), nd]), GetClip(id)]
    case ClipApplyNoteModifications(_, nd) => [CallParams(id, [Str("apply_note_modifications"), nd]), GetClip(id)]
    case ClipGetNotesExtended(_, fp, ps, ft, ts) => [GetNotesExtended(id, Num(fp), Num(ps), Num(ft), Num(ts))]
    case ClipGetSelectedNotesExtended(_) => [CallParams(id, [Str("get_selected_notes_extended")])]
    case ClipSelectAllNotes(_) => [CallParams(id, [Str("select_all_notes")]), GetClip(id)]
    case ClipRemoveNotesById(_, ids) => [CallParams(id, [Str("remove_notes_by_id")] + Nums(ids)), GetClip(id)]
  }
}
