# liveql core, modelled in Dafny

liveql exposes a host music environment's object model (song, tracks, clip
slots, clips, notes) as a GraphQL API. The host only offers a tagged text
channel. Client-to-host messages are tagged by action kind (`get`, `set`,
`call`). Every reply comes back under the single tag `result` and is matched
to its action by `actionId`. The project carries three pieces of logic, and
these are what this model covers:

- **Action correlation on the client** (`liveql-n4m.js`). `exec` gives each
  outgoing `get`/`set`/`call` action a fresh id from a process-wide counter.
  It registers the promise's `{resolve, reject}` pair under that id, then
  emits the message. The `result` handler looks the id up, deletes the entry
  and settles the promise: resolved with `data` when the status is
  `"succeeded"`, rejected with `message` otherwise.
- **Snapshot flattening on the host** (`liveql-m4l.js`). `getLive` turns a
  number or path into a LiveAPI reference and rejects the sentinel id 0.
  `get` builds a plain record from four key lists, each with its own rule.
  `set` and `call` pass the host's return value back unchanged. Every handler
  emits exactly one result, succeeded or failed.
- **Resolver helpers** (`liveql-n4m.js`). These decide which actions a field
  resolution issues: note ordering by `(start_time, pitch)`, the keys
  `clip_set_properties` writes and their order, the null guards on child
  references, and the MIDI guard on `notes`.

Modules:

- `Wrappers`: Option and Result.
- `Json`: the structured values that stand in for JSON text. Also holds
  JavaScript truthiness, `String(v)`, and decimal integer conversion with its
  inverse.
- `Protocol`: the action payloads (`Params`), the message `{actionId, ...params}`,
  the host's field-by-field view of it (`Request`), and result messages.
- `Dispatcher`: the class `ActionDispatcher`. It holds the counter, the
  pending map, an outbox standing in for `Max.outlet`, and a settlement log
  standing in for promise resolution.
- `Host`: `LiveObject` is the abstract host object. Its `read`, `write` and
  `invoke` may each throw. The module also holds `getLive`, the snapshot
  rules, and the three handlers. `get` is a method with one loop per key
  list, proved equal to the `Snapshot` fold.
- `Notes`: the comparator and a sort proved to give a sorted, stable
  permutation.
- `Resolvers`: the get builders for each node kind, child-list and
  child-reference resolvers, the notes field, `clip_set_properties`, and the
  action sequence of every mutation.
- `Bridge`: lemmas that join host and client. A host reply settles exactly
  the action that sent it. A child id reported as 0 never leads to a fetch.

Integers stand for JSON numbers. Times such as `start_time` and `length` are
integers too.

## Model

| member | source | states |
|---|---|---|
| `Dispatcher.ActionDispatcher.constructor` | liveql-n4m.js:42-43 | the counter starts at 0; no pending entries, nothing emitted, nothing settled |
| `Dispatcher.ActionDispatcher.Exec` | liveql-n4m.js:45-56 | the counter rises by exactly 1 and the new id was neither pending nor settled; it is larger than every id already emitted; the handlers are registered under it; one message with that `actionId` is emitted under the action's kind; nothing is settled |
| `Dispatcher.ActionDispatcher.Get` | liveql-n4m.js:8-23 | emits one `get` message with the target and the four key lists (null when left out) under a fresh id |
| `Dispatcher.ActionDispatcher.Set` | liveql-n4m.js:25-32 | emits one `set` message with target, property and value under a fresh id |
| `Dispatcher.ActionDispatcher.Call` | liveql-n4m.js:34-40 | emits one `call` message with target and argument list under a fresh id |
| `Dispatcher.ActionDispatcher.HandleResult` | liveql-n4m.js:58-75 | a result whose id is pending removes exactly that entry and appends one settlement for it; an unknown or missing id changes nothing; counter and outbox are unchanged; `Valid` (each promise settled at most once, emitted ids pending or settled) is kept |
| `Dispatcher.Settle` | liveql-n4m.js:62-73 | resolves with `data` exactly when the status is `"succeeded"`; otherwise rejects with `message` |
| `Dispatcher.Lookup` | liveql-n4m.js:60 | a result finds a pending entry only when its `actionId` is a number that is a registered key |
| `Dispatcher.DispatchTwice` | liveql-n4m.js:45-49 | the same params dispatched twice get two distinct ids, the second larger, both pending |
| `Dispatcher.SettleOnce` | liveql-n4m.js:60-61 | settling one result leaves every other pending entry as it was; the same result a second time matches nothing |
| `Protocol.Wire` | liveql-n4m.js:53-54 | the host reads back the message's `actionId`, target and the kind's own fields |
| `Json.IntRoundTrip` | liveql-m4l.js:6 | the decimal form of an integer reads back as that integer |
| `Json.IntToStringInjective` | liveql-m4l.js:6 | two integers have the same decimal form only when they are equal |
| `Host.RefPath` | liveql-m4l.js:6 | a string target is the path itself; a number n becomes `"id " + n` |
| `Host.RefPathDistinguishesIds` | liveql-m4l.js:6 | two numeric targets give the same LiveAPI path exactly when they are the same id |
| `Host.GetLive` | liveql-m4l.js:4-13 | succeeds with the resolved object exactly when its id is not 0; otherwise fails with `"Invalid live id or path: " + idOrPath` |
| `Host.SucceededResult` | liveql-m4l.js:16-26 | status `"succeeded"`, the given `actionId` and `data`, no message |
| `Host.FailedResult` | liveql-m4l.js:29-39 | status `"failed"`, the given `actionId`, the message as a string, no data |
| `Host.StripMarkers` | liveql-m4l.js:70-74 | no `"id"` token is left; every other value keeps its number of occurrences; the result is no longer than the read |
| `Host.StripMarkersAppend` | liveql-m4l.js:70-74 | stripping distributes over concatenation, so the kept elements keep their order |
| `Host.StripMarkersExample` | liveql-m4l.js:70-74 | `["id",0,"id",5,"id",12]` flattens to `[0,5,12]`; 0 is kept |
| `Host.Place` | liveql-m4l.js:54-74 | assigning one key changes only that key, to the value its list's rule gives |
| `Host.Fill` | liveql-m4l.js:54-74 | one list's loop succeeds exactly when every listed read succeeds; it adds no key that is not listed; on failure it carries the error of the first read that threw |
| `Host.EffectIdempotent` | liveql-m4l.js:54-74 | applying a rule twice with the same read equals applying it once |
| `Host.FillAt` | liveql-m4l.js:54-74 | after one list's loop, a listed key holds its rule applied to its read, and any other key is unchanged |
| `Host.Snapshot` | liveql-m4l.js:49-74 | the record is built exactly when every listed read succeeds; it holds only `id`, `path`, `type` and listed keys; otherwise it fails with the error of the first read that throws, walking the single-property, multiple-property, single-child and multiple-child lists in that order |
| `Host.SnapshotAt` | liveql-m4l.js:49-74 | the snapshot exists exactly when every listed read succeeds; it holds only `id`, `path`, `type` and listed keys; each key's value follows the four rules in list order |
| `Host.SnapshotKeepsBase` | liveql-m4l.js:49-53 | `id`, `path` and `type` are present with the object's values unless a list names them |
| `Host.SnapshotSingleProperty` | liveql-m4l.js:54-59 | a `propertyKeysSingle` key is present exactly when its read has length 1, and then holds that element |
| `Host.SnapshotMultipleProperty` | liveql-m4l.js:61-63 | a `propertyKeysMultiple` key holds its read verbatim |
| `Host.SnapshotSingleChild` | liveql-m4l.js:65-68 | a `childKeysSingle` key holds element 1 of its read with 0 mapped to null; it is absent when the read is shorter; it never holds 0 |
| `Host.SnapshotMultipleChild` | liveql-m4l.js:70-74 | a `childKeysMultiple` key holds its read with the `"id"` markers stripped |
| `Host.GetResult` | liveql-m4l.js:42-80 | exactly one result: succeeded with the snapshot when the message parsed, the reference resolved and every read succeeded; failed otherwise; `actionId` is the request's, or null when parsing failed; the failure message is the parse error, the `getLive` error, or the error of the read that threw |
| `Host.FillKeys` | liveql-m4l.js:54-74 | the `forEach` loop over one key list computes `Fill` |
| `Host.HandleGet` | liveql-m4l.js:42-80 | the handler's step-by-step record building emits exactly `GetResult` |
| `Host.HandleSet` | liveql-m4l.js:82-93 | exactly one result: succeeded with `live.set`'s value unchanged when parsing, resolution and the write succeed; failed otherwise; `actionId` as in `get`; the failure message is the parse error, the `getLive` error, or the error `live.set` threw |
| `Host.HandleCall` | liveql-m4l.js:95-106 | exactly one result: succeeded with `live.call`'s value unchanged when parsing, resolution and the call succeed; failed otherwise; `actionId` as in `get`; the failure message is the parse error, the `getLive` error, or the error `live.call` threw |
| `Notes.CompareNotes` | liveql-n4m.js:266-271 | negative exactly when a starts earlier, or at the same time with a lower pitch; positive for the reverse; zero when start and pitch match |
| `Notes.CompareNotesConsistent` | liveql-n4m.js:266-271 | the comparator is antisymmetric and transitive |
| `Notes.Insert` | liveql-n4m.js:275 | inserting into sorted notes gives sorted notes with one more element, the same multiset plus the new note |
| `Notes.SortNotes` | liveql-n4m.js:275 | the result is sorted by the comparator and is a permutation of the input, of the same length |
| `Notes.SortNotesDictionary` | liveql-n4m.js:273-276 | the dictionary's notes come back sorted, as a permutation of the input notes, with notes of equal start time and pitch in their input order |
| `Notes.InsertLevel` | liveql-n4m.js:275 | an inserted note goes before every note with its start time and pitch, so the note taken earlier from the input stays in front |
| `Notes.SortNotesStable` | liveql-n4m.js:275 | notes with equal start time and pitch keep their input order, as the stable `Array.prototype.sort` keeps them |
| `Notes.SortSortedIsIdentity` | liveql-n4m.js:275 | notes that are already sorted come back unchanged |
| `Notes.SortExample` | liveql-n4m.js:266-276 | `[{1,67},{0,60},{0,55}]` sorts to `[{0,55},{0,60},{1,67}]` |
| `Resolvers.GetSong` | liveql-n4m.js:241-243 | a get of `live_set` for `is_playing`, the `view` reference and the `tracks` list; it names none of `id`, `path`, `type` |
| `Resolvers.GetTrack` | liveql-n4m.js:245-247 | a get of the track for `has_midi_input` and `name` and the `clip_slots` list; it names none of `id`, `path`, `type` |
| `Resolvers.GetClipSlot` | liveql-n4m.js:249-251 | a get of the slot for `has_clip` and the `clip` reference; it names none of `id`, `path`, `type` |
| `Resolvers.GetClip` | liveql-n4m.js:253-264 | a get of the clip for its eight scalar properties, among them every property `clip_set_properties` can change; it names none of `id`, `path`, `type` |
| `Resolvers.SongView` | liveql-n4m.js:342-344 | a get of the object in the song's `view` field for the `detail_clip` and `selected_track` references only |
| `Resolvers.FetchEach` | liveql-n4m.js:346 | one fetch per element of an array field, in order; none when the field is not an array |
| `Resolvers.SongTracks` | liveql-n4m.js:345-347 | one track get per id in `tracks`, in list order, each for that id |
| `Resolvers.TrackClipSlots` | liveql-n4m.js:356 | one clip slot get per id in `clip_slots`, in list order, each for that id |
| `Resolvers.ChildTarget` | liveql-n4m.js:350-359 | a child id is fetched exactly when the field is truthy; null, 0, "" and an absent field never become a target |
| `Resolvers.DetailClip` | liveql-n4m.js:350-351 | no action unless `detail_clip` is truthy; otherwise one clip get for that id, never id 0 |
| `Resolvers.SelectedTrack` | liveql-n4m.js:352-353 | no action unless `selected_track` is truthy; otherwise one track get for that id, never id 0 |
| `Resolvers.ClipSlotClip` | liveql-n4m.js:359 | no action unless `clip` is truthy; otherwise one clip get for that id, never id 0 |
| `Resolvers.GetNotesExtended` | liveql-n4m.js:278-287 | a call on the clip whose arguments are `"get_notes_extended"` followed by the four range arguments in order |
| `Resolvers.NotesRequest` | liveql-n4m.js:362-374 | no action unless `is_midi_clip` is truthy; otherwise a call on the clip's id with pitch 0, span 128, time 0, and span = `length` (null when absent) |
| `Resolvers.NotesField` | liveql-n4m.js:362-374 | null exactly when no action is issued; otherwise the reply's notes, sorted, as a permutation, stably |
| `Resolvers.NotesQueryResult` | liveql-n4m.js:327-331 | `clip_get_notes_extended` and `clip_get_selected_notes_extended` return the reply's notes sorted by start time and pitch, as a permutation, with level notes in reply order |
| `Resolvers.PropertySets` | liveql-n4m.js:309-315 | each action is a set on the given id, for a listed key with a defined value, carrying that value; none when no listed key is defined |
| `Resolvers.PropertySetsComplete` | liveql-n4m.js:309-315 | every listed key with a defined value gets its set |
| `Resolvers.PropertySetsOrdered` | liveql-n4m.js:309-315 | the sets follow the key list's order |
| `Resolvers.ClipSetPropertiesActions` | liveql-n4m.js:308-318 | one set per defined field among `name`, `signature_denominator`, `signature_numerator`, in that order, each with its value (null included); no set when none is defined; always ending with one get of the same clip |
| `Resolvers.ClipSetPropertiesExamples` | liveql-n4m.js:308-318 | `{name:"A"}` gives one set then the get; `{}` gives the get alone |
| `Resolvers.MutationActions` | liveql-n4m.js:295-340 | every action before the last is a call or set on the mutation's id; each node mutation other than `clip_set_properties` issues exactly one change, naming its Live method and passing the mutation's arguments in order, then one re-read (the song for play/stop, the track for the name, the clip otherwise); `clip_set_properties` issues its planned sets and re-read; the notes queries issue their single call and nothing else |
| `Bridge.ReplyCorrelates` | liveql-n4m.js:58-73 | the host's reply carries the message's own id, so it finds that action's entry and no other; it resolves on success and rejects with the host's message on failure |
| `Bridge.ChildFetchFromSnapshot` | liveql-m4l.js:65-68 | a child reference from a host snapshot is fetched exactly when element 1 of the read is truthy, and then by that id |
| `Bridge.NodeSnapshotHasBase` | liveql-m4l.js:49-53 | a snapshot for a get that names none of `id`, `path`, `type` holds the object's id, path and type |
| `Bridge.ClipSetPropertiesRereads` | liveql-n4m.js:308-318 | the re-read that ends `clip_set_properties` is a get of the same clip that names every property set before it |
| `Bridge.ClipSlotClipFromHost` | liveql-n4m.js:359 | for a clip slot snapshot, `ClipSlot.clip` fetches the clip by element 1 of the host's `clip` read; an empty slot (id 0) issues no action |

## Left out

- `Max.outlet`, `Max.post`, `Max.addHandler` and the host's `outlet(0, ...)`. Emitting is an append to a sequence or a returned message. The "failed result" log line the client posts before rejecting is not modelled.
- Asynchronous scheduling. The awaits on `Max.outlet` and `Max.post` are not modelled, nor is `Promise.all`. Results are handled one at a time. A rejection is recorded in the log as soon as its result is handled.
- `Resolvers.MutationActions`: gives the actions issued when every awaited action succeeds. A failed set or call stops the resolver before the re-fetch, and this is not stated.
- `Resolvers.ClipSetPropertiesActions`: the final get is issued only after all sets succeed (`Promise.all`). The sets are dispatched in the order stated, but their effect order on the host is not modelled.
- The unhandled TypeError that the `result` handler raises for an unknown id is not modelled. The handler simply changes nothing.
- The stray global writes `resolveResult` and `rejectResult`. They are dead assignments.
- The debug handlers `fee`, `fi`, `fo` and `fum`.
- The Apollo server, the schema text and the default field resolvers that copy snapshot fields into graph nodes. The query entry point is the `GetSong` action.
- JSON text. Messages are structured values, and a parse failure is an `Unparsable` input carrying the error text. A field the host finds undefined is read as null, so `"id undefined"` and `"id null"` are not told apart.
- The LiveAPI object itself. Path resolution, `live.set` and `live.call` are abstract functions. `live.get` always returns an array or throws. `live.id` is a decimal string in the host; it is modelled as the natural number that string denotes, so the check `=== "0"` is `id == 0` and `parseInt(live.id)` is that number.
- Floating-point numbers. Numbers and times are integers; NaN and an undefined `start_time` are not modelled.
