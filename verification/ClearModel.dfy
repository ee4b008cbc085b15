/** Clearing done sessions through the engine: which source each removal is routed
    to, and what one bulk command does instead. */
module ClearModel {
  import opened Prelude
  import opened Domain
  import opened StateFile
  import PM = PushModel

  /** A registered source, by value: the state file, or the push store. */
  datatype Source =
    | FileSource(id: string, path: string, file: Content, writable: bool)
    | PushSource(id: string, hub: PM.Hub)

  predicate Bulk(s: Source) { s.PushSource? }

  /** The source after `RemoveSession(id)`, and whether the command succeeded. */
  function RemoveOne(s: Source, id: string): Source {
    match s
    case FileSource(_, _, file, writable) =>
      if Editable(file) && Holds(file, id) && writable then s.(file := Without(file, {id})) else s
    case PushSource(_, hub) => s.(hub := PM.Remove(hub, id))
  }

  predicate RemoveSucceeds(s: Source, id: string) {
    s.FileSource? ==> Editable(s.file) && (Holds(s.file, id) ==> s.writable)
  }

  /** `sources.iter().find(|s| s.id() == id)`. */
  function Find(sources: seq<Source>, id: string): (r: Option<nat>)
    ensures r.Some? ==> r.value < |sources| && sources[r.value].id == id
  {
    if sources == [] then None
    else if sources[0].id == id then Some(0)
    else
      var rest := Find(sources[1..], id);
      if rest.Some? then Some(rest.value + 1) else None
  }

  /** `dispatch(RemoveSession(key))`. */
  function Dispatched(sources: seq<Source>, key: SessionKey): seq<Source> {
    var i := Find(sources, key.source);
    if i.Some? then sources[i.value := RemoveOne(sources[i.value], key.sessionId)] else sources
  }

  predicate DispatchSucceeds(sources: seq<Source>, key: SessionKey) {
    var i := Find(sources, key.source);
    i.Some? && RemoveSucceeds(sources[i.value], key.sessionId)
  }

  /** A removal reaches the first source with the key's id and no other, and fails if
      there is none. */
  lemma {:induction false} FirstOwner(sources: seq<Source>, key: SessionKey, i: nat)
    requires i < |sources| ==> sources[i].id == key.source
    requires i <= |sources| && forall j :: 0 <= j < i ==> sources[j].id != key.source
    ensures Find(sources, key.source) == if i < |sources| then Some(i) else None
    ensures i < |sources| ==> Dispatched(sources, key) == sources[i := RemoveOne(sources[i], key.sessionId)]
    ensures i == |sources| ==> Dispatched(sources, key) == sources && !DispatchSucceeds(sources, key)
    decreases |sources|
  {
    if i > 0 {
      FirstOwner(sources[1..], key, i - 1);
    }
  }

  /** What removing one session does to a source, and when it succeeds: a push store
      forgets it whether it has it or not; a file loses that entry if it can be parsed and
      written, and only an entry that cannot be written makes a parsed file fail. */
  lemma RemovalOutcome(s: Source, id: string)
    ensures s.PushSource? ==> RemoveSucceeds(s, id) && RemoveOne(s, id) == s.(hub := PM.Remove(s.hub, id))
    ensures s.FileSource? ==>
      var readable := s.file.Absent? || (s.file.Json? && !s.file.marked);
      var there := s.file.Json? && s.file.document.sessions.Some? && id in s.file.document.sessions.value;
      && (RemoveSucceeds(s, id) <==> readable && (there ==> s.writable))
      && (!readable || !there || !s.writable ==> RemoveOne(s, id) == s)
      && (readable && there && s.writable ==>
            RemoveOne(s, id) == s.(file := Json(false, s.file.document.(
              sessions := Some(s.file.document.sessions.value - {id})))))
  {
  }

  function ClearEach(sources: seq<Source>, keys: seq<SessionKey>): seq<Source> {
    if keys == [] then sources
    else Dispatched(ClearEach(sources, keys[..|keys| - 1]), keys[|keys| - 1])
  }

  function Successes(sources: seq<Source>, keys: seq<SessionKey>): nat {
    if keys == [] then 0
    else
      var rest := keys[..|keys| - 1];
      Successes(sources, rest) + if DispatchSucceeds(ClearEach(sources, rest), keys[|keys| - 1]) then 1 else 0
  }

  function KeysOf(models: seq<Session>): seq<SessionKey> {
    MapSeq(models, (s: Session) => s.key)
  }

  predicate ModelDone(s: Session) { s.isDone }

  /** The keys `clear_done` acts on: the done models, in rendered order. */
  function DoneKeys(models: seq<Session>): seq<SessionKey> {
    KeysOf(Filter(models, ModelDone))
  }

  // -------------------------------------------------------------- routing

  function Mine(keys: seq<SessionKey>, source: string): seq<string> {
    if keys == [] then []
    else Mine(keys[..|keys| - 1], source) +
         if keys[|keys| - 1].source == source then [keys[|keys| - 1].sessionId] else []
  }

  function RemoveEach(s: Source, ids: seq<string>): Source {
    if ids == [] then s else RemoveOne(RemoveEach(s, ids[..|ids| - 1]), ids[|ids| - 1])
  }

  ghost predicate DistinctIds(sources: seq<Source>) {
    forall i, j :: 0 <= i < j < |sources| ==> sources[i].id != sources[j].id
  }

  lemma RemoveEachKeepsId(s: Source, ids: seq<string>)
    ensures RemoveEach(s, ids).id == s.id && RemoveEach(s, ids).FileSource? == s.FileSource?
  {
  }

  lemma {:induction false} FindDistinct(sources: seq<Source>, id: string, i: nat)
    requires DistinctIds(sources) && i < |sources| && sources[i].id == id
    ensures Find(sources, id) == Some(i)
  {
    if i > 0 {
      FindDistinct(sources[1..], id, i - 1);
    }
  }

  /** Every removal reaches the source that owns the session and no other: each
      source ends up with exactly its own done sessions removed. */
  lemma {:induction false} Routing(sources: seq<Source>, keys: seq<SessionKey>)
    requires DistinctIds(sources)
    ensures |ClearEach(sources, keys)| == |sources|
    ensures forall i :: 0 <= i < |sources| ==>
      ClearEach(sources, keys)[i] == RemoveEach(sources[i], Mine(keys, sources[i].id))
  {
    if keys != [] {
      var rest, key := keys[..|keys| - 1], keys[|keys| - 1];
      Routing(sources, rest);
      var mid := ClearEach(sources, rest);
      forall i | 0 <= i < |sources|
        ensures mid[i].id == sources[i].id
        ensures ClearEach(sources, keys)[i] == RemoveEach(sources[i], Mine(keys, sources[i].id))
      {
        RemoveEachKeepsId(sources[i], Mine(rest, sources[i].id));
        RouteOne(sources, rest, key, i);
      }
    }
  }

  lemma RouteOne(sources: seq<Source>, rest: seq<SessionKey>, key: SessionKey, i: nat)
    requires DistinctIds(sources) && i < |sources| && |ClearEach(sources, rest)| == |sources|
    requires forall j :: 0 <= j < |sources| ==>
      ClearEach(sources, rest)[j] == RemoveEach(sources[j], Mine(rest, sources[j].id))
    ensures Dispatched(ClearEach(sources, rest), key)[i] == RemoveEach(sources[i], Mine(rest + [key], sources[i].id))
  {
    var mid := ClearEach(sources, rest);
    forall j | 0 <= j < |sources| ensures mid[j].id == sources[j].id {
      RemoveEachKeepsId(sources[j], Mine(rest, sources[j].id));
    }
    assert (rest + [key])[..|rest|] == rest;
    var ids := Mine(rest, sources[i].id);
    if key.source == sources[i].id {
      FindDistinct(mid, key.source, i);
      assert (ids + [key.sessionId])[..|ids|] == ids;
    } else {
      assert ids + [] == ids;
    }
  }

  // ---------------------------------------------------------------- the file

  /** Removing ids one by one from an editable, writable file deletes exactly
      them: every other entry, parsed or not, and every other top-level key stays. */
  lemma {:induction false} RemoveEachFromFile(s: Source, ids: seq<string>)
    requires s.FileSource? && s.writable && s.file.Json? && !s.file.marked && s.file.document.sessions.Some?
    ensures RemoveEach(s, ids) == s.(file := Without(s.file, set id | id in ids))
  {
    var all := s.file.document.sessions.value;
    if ids == [] {
      assert all - (set id | id in ids) == all;
    } else {
      var rest, id := ids[..|ids| - 1], ids[|ids| - 1];
      assert ids == rest + [id];
      RemoveEachFromFile(s, rest);
      var gone := set x | x in rest;
      assert (set x | x in ids) == gone + {id};
      assert (all - gone) - {id} == all - (gone + {id});
      assert id !in all - gone ==> all - gone == all - (gone + {id});
    }
  }

  /** A file the commands cannot parse is never changed. */
  lemma {:induction false} RemoveEachUneditable(s: Source, ids: seq<string>)
    requires s.FileSource? && (!Editable(s.file) || !s.writable)
    ensures RemoveEach(s, ids) == s
  {
    if ids != [] {
      RemoveEachUneditable(s, ids[..|ids| - 1]);
    }
  }

  // ----------------------------------------------------------- the push store

  lemma {:induction false} RemoveEachFromPush(s: Source, ids: seq<string>)
    requires s.PushSource?
    ensures var r := RemoveEach(s, ids);
      && r.PushSource?
      && r.hub.sessions == s.hub.sessions - (set id | id in ids)
      && r.hub.owners == s.hub.owners - (set id | id in ids)
      && r.hub.lastIngest == s.hub.lastIngest && r.hub.seen == s.hub.seen
  {
    if ids != [] {
      var rest, id := ids[..|ids| - 1], ids[|ids| - 1];
      RemoveEachFromPush(s, rest);
      DroppedNext(s.hub.sessions, ids);
      DroppedNext(s.hub.owners, ids);
    }
  }

  /** Dropping one more key. */
  lemma DroppedNext<V>(m: map<string, V>, ids: seq<string>)
    requires ids != []
    ensures var n := |ids| - 1; m - (set id | id in ids[..n]) - {ids[n]} == m - (set id | id in ids)
  {
    var rest, id := ids[..|ids| - 1], ids[|ids| - 1];
    assert ids == rest + [id];
    assert (set x | x in ids) == (set x | x in rest) + {id};
  }

  /** Removing live ids one by one records the same tombstones, in the same order,
      as recording them in a batch. */
  lemma {:induction false} RemoveEachTombstones(s: Source, ids: seq<string>)
    requires s.PushSource? && NoDup(ids) && forall id :: id in ids ==> id in s.hub.sessions
    ensures RemoveEach(s, ids).PushSource?
    ensures RemoveEach(s, ids).hub.removed == PM.RememberAll(s.hub.removed, ids)
  {
    if ids != [] {
      var rest, id := ids[..|ids| - 1], ids[|ids| - 1];
      assert ids == rest + [id] && id !in rest;
      RemoveEachTombstones(s, rest);
      RemoveEachFromPush(s, rest);
      assert id in RemoveEach(s, rest).hub.sessions;
    }
  }
}
