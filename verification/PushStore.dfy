/** The in-memory push source itself: an object whose methods update the session
    map, the owner map and the tombstone list in place, each proved to take the
    transition `PushModel` describes. */
module PushStore {
  import opened Prelude
  import opened Text
  import opened Domain
  import opened StableSort
  import opened PushModel
  import opened PushHealth
  import EM = EngineModel

  /** The durable file. `writable` says whether the environment currently lets an
      atomic replace succeed; a failed write leaves the old content. */
  class Disk {
    var content: File
    var writable: bool

    constructor (content: File, writable: bool)
      ensures this.content == content && this.writable == writable
    {
      this.content := content;
      this.writable := writable;
    }
  }

  class EventPushSource {
    const lib: Library
    const source: string
    var sessions: map<string, Session>
    var owners: map<string, string>
    var removed: seq<string>
    var lastIngest: Option<int>
    var seen: bool
    var revision: nat
    var emitted: nat   // Changed signals sent to the subscribers
    var staleAfter: Option<nat>   // how long a producer may stay silent
    const durable: bool   // whether a store path was configured
    const disk: Disk

    function Here(): Site { Site(lib, source) }

    ghost function State(): Hub
      reads this
    {
      Hub(sessions, owners, removed, lastIngest, seen)
    }

    /** Rows are stored under their own id, which `persist` relies on. */
    ghost predicate Valid()
      reads this
    {
      forall id :: id in sessions ==> sessions[id].key == SessionKey(source, id)
    }

    /** The disk holds the current state, or its old content when there is no
        store path or the write failed. */
    ghost predicate Persisted(before: File)
      reads this, disk
    {
      disk.content == if durable && disk.writable then Saved(StoreOf(Here(), State())) else before
    }

    /** `with_store`: start empty, then load whatever the file holds. */
    constructor (lib: Library, source: string, durable: bool, disk: Disk)
      ensures this.lib == lib && this.source == source && this.durable == durable && this.disk == disk
      ensures Valid() && emitted == 0 && revision == 0 && staleAfter.None?
      ensures State() == Load(Here(), if durable then disk.content else Missing)
    {
      this.lib := lib;
      this.source := source;
      this.durable := durable;
      this.disk := disk;
      sessions, owners, removed, lastIngest, seen := map[], map[], [], None, false;
      revision, emitted, staleAfter := 0, 0, None;
      new;
      LoadStore();
    }

    /** `with_stale_after`. */
    method WithStaleAfter(window: Option<nat>)
      modifies `staleAfter
      ensures staleAfter == window
    {
      staleAfter := window;
    }

    method LoadStore()
      requires State() == EMPTY
      modifies `sessions, `owners, `removed, `lastIngest, `seen
      ensures Valid() && State() == Load(Here(), if durable then disk.content else Missing)
    {
      if !durable || !disk.content.Saved? {
        return;
      }
      var store := disk.content.store;
      LoadEvents(store.events);
      LoadKeepsRest(Here(), store.events);
      if sessions != map[] {
        seen := true;
      }
      LoadRest(store);
    }

    method LoadRest(store: Store)
      modifies `removed, `lastIngest
      ensures removed == Bound(store.removed)
      ensures lastIngest == if store.lastIngest.Some? then lib.parse(store.lastIngest.value) else old(lastIngest)
    {
      removed := store.removed;
      if |removed| > MAX_REMOVED {
        var excess := |removed| - MAX_REMOVED;
        removed := removed[excess..];
      }
      if store.lastIngest.Some? {
        lastIngest := lib.parse(store.lastIngest.value);
      }
    }

    method LoadEvents(events: seq<Event>)
      requires State() == EMPTY
      modifies `sessions, `owners
      ensures Valid() && State() == LoadAll(Here(), events)
    {
      var i := 0;
      while i < |events|
        invariant 0 <= i <= |events| && Valid()
        invariant State() == LoadAll(Here(), events[..i])
      {
        LoadNext(Here(), events, i);
        LoadEvent(events[i]);
        i := i + 1;
      }
      assert events[..i] == events;
    }

    method LoadEvent(event: Event)
      requires Valid()
      modifies `sessions, `owners
      ensures Valid() && State() == LoadOne(Here(), old(State()), event)
    {
      sessions := sessions[event.sessionId := Normalize(Here(), event)];
      if event.producer.Some? {
        owners := owners[event.sessionId := event.producer.value];
      }
    }

    /** Write the live set, sorted by session id whatever order the hash map
        yields it in. Failures are ignored. */
    method Persist()
      requires Valid()
      modifies disk`content
      ensures Persisted(old(disk.content))
    {
      if !durable {
        return;
      }
      ghost var saved := SavedRow(State());
      var order := Enumerate(sessions.Keys);
      var events := [];
      var i := 0;
      while i < |order|
        invariant 0 <= i <= |order| && events == MapSeq(order[..i], saved)
      {
        assert order[i] in order;
        var session := sessions[order[i]];
        var producer := if session.key.sessionId in owners then Some(owners[session.key.sessionId]) else None;
        assert ToEvent(session, producer) == saved(order[i]);
        events := events + [ToEvent(session, producer)];
        i := i + 1;
      }
      assert order[..i] == order;
      events := Sort(events, EventIdLe);
      SortSaved(State(), order);
      var store := Store(if lastIngest.Some? then Some(lib.render(lastIngest.value)) else None, events, removed);
      if disk.writable {
        disk.content := Saved(store);
      }
    }

    /** Drop the tombstone of `id`, if there is one. */
    method ForgetRemoved(id: string)
      modifies `removed
      ensures removed == Forget(old(removed), id)
    {
      var position := 0;
      while position < |removed| && removed[position] != id
        invariant 0 <= position <= |removed| && removed == old(removed)
        invariant Forget(removed, id) == removed[..position] + Forget(removed[position..], id)
      {
        ForgetPast(removed, id, position);
        position := position + 1;
      }
      ForgetHere(removed, id, position);
      if position < |removed| {
        removed := removed[..position] + removed[position + 1..];
      }
    }

    method RememberRemoved(id: string)
      modifies `removed
      ensures removed == Remember(old(removed), id)
    {
      if id in removed {
        return;
      }
      removed := removed + [id];
      if |removed| > MAX_REMOVED {
        var excess := |removed| - MAX_REMOVED;
        removed := removed[excess..];
      }
    }

    /** One event: insert the row when it differs, then record or drop its owner. */
    method UpsertEvent(event: Event) returns (different: bool)
      requires Valid()
      modifies `sessions, `owners
      ensures Valid()
      ensures State() == UpsertOne(Here(), old(State()), event)
      ensures different == Differs(Here(), old(State()), event)
    {
      var next := Normalize(Here(), event);
      different := !(event.sessionId in sessions && sessions[event.sessionId] == next);
      if different {
        sessions := sessions[event.sessionId := next];
      } else {
        assert sessions == sessions[event.sessionId := next];
      }
      if event.producer.Some? {
        owners := owners[event.sessionId := event.producer.value];
      } else {
        owners := owners - {event.sessionId};
      }
    }

    /** The upsert loop shared by both ingest modes. */
    method UpsertBatch(events: seq<Event>) returns (changed: bool)
      requires Valid()
      modifies `sessions, `owners
      ensures Valid()
      ensures State() == UpsertAll(Here(), old(State()), events)
      ensures changed == UpsertsChange(Here(), old(State()), events)
    {
      ghost var start := State();
      changed := false;
      var i := 0;
      while i < |events|
        invariant 0 <= i <= |events| && Valid()
        invariant State() == UpsertAll(Here(), start, events[..i])
        invariant changed == UpsertsChange(Here(), start, events[..i])
      {
        var different := UpsertNth(events, i, start);
        changed := changed || different;
        i := i + 1;
      }
      assert events[..i] == events;
    }

    /** One turn of that loop. */
    method UpsertNth(events: seq<Event>, i: nat, ghost start: Hub) returns (different: bool)
      requires Valid() && i < |events| && State() == UpsertAll(Here(), start, events[..i])
      modifies `sessions, `owners
      ensures Valid() && State() == UpsertAll(Here(), start, events[..i + 1])
      ensures UpsertsChange(Here(), start, events[..i + 1]) ==
              (UpsertsChange(Here(), start, events[..i]) || different)
    {
      UpsertNext(Here(), start, events, i);
      different := UpsertEvent(events[i]);
    }

    /** The common end of both ingest modes: note that something was received,
        persist, and signal a change once. */
    method FinishIngest(received: bool, changed: bool)
      requires Valid()
      modifies `seen, `emitted, disk`content
      ensures Valid() && State() == old(State()).(seen := old(seen) || received)
      ensures emitted == old(emitted) + if changed then 1 else 0
      ensures Persisted(old(disk.content))
    {
      if received {
        seen := true;
      }
      Persist();
      if changed {
        emitted := emitted + 1;
      }
    }

    /** The tombstone half of an upsert batch. */
    method ForgetBatch(events: seq<Event>)
      modifies `removed
      ensures removed == ForgetAll(old(removed), events)
    {
      ghost var start := removed;
      var i := 0;
      while i < |events|
        invariant 0 <= i <= |events|
        invariant removed == ForgetAll(start, events[..i])
      {
        ForgetNext(start, events, i);
        ForgetRemoved(events[i].sessionId);
        i := i + 1;
      }
      assert events[..i] == events;
    }

    /** An explicit upsert is real activity, so it clears tombstones first. */
    method IngestBatch(events: seq<Event>, now: int) returns (changed: bool)
      requires Valid()
      modifies `sessions, `owners, `removed, `lastIngest
      ensures Valid() && State() == Ingest(Here(), old(State()), events, now)
      ensures changed == UpsertsChange(Here(), old(State()), events)
    {
      ghost var start := State();
      lastIngest := Some(now);
      ForgetBatch(events);
      UpsertIgnoresRest(Here(), start, State(), events);
      changed := UpsertBatch(events);
    }

    method ApplyUpserts(events: seq<Event>, now: int) returns (accepted: nat)
      requires Valid()
      modifies `sessions, `owners, `removed, `lastIngest, `seen, `emitted, disk`content
      ensures Valid() && accepted == |events|
      ensures State() == Apply(Here(), old(State()), events, now)
      ensures emitted == old(emitted) + if UpsertsChange(Here(), old(State()), events) then 1 else 0
      ensures Persisted(old(disk.content))
    {
      var changed := IngestBatch(events, now);
      FinishIngest(events != [], changed);
      accepted := |events|;
    }

    /** Drop the batch producer's sessions that the batch no longer lists, then
        the owners of sessions that are gone. */
    method PruneFor(producer: Option<string>, admitted: seq<Event>, ghost events: seq<Event>) returns (shrunk: bool)
      requires Valid()
      requires producer == BatchProducer(events) && admitted == Admitted(State(), events)
      modifies `sessions, `owners
      ensures Valid() && State() == Prune(old(State()), events)
      ensures shrunk == (|sessions| != |old(sessions)|)
    {
      var keep := set e | e in admitted :: e.sessionId;
      var before := |sessions|;
      DropUnlisted(producer, keep, events);
      shrunk := |sessions| != before;
      DropOrphans();
    }

    method DropUnlisted(producer: Option<string>, keep: set<string>, ghost events: seq<Event>)
      requires producer == BatchProducer(events) && keep == Ids(Admitted(State(), events))
      modifies `sessions
      ensures sessions == Prune(old(State()), events).sessions
    {
      SurvivorsAre(State(), events, keep, producer);
      sessions := map id | id in sessions &&
        (id in keep || producer.None? || (if id in owners then Some(owners[id]) else None) != producer) :: sessions[id];
    }

    method DropOrphans()
      modifies `owners
      ensures owners == map id | id in old(owners) && id in sessions :: old(owners)[id]
    {
      owners := map id | id in owners && id in sessions :: owners[id];
    }

    /** A heartbeat must not resurrect a session the user removed: tombstoned
        events are filtered out before the prune and the upserts. */
    method ResyncBatch(events: seq<Event>, now: int) returns (changed: bool)
      requires Valid()
      modifies `sessions, `owners, `lastIngest
      ensures Valid() && State() == Resync(Here(), old(State()), events, now)
      ensures changed == SnapshotChanges(Here(), old(State()), events, now)
    {
      lastIngest := Some(now);
      var producer := FindProducer(events);
      var admitted := Filter(events, NotIn(removed));
      var shrunk := PruneFor(producer, admitted, events);
      var upserted := UpsertBatch(admitted);
      changed := shrunk || upserted;
    }

    method ApplySnapshotBatch(events: seq<Event>, now: int) returns (accepted: nat)
      requires Valid()
      modifies `sessions, `owners, `lastIngest, `seen, `emitted, disk`content
      ensures Valid() && accepted == |events|
      ensures State() == ApplySnapshot(Here(), old(State()), events, now)
      ensures emitted == old(emitted) + if SnapshotChanges(Here(), old(State()), events, now) then 1 else 0
      ensures Persisted(old(disk.content))
    {
      accepted := |events|;
      var changed := ResyncBatch(events, now);
      FinishIngest(accepted > 0, changed);
    }

    /** `find_map` over the batch. */
    method FindProducer(events: seq<Event>) returns (producer: Option<string>)
      ensures producer == BatchProducer(events)
    {
      producer := None;
      var i := 0;
      while i < |events|
        invariant 0 <= i <= |events| && producer.None?
        invariant BatchProducer(events) == BatchProducer(events[i..])
      {
        if events[i].producer.Some? {
          return events[i].producer;
        }
        assert events[i..][1..] == events[i + 1..];
        i := i + 1;
      }
    }

    method RemoveSession(id: string) returns (existed: bool)
      requires Valid()
      modifies `sessions, `owners, `removed, `lastIngest, `seen, `emitted, disk`content
      ensures Valid() && existed == (id in old(sessions))
      ensures State() == Remove(old(State()), id)
      ensures emitted == old(emitted) + (if existed then 1 else 0)
      ensures if existed then Persisted(old(disk.content)) else disk.content == old(disk.content)
    {
      existed := id in sessions;
      sessions := sessions - {id};
      owners := owners - {id};
      if existed {
        RememberRemoved(id);
        Persist();
        emitted := emitted + 1;
      }
    }

    /** Remove every stored `done` session. The tombstones are recorded in the
        hash map's iteration order, which `order` reports. */
    method ClearDoneSessions() returns (count: nat, order: seq<string>)
      requires Valid()
      modifies `sessions, `owners, `removed, `lastIngest, `seen, `emitted, disk`content
      ensures Valid() && Enumerates(order, DoneIds(old(State()))) && count == |order|
      ensures State() == ClearDone(old(State()), order)
      ensures emitted == old(emitted) + (if count > 0 then 1 else 0)
      ensures if count > 0 then Persisted(old(disk.content)) else disk.content == old(disk.content)
    {
      count, order := DropDone();
      if count > 0 {
        RememberBatch(order);
        Persist();
        emitted := emitted + 1;
      } else {
        assert order == [];
      }
    }

    method DropDone() returns (count: nat, order: seq<string>)
      requires Valid()
      modifies `sessions, `owners
      ensures Valid() && Enumerates(order, DoneIds(old(State()))) && count == |order|
      ensures State() == ClearDone(old(State()), []) 
    {
      var before := |sessions|;
      order := Enumerate(set id | id in sessions && sessions[id].isDone);
      EnumerationLength(order, DoneIds(State()));
      KeptCount(State());
      sessions := map id | id in sessions && !sessions[id].isDone :: sessions[id];
      count := before - |sessions|;
      DropOrphans();
    }

    method RememberBatch(ids: seq<string>)
      modifies `removed
      ensures removed == RememberAll(old(removed), ids)
    {
      ghost var start := removed;
      var i := 0;
      while i < |ids|
        invariant 0 <= i <= |ids|
        invariant removed == RememberAll(start, ids[..i])
      {
        RememberNext(start, ids, i);
        RememberRemoved(ids[i]);
        i := i + 1;
      }
      assert ids[..i] == ids;
    }

    /** What the engine reads at `now`. */
    method Snapshot(now: int) returns (snapshot: EM.SourceSnapshot)
      requires Valid()
      modifies `revision
      ensures snapshot == Shown(Here(), State(), staleAfter, now)
      ensures revision == old(revision) + 1
    {
      revision := revision + 1;
      var view := CollectRows(now);
      var health := HealthNow(now);
      snapshot := EM.SourceSnapshot(source, EM.PushKind, source, health, view);
    }

    method HealthNow(now: int) returns (health: EM.Health)
      ensures health == HealthAt(Here(), State(), staleAfter, now)
    {
      if staleAfter.Some? && lastIngest.Some? && now - lastIngest.value > staleAfter.value {
        return EM.Unreadable("producer has not reported since " + lib.render(lastIngest.value));
      }
      health := if seen then EM.Ready else EM.Health.Missing;
    }

    /** The sessions shown at `now`: a copy in which stale ones are done, sorted by id. */
    method CollectRows(now: int) returns (view: seq<Session>)
      requires Valid()
      ensures view == View(State(), now)
    {
      ghost var viewRow := ViewRow(State(), now);
      var order := Enumerate(sessions.Keys);
      var copy: seq<Session> := [];
      var i := 0;
      while i < |order|
        invariant 0 <= i <= |order| && copy == MapSeq(order[..i], viewRow)
      {
        assert order[i] in order;
        var session := sessions[order[i]];
        if !session.isDone && session.updatedAt.Some? &&
           session.updatedAt.value <= now - STALE_AFTER_HOURS * NANOS_PER_HOUR {
          session := session.(status := Done, isDone := true);
        }
        assert session == viewRow(order[i]);
        copy := copy + [session];
        i := i + 1;
      }
      assert order[..i] == order;
      view := Sort(copy, KeyLe);
      SortView(State(), now, order);
    }
  }

  predicate KeyLe(a: Session, b: Session) {
    StringLe(a.key.sessionId, b.key.sessionId)
  }

  predicate EventIdLe(a: Event, b: Event) {
    StringLe(a.sessionId, b.sessionId)
  }

  lemma KeptCount(h: Hub)
    ensures |map id | id in h.sessions && !h.sessions[id].isDone :: h.sessions[id]| == |h.sessions| - |DoneIds(h)|
  {
    var kept := map id | id in h.sessions && !h.sessions[id].isDone :: h.sessions[id];
    assert kept.Keys == h.sessions.Keys - DoneIds(h);
    assert |kept.Keys| == |h.sessions.Keys| - |DoneIds(h)|;
  }

  /** Sorting the copied rows by their key is sorting the ids. */
  lemma SortView(h: Hub, now: int, order: seq<string>)
    requires Enumerates(order, h.sessions.Keys)
    requires forall id :: id in h.sessions ==> h.sessions[id].key.sessionId == id
    ensures Sort(MapSeq(order, ViewRow(h, now)), KeyLe) == View(h, now)
  {
    var row := ViewRow(h, now);
    SortedIdsCharacter(h.sessions.Keys, order);
    forall id | id in order ensures row(id).key.sessionId == id {
      assert id in h.sessions;
    }
    RowOrder(order, row);
    SortMap(order, row, IdLe, KeyLe);
  }

  lemma RowOrder(order: seq<string>, row: string -> Session)
    requires forall id :: id in order ==> row(id).key.sessionId == id
    ensures SameOrder(order, row, IdLe, KeyLe)
  {
  }

  lemma SavedOrder(order: seq<string>, row: string -> Event)
    requires forall id :: id in order ==> row(id).sessionId == id
    ensures SameOrder(order, row, IdLe, EventIdLe)
  {
  }

  lemma SortSaved(h: Hub, order: seq<string>)
    requires Enumerates(order, h.sessions.Keys)
    requires forall id :: id in h.sessions ==> h.sessions[id].key.sessionId == id
    ensures Sort(MapSeq(order, SavedRow(h)), EventIdLe) == MapSeq(SortedIds(h.sessions.Keys), SavedRow(h))
  {
    var row := SavedRow(h);
    SortedIdsCharacter(h.sessions.Keys, order);
    forall id | id in order ensures row(id).sessionId == id {
      assert id in h.sessions;
    }
    SavedOrder(order, row);
    SortMap(order, row, IdLe, EventIdLe);
  }

  lemma {:induction false} LoadKeepsRest(site: Site, events: seq<Event>)
    ensures var r := LoadAll(site, events); r == EMPTY.(sessions := r.sessions, owners := r.owners)
  {
    if events != [] {
      LoadKeepsRest(site, events[..|events| - 1]);
    }
  }

  lemma {:induction false} ForgetPast(removed: seq<string>, id: string, i: nat)
    requires i < |removed| && removed[i] != id
    ensures removed[..i] + Forget(removed[i..], id) == removed[..i + 1] + Forget(removed[i + 1..], id)
  {
    assert removed[i..][1..] == removed[i + 1..] && removed[..i + 1] == removed[..i] + [removed[i]];
    Regroup(removed[..i], [removed[i]], Forget(removed[i + 1..], id));
  }

  lemma {:induction false} ForgetHere(removed: seq<string>, id: string, i: nat)
    requires i <= |removed| && (i < |removed| ==> removed[i] == id)
    ensures removed[..i] + Forget(removed[i..], id) ==
            if i < |removed| then removed[..i] + removed[i + 1..] else removed
  {
    if i < |removed| {
      assert removed[i..][1..] == removed[i + 1..];
    } else {
      assert removed[i..] == [] && removed[..i] == removed;
    }
  }

  lemma SurvivorsAre(h: Hub, events: seq<Event>, keep: set<string>, producer: Option<string>)
    requires keep == Ids(Admitted(h, events)) && producer == BatchProducer(events)
    ensures forall id :: Survives(h, events, id) == (id in keep || producer.None? || Owner(h, id) != producer)
  {
  }

  /** Upserts neither read nor write the other fields. */
  lemma {:induction false} UpsertIgnoresRest(site: Site, a: Hub, b: Hub, events: seq<Event>)
    requires a.sessions == b.sessions && a.owners == b.owners
    ensures UpsertAll(site, b, events) ==
            UpsertAll(site, a, events).(removed := b.removed, lastIngest := b.lastIngest, seen := b.seen)
    ensures UpsertsChange(site, a, events) == UpsertsChange(site, b, events)
  {
    if events != [] {
      UpsertIgnoresRest(site, a, b, events[..|events| - 1]);
    }
  }
}
