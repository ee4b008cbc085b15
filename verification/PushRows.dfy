/** What the push store holds and shows, in terms of the events it was sent: the row an
    event is stored as, the effect of each kind of batch on a session, the rows a read
    yields, and what an arbitrary durable file loads to. */
module PushRows {
  import opened Prelude
  import opened Text
  import opened Domain
  import opened StableSort
  import opened PushModel
  import opened PushFacts

  /** No text, or nothing but white space. */
  predicate Empty(lib: Library, text: Option<string>) {
    text.None? || Trim(lib, text.value) == ""
  }

  function Cleaned(lib: Library, text: Option<string>): Option<string> {
    if Empty(lib, text) then None else Some(Trim(lib, text.value))
  }

  /** The row that says what an event says: texts are trimmed, blank ones count as
      missing, and a session without a name is called by the start of its id. */
  predicate Stores(site: Site, e: Event, s: Session) {
    && s.key == SessionKey(site.source, e.sessionId)
    && s.status == e.status && s.isDone == (e.status == Done) && s.subagent == e.subagent
    && s.name == (if !Empty(site.lib, e.name) then Trim(site.lib, e.name.value)
                  else "Session " + if |e.sessionId| > 8 then e.sessionId[..8] else e.sessionId)
    && s.project == Cleaned(site.lib, e.projectPath) && s.harness == Cleaned(site.lib, e.harness)
    && s.badge == (if s.harness.None? then None
                   else Some(site.lib.lower(if |s.harness.value| > 2 then s.harness.value[..2] else s.harness.value)))
    && s.lastUpdated == (if e.lastUpdated.Some? then e.lastUpdated.value else "")
    && s.updatedAt == (if e.lastUpdated.Some? then site.lib.parse(e.lastUpdated.value) else None)
    && s.url == (if Empty(site.lib, e.url) then None else e.url)
  }

  lemma EventStored(site: Site, e: Event)
    ensures Stores(site, e, Normalize(site, e))
  {
    if !Empty(site.lib, e.harness) {
      var h := Trim(site.lib, e.harness.value);
      TrimCharacter(site.lib, e.harness.value);
      TrimCharacter(site.lib, h);
      assert |h| == 2 ==> h[..2] == h;
    }
    assert |e.sessionId| == 8 ==> e.sessionId[..8] == e.sessionId;
  }

  // ----------------------------------------------------------------- batches

  /** `events[k]` is the last word of the batch on its session. */
  ghost predicate LastWord(events: seq<Event>, k: int) {
    0 <= k < |events| && forall j :: k < j < |events| ==> events[j].sessionId != events[k].sessionId
  }

  lemma {:induction false} LastWordFor(events: seq<Event>, k: int)
    requires LastWord(events, k)
    ensures LastFor(events, events[k].sessionId) == Some(events[k])
  {
    var n := |events| - 1;
    if k < n {
      assert events[n].sessionId != events[k].sessionId;
      assert forall j :: k < j < n ==> events[..n][j] == events[j];
      LastWordFor(events[..n], k);
    }
  }

  /** The hub holds what the event says, for the producer it names. */
  predicate Holds(site: Site, h: Hub, e: Event) {
    e.sessionId in h.sessions && Stores(site, e, h.sessions[e.sessionId]) && Owner(h, e.sessionId) == e.producer
  }

  predicate Same(a: Hub, b: Hub, id: string) {
    && (id in b.sessions <==> id in a.sessions) && (id in a.sessions ==> b.sessions[id] == a.sessions[id])
    && Owner(b, id) == Owner(a, id)
  }

  predicate Mentioned(events: seq<Event>, id: string) {
    exists e :: e in events && e.sessionId == id
  }

  /** An upsert batch: each session is as the last event on it says, whatever was removed
      before; the others are as they were, and no tombstone of a session it mentions is
      left. */
  lemma UpsertMeaning(site: Site, h: Hub, events: seq<Event>, now: int, k: int, id: string)
    requires Inv(site, h)
    ensures var r := Apply(site, h, events, now);
      && (LastWord(events, k) ==> Holds(site, r, events[k]))
      && (!Mentioned(events, id) ==> Same(h, r, id))
      && (id in r.removed <==> id in h.removed && !Mentioned(events, id))
      && r.lastIngest == Some(now)
  {
    if LastWord(events, k) {
      LastWordFor(events, k);
      ApplyAt(site, h, events, now, events[k].sessionId);
      EventStored(site, events[k]);
    }
    ApplyAt(site, h, events, now, id);
    ForgetAllAt(h.removed, events);
  }

  /** `p` is the first producer the batch names. */
  ghost predicate FirstNamed(events: seq<Event>, p: string) {
    exists k :: NamedFirst(events, p, k)
  }

  /** `events[k]` names `p`, and none before it names any. */
  ghost predicate NamedFirst(events: seq<Event>, p: string, k: int) {
    0 <= k < |events| && events[k].producer == Some(p) && forall j :: 0 <= j < k ==> events[j].producer.None?
  }

  lemma {:induction false} FirstNamedIs(events: seq<Event>, p: string)
    ensures FirstNamed(events, p) <==> BatchProducer(events) == Some(p)
  {
    if events != [] {
      var rest := events[1..];
      FirstNamedIs(rest, p);
      if events[0].producer.None? {
        if k :| NamedFirst(events, p, k) {
          assert rest[k - 1] == events[k] && forall j :: 0 <= j < k - 1 ==> rest[j] == events[j + 1];
          assert NamedFirst(rest, p, k - 1);
        }
        if k :| NamedFirst(rest, p, k) {
          assert events[k + 1] == rest[k] && forall j :: 0 < j < k + 1 ==> events[j] == rest[j - 1];
          assert NamedFirst(events, p, k + 1);
        }
      } else if events[0].producer == Some(p) {
        assert NamedFirst(events, p, 0);
      }
    }
  }

  /** A snapshot: a removed session stays removed, of the rest each listed one is as the
      last event on it says, and a live one that is not listed stays exactly when it is
      not owned by the first producer the batch names. */
  lemma SnapshotMeaning(site: Site, h: Hub, events: seq<Event>, now: int, k: int, id: string)
    requires Inv(site, h)
    ensures var r := ApplySnapshot(site, h, events, now);
      && r.removed == h.removed && r.lastIngest == Some(now)
      && (id in h.removed ==> id !in r.sessions)
      && (LastWord(events, k) && events[k].sessionId !in h.removed ==> Holds(site, r, events[k]))
      && (!Mentioned(events, id) ==>
            if id in h.sessions && (exists p :: FirstNamed(events, p) && Owner(h, id) == Some(p)) then id !in r.sessions
            else Same(h, r, id))
  {
    SnapshotAt(site, h, events, now, id);
    SnapshotOwners(site, h, events, now, id);
    if LastWord(events, k) {
      LastWordFor(events, k);
      SnapshotAt(site, h, events, now, events[k].sessionId);
      EventStored(site, events[k]);
    }
    forall p ensures FirstNamed(events, p) <==> BatchProducer(events) == Some(p) {
      FirstNamedIs(events, p);
    }
  }

  // ------------------------------------------------------------------- reads

  /** A day has passed since the time the session carries. */
  predicate DayOld(s: Session, now: int) {
    s.updatedAt.Some? && s.updatedAt.value + 24 * 3_600_000_000_000 <= now
  }

  /** A read shows every live session once, under ascending ids: as it is stored, except
      that a session a day old is done. */
  lemma ViewExactly(h: Hub, now: int)
    ensures var ids := SortedIds(h.sessions.Keys);
      && |View(h, now)| == |ids| && Enumerates(ids, h.sessions.Keys)
      && (forall i, j :: 0 <= i < j < |ids| ==> Precedes(ids[i], ids[j]))
      && (forall i :: 0 <= i < |ids| && ids[i] in h.sessions ==>
            var s := h.sessions[ids[i]];
            View(h, now)[i] == if !s.isDone && DayOld(s, now) then s.(status := Done, isDone := true) else s)
  {
    var ids := SortedIds(h.sessions.Keys);
    SortedIdsCharacter(h.sessions.Keys, Listing(h.sessions.Keys));
    IdOrder();
    SortSorted(Listing(h.sessions.Keys), IdLe);
    forall i, j | 0 <= i < j < |ids| ensures Precedes(ids[i], ids[j]) {
      assert IdLe(ids[i], ids[j]);
      LeMeaning(ids[i], ids[j]);
    }
  }

  /** `a` is a proper prefix of `b`, or smaller at the first character that differs. */
  ghost predicate Precedes(a: string, b: string) {
    (a < b) || exists k :: 0 <= k < |a| && k < |b| && a[..k] == b[..k] && a[k] < b[k]
  }

  lemma {:induction false} LeMeaning(a: string, b: string)
    requires StringLe(a, b) && a != b
    ensures Precedes(a, b)
  {
    if a != [] && a[0] == b[0] {
      assert a == [a[0]] + a[1..] && b == [b[0]] + b[1..];
      LeMeaning(a[1..], b[1..]);
      if k :| 0 <= k < |a[1..]| && k < |b[1..]| && a[1..][..k] == b[1..][..k] && a[1..][k] < b[1..][k] {
        assert a[..k + 1] == [a[0]] + a[1..][..k] && b[..k + 1] == [b[0]] + b[1..][..k];
      }
    } else if a != [] {
      assert a[..0] == b[..0];
    }
  }

  // ----------------------------------------------------------------- loading

  /** The last event on the session that names a producer. */
  ghost predicate LastNaming(events: seq<Event>, k: int) {
    0 <= k < |events| && events[k].producer.Some? &&
    forall j :: k < j < |events| && events[j].sessionId == events[k].sessionId ==> events[j].producer.None?
  }

  lemma LoadOneAt(site: Site, h: Hub, e: Event, id: string)
    ensures var r := LoadOne(site, h, e);
      && (e.sessionId == id ==> id in r.sessions && r.sessions[id] == Normalize(site, e))
      && (e.sessionId != id ==> Same(h, r, id))
      && Owner(r, id) == if e.sessionId == id && e.producer.Some? then e.producer else Owner(h, id)
  {
  }

  /** The hub holds this row under this id. */
  predicate HoldsRow(h: Hub, id: string, s: Session) {
    id in h.sessions && h.sessions[id] == s
  }

  lemma {:induction false} LoadedLast(site: Site, events: seq<Event>, k: int, id: string, s: Session)
    requires LastWord(events, k) && id == events[k].sessionId && s == Normalize(site, events[k])
    ensures HoldsRow(LoadAll(site, events), id, s)
  {
    var n := |events| - 1;
    LoadOneAt(site, LoadAll(site, events[..n]), events[n], id);
    if k < n {
      assert events[n].sessionId != id;
      assert forall j :: k < j < n ==> events[..n][j] == events[j];
      LoadedLast(site, events[..n], k, id, s);
    }
  }

  lemma {:induction false} LoadedOwner(site: Site, events: seq<Event>, k: int, id: string)
    requires LastNaming(events, k) && id == events[k].sessionId
    ensures Owner(LoadAll(site, events), id) == events[k].producer
  {
    var n := |events| - 1;
    LoadOneAt(site, LoadAll(site, events[..n]), events[n], id);
    if k < n {
      assert events[n].sessionId == id ==> events[n].producer.None?;
      assert forall j :: k < j < n ==> events[..n][j] == events[j];
      LoadedOwner(site, events[..n], k, id);
    }
  }

  lemma {:induction false} LoadedOnly(site: Site, events: seq<Event>, id: string)
    requires id in LoadAll(site, events).sessions
    ensures Mentioned(events, id)
  {
    var n := |events| - 1;
    assert events == events[..n] + [events[n]];
    if events[n].sessionId != id {
      LoadedOnly(site, events[..n], id);
      var e :| e in events[..n] && e.sessionId == id;
      assert e in events;
    }
  }

  /** Whatever the durable file holds, loading it gives each session as the last event on
      it says, owned by the last producer an event on it names, and keeps the newest 512
      tombstones. */
  lemma LoadExactly(site: Site, store: Store, k: int)
    ensures var h := Load(site, Saved(store));
      && (LastWord(store.events, k) ==>
            store.events[k].sessionId in h.sessions &&
            Stores(site, store.events[k], h.sessions[store.events[k].sessionId]))
      && (LastNaming(store.events, k) ==> Owner(h, store.events[k].sessionId) == store.events[k].producer)
      && (forall id :: id in h.sessions ==> Mentioned(store.events, id))
      && h.removed == (if |store.removed| > 512 then store.removed[|store.removed| - 512..] else store.removed)
      && h.lastIngest == (if store.lastIngest.None? then None else site.lib.parse(store.lastIngest.value))
      && (h.seen <==> store.events != [])
  {
    if LastWord(store.events, k) {
      LoadedLast(site, store.events, k, store.events[k].sessionId, Normalize(site, store.events[k]));
      EventStored(site, store.events[k]);
    }
    if LastNaming(store.events, k) {
      LoadedOwner(site, store.events, k, store.events[k].sessionId);
    }
    forall id | id in LoadAll(site, store.events).sessions ensures Mentioned(store.events, id) {
      LoadedOnly(site, store.events, id);
    }
    SomethingLoaded(site, store.events);
  }

  lemma SomethingLoaded(site: Site, events: seq<Event>)
    ensures LoadAll(site, events).sessions == map[] <==> events == []
  {
    if events != [] {
      assert events[|events| - 1].sessionId in LoadAll(site, events).sessions;
    }
  }
}
