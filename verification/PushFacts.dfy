/** What each push-store transition means for one session id, and the invariant
    every transition keeps. */
module PushFacts {
  import opened Prelude
  import opened Text
  import opened Domain
  import opened PushModel

  // ------------------------------------------------- one id, one transition

  /** In a batch the last event about an id decides its row and owner; ids the
      batch does not mention keep theirs. */
  lemma {:induction false} UpsertAllAt(site: Site, h: Hub, events: seq<Event>, id: string)
    ensures var r, last := UpsertAll(site, h, events), LastFor(events, id);
      && (id in r.sessions <==> last.Some? || id in h.sessions)
      && (last.Some? ==> r.sessions[id] == Normalize(site, last.value) && Owner(r, id) == last.value.producer)
      && (last.None? ==> (id in h.sessions ==> r.sessions[id] == h.sessions[id]) && Owner(r, id) == Owner(h, id))
      && r.removed == h.removed && r.lastIngest == h.lastIngest && r.seen == h.seen
  {
    if events != [] {
      var rest, e := events[..|events| - 1], events[|events| - 1];
      UpsertAllAt(site, h, rest, id);
      UpsertOneAt(site, UpsertAll(site, h, rest), e, id);
    }
  }

  lemma UpsertOneAt(site: Site, h: Hub, e: Event, id: string)
    ensures var r := UpsertOne(site, h, e);
      && (id in r.sessions <==> e.sessionId == id || id in h.sessions)
      && (e.sessionId == id ==> r.sessions[id] == Normalize(site, e) && Owner(r, id) == e.producer)
      && (e.sessionId != id ==> (id in h.sessions ==> r.sessions[id] == h.sessions[id]) && Owner(r, id) == Owner(h, id))
      && r.removed == h.removed && r.lastIngest == h.lastIngest && r.seen == h.seen
  {
  }

  lemma {:induction false} LastOfAdmitted(events: seq<Event>, removed: seq<string>, id: string)
    ensures LastFor(Filter(events, NotIn(removed)), id) == if id in removed then None else LastFor(events, id)
  {
    if events != [] {
      var n := |events| - 1;
      LastOfAdmitted(events[..n], removed, id);
      FilterNext(events, n, NotIn(removed));
      assert events[..n + 1] == events;
      LastSnoc(Filter(events[..n], NotIn(removed)), events[n], id);
    }
  }

  lemma LastSnoc(events: seq<Event>, e: Event, id: string)
    ensures LastFor(events + [e], id) == if e.sessionId == id then Some(e) else LastFor(events, id)
  {
    assert (events + [e])[..|events|] == events;
  }

  /** An upsert batch, one id at a time. */
  lemma ApplyAt(site: Site, h: Hub, events: seq<Event>, now: int, id: string)
    ensures var r, last := Apply(site, h, events, now), LastFor(events, id);
      && (id in r.sessions <==> last.Some? || id in h.sessions)
      && (last.Some? ==> r.sessions[id] == Normalize(site, last.value) && Owner(r, id) == last.value.producer)
      && (last.None? ==> (id in h.sessions ==> r.sessions[id] == h.sessions[id]) && Owner(r, id) == Owner(h, id))
      && r.removed == ForgetAll(h.removed, events)
      && r.lastIngest == Some(now) && r.seen == (h.seen || events != [])
  {
    UpsertAllAt(site, h.(lastIngest := Some(now), removed := ForgetAll(h.removed, events)), events, id);
  }

  lemma SameOwners(a: Hub, b: Hub)
    requires forall id :: Owner(a, id) == Owner(b, id)
    ensures a.owners == b.owners
  {
    forall id ensures id in a.owners <==> id in b.owners
              ensures id in a.owners ==> a.owners[id] == b.owners[id] {
      assert Owner(a, id) == Owner(b, id);
    }
  }

  /** The batch's producer, if it names one, does not own `id`. */
  predicate Spared(h: Hub, events: seq<Event>, id: string) {
    BatchProducer(events).None? || Owner(h, id) != BatchProducer(events)
  }

  /** A snapshot batch, one id at a time: a listed id that is not tombstoned gets
      the batch's row; an id the batch does not admit survives exactly when the
      batch names no producer or a different producer owns it. */
  lemma SnapshotAt(site: Site, h: Hub, events: seq<Event>, now: int, id: string)
    ensures var r := ApplySnapshot(site, h, events, now);
      var last := if id in h.removed then None else LastFor(events, id);
      && (id in r.sessions <==> (last.Some? || (id in h.sessions && Spared(h, events, id))))
      && (last.Some? ==> r.sessions[id] == Normalize(site, last.value) && Owner(r, id) == last.value.producer)
      && (last.None? && id in r.sessions ==> r.sessions[id] == h.sessions[id] && Owner(r, id) == Owner(h, id))
      && r.removed == h.removed && r.lastIngest == Some(now) && r.seen == (h.seen || |events| > 0)
  {
    var start := h.(lastIngest := Some(now));
    LastOfAdmitted(events, h.removed, id);
    UpsertAllAt(site, Prune(start, events), Admitted(h, events), id);
    assert id in Ids(Admitted(h, events)) <==> LastFor(Admitted(h, events), id).Some?;
  }

  /** What one event leaves in an empty store. */
  lemma OneEventHub(site: Site, e: Event, received: int)
    ensures Apply(site, EMPTY, [e], received).sessions == map[e.sessionId := Normalize(site, e)]
  {
    assert [e][..0] == [];
    var start := EMPTY.(lastIngest := Some(received), removed := ForgetAll([], [e]));
    assert UpsertAll(site, start, [e]) == UpsertOne(site, UpsertAll(site, start, []), e);
  }

  // ------------------------------------------------------------- tombstones

  lemma {:induction false} ForgetAt(removed: seq<string>, id: string)
    requires NoDup(removed)
    ensures var r := Forget(removed, id);
      NoDup(r) && |r| <= |removed| && forall x :: x in r <==> x in removed && x != id
  {
    if removed != [] {
      ForgetAt(removed[1..], id);
      assert removed == [removed[0]] + removed[1..];
      assert removed[0] !in removed[1..];
    }
  }

  lemma {:induction false} ForgetAllAt(removed: seq<string>, events: seq<Event>)
    requires NoDup(removed)
    ensures var r := ForgetAll(removed, events);
      NoDup(r) && |r| <= |removed| && forall x :: x in r <==> x in removed && x !in Ids(events)
  {
    if events != [] {
      var rest, e := events[..|events| - 1], events[|events| - 1];
      ForgetAllAt(removed, rest);
      ForgetAt(ForgetAll(removed, rest), e.sessionId);
      assert events == rest + [e];
      assert Ids(events) == Ids(rest) + {e.sessionId};
    }
  }

  lemma RememberAt(removed: seq<string>, id: string)
    requires NoDup(removed) && |removed| <= MAX_REMOVED
    ensures var r := Remember(removed, id);
      NoDup(r) && |r| <= MAX_REMOVED && id in r && forall x :: x in r ==> x in removed || x == id
  {
    if id !in removed {
      var longer := removed + [id];
      assert NoDup(longer);
      assert Bound(longer)[|Bound(longer)| - 1] == id;
    }
  }

  lemma {:induction false} RememberAllAt(removed: seq<string>, ids: seq<string>)
    requires NoDup(removed) && |removed| <= MAX_REMOVED
    ensures var r := RememberAll(removed, ids);
      NoDup(r) && |r| <= MAX_REMOVED && forall x :: x in r ==> x in removed || x in ids
  {
    if ids != [] {
      var rest := ids[..|ids| - 1];
      RememberAllAt(removed, rest);
      RememberAt(RememberAll(removed, rest), ids[|ids| - 1]);
      assert ids == rest + [ids[|ids| - 1]];
    }
  }

  /** How many tombstones were recorded after that of `id`. */
  function Behind(removed: seq<string>, id: string): nat
    requires id in removed
  {
    if removed[0] == id then |removed| - 1 else Behind(removed[1..], id)
  }

  lemma {:induction false} BehindBound(removed: seq<string>, id: string)
    requires id in removed
    ensures Behind(removed, id) < |removed|
    ensures Behind(removed, id) == |removed| - 1 <==> removed[0] == id
  {
    if removed[0] != id {
      BehindBound(removed[1..], id);
    }
  }

  lemma {:induction false} BehindAppend(removed: seq<string>, x: string, id: string)
    requires id in removed
    ensures id in removed + [x] && Behind(removed + [x], id) == Behind(removed, id) + 1
  {
    if removed[0] != id {
      BehindAppend(removed[1..], x, id);
      assert (removed + [x])[1..] == removed[1..] + [x];
    }
  }

  lemma {:induction false} BehindLast(removed: seq<string>, id: string)
    requires id !in removed
    ensures Behind(removed + [id], id) == 0
  {
    if removed != [] {
      BehindLast(removed[1..], id);
      assert (removed + [id])[1..] == removed[1..] + [id];
    }
  }

  /** Recording one more tombstone evicts exactly the one with 511 behind it. */
  lemma EvictionExact(removed: seq<string>, x: string, id: string)
    requires NoDup(removed) && |removed| <= MAX_REMOVED && id in removed && x !in removed
    ensures id in Remember(removed, x) <==> Behind(removed, id) + 1 < MAX_REMOVED
    ensures id in Remember(removed, x) ==> Behind(Remember(removed, x), id) == Behind(removed, id) + 1
  {
    BehindBound(removed, id);
    BehindAppend(removed, x, id);
    var longer := removed + [x];
    if |longer| > MAX_REMOVED {
      assert Bound(longer) == longer[1..];
      assert longer[1..] == removed[1..] + [x];
      assert removed[0] == id ==> id !in removed[1..];
    }
  }

  lemma {:induction false} BehindForget(removed: seq<string>, x: string, id: string)
    requires NoDup(removed) && id in removed && x != id
    ensures id in Forget(removed, x) && Behind(Forget(removed, x), id) <= Behind(removed, id)
  {
    ForgetAt(removed, x);
    if removed[0] == id {
      BehindBound(Forget(removed, x), id);
    } else if removed[0] == x {
    } else {
      BehindForget(removed[1..], x, id);
      assert Forget(removed, x)[1..] == Forget(removed[1..], x);
    }
  }

  lemma {:induction false} BehindForgetAll(removed: seq<string>, events: seq<Event>, id: string)
    requires NoDup(removed) && id in removed && id !in Ids(events)
    ensures id in ForgetAll(removed, events) && Behind(ForgetAll(removed, events), id) <= Behind(removed, id)
  {
    if events != [] {
      var rest, e := events[..|events| - 1], events[|events| - 1];
      assert events == rest + [e];
      assert e in events;
      BehindForgetAll(removed, rest, id);
      ForgetAllAt(removed, rest);
      BehindForget(ForgetAll(removed, rest), e.sessionId, id);
    }
  }

  lemma {:induction false} BehindRememberAll(removed: seq<string>, ids: seq<string>, id: string)
    requires NoDup(removed) && |removed| <= MAX_REMOVED
    requires id in removed && Behind(removed, id) + |ids| < MAX_REMOVED
    ensures id in RememberAll(removed, ids)
    ensures Behind(RememberAll(removed, ids), id) <= Behind(removed, id) + |ids|
  {
    if ids != [] {
      var rest, x := ids[..|ids| - 1], ids[|ids| - 1];
      BehindRememberAll(removed, rest, id);
      RememberAllAt(removed, rest);
      if x !in RememberAll(removed, rest) {
        EvictionExact(RememberAll(removed, rest), x, id);
      }
    }
  }

  // -------------------------------------------------------------- invariant

  /** Owners only of live sessions; tombstones duplicate-free, bounded and never
      of a live session; every row in normal form under its own id. */
  ghost predicate Inv(site: Site, h: Hub) {
    && h.owners.Keys <= h.sessions.Keys
    && NoDup(h.removed) && |h.removed| <= MAX_REMOVED
    && (forall id :: id in h.removed ==> id !in h.sessions)
    && (forall id :: id in h.sessions ==> Normal(site, id, h.sessions[id]))
  }

  lemma ApplyInv(site: Site, h: Hub, events: seq<Event>, now: int)
    requires Lawful(site.lib) && Inv(site, h)
    ensures Inv(site, Apply(site, h, events, now))
  {
    var r := Apply(site, h, events, now);
    ForgetAllAt(h.removed, events);
    ApplyAt(site, h, events, now, "");
    forall id ensures id in r.owners ==> id in r.sessions
              ensures id in r.removed ==> id !in r.sessions
              ensures id in r.sessions ==> Normal(site, id, r.sessions[id])
    {
      ApplyAt(site, h, events, now, id);
      var last := LastFor(events, id);
      if last.Some? {
        NormalizeNormal(site, last.value);
      }
    }
  }

  lemma SnapshotInv(site: Site, h: Hub, events: seq<Event>, now: int)
    requires Lawful(site.lib) && Inv(site, h)
    ensures Inv(site, ApplySnapshot(site, h, events, now))
  {
    var r := ApplySnapshot(site, h, events, now);
    SnapshotAt(site, h, events, now, "");
    forall id ensures id in r.owners ==> id in r.sessions
              ensures id in r.removed ==> id !in r.sessions
              ensures id in r.sessions ==> Normal(site, id, r.sessions[id])
    {
      SnapshotAt(site, h, events, now, id);
      SnapshotOwners(site, h, events, now, id);
      var last := LastFor(events, id);
      if last.Some? {
        NormalizeNormal(site, last.value);
      }
    }
  }

  lemma SnapshotOwners(site: Site, h: Hub, events: seq<Event>, now: int, id: string)
    ensures id in ApplySnapshot(site, h, events, now).owners ==> id in ApplySnapshot(site, h, events, now).sessions
  {
    UpsertAllAt(site, Prune(h.(lastIngest := Some(now)), events), Admitted(h, events), id);
  }

  lemma RemoveInv(site: Site, h: Hub, id: string)
    requires Inv(site, h)
    ensures Inv(site, Remove(h, id))
  {
    RememberAt(h.removed, id);
  }

  lemma ClearDoneInv(site: Site, h: Hub, order: seq<string>)
    requires Inv(site, h) && Enumerates(order, DoneIds(h))
    ensures Inv(site, ClearDone(h, order))
  {
    RememberAllAt(h.removed, order);
  }
}
