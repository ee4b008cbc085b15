/** When the push store tells its subscribers that something changed: what the
    change flag of the two ingest modes means for the sessions. */
module PushSignals {
  import opened Prelude
  import opened Domain
  import opened PushModel
  import PF = PushFacts

  /** Somewhere on the way through the batch the sessions are not what they were. */
  ghost predicate Deviates(site: Site, h: Hub, events: seq<Event>) {
    exists k :: 0 <= k <= |events| && UpsertAll(site, h, events[..k]).sessions != h.sessions
  }

  /** No flag, no change: a signal is never missed. */
  lemma {:induction false} UnflaggedKeeps(site: Site, h: Hub, events: seq<Event>)
    requires !UpsertsChange(site, h, events)
    ensures UpsertAll(site, h, events).sessions == h.sessions
  {
    if events != [] {
      UnflaggedKeeps(site, h, events[..|events| - 1]);
    }
  }

  lemma {:induction false} UnflaggedPrefix(site: Site, h: Hub, events: seq<Event>, k: nat)
    requires k <= |events| && !UpsertsChange(site, h, events)
    ensures !UpsertsChange(site, h, events[..k])
  {
    if k < |events| {
      UnflaggedPrefix(site, h, events[..|events| - 1], k);
      assert events[..|events| - 1][..k] == events[..k];
    } else {
      assert events[..k] == events;
    }
  }

  lemma {:induction false} FlaggedDeviates(site: Site, h: Hub, events: seq<Event>)
    requires UpsertsChange(site, h, events)
    ensures Deviates(site, h, events)
  {
    var n := |events| - 1;
    if UpsertsChange(site, h, events[..n]) {
      FlaggedDeviates(site, h, events[..n]);
      var k :| 0 <= k <= n && UpsertAll(site, h, events[..n][..k]).sessions != h.sessions;
      assert events[..n][..k] == events[..k];
    } else {
      UnflaggedKeeps(site, h, events[..n]);
      FirstDifference(site, h, UpsertAll(site, h, events[..n]), events[n]);
      assert events[..|events|] == events;
    }
  }

  lemma FirstDifference(site: Site, h: Hub, mid: Hub, e: Event)
    requires mid.sessions == h.sessions && Differs(site, mid, e)
    ensures UpsertOne(site, mid, e).sessions != h.sessions
  {
    assert UpsertOne(site, mid, e).sessions[e.sessionId] == Normalize(site, e);
  }

  /** The flag of an upsert batch is raised exactly when the sessions deviate from
      what they were at some point of the batch. */
  lemma FlagExactly(site: Site, h: Hub, events: seq<Event>)
    ensures UpsertsChange(site, h, events) <==> Deviates(site, h, events)
  {
    if UpsertsChange(site, h, events) {
      FlaggedDeviates(site, h, events);
    }
    if k :| 0 <= k <= |events| && UpsertAll(site, h, events[..k]).sessions != h.sessions {
      if !UpsertsChange(site, h, events) {
        UnflaggedPrefix(site, h, events, k);
        UnflaggedKeeps(site, h, events[..k]);
      }
    }
  }

  /** No session is reported twice in one batch. */
  ghost predicate DistinctIds(events: seq<Event>) {
    forall i, j :: 0 <= i < j < |events| ==> events[i].sessionId != events[j].sessionId
  }

  lemma {:induction false} FilterDistinct(events: seq<Event>, p: Event -> bool)
    requires DistinctIds(events)
    ensures DistinctIds(Filter(events, p))
  {
    if events != [] {
      var rest := Filter(events[1..], p);
      FilterDistinct(events[1..], p);
      forall e | e in rest ensures e.sessionId != events[0].sessionId {
        var i :| 0 <= i < |events[1..]| && events[1..][i] == e;
      }
    }
  }

  /** The first deviation of a batch without repetitions is never undone. */
  lemma {:induction false} DeviationStays(site: Site, h: Hub, events: seq<Event>)
    requires DistinctIds(events) && UpsertsChange(site, h, events)
    ensures UpsertAll(site, h, events).sessions != h.sessions
  {
    var n := |events| - 1;
    var rest, e := events[..n], events[n];
    var mid := UpsertAll(site, h, rest);
    PF.UpsertAllAt(site, h, rest, e.sessionId);
    assert LastFor(rest, e.sessionId).None?;
    assert UpsertAll(site, h, events).sessions == mid.sessions[e.sessionId := Normalize(site, e)];
    if Differs(site, mid, e) {
      assert UpsertAll(site, h, events).sessions[e.sessionId] == Normalize(site, e);
    } else {
      DeviationStays(site, h, rest);
      assert UpsertAll(site, h, events).sessions == mid.sessions;
    }
  }

  /** With each session reported at most once, an upsert batch signals exactly when
      it changed some session. */
  lemma UpsertSignalExact(site: Site, h: Hub, events: seq<Event>, now: int)
    ensures Apply(site, h, events, now).sessions != h.sessions ==> UpsertsChange(site, h, events)
    ensures DistinctIds(events) ==>
      (UpsertsChange(site, h, events) <==> Apply(site, h, events, now).sessions != h.sessions)
  {
    var start := h.(lastIngest := Some(now), removed := ForgetAll(h.removed, events));
    SameSessions(site, h, start, events);
    if !UpsertsChange(site, h, events) {
      UnflaggedKeeps(site, h, events);
    } else if DistinctIds(events) {
      DeviationStays(site, h, events);
    }
  }

  lemma {:induction false} SameSessions(site: Site, a: Hub, b: Hub, events: seq<Event>)
    requires a.sessions == b.sessions
    ensures UpsertAll(site, a, events).sessions == UpsertAll(site, b, events).sessions
    ensures UpsertsChange(site, a, events) == UpsertsChange(site, b, events)
  {
    if events != [] {
      SameSessions(site, a, b, events[..|events| - 1]);
    }
  }

  /** Two events for one session that go there and back signal a change although
      nothing changed. */
  lemma ThereAndBack(site: Site, h: Hub, there: Event, back: Event, now: int)
    requires there.sessionId == back.sessionId && back.sessionId in h.sessions
    requires h.sessions[back.sessionId] == Normalize(site, back) != Normalize(site, there)
    ensures UpsertsChange(site, h, [there, back])
    ensures Apply(site, h, [there, back], now).sessions == h.sessions
  {
    var start := h.(lastIngest := Some(now), removed := ForgetAll(h.removed, [there, back]));
    TwoEvents(site, start, there, back);
    TwoEvents(site, h, there, back);
    assert h.sessions[there.sessionId := Normalize(site, there)][back.sessionId := Normalize(site, back)] == h.sessions;
  }

  lemma TwoEvents(site: Site, h: Hub, a: Event, b: Event)
    ensures UpsertAll(site, h, [a, b]) == UpsertOne(site, UpsertOne(site, h, a), b)
    ensures UpsertsChange(site, h, [a, b]) <==> Differs(site, h, a) || Differs(site, UpsertOne(site, h, a), b)
  {
    assert [a, b][..1] == [a] && [a][..0] == [];
    assert UpsertAll(site, h, [a]) == UpsertOne(site, UpsertAll(site, h, []), a);
    assert UpsertsChange(site, h, [a]) <==> Differs(site, h, a);
  }

  // --------------------------------------------------------------- snapshots

  lemma PruneShrinks(h: Hub, events: seq<Event>)
    ensures |Prune(h, events).sessions| != |h.sessions| <==> Prune(h, events).sessions != h.sessions
  {
    var kept := Prune(h, events).sessions;
    assert kept.Keys <= h.sessions.Keys;
    if kept != h.sessions {
      assert exists id :: id in h.sessions && id !in kept;
      SmallerSubset(kept.Keys, h.sessions.Keys);
    }
  }

  lemma SmallerSubset(a: set<string>, b: set<string>)
    requires a <= b && a != b
    ensures |a| < |b|
  {
    assert |b| == |a| + |b - a|;
  }

  /** A snapshot's flag is raised exactly when the prune drops a session or the
      upserts deviate from what the prune left. */
  lemma SnapshotFlagExactly(site: Site, h: Hub, events: seq<Event>, now: int)
    ensures var pruned := Prune(h.(lastIngest := Some(now)), events);
      SnapshotChanges(site, h, events, now) <==>
      pruned.sessions != h.sessions || Deviates(site, pruned, Admitted(h, events))
  {
    PruneShrinks(h.(lastIngest := Some(now)), events);
    FlagExactly(site, Prune(h.(lastIngest := Some(now)), events), Admitted(h, events));
  }

  /** A pruned session is not in the batch, so no upsert brings it back. */
  lemma PrunedStaysGone(site: Site, h: Hub, events: seq<Event>, now: int)
    requires Prune(h.(lastIngest := Some(now)), events).sessions != h.sessions
    ensures ApplySnapshot(site, h, events, now).sessions != h.sessions
  {
    var pruned := Prune(h.(lastIngest := Some(now)), events);
    var id :| id in h.sessions && id !in pruned.sessions;
    PF.UpsertAllAt(site, pruned, Admitted(h, events), id);
    assert id !in Ids(Admitted(h, events));
  }

  /** A snapshot never misses a signal, and with each session listed at most once
      it signals exactly when it changed some session. */
  lemma SnapshotSignalExact(site: Site, h: Hub, events: seq<Event>, now: int)
    ensures ApplySnapshot(site, h, events, now).sessions != h.sessions ==> SnapshotChanges(site, h, events, now)
    ensures DistinctIds(Admitted(h, events)) ==>
      (SnapshotChanges(site, h, events, now) <==> ApplySnapshot(site, h, events, now).sessions != h.sessions)
  {
    var pruned := Prune(h.(lastIngest := Some(now)), events);
    PruneShrinks(h.(lastIngest := Some(now)), events);
    if pruned.sessions != h.sessions {
      PrunedStaysGone(site, h, events, now);
    } else if !UpsertsChange(site, pruned, Admitted(h, events)) {
      UnflaggedKeeps(site, pruned, Admitted(h, events));
    } else if DistinctIds(Admitted(h, events)) {
      DeviationStays(site, pruned, Admitted(h, events));
    }
  }
}
