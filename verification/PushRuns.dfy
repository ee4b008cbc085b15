/** Whole runs of the push store: any sequence of ingests, removals, clears and
    restarts, with every write to disk free to fail. */
module PushRuns {
  import opened Prelude
  import opened Text
  import opened Domain
  import opened PushModel
  import opened PushFacts
  import opened PushRestart

  datatype Op =
    | Upsert(events: seq<Event>, now: int, written: bool)
    | Heartbeat(events: seq<Event>, now: int, written: bool)
    | Removal(id: string, written: bool)
    | Clear(order: seq<string>, written: bool)
    | Restart

  /** The live hub, and the hub state the durable file was last written from
      (`None` until a write succeeds). */
  datatype World = World(hub: Hub, saved: Option<Hub>)

  ghost function DiskFile(site: Site, w: World): File {
    if w.saved.None? then Missing else Saved(StoreOf(site, w.saved.value))
  }

  const START: World := World(EMPTY, None)

  /** `persist` after a mutation, which may fail. */
  function Persist(w: World, next: Hub, written: bool): World {
    World(next, if written then Some(next) else w.saved)
  }

  ghost function Step(site: Site, w: World, op: Op): World {
    match op
    case Upsert(events, now, written) => Persist(w, Apply(site, w.hub, events, now), written)
    case Heartbeat(events, now, written) => Persist(w, ApplySnapshot(site, w.hub, events, now), written)
    case Removal(id, written) => Persist(w, Remove(w.hub, id), written && id in w.hub.sessions)
    case Clear(order, written) => Persist(w, ClearDone(w.hub, order), written && order != [])
    case Restart => w.(hub := Load(site, DiskFile(site, w)))
  }

  /** A clear collects the done ids in some iteration order of the map. */
  ghost predicate Enabled(w: World, op: Op) {
    op.Clear? ==> Enumerates(op.order, DoneIds(w.hub))
  }

  ghost predicate Possible(site: Site, w: World, ops: seq<Op>)
    decreases |ops|
  {
    ops != [] ==> Enabled(w, ops[0]) && Possible(site, Step(site, w, ops[0]), ops[1..])
  }

  ghost function Run(site: Site, w: World, ops: seq<Op>): World
    decreases |ops|
  {
    if ops == [] then w else Run(site, Step(site, w, ops[0]), ops[1..])
  }

  ghost predicate WorldInv(site: Site, w: World) {
    Inv(site, w.hub) && (w.saved.Some? ==> Inv(site, w.saved.value))
  }

  lemma StepInv(site: Site, w: World, op: Op)
    requires Lawful(site.lib) && WorldInv(site, w) && Enabled(w, op)
    ensures WorldInv(site, Step(site, w, op))
  {
    match op
    case Upsert(events, now, _) => ApplyInv(site, w.hub, events, now);
    case Heartbeat(events, now, _) => SnapshotInv(site, w.hub, events, now);
    case Removal(id, _) => RemoveInv(site, w.hub, id);
    case Clear(order, _) => ClearDoneInv(site, w.hub, order);
    case Restart =>
      if w.saved.Some? {
        RestartRestores(site, w.saved.value);
        ReloadedInv(site, w.saved.value);
      }
  }

  /** Safety over every run: owners are owners of live sessions, tombstones are
      duplicate-free, at most 512 and disjoint from the live ids, and rows stay in
      normal form, through restarts and failed writes alike. */
  lemma {:induction false} ReachableInv(site: Site, w: World, ops: seq<Op>)
    requires Lawful(site.lib) && WorldInv(site, w) && Possible(site, w, ops)
    ensures WorldInv(site, Run(site, w, ops))
    decreases |ops|
  {
    if ops != [] {
      StepInv(site, w, ops[0]);
      ReachableInv(site, Step(site, w, ops[0]), ops[1..]);
    }
  }

  // ------------------------------------------------------- no resurrection

  /** `id` was removed, with at most `b` tombstones recorded after its own. */
  ghost predicate Buried(h: Hub, id: string, b: int) {
    id in h.removed && id !in h.sessions && Behind(h.removed, id) <= b
  }

  /** Buried in memory, and on disk if the run may read the disk back. */
  ghost predicate BuriedDeep(w: World, id: string, b: int, restarts: bool) {
    Buried(w.hub, id, b) && (restarts ==> w.saved.Some?) && (w.saved.Some? && restarts ==> Buried(w.saved.value, id, b))
  }

  /** How many tombstones a step records. */
  function Recorded(w: World, op: Op): nat {
    match op
    case Removal(id, _) => if id in w.hub.sessions then 1 else 0
    case Clear(order, _) => |order|
    case _ => 0
  }

  ghost function RecordedOver(site: Site, w: World, ops: seq<Op>): nat
    decreases |ops|
  {
    if ops == [] then 0 else Recorded(w, ops[0]) + RecordedOver(site, Step(site, w, ops[0]), ops[1..])
  }

  predicate Mentions(op: Op, id: string) {
    op.Upsert? && id in Ids(op.events)
  }

  lemma StaysBuried(site: Site, w: World, op: Op, id: string, b: nat, restarts: bool)
    requires Lawful(site.lib) && WorldInv(site, w) && Enabled(w, op)
    requires BuriedDeep(w, id, b, restarts) && (op.Restart? ==> restarts)
    requires !Mentions(op, id) && b + Recorded(w, op) < MAX_REMOVED
    ensures BuriedDeep(Step(site, w, op), id, b + Recorded(w, op), restarts)
  {
    var h := w.hub;
    match op
    case Upsert(events, now, _) =>
      ApplyAt(site, h, events, now, id);
      BehindForgetAll(h.removed, events, id);
    case Heartbeat(events, now, _) =>
      SnapshotAt(site, h, events, now, id);
    case Removal(x, _) =>
      if x in h.sessions {
        EvictionExact(h.removed, x, id);
      }
    case Clear(order, _) =>
      BehindRememberAll(h.removed, order, id);
    case Restart =>
      RestartRestores(site, w.saved.value);
  }

  /** Once removed, a session stays absent through every run of heartbeats,
      other upserts, removals, clears and restarts that contains no upsert of it,
      as long as fewer than 512 tombstones are recorded after its own. Writes may
      fail throughout; only if the run restarts must the removal itself have
      reached the disk. */
  lemma {:induction false} NoResurrection(site: Site, w: World, ops: seq<Op>, id: string, b: nat, restarts: bool)
    requires Lawful(site.lib) && WorldInv(site, w) && Possible(site, w, ops)
    requires BuriedDeep(w, id, b, restarts)
    requires forall op :: op in ops ==> !Mentions(op, id) && (op.Restart? ==> restarts)
    requires b + RecordedOver(site, w, ops) < MAX_REMOVED
    ensures id !in Run(site, w, ops).hub.sessions && id in Run(site, w, ops).hub.removed
    decreases |ops|
  {
    if ops != [] {
      var next := Step(site, w, ops[0]);
      assert ops[0] in ops;
      StepInv(site, w, ops[0]);
      StaysBuried(site, w, ops[0], id, b, restarts);
      forall op | op in ops[1..] ensures !Mentions(op, id) && (op.Restart? ==> restarts) {
        assert op in ops;
      }
      NoResurrection(site, next, ops[1..], id, b + Recorded(w, ops[0]), restarts);
    }
  }

  /** How many tombstones a step records after that of the id it drops: none for a
      removal, for a clear those of the ids that follow it in the clear's order. */
  predicate Drops(op: Op, id: string, behind: nat) {
    (op.Removal? && op.id == id && behind == 0) ||
    (op.Clear? && behind < |op.order| && op.order[|op.order| - 1 - behind] == id)
  }

  /** A removal that reports success, or a clear that drops the id, starts such a
      run, exactly unless the step itself records 512 tombstones after that of the
      id; if its write reached the disk the run may restart. */
  lemma RemovalBuries(site: Site, w: World, op: Op, id: string, behind: nat)
    requires WorldInv(site, w) && Enabled(w, op) && id in w.hub.sessions && Drops(op, id, behind)
    ensures id !in Step(site, w, op).hub.sessions
    ensures id in Step(site, w, op).hub.removed <==> behind < MAX_REMOVED
    ensures behind < MAX_REMOVED ==> BuriedDeep(Step(site, w, op), id, behind, op.written)
  {
    if op.Removal? {
      BuriedByRemember(w.hub.removed, id);
    } else {
      assert id in op.order && w.hub.sessions[id].isDone;
      BuriedByRememberAll(w.hub.removed, op.order, |op.order| - 1 - behind);
    }
  }

  lemma BuriedByRemember(removed: seq<string>, id: string)
    requires NoDup(removed) && |removed| <= MAX_REMOVED && id !in removed
    ensures id in Remember(removed, id) && Behind(Remember(removed, id), id) == 0
  {
    BehindLast(removed, id);
    if |removed| == MAX_REMOVED {
      assert (removed + [id])[1..] == removed[1..] + [id];
      BehindLast(removed[1..], id);
    }
  }

  /** Of ids recorded together, one is still there exactly when fewer than 512
      follow it, and they are what stands behind it. */
  lemma {:induction false} BuriedByRememberAll(removed: seq<string>, ids: seq<string>, i: nat)
    requires NoDup(removed) && |removed| <= MAX_REMOVED && NoDup(ids) && i < |ids|
    requires forall x :: x in ids ==> x !in removed
    ensures ids[i] in RememberAll(removed, ids) <==> |ids| - 1 - i < MAX_REMOVED
    ensures ids[i] in RememberAll(removed, ids) ==> Behind(RememberAll(removed, ids), ids[i]) == |ids| - 1 - i
  {
    var n := |ids| - 1;
    var rest, last := ids[..n], ids[n];
    var before := RememberAll(removed, rest);
    assert ids == rest + [last] && last !in rest;
    RememberAllAt(removed, rest);
    if i == n {
      BuriedByRemember(before, last);
    } else {
      BuriedByRememberAll(removed, rest, i);
      if ids[i] in before {
        EvictionExact(before, last, ids[i]);
      } else {
        RememberAt(before, last);
      }
    }
  }

  /** The bound is tight. A heartbeat brings a removed session back exactly when
      its tombstone is gone and the heartbeat lists it. */
  lemma ResurrectedExactly(site: Site, h: Hub, events: seq<Event>, now: int, id: string)
    requires Inv(site, h) && id !in h.sessions
    ensures id in ApplySnapshot(site, h, events, now).sessions <==> id !in h.removed && id in Ids(events)
  {
    SnapshotAt(site, h, events, now, id);
  }

  // --------------------------------------------------------- isolation

  /** A step that neither names `id` nor is a heartbeat of the producer `owner`. */
  predicate Foreign(op: Op, id: string, owner: Option<string>) {
    match op
    case Upsert(events, _, _) => id !in Ids(events)
    case Heartbeat(events, _, _) =>
      id !in Ids(events) && (BatchProducer(events).None? || BatchProducer(events) != owner)
    case Removal(x, _) => x != id
    case Clear(_, _) => false
    case Restart => false
  }

  /** Producer isolation over runs: no run of other producers' upserts,
      heartbeats and removals changes a session, its status or its owner. */
  lemma {:induction false} Isolation(site: Site, w: World, ops: seq<Op>, id: string)
    requires id in w.hub.owners ==> id in w.hub.sessions
    requires forall op :: op in ops ==> Foreign(op, id, Owner(w.hub, id))
    ensures var r := Run(site, w, ops).hub;
      && (id in r.sessions <==> id in w.hub.sessions)
      && (id in r.sessions ==> r.sessions[id] == w.hub.sessions[id])
      && Owner(r, id) == Owner(w.hub, id)
    decreases |ops|
  {
    if ops != [] {
      var op := ops[0];
      assert op in ops;
      match op {
        case Upsert(events, now, _) => ApplyAt(site, w.hub, events, now, id);
        case Heartbeat(events, now, _) =>
          SnapshotAt(site, w.hub, events, now, id);
          SnapshotOwnerAt(site, w.hub, events, now, id);
        case _ =>
      }
      forall o | o in ops[1..] ensures Foreign(o, id, Owner(w.hub, id)) {
        assert o in ops;
      }
      Isolation(site, Step(site, w, op), ops[1..], id);
    }
  }

  lemma SnapshotOwnerAt(site: Site, h: Hub, events: seq<Event>, now: int, id: string)
    requires id !in Ids(events) && (id in h.owners ==> id in h.sessions) && Spared(h, events, id)
    ensures Owner(ApplySnapshot(site, h, events, now), id) == Owner(h, id)
  {
    UpsertAllAt(site, Prune(h.(lastIngest := Some(now)), events), Admitted(h, events), id);
  }

  /** Two producers whose batches name disjoint ids: nothing `p` sends, in any
      order or number, changes what `q` reported. */
  lemma ProducersDoNotInterfere(site: Site, w: World, ops: seq<Op>, p: string, q: string, ids: set<string>)
    requires p != q && WorldInv(site, w)
    requires forall id :: id in ids ==> id in w.hub.sessions && Owner(w.hub, id) == Some(q)
    requires forall op :: op in ops ==> SentBy(op, p) && Ids(op.events) !! ids
    ensures forall id :: id in ids ==>
      && id in Run(site, w, ops).hub.sessions
      && Run(site, w, ops).hub.sessions[id] == w.hub.sessions[id]
      && Owner(Run(site, w, ops).hub, id) == Some(q)
  {
    forall id | id in ids
      ensures id in Run(site, w, ops).hub.sessions
      ensures Run(site, w, ops).hub.sessions[id] == w.hub.sessions[id]
      ensures Owner(Run(site, w, ops).hub, id) == Some(q)
    {
      forall op | op in ops ensures Foreign(op, id, Owner(w.hub, id)) {
        BatchOf(op.events, p);
      }
      Isolation(site, w, ops, id);
    }
  }

  predicate SentBy(op: Op, p: string) {
    (op.Upsert? || op.Heartbeat?) && forall e :: e in op.events ==> e.producer == Some(p)
  }

  lemma {:induction false} BatchOf(events: seq<Event>, p: string)
    requires forall e :: e in events ==> e.producer == Some(p)
    ensures BatchProducer(events) == if events == [] then None else Some(p)
  {
  }

  /** A heartbeat that names no producer never removes anything. */
  lemma AnonymousNeverPrunes(site: Site, h: Hub, events: seq<Event>, now: int)
    requires BatchProducer(events).None?
    ensures h.sessions.Keys <= ApplySnapshot(site, h, events, now).sessions.Keys
  {
    forall id | id in h.sessions ensures id in ApplySnapshot(site, h, events, now).sessions {
      SnapshotAt(site, h, events, now, id);
    }
  }
}
