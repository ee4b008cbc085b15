/** The plugin and the push store composed over an unreliable link: messages may
    be lost, other producers report to the same hub, the user removes sessions,
    and the hub restarts. One delivered heartbeat repairs all of it. */
module Resync {
  import opened Prelude
  import opened Text
  import opened Domain
  import P = PluginModel
  import PR = PluginRuns
  import opened PushModel
  import PF = PushFacts
  import PS = PushSignals
  import opened PushRuns

  datatype System = System(agent: P.Agent, world: World)

  /** A step of the plugin, whose message (if it sends one) may or may not reach
      the hub, or any step of the hub that does not come from this plugin. */
  datatype SystemStep =
    | Plugin(step: PR.Step, delivered: bool, received: int, written: bool)
    | Elsewhere(op: Op)

  /** What the plugin posts in a step, given its state before it. */
  function Posted(env: P.Env, a: P.Agent, s: PR.Step, received: int, written: bool): Option<Op> {
    match s
    case Timer(id, now, reply) =>
      var event := P.FlushEvent(env, a, id, now, reply);
      if event.Some? then Some(Upsert([event.value], received, written)) else None
    case Beat(now, replies) =>
      var events := P.SnapshotEvents(env, PR.After(env, a, s), now);
      if events != [] then Some(Heartbeat(events, received, written)) else None
    case _ => None
  }

  ghost function Next(site: Site, env: P.Env, sys: System, s: SystemStep): System {
    match s
    case Plugin(step, delivered, received, written) =>
      var post := Posted(env, sys.agent, step, received, written);
      System(PR.After(env, sys.agent, step),
             if delivered && post.Some? then Step(site, sys.world, post.value) else sys.world)
    case Elsewhere(op) => sys.(world := Step(site, sys.world, op))
  }

  ghost function Trace(site: Site, env: P.Env, sys: System, steps: seq<SystemStep>): System
    decreases |steps|
  {
    if steps == [] then sys else Trace(site, env, Next(site, env, sys, steps[0]), steps[1..])
  }

  ghost predicate Feasible(site: Site, env: P.Env, sys: System, steps: seq<SystemStep>)
    decreases |steps|
  {
    steps != [] ==>
      (steps[0].Elsewhere? ==> Enabled(sys.world, steps[0].op)) &&
      Feasible(site, env, Next(site, env, sys, steps[0]), steps[1..])
  }

  ghost predicate SystemInv(site: Site, sys: System) {
    PR.Inv(sys.agent) && WorldInv(site, sys.world)
  }

  const BOOT: System := System(P.FRESH, START)

  lemma NextInv(site: Site, env: P.Env, sys: System, s: SystemStep)
    requires Lawful(site.lib) && SystemInv(site, sys)
    requires s.Elsewhere? ==> Enabled(sys.world, s.op)
    ensures SystemInv(site, Next(site, env, sys, s))
  {
    match s
    case Plugin(step, delivered, received, written) =>
      PR.AfterInv(env, sys.agent, step);
      var post := Posted(env, sys.agent, step, received, written);
      if delivered && post.Some? {
        StepInv(site, sys.world, post.value);
      }
    case Elsewhere(op) => StepInv(site, sys.world, op);
  }

  lemma {:induction false} TraceInv(site: Site, env: P.Env, sys: System, steps: seq<SystemStep>)
    requires Lawful(site.lib) && SystemInv(site, sys) && Feasible(site, env, sys, steps)
    ensures SystemInv(site, Trace(site, env, sys, steps))
    decreases |steps|
  {
    if steps != [] {
      NextInv(site, env, sys, steps[0]);
      TraceInv(site, env, Next(site, env, sys, steps[0]), steps[1..]);
    }
  }

  /** Every state reached from a fresh plugin and an empty hub keeps the invariants
      of both sides. */
  lemma ReachedInv(site: Site, env: P.Env, steps: seq<SystemStep>)
    requires Lawful(site.lib) && Feasible(site, env, BOOT, steps)
    ensures SystemInv(site, Trace(site, env, BOOT, steps))
  {
    assert SystemInv(site, BOOT);
    TraceInv(site, env, BOOT, steps);
  }

  // --------------------------------------------------------- the heartbeat

  /** The hub's view of one producer: its live session ids. */
  function OwnedBy(h: Hub, producer: string): set<string> {
    set id | id in h.sessions && Owner(h, id) == Some(producer)
  }

  /** A heartbeat batch has one event per listed session, all naming the plugin. */
  lemma BatchFacts(env: P.Env, a: P.Agent, now: int, id: string)
    requires PR.Inv(a)
    ensures var events := P.SnapshotEvents(env, a, now);
      && (LastFor(events, id) == if id in P.Listed(a) then Some(P.EventFor(env, a, now)(id)) else None)
      && (events != [] ==> BatchProducer(events) == Some(env.producer))
  {
    var ids, f := P.Listed(a), P.EventFor(env, a, now);
    PR.HeartbeatContents(a);
    LastOfMap(ids, f, id);
  }

  lemma {:induction false} LastOfMap(ids: seq<string>, f: string -> Event, id: string)
    requires forall x :: x in ids ==> f(x).sessionId == x
    ensures LastFor(MapSeq(ids, f), id) == if id in ids then Some(f(id)) else None
  {
    if ids != [] {
      var rest, last := ids[..|ids| - 1], ids[|ids| - 1];
      assert ids == rest + [last];
      LastOfMap(rest, f, id);
      MapPrefix(ids, f, |rest|);
    }
  }

  /** The hub shows this producer's sessions as the plugin knows them: exactly the
      listed ids the user did not remove, each with its current status and
      subagent flag, and among them every session that is not done. */
  ghost predicate InSync(env: P.Env, a: P.Agent, h: Hub) {
    && (OwnedBy(h, env.producer) == set id | id in P.Listed(a) && id !in h.removed)
    && (forall id :: id in OwnedBy(h, env.producer) ==>
          h.sessions[id].status == PR.StatusOf(a, id).GetOr(Inactive) &&
          h.sessions[id].subagent == P.IsSubagent(P.Known(a, id)))
    && (forall id :: id in a.info && PR.StatusOf(a, id) != Some(Done) && id !in h.removed ==>
          id in OwnedBy(h, env.producer))
  }

  /** The same for one session, listed in `listed` and not in `removed`. */
  predicate InSyncAt(env: P.Env, a: P.Agent, h: Hub, listed: bool, id: string) {
    && (id in h.sessions && Owner(h, id) == Some(env.producer) <==> listed)
    && (listed && id in h.sessions ==>
          h.sessions[id].status == PR.StatusOf(a, id).GetOr(Inactive) &&
          h.sessions[id].subagent == P.IsSubagent(P.Known(a, id)))
  }

  lemma HeartbeatAt(site: Site, env: P.Env, a: P.Agent, h: Hub, now: int, received: int, id: string)
    requires PR.Inv(a) && P.SnapshotEvents(env, a, now) != []
    ensures var r := ApplySnapshot(site, h, P.SnapshotEvents(env, a, now), received);
      InSyncAt(env, a, r, id in P.Listed(a) && id !in h.removed, id) && r.removed == h.removed
  {
    BatchFacts(env, a, now, id);
    PF.SnapshotAt(site, h, P.SnapshotEvents(env, a, now), received, id);
  }

  lemma InSyncFrom(env: P.Env, a: P.Agent, h: Hub)
    requires forall id :: InSyncAt(env, a, h, id in P.Listed(a) && id !in h.removed, id)
    requires forall id :: id in a.info && PR.StatusOf(a, id) != Some(Done) ==> id in P.Listed(a)
    ensures InSync(env, a, h)
  {
    forall id ensures id in OwnedBy(h, env.producer) <==> id in P.Listed(a) && id !in h.removed {
      assert InSyncAt(env, a, h, id in P.Listed(a) && id !in h.removed, id);
    }
    forall id | id in OwnedBy(h, env.producer)
      ensures h.sessions[id].status == PR.StatusOf(a, id).GetOr(Inactive)
      ensures h.sessions[id].subagent == P.IsSubagent(P.Known(a, id))
    {
      assert InSyncAt(env, a, h, id in P.Listed(a) && id !in h.removed, id);
    }
  }

  /** From any hub state whatever, one delivered, non-empty heartbeat brings the
      hub in sync, and does not touch the tombstones. */
  lemma HeartbeatResyncs(site: Site, env: P.Env, a: P.Agent, h: Hub, now: int, received: int)
    requires PR.Inv(a) && P.SnapshotEvents(env, a, now) != []
    ensures InSync(env, a, ApplySnapshot(site, h, P.SnapshotEvents(env, a, now), received))
    ensures ApplySnapshot(site, h, P.SnapshotEvents(env, a, now), received).removed == h.removed
  {
    var r := ApplySnapshot(site, h, P.SnapshotEvents(env, a, now), received);
    HeartbeatAt(site, env, a, h, now, received, "");
    forall id ensures InSyncAt(env, a, r, id in P.Listed(a) && id !in r.removed, id) {
      HeartbeatAt(site, env, a, h, now, received, id);
    }
    LiveListed(a);
    InSyncFrom(env, a, r);
  }

  lemma LiveListed(a: P.Agent)
    requires PR.Inv(a)
    ensures forall id :: id in a.info && PR.StatusOf(a, id) != Some(Done) ==> id in P.Listed(a)
  {
    PR.HeartbeatContents(a);
    forall id | id in a.info && PR.StatusOf(a, id) != Some(Done) ensures id in P.Listed(a) {
      assert P.IsLive(a)(id);
    }
  }

  /** Resynchronisation over runs: after any feasible history of lost and
      delivered messages, foreign traffic, removals, clears, restarts and failed
      writes, the next delivered non-empty heartbeat leaves the hub holding, for
      this producer, every session the plugin does not consider done and its
      newest five done ones, minus the tombstoned, all with current statuses. */
  lemma Resynchronisation(site: Site, env: P.Env, steps: seq<SystemStep>, now: int,
                          replies: map<string, P.Description>, received: int, written: bool)
    requires Lawful(site.lib) && Feasible(site, env, BOOT, steps)
    ensures var before := Trace(site, env, BOOT, steps);
      var after := Next(site, env, before, Plugin(PR.Beat(now, replies), true, received, written));
      P.SnapshotEvents(env, after.agent, now) != [] ==>
        InSync(env, after.agent, after.world.hub) && after.world.hub.removed == before.world.hub.removed
  {
    ReachedInv(site, env, steps);
    DeliveredBeat(site, env, Trace(site, env, BOOT, steps), now, replies, received, written);
  }

  lemma DeliveredBeat(site: Site, env: P.Env, sys: System, now: int,
                      replies: map<string, P.Description>, received: int, written: bool)
    requires SystemInv(site, sys)
    ensures var after := Next(site, env, sys, Plugin(PR.Beat(now, replies), true, received, written));
      P.SnapshotEvents(env, after.agent, now) != [] ==>
        InSync(env, after.agent, after.world.hub) && after.world.hub.removed == sys.world.hub.removed
  {
    var a := PR.After(env, sys.agent, PR.Beat(now, replies));
    PR.AfterInv(env, sys.agent, PR.Beat(now, replies));
    var events := P.SnapshotEvents(env, a, now);
    if events != [] {
      HeartbeatResyncs(site, env, a, sys.world.hub, now, received);
      BeatDelivers(site, env, sys, now, replies, received, written);
    }
  }

  lemma BeatDelivers(site: Site, env: P.Env, sys: System, now: int,
                     replies: map<string, P.Description>, received: int, written: bool)
    ensures var a := PR.After(env, sys.agent, PR.Beat(now, replies));
      var events := P.SnapshotEvents(env, a, now);
      var after := Next(site, env, sys, Plugin(PR.Beat(now, replies), true, received, written));
      after.agent == a && (events != [] ==> after.world.hub == ApplySnapshot(site, sys.world.hub, events, received))
  {
  }

  /** A heartbeat lists no session twice, so it signals a change exactly when it changed
      a session. */
  lemma HeartbeatSignalExact(site: Site, env: P.Env, a: P.Agent, h: Hub, now: int, received: int)
    requires PR.Inv(a)
    ensures var events := P.SnapshotEvents(env, a, now);
      SnapshotChanges(site, h, events, received) <==> ApplySnapshot(site, h, events, received).sessions != h.sessions
  {
    var events := P.SnapshotEvents(env, a, now);
    PR.HeartbeatContents(a);
    assert PS.DistinctIds(events);
    PS.FilterDistinct(events, NotIn(h.removed));
    PS.SnapshotSignalExact(site, h, events, received);
  }

  /** A repeated snapshot is absorbed: whatever the batch, delivering it twice
      leaves the sessions, owners and tombstones delivering it once left. */
  lemma SnapshotIdempotent(site: Site, h: Hub, events: seq<Event>, first: int, second: int)
    ensures var r := ApplySnapshot(site, h, events, first);
      ApplySnapshot(site, r, events, second) == r.(lastIngest := Some(second))
  {
    var r := ApplySnapshot(site, h, events, first);
    var q := ApplySnapshot(site, r, events, second);
    PF.SnapshotAt(site, h, events, first, "");
    PF.SnapshotAt(site, r, events, second, "");
    forall id
      ensures id in q.sessions <==> id in r.sessions
      ensures id in r.sessions ==> q.sessions[id] == r.sessions[id]
      ensures Owner(q, id) == Owner(r, id)
    {
      PF.SnapshotAt(site, h, events, first, id);
      PF.SnapshotAt(site, r, events, second, id);
      PF.SnapshotOwners(site, h, events, first, id);
      PF.SnapshotOwners(site, r, events, second, id);
    }
    assert q.sessions == r.sessions;
    PF.SameOwners(q, r);
  }
}
