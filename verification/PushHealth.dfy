/** Whether a push store counts as a source that works: it has heard from a producer,
    and, when a window is set, recently enough. */
module PushHealth {
  import opened Prelude
  import opened Text
  import opened Domain
  import opened PushModel
  import EM = EngineModel
  import PF = PushFacts
  import PR = PushRestart
  import RS = PushRuns

  /** The store's clock has run past the window since the last batch. */
  predicate Silent(h: Hub, staleAfter: Option<nat>, now: int) {
    staleAfter.Some? && h.lastIngest.Some? && now - h.lastIngest.value > staleAfter.value
  }

  /** `health`. */
  function HealthAt(site: Site, h: Hub, staleAfter: Option<nat>, now: int): EM.Health {
    if Silent(h, staleAfter, now) then
      EM.Unreadable("producer has not reported since " + site.lib.render(h.lastIngest.value))
    else if h.seen then EM.Ready
    else EM.Health.Missing
  }

  /** What the engine reads from the store at `now`. */
  ghost function Shown(site: Site, h: Hub, staleAfter: Option<nat>, now: int): EM.SourceSnapshot {
    EM.SourceSnapshot(site.source, EM.PushKind, site.source, HealthAt(site, h, staleAfter, now), View(h, now))
  }

  /** A batch that holds an event. */
  predicate Heard(op: RS.Op) {
    (op.Upsert? || op.Heartbeat?) && op.events != []
  }

  lemma {:induction false} DropsKeepHealth(site: Site, w: RS.World, ops: seq<RS.Op>, staleAfter: Option<nat>, now: int)
    requires forall op :: op in ops ==> op.Removal? || op.Clear?
    ensures HealthAt(site, RS.Run(site, w, ops).hub, staleAfter, now) == HealthAt(site, w.hub, staleAfter, now)
    decreases |ops|
  {
    if ops != [] {
      assert ops[0] in ops;
      DropsKeepHealth(site, RS.Step(site, w, ops[0]), ops[1..], staleAfter, now);
    }
  }

  /** From any state: after a batch with an event, and whatever is removed or cleared
      since, the store is ready exactly until its window has passed. */
  lemma IngestMakesReady(site: Site, before: RS.World, ingest: RS.Op, ops: seq<RS.Op>, staleAfter: Option<nat>,
                         now: int)
    requires Heard(ingest) && forall op :: op in ops ==> op.Removal? || op.Clear?
    ensures HealthAt(site, RS.Run(site, RS.Step(site, before, ingest), ops).hub, staleAfter, now) == EM.Ready <==>
            (staleAfter.Some? ==> now - ingest.now <= staleAfter.value)
  {
    PF.ApplyAt(site, before.hub, ingest.events, ingest.now, "");
    PF.SnapshotAt(site, before.hub, ingest.events, ingest.now, "");
    DropsKeepHealth(site, RS.Step(site, before, ingest), ops, staleAfter, now);
  }

  /** The time of the last batch of a run, whatever it held. */
  function LastBatch(ops: seq<RS.Op>): Option<int> {
    if ops == [] then None
    else if ops[|ops| - 1].Upsert? || ops[|ops| - 1].Heartbeat? then Some(ops[|ops| - 1].now)
    else LastBatch(ops[..|ops| - 1])
  }

  lemma {:induction false} RunSnoc(site: Site, w: RS.World, ops: seq<RS.Op>)
    requires ops != []
    ensures RS.Run(site, w, ops) == RS.Step(site, RS.Run(site, w, ops[..|ops| - 1]), ops[|ops| - 1])
    decreases |ops|
  {
    if |ops| > 1 {
      RunSnoc(site, RS.Step(site, w, ops[0]), ops[1..]);
      assert ops[1..][..|ops| - 2] == ops[..|ops| - 1][1..];
    }
  }

  lemma {:induction false} RunHeard(site: Site, ops: seq<RS.Op>)
    requires forall op :: op in ops ==> !op.Restart?
    ensures var h := RS.Run(site, RS.START, ops).hub;
      h.lastIngest == LastBatch(ops) && (h.seen <==> exists op :: op in ops && Heard(op))
    decreases |ops|
  {
    if ops != [] {
      var rest, op := ops[..|ops| - 1], ops[|ops| - 1];
      assert ops == rest + [op] && op in ops;
      RunHeard(site, rest);
      RunSnoc(site, RS.START, ops);
      var h := RS.Run(site, RS.START, rest).hub;
      if op.Upsert? {
        PF.ApplyAt(site, h, op.events, op.now, "");
      } else if op.Heartbeat? {
        PF.SnapshotAt(site, h, op.events, op.now, "");
      }
    }
  }

  /** Over any run without a restart the health tells how the store fares: unreadable when
      the last batch is longer ago than the window, else ready if any batch held an event,
      else missing. */
  lemma HealthOfRun(site: Site, ops: seq<RS.Op>, staleAfter: Option<nat>, now: int)
    requires forall op :: op in ops ==> !op.Restart?
    ensures var health, last := HealthAt(site, RS.Run(site, RS.START, ops).hub, staleAfter, now), LastBatch(ops);
      if staleAfter.Some? && last.Some? && last.value + staleAfter.value < now then
        health == EM.Unreadable("producer has not reported since " + site.lib.render(last.value))
      else if exists op :: op in ops && Heard(op) then health == EM.Ready
      else health == EM.Health.Missing
  {
    RunHeard(site, ops);
  }

  /** A restart keeps the health, except that a store emptied of its sessions counts as
      never having heard from a producer. */
  lemma HealthAfterRestart(site: Site, h: Hub, staleAfter: Option<nat>, now: int)
    requires Lawful(site.lib) && PF.Inv(site, h)
    ensures var r := Load(site, Saved(StoreOf(site, h)));
      HealthAt(site, r, staleAfter, now) == HealthAt(site, h, staleAfter, now) <==>
      Silent(h, staleAfter, now) || (h.seen <==> h.sessions != map[])
  {
    PR.RestartRestores(site, h);
  }
}
