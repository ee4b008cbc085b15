/** The policy engine as an object: it renders, detects attention edges against
    what it remembered, publishes revisions, and routes removals to its sources. */
module Engine {
  import opened Prelude
  import opened Text
  import opened Domain
  import opened EngineModel
  import opened Notify
  import opened ClearModel
  import CD = ClearDone
  import PM = PushModel

  datatype Update = Update(
    revision: nat, snapshot: Snapshot, notifications: seq<Notification>, alarms: seq<Notification>)

  // ------------------------------------------------------------ the loops

  lemma CountNext(sessions: seq<Session>, i: nat)
    requires i < |sessions|
    ensures forall status :: Count(sessions[..i + 1], HasStatus(status)) ==
              Count(sessions[..i], HasStatus(status)) + if sessions[i].status == status then 1 else 0
  {
    assert sessions[..i + 1] == sessions[..i] + [sessions[i]];
    forall status ensures Count(sessions[..i + 1], HasStatus(status)) ==
              Count(sessions[..i], HasStatus(status)) + if sessions[i].status == status then 1 else 0 {
      FilterAppend(sessions[..i], [sessions[i]], HasStatus(status));
    }
  }

  /** `count_models`. */
  method CountModels(models: seq<Session>) returns (counts: Counts)
    ensures counts == CountOf(models)
  {
    counts := Counts(0, 0, 0, 0, 0);
    var i := 0;
    while i < |models|
      invariant 0 <= i <= |models| && counts == CountOf(models[..i])
    {
      CountNext(models, i);
      counts := counts.(total := counts.total + 1);
      match models[i].status {
        case NeedsHelp => counts := counts.(needsHelp := counts.needsHelp + 1);
        case Active => counts := counts.(active := counts.active + 1);
        case Inactive => counts := counts.(inactive := counts.inactive + 1);
        case Done => counts := counts.(done := counts.done + 1);
      }
      i := i + 1;
    }
    assert models[..i] == models;
  }

  /** `aggregate_statuses`: three counters, then the precedence of the lights. */
  method AggregateStatuses(models: seq<Session>, mode: YellowMode) returns (light: Aggregate)
    ensures light == AggregateOf(models, mode)
  {
    var needsHelp, active, inactive := 0, 0, 0;
    var i := 0;
    while i < |models|
      invariant 0 <= i <= |models|
      invariant needsHelp == Count(models[..i], HasStatus(NeedsHelp))
      invariant active == Count(models[..i], HasStatus(Active))
      invariant inactive == Count(models[..i], HasStatus(Inactive))
    {
      CountNext(models, i);
      match models[i].status {
        case NeedsHelp => needsHelp := needsHelp + 1;
        case Active => active := active + 1;
        case Inactive => inactive := inactive + 1;
        case Done =>
      }
      i := i + 1;
    }
    assert models[..i] == models;
    SomeCounts(models, NeedsHelp);
    SomeCounts(models, Active);
    SomeCounts(models, Inactive);
    if needsHelp > 0 {
      return Red;
    }
    if inactive > 0 && (mode == AnyInactive || active == 0) {
      light := Yellow;
    } else if active > 0 {
      light := Green;
    } else {
      light := Gray;
    }
  }

  /** `apply_retention`: drop done rows past the fifth, unless all are shown. */
  method ApplyRetention(rows: seq<Row>, showDone: bool) returns (kept: seq<Row>)
    ensures kept == Retained(rows, showDone)
  {
    if showDone {
      return rows;
    }
    var doneSeen := 0;
    ghost var quota := DONE_RETENTION;
    kept := [];
    var i := 0;
    while i < |rows|
      invariant 0 <= i <= |rows|
      invariant quota == if doneSeen <= DONE_RETENTION then DONE_RETENTION - doneSeen else 0
      invariant Retain(rows, IsDoneRow, DONE_RETENTION) == kept + Retain(rows[i..], IsDoneRow, quota)
    {
      RetainNext(rows, i, IsDoneRow, quota);
      var keep := true;
      if rows[i].isDone {
        doneSeen := doneSeen + 1;
        keep := doneSeen <= DONE_RETENTION;
        quota := if quota > 0 then quota - 1 else 0;
      }
      if keep {
        PushBack(kept, rows[i], Retain(rows[i + 1..], IsDoneRow, quota));
        kept := kept + [rows[i]];
      }
      i := i + 1;
    }
    assert rows[i..] == [] && kept + [] == kept;
  }

  /** `triggers.iter().any(..)`. */
  method AnyTrigger(triggers: seq<Trigger>, status: Status, before: Option<Status>,
                    subagent: bool) returns (fires: bool)
    ensures fires == TriggersFire(triggers, status, before, subagent)
  {
    var i := 0;
    while i < |triggers|
      invariant 0 <= i <= |triggers|
      invariant forall k :: 0 <= k < i ==> !TriggerFires(triggers[k], status, before, subagent)
    {
      if TriggerFires(triggers[i], status, before, subagent) {
        return true;
      }
      i := i + 1;
    }
    return false;
  }

  /** One pass over the visible models: collect the edges, then replace the whole
      memory. Shared by the notification and the alarm edge. */
  method Edge(triggers: seq<Trigger>, memory: Memory,
              models: seq<Session>) returns (edges: seq<Notification>, next: Memory)
    ensures edges == Edges(triggers, memory, models)
    ensures next == Recall(models)
  {
    edges := [];
    var i := 0;
    while i < |models|
      invariant 0 <= i <= |models| && edges == Edges(triggers, memory, models[..i])
    {
      EdgesNext(triggers, memory, models, i);
      var before := if models[i].key in memory then Some(memory[models[i].key]) else None;
      var fires := AnyTrigger(triggers, models[i].status, before, models[i].subagent);
      if fires {
        edges := edges + [Attention(models[i])];
      }
      i := i + 1;
    }
    assert models[..i] == models;
    next := Memorize(models);
  }

  /** The last loop of `edge`: the status of every session, by key. */
  method Memorize(models: seq<Session>) returns (memory: Memory)
    ensures memory == Recall(models)
  {
    memory := map[];
    var i := 0;
    while i < |models|
      invariant 0 <= i <= |models| && memory == Recall(models[..i])
    {
      assert models[..i + 1][..i] == models[..i];
      memory := memory[models[i].key := models[i].status];
      i := i + 1;
    }
    assert models[..i] == models;
  }

  lemma EdgesNext(triggers: seq<Trigger>, memory: Memory, models: seq<Session>, i: nat)
    requires i < |models|
    ensures Edges(triggers, memory, models[..i + 1]) ==
            Edges(triggers, memory, models[..i]) +
            if Fires(triggers, memory)(models[i]) then [Attention(models[i])] else []
  {
    assert models[..i + 1] == models[..i] + [models[i]];
    FilterAppend(models[..i], [models[i]], Fires(triggers, memory));
    MapAppend(Filter(models[..i], Fires(triggers, memory)), Filter([models[i]], Fires(triggers, memory)), Attention);
  }

  // ----------------------------------------------------------- the engine

  class Engine {
    const lib: Library
    var config: Config
    var sources: seq<Source>
    var previous: Memory
    var alarmPrevious: Memory
    var revision: nat
    var delivered: seq<Update>   // what the subscribers have received

    constructor (lib: Library, config: Config)
      ensures this.lib == lib && this.config == config
      ensures sources == [] && previous == map[] && alarmPrevious == map[] && revision == 0 && delivered == []
    {
      this.lib, this.config := lib, config;
      sources, previous, alarmPrevious, revision, delivered := [], map[], map[], 0, [];
    }

    /** `render`: merge, hide, sort, count, light, rows, retention, links. */
    method RenderSnapshot(views: seq<SourceSnapshot>, now: int) returns (snapshot: Snapshot)
      ensures snapshot == Render(lib, config, views, now)
    {
      var sessions := Merged(config, views);
      var counts := CountModels(sessions);
      var light := AggregateStatuses(sessions, config.yellowMode);
      var rows := ApplyRetention(MapSeq(sessions, ToRow(lib)), config.showDone);
      rows := LinkRows(config, rows);
      assert rows == RowsOf(lib, config, sessions);
      var ok := views != [] && AllReady(views);
      var present := exists s :: s in views && s.health != Missing;
      snapshot := Snapshot(ok, ErrorOf(config, views), config.stateFile,
        (if views != [] then views[0].kind else config.sourceKind).Name(), LabelOf(config, views), present,
        light.Name(), counts, rows, YellowName(config.yellowMode), lib.render(now));
    }

    /** `notification_edge`: nothing, not even remembering, while disabled. */
    method NotificationEdge(views: seq<SourceSnapshot>) returns (notifications: seq<Notification>)
      modifies `previous
      ensures var models := Shown(config.showSubagents, Flatten(views));
        if config.notifications
        then notifications == Edges(config.notificationTrigger, old(previous), models) && previous == Recall(models)
        else notifications == [] && previous == old(previous)
    {
      if !config.notifications {
        return [];
      }
      notifications, previous :=
        Edge(config.notificationTrigger, previous, Filter(Flatten(views), Visible(config.showSubagents)));
    }

    method AlarmEdge(views: seq<SourceSnapshot>) returns (alarms: seq<Notification>)
      modifies `alarmPrevious
      ensures var models := Shown(config.showSubagents, Flatten(views));
        if config.alarmsEnabled
        then alarms == Edges(config.alarmTrigger, old(alarmPrevious), models) && alarmPrevious == Recall(models)
        else alarms == [] && alarmPrevious == old(alarmPrevious)
    {
      if !config.alarmsEnabled {
        return [];
      }
      alarms, alarmPrevious :=
        Edge(config.alarmTrigger, alarmPrevious, Filter(Flatten(views), Visible(config.showSubagents)));
    }

    /** `publish`: one update, with the next revision, to every subscriber. */
    method Publish(views: seq<SourceSnapshot>, now: int) returns (update: Update)
      modifies `previous, `alarmPrevious, `revision, `delivered
      ensures revision == old(revision) + 1 && delivered == old(delivered) + [update]
      ensures update.revision == revision && update.snapshot == Render(lib, config, views, now)
      ensures var models := Shown(config.showSubagents, Flatten(views));
        && update.notifications ==
             (if config.notifications then Edges(config.notificationTrigger, old(previous), models) else [])
        && previous == (if config.notifications then Recall(models) else old(previous))
        && update.alarms ==
             (if config.alarmsEnabled then Edges(config.alarmTrigger, old(alarmPrevious), models) else [])
        && alarmPrevious == (if config.alarmsEnabled then Recall(models) else old(alarmPrevious))
    {
      var snapshot := RenderSnapshot(views, now);
      var notifications := NotificationEdge(views);
      var alarms := AlarmEdge(views);
      revision := revision + 1;
      update := Update(revision, snapshot, notifications, alarms);
      delivered := delivered + [update];
    }

    /** `dispatch(RemoveSession(key))`: the first source with the key's id. */
    method DispatchRemove(key: SessionKey) returns (ok: bool)
      modifies `sources
      ensures sources == Dispatched(old(sources), key) && ok == DispatchSucceeds(old(sources), key)
    {
      var i := 0;
      while i < |sources| && sources[i].id != key.source
        invariant 0 <= i <= |sources|
        invariant Find(sources, key.source) ==
          var rest := Find(sources[i..], key.source); if rest.Some? then Some(rest.value + i) else None
      {
        assert sources[i..][1..] == sources[i + 1..];
        i := i + 1;
      }
      if i == |sources| {
        return false;
      }
      ok := RemoveSucceeds(sources[i], key.sessionId);
      sources := sources[i := RemoveOne(sources[i], key.sessionId)];
    }

    /** `clear_done`, on the models the engine sampled: one bulk command when the
        only source supports it, otherwise a removal per done session. `order` is
        the iteration order of a bulk clear's hash map. */
    method ClearDone(models: seq<Session>) returns (result: Result<nat>, order: seq<string>)
      modifies `sources
      ensures result == CD.Report(old(sources), models)
      ensures sources == CD.Cleared(old(sources), models, order)
      ensures |old(sources)| == 1 && Bulk(old(sources)[0]) ==> Enumerates(order, PM.DoneIds(old(sources)[0].hub))
    {
      var keys := DoneKeys(models);
      order := [];
      if |sources| == 1 && Bulk(sources[0]) {
        order := Enumerate(PM.DoneIds(sources[0].hub));
      }
      if keys == [] {
        return Ok(0), order;
      }
      if |sources| == 1 && Bulk(sources[0]) {
        sources := [sources[0].(hub := PM.ClearDone(sources[0].hub, order))];
        return Ok(|keys|), order;
      }
      var removed := RemoveInTurn(keys);
      if removed == 0 {
        return Err("every removal failed"), order;
      }
      return Ok(removed), order;
    }

    /** One removal per key. */
    method RemoveInTurn(keys: seq<SessionKey>) returns (removed: nat)
      modifies `sources
      ensures sources == ClearEach(old(sources), keys) && removed == Successes(old(sources), keys)
    {
      ghost var start := sources;
      removed := 0;
      var i := 0;
      while i < |keys|
        invariant 0 <= i <= |keys|
        invariant sources == ClearEach(start, keys[..i]) && removed == Successes(start, keys[..i])
      {
        assert keys[..i + 1][..i] == keys[..i];
        var ok := DispatchRemove(keys[i]);
        if ok {
          removed := removed + 1;
        }
        i := i + 1;
      }
      assert keys[..i] == keys;
    }
  }
}
