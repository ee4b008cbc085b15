/** The whole chain: a session that needs its user's help, from the plugin through the
    push store, a hub's engine and the relay, to the light of a remote desktop. */
module Pipeline {
  import opened Prelude
  import opened Text
  import opened Domain
  import opened StableSort
  import opened EngineModel
  import opened Relay
  import CD = ClearDone
  import PM = PushModel
  import PF = PushFacts
  import P = PluginModel
  import PR = PluginRuns
  import Resync
  import SF = StateFile

  /** A stored session that needs help and is not yet stale. */
  predicate NeedsHelpAt(h: PM.Hub, now: int, id: string) {
    && id in h.sessions && h.sessions[id].status == NeedsHelp
    && !PushStale(h.sessions[id].isDone, h.sessions[id].updatedAt, now)
  }

  ghost predicate SomeoneNeedsHelp(h: PM.Hub, now: int) {
    exists id :: NeedsHelpAt(h, now, id)
  }

  ghost predicate RowsConsistent(lib: Library, h: PM.Hub) {
    forall id :: id in h.sessions ==> Consistent(lib, h.sessions[id])
  }

  lemma InvRows(site: PM.Site, h: PM.Hub)
    requires PF.Inv(site, h)
    ensures RowsConsistent(site.lib, h) && CD.Keyed(site.source, h)
  {
    CD.InvKeyed(site, h);
    forall id | id in h.sessions ensures Consistent(site.lib, h.sessions[id]) {
      assert PM.Normal(site, id, h.sessions[id]);
    }
  }

  lemma DowngradeConsistent(lib: Library, s: Session, now: int)
    requires Consistent(lib, s)
    ensures Consistent(lib, PM.Downgrade(s, now))
    ensures PM.Downgrade(s, now).status == NeedsHelp <==>
            s.status == NeedsHelp && !PushStale(s.isDone, s.updatedAt, now)
  {
  }

  lemma ShownConsistent(site: PM.Site, h: PM.Hub, now: int, view: seq<Session>)
    requires RowsConsistent(site.lib, h) && CD.Shows(view, site.source, h, now)
    ensures AllConsistent(site.lib, view)
  {
    forall s | s in view ensures Consistent(site.lib, s) {
      DowngradeConsistent(site.lib, h.sessions[s.key.sessionId], now);
    }
  }

  /** Whatever is hidden, a session that needs help is not. */
  lemma MergedElements(client: Config, view: SourceSnapshot, s: Session)
    ensures s in Merged(client, [view]) ==> s in view.sessions
    ensures s in view.sessions && s.status == NeedsHelp ==> s in Merged(client, [view])
  {
    assert Flatten([view]) == view.sessions + Flatten([]) == view.sessions;
    SortElements(Filter(view.sessions, Visible(client.showSubagents)), SessionLe);
  }

  lemma ShownNeedsHelp(site: PM.Site, view: seq<Session>, h: PM.Hub, now: int, s: Session)
    requires RowsConsistent(site.lib, h) && CD.Shows(view, site.source, h, now) && s in view && s.status == NeedsHelp
    ensures NeedsHelpAt(h, now, s.key.sessionId)
  {
    var id := s.key.sessionId;
    DowngradeConsistent(site.lib, h.sessions[id], now);
  }

  lemma NeedsHelpShown(site: PM.Site, view: seq<Session>, h: PM.Hub, now: int, id: string)
    requires RowsConsistent(site.lib, h) && CD.Shows(view, site.source, h, now) && NeedsHelpAt(h, now, id)
    ensures var s := PM.Downgrade(h.sessions[id], now); s in view && s.status == NeedsHelp
  {
    DowngradeConsistent(site.lib, h.sessions[id], now);
  }

  /** Read directly, the light is red exactly when some stored session needs help. */
  lemma DirectRed(site: PM.Site, client: Config, view: SourceSnapshot, h: PM.Hub, now: int)
    requires RowsConsistent(site.lib, h) && CD.Shows(view.sessions, site.source, h, now)
    ensures AggregateOf(Merged(client, [view]), client.yellowMode) == Red <==> SomeoneNeedsHelp(h, now)
  {
    var merged := Merged(client, [view]);
    if s :| s in merged && s.status == NeedsHelp {
      MergedElements(client, view, s);
      ShownNeedsHelp(site, view.sessions, h, now, s);
    }
    if id :| NeedsHelpAt(h, now, id) {
      var s := PM.Downgrade(h.sessions[id], now);
      NeedsHelpShown(site, view.sessions, h, now, id);
      MergedElements(client, view, s);
      assert s in merged && s.status == NeedsHelp;
    }
  }

  lemma RenderedRed(lib: Library, client: Config, view: SourceSnapshot, now: int)
    ensures Render(lib, client, [view], now).aggregate == "red" <==>
            AggregateOf(Merged(client, [view]), client.yellowMode) == Red
  {
  }

  /** The snapshot a desktop renders from a hub that renders `view`. */
  function Remote(lib: Library, hub: Config, client: Config, source: string, url: string, view: SourceSnapshot,
                  now: int): Snapshot {
    Render(lib, client, [RemoteView(lib, source, url, HubRender(lib, hub, view, now))], now)
  }

  lemma ShownRed(site: PM.Site, hub: Config, client: Config, source: string, url: string,
                 view: SourceSnapshot, h: PM.Hub, now: int)
    requires RowsConsistent(site.lib, h) && CD.Shows(view.sessions, site.source, h, now)
    ensures Remote(site.lib, hub, client, source, url, view, now).aggregate == "red" <==> SomeoneNeedsHelp(h, now)
  {
    ShownConsistent(site, h, now, view.sessions);
    RemoteShowsSameLive(site.lib, hub, client, source, url, view, now);
    RenderedRed(site.lib, client, view, now);
    DirectRed(site, client, view, h, now);
  }

  /** And so it is on a desktop behind a hub, whatever the hub's and the desktop's
      configurations: red exactly when some stored session needs help. */
  lemma RemoteRed(site: PM.Site, hub: Config, client: Config, source: string, url: string,
                  view: SourceSnapshot, h: PM.Hub, now: int)
    requires PF.Inv(site, h) && view.sessions == PM.View(h, now)
    ensures Remote(site.lib, hub, client, source, url, view, now).aggregate == "red" <==> SomeoneNeedsHelp(h, now)
  {
    InvRows(site, h);
    CD.ViewShows(site.source, h, now);
    ShownRed(site, hub, client, source, url, view, h, now);
  }

  // ------------------------------------------------------------- end to end

  /** The time a heartbeat at `beat` gives for the session. */
  function ReportedTime(a: P.Agent, id: string, beat: int): int {
    P.Known(a, id).updatedAt.GetOr(beat)
  }

  /** The hub reads back the one time the plugin prints for the session. */
  predicate ReadsTimeOf(lib: Library, env: P.Env, a: P.Agent, id: string, beat: int) {
    lib.parse(env.lib.render(ReportedTime(a, id, beat))) == Some(ReportedTime(a, id, beat))
  }

  /** The session's current status at the plugin is that it needs help, and it was set
      less than a day before the hub's clock. */
  predicate NeedsHelpNow(a: P.Agent, id: string, beat: int, clock: int) {
    && id in a.info && PR.StatusOf(a, id) == Some(NeedsHelp)
    && ReportedTime(a, id, beat) > clock - STALE_AFTER_HOURS * NANOS_PER_HOUR
  }

  lemma BatchCarries(env: P.Env, a: P.Agent, beat: int, clock: int, id: string)
    requires PR.Inv(a) && NeedsHelpNow(a, id, beat, clock)
    ensures var events := P.SnapshotEvents(env, a, beat);
      events != [] && PM.LastFor(events, id) == Some(P.EventFor(env, a, beat)(id))
  {
    PR.HeartbeatContents(a);
    assert P.IsLive(a)(id);
    Resync.BatchFacts(env, a, beat, id);
    assert |P.Listed(a)| > 0;
  }

  lemma EventNeedsHelp(site: PM.Site, env: P.Env, a: P.Agent, beat: int, clock: int, id: string)
    requires ReadsTimeOf(site.lib, env, a, id, beat) && NeedsHelpNow(a, id, beat, clock)
    ensures var s := PM.Normalize(site, P.EventFor(env, a, beat)(id));
      s.status == NeedsHelp && !PushStale(s.isDone, s.updatedAt, clock)
  {
  }

  lemma HeartbeatNeedsHelp(site: PM.Site, env: P.Env, a: P.Agent, h: PM.Hub, beat: int, received: int, clock: int,
                           id: string)
    requires PR.Inv(a) && ReadsTimeOf(site.lib, env, a, id, beat)
    requires NeedsHelpNow(a, id, beat, clock) && id !in h.removed
    ensures NeedsHelpAt(PM.ApplySnapshot(site, h, P.SnapshotEvents(env, a, beat), received), clock, id)
  {
    BatchCarries(env, a, beat, clock, id);
    EventNeedsHelp(site, env, a, beat, clock, id);
    PF.SnapshotAt(site, h, P.SnapshotEvents(env, a, beat), received, id);
  }

  /** End to end: after any feasible history of lost and delivered messages, foreign
      traffic, removals, clears and restarts, once a heartbeat arrives, every
      desktop behind the hub is red while a session the user did not remove has the
      status that it needs help, whatever any of them has configured. */
  lemma NeedsHelpReachesTheLight(site: PM.Site, env: P.Env, steps: seq<Resync.SystemStep>, before: Resync.System,
                               beat: int, replies: map<string, P.Description>, received: int, written: bool,
                               after: Resync.System, hub: Config, client: Config, source: string, url: string,
                               view: SourceSnapshot, clock: int, id: string)
    requires Lawful(site.lib)
    requires Resync.Feasible(site, env, Resync.BOOT, steps) && before == Resync.Trace(site, env, Resync.BOOT, steps)
    requires after == Resync.Next(site, env, before, Resync.Plugin(PR.Beat(beat, replies), true, received, written))
    requires NeedsHelpNow(after.agent, id, beat, clock) && ReadsTimeOf(site.lib, env, after.agent, id, beat)
    requires id !in before.world.hub.removed
    requires view.sessions == PM.View(after.world.hub, clock)
    ensures Remote(site.lib, hub, client, source, url, view, clock).aggregate == "red"
  {
    Resync.ReachedInv(site, env, steps);
    BeatNeedsHelp(site, env, before, beat, replies, received, written, after, clock, id);
    RemoteRed(site, hub, client, source, url, view, after.world.hub, clock);
  }

  lemma BeatNeedsHelp(site: PM.Site, env: P.Env, before: Resync.System, beat: int, replies: map<string, P.Description>,
                  received: int, written: bool, after: Resync.System, clock: int, id: string)
    requires Lawful(site.lib) && Resync.SystemInv(site, before)
    requires after == Resync.Next(site, env, before, Resync.Plugin(PR.Beat(beat, replies), true, received, written))
    requires NeedsHelpNow(after.agent, id, beat, clock) && ReadsTimeOf(site.lib, env, after.agent, id, beat)
    requires id !in before.world.hub.removed
    ensures NeedsHelpAt(after.world.hub, clock, id) && SomeoneNeedsHelp(after.world.hub, clock)
    ensures PF.Inv(site, after.world.hub)
  {
    Resync.NextInv(site, env, before, Resync.Plugin(PR.Beat(beat, replies), true, received, written));
    PR.AfterInv(env, before.agent, PR.Beat(beat, replies));
    Resync.BeatDelivers(site, env, before, beat, replies, received, written);
    BatchCarries(env, after.agent, beat, clock, id);
    HeartbeatNeedsHelp(site, env, after.agent, before.world.hub, beat, received, clock, id);
  }

  // --------------------------------------------------- from the question on

  /** The plugin's own steps of a history. */
  function PluginSteps(steps: seq<Resync.SystemStep>): seq<PR.Step> {
    if steps == [] then []
    else (if steps[0].Plugin? then [steps[0].step] else []) + PluginSteps(steps[1..])
  }

  lemma {:induction false} TraceAgent(site: PM.Site, env: P.Env, sys: Resync.System, steps: seq<Resync.SystemStep>)
    ensures Resync.Trace(site, env, sys, steps).agent == PR.RunAll(env, sys.agent, PluginSteps(steps))
    decreases |steps|
  {
    if steps != [] {
      var next := Resync.Next(site, env, sys, steps[0]);
      TraceAgent(site, env, next, steps[1..]);
      var rest := PluginSteps(steps[1..]);
      if steps[0].Plugin? {
        assert PluginSteps(steps)[0] == steps[0].step && PluginSteps(steps)[1..] == rest;
      } else {
        assert PluginSteps(steps) == rest;
      }
    }
  }

  /** `ask` put a question about `id` to the user, and none of the steps `since`
      answers or withdraws it, or deletes the session. */
  predicate OpenQuestion(ask: PR.Step, since: seq<PR.Step>, id: string) {
    && ask.Opencode? && P.Decode(ask.m) == P.Asks(Some(id)) && id != ""
    && forall s :: s in since ==> !PR.EndsWait(s, id)
  }

  /** When the heartbeat leaves, the session of an open question needs help if and only
      if the last report on it since the question is not activity. */
  lemma QuestionAtBeat(site: PM.Site, env: P.Env, steps: seq<Resync.SystemStep>, beat: int,
                       replies: map<string, P.Description>, asked: seq<PR.Step>, ask: PR.Step,
                       since: seq<PR.Step>, id: string)
    requires OpenQuestion(ask, since, id) && PluginSteps(steps) == asked + ([ask] + since)
    ensures var agent := PR.After(env, Resync.Trace(site, env, Resync.BOOT, steps).agent, PR.Beat(beat, replies));
      id in agent.awaiting && PR.StatusOf(agent, id) == PR.WaitStatus(PR.Resumed(since, id, false))
  {
    var before := Resync.Trace(site, env, Resync.BOOT, steps).agent;
    TraceAgent(site, env, Resync.BOOT, steps);
    PR.AskedColour(env, asked, ask, since, id);
    PR.ReachableInv(env, P.FRESH, PluginSteps(steps));
    PR.KeepsWaiting(env, before, PR.Beat(beat, replies), id);
    PR.WaitStep(env, before, PR.Beat(beat, replies), id);
  }

  /** End to end from the question: while it is open and no activity was reported on the
      session since the last question, idle event or error, a delivered heartbeat
      makes every desktop behind the hub red, unless the user removed the session or a
      day has passed. */
  lemma QuestionReachesTheLight(site: PM.Site, env: P.Env, steps: seq<Resync.SystemStep>, before: Resync.System,
                                beat: int, replies: map<string, P.Description>, received: int, written: bool,
                                after: Resync.System, hub: Config, client: Config, source: string, url: string,
                                view: SourceSnapshot, clock: int, id: string,
                                asked: seq<PR.Step>, ask: PR.Step, since: seq<PR.Step>)
    requires Lawful(site.lib)
    requires Resync.Feasible(site, env, Resync.BOOT, steps) && before == Resync.Trace(site, env, Resync.BOOT, steps)
    requires after == Resync.Next(site, env, before, Resync.Plugin(PR.Beat(beat, replies), true, received, written))
    requires OpenQuestion(ask, since, id) && PluginSteps(steps) == asked + ([ask] + since)
    requires !PR.Resumed(since, id, false) && id !in before.world.hub.removed
    requires ReportedTime(after.agent, id, beat) > clock - STALE_AFTER_HOURS * NANOS_PER_HOUR
    requires ReadsTimeOf(site.lib, env, after.agent, id, beat)
    requires view.sessions == PM.View(after.world.hub, clock)
    ensures Remote(site.lib, hub, client, source, url, view, clock).aggregate == "red"
  {
    QuestionAtBeat(site, env, steps, beat, replies, asked, ask, since, id);
    assert id in after.agent.info;
    NeedsHelpReachesTheLight(site, env, steps, before, beat, replies, received, written, after,
                             hub, client, source, url, view, clock, id);
  }

  // ------------------------------------------------------- over a state file

  /** The rows of a state file carry the redundant fields the relay relies on. */
  lemma FileConsistent(lib: Library, source: string, path: string, file: SF.Content, now: int, order: seq<string>)
    requires Lawful(lib) && Enumerates(order, SF.Keys(file))
    ensures AllConsistent(lib, SF.FileView(lib, source, path, file, now, order).sessions)
  {
    if SF.LoadState(file).Loaded? {
      var state := SF.ReapStale(lib, SF.LoadState(file).state, now);
      forall s | s in SF.BuildSessions(lib, source, state, order) ensures Consistent(lib, s) {
        var i :| 0 <= i < |order| && SF.BuildSessions(lib, source, state, order)[i] == s;
        assert order[i] in state;
      }
    }
  }

  /** So a desktop behind a hub over a state file shows its live sessions as one reading
      the file does, whatever the file holds. */
  lemma FileRelayed(lib: Library, hub: Config, client: Config, source: string, url: string, id: string, path: string,
                    file: SF.Content, now: int, order: seq<string>)
    requires Lawful(lib) && Enumerates(order, SF.Keys(file))
    ensures var view := SF.FileView(lib, id, path, file, now, order);
      var remote, direct := Remote(lib, hub, client, source, url, view, now), Render(lib, client, [view], now);
      && remote.aggregate == direct.aggregate && LiveRows(remote) == LiveRows(direct)
      && remote.counts.(done := 0, total := 0) == direct.counts.(done := 0, total := 0)
  {
    FileConsistent(lib, id, path, file, now, order);
    RemoteShowsSameLive(lib, hub, client, source, url, SF.FileView(lib, id, path, file, now, order), now);
  }
}
