/** A desktop watching a hub: the hub renders its sessions to rows, the desktop
    lifts the rows back into sessions and renders again. The result is compared
    with rendering the hub's source directly. */
module Relay {
  import opened Prelude
  import opened Text
  import opened Domain
  import opened StableSort
  import opened EngineModel

  /** `normalize`: a hub row lifted into a session under the desktop's source. */
  function Lift(lib: Library, source: string, row: Row): Session {
    Session(SessionKey(source, row.sessionId), row.name, row.status,
            if row.projectPath != "" then Some(row.projectPath) else None,
            row.harness, row.harnessBadge, lib.parse(row.lastUpdated), row.isDone, row.lastUpdated,
            row.url, row.isSubagent)
  }

  function Lifted(lib: Library, source: string): Row -> Session {
    row => Lift(lib, source, row)
  }

  /** `health_of`: the hub's `ok`/`exists` pair as source health. */
  function HealthOf(hub: Snapshot): Health {
    if hub.ok then Ready
    else if hub.present then Unreadable(hub.error.GetOr("hub reported an unreadable state"))
    else Missing
  }

  /** Whatever a hub answers: ready if it says so; else unreadable, with its own words if it
      gave any, when it has something to read; else missing. */
  lemma HealthAnswered(hub: Snapshot)
    ensures HealthOf(hub) == Ready <==> hub.ok
    ensures HealthOf(hub) == Missing <==> !hub.ok && !hub.present
    ensures !hub.ok && hub.present ==>
      HealthOf(hub) ==
        Unreadable(if hub.error.Some? then hub.error.value else "hub reported an unreadable state")
  {
  }

  /** `entry_from_snapshot`, as the source snapshot the desktop's engine reads. */
  function RemoteView(lib: Library, source: string, url: string, hub: Snapshot): SourceSnapshot {
    SourceSnapshot(source, HubKind, url, HealthOf(hub), MapSeq(hub.rows, Lifted(lib, source)))
  }

  // ------------------------------------------ what survives the round trip

  /** A session without what the relay is allowed to change: the source it is
      keyed under and its link. */
  function Erase(s: Session): Session {
    s.(key := SessionKey("", s.key.sessionId), url := None)
  }

  function Unlink(r: Row): Row {
    r.(url := None)
  }

  predicate SessionDone(s: Session) { s.isDone }

  /** One row, relayed: nothing but key source and link changes. */
  lemma LiftUndoesDisplay(lib: Library, source: string, config: Config, s: Session)
    requires Consistent(lib, s)
    ensures Erase(Lift(lib, source, Linked(config)(DisplaySession(lib, s)))) == Erase(s)
  {
  }

  /** And the other way round: a lifted row, displayed again, is the row the hub served,
      link included; only the key's source is the desktop's own. */
  lemma DisplayUndoesLift(lib: Library, source: string, row: Row)
    requires row.statusLabel == row.status.Label() && row.projectName == ProjectShortName(lib, row.projectPath)
    ensures DisplaySession(lib, Lift(lib, source, row)) == row
    ensures Lift(lib, source, row).key == SessionKey(source, row.sessionId)
    ensures Lift(lib, source, row).updatedAt == lib.parse(row.lastUpdated)
    ensures row.isDone == (row.status == Done) ==> Consistent(lib, Lift(lib, source, row))
  {
  }

  ghost predicate AllConsistent(lib: Library, sessions: seq<Session>) {
    forall s :: s in sessions ==> Consistent(lib, s)
  }

  /** The sessions a hub with this retention setting passes on. */
  function Passed(sessions: seq<Session>, showDone: bool): seq<Session> {
    if showDone then sessions else Retain(sessions, SessionDone, DONE_RETENTION)
  }

  lemma PassedSorted(sessions: seq<Session>, showDone: bool)
    requires Sorted(sessions, SessionLe)
    ensures Sorted(Passed(sessions, showDone), SessionLe)
    ensures forall s :: s in Passed(sessions, showDone) ==> s in sessions
  {
    RetainSorted(sessions, SessionDone, DONE_RETENTION, SessionLe);
  }

  lemma RetainedRows(lib: Library, sessions: seq<Session>, showDone: bool)
    ensures Retained(MapSeq(sessions, ToRow(lib)), showDone) == MapSeq(Passed(sessions, showDone), ToRow(lib))
  {
    RetainMap(sessions, ToRow(lib), SessionDone, IsDoneRow, DONE_RETENTION);
  }

  /** The relayed sessions are the hub's sorted, retained sessions, up to key
      source and link. */
  lemma RelayedSessions(lib: Library, hub: Config, source: string, sessions: seq<Session>)
    requires AllConsistent(lib, sessions)
    ensures MapSeq(MapSeq(RowsOf(lib, hub, sessions), Lifted(lib, source)), Erase) ==
            MapSeq(Passed(sessions, hub.showDone), Erase)
  {
    RetainedRows(lib, sessions, hub.showDone);
    var passed := Passed(sessions, hub.showDone);
    RetainSubset(sessions);
    forall i | 0 <= i < |passed|
      ensures Erase(Lift(lib, source, Linked(hub)(DisplaySession(lib, passed[i])))) == Erase(passed[i])
    {
      assert passed[i] in passed;
      LiftUndoesDisplay(lib, source, hub, passed[i]);
    }
  }

  lemma {:induction false} RetainElements<T>(xs: seq<T>, done: T -> bool, quota: nat)
    ensures forall x :: x in Retain(xs, done, quota) ==> x in xs
  {
    if xs != [] {
      RetainElements(xs[1..], done, if done(xs[0]) && quota > 0 then quota - 1 else quota);
    }
  }

  lemma RetainSubset(sessions: seq<Session>)
    ensures forall s :: s in Retain(sessions, SessionDone, DONE_RETENTION) ==> s in sessions
  {
    RetainElements(sessions, SessionDone, DONE_RETENTION);
  }

  /** Merging looks only at what the relay preserves. */
  lemma MergeErased(sessions: seq<Session>, show: bool)
    ensures MapSeq(Sort(Filter(sessions, Visible(show)), SessionLe), Erase) ==
            Sort(Filter(MapSeq(sessions, Erase), Visible(show)), SessionLe)
  {
    var visible := Filter(sessions, Visible(show));
    FilterMap(sessions, Erase, Visible(show), Visible(show));
    SortMap(visible, Erase, SessionLe, SessionLe);
  }

  /** The desktop's merged list, erased: the visible part of what the hub passed
      on, still in the hub's order. */
  lemma RemoteMerged(lib: Library, hub: Config, client: Config, source: string, url: string, sessions: seq<Session>)
    requires AllConsistent(lib, sessions) && Sorted(sessions, SessionLe)
    ensures var lifted := MapSeq(RowsOf(lib, hub, sessions), Lifted(lib, source));
      var view := SourceSnapshot(source, HubKind, url, Ready, lifted);
      MapSeq(Merged(client, [view]), Erase) ==
      MapSeq(Filter(Passed(sessions, hub.showDone), Visible(client.showSubagents)), Erase)
  {
    var show := Visible(client.showSubagents);
    var relayed := MapSeq(RowsOf(lib, hub, sessions), Lifted(lib, source));
    var passed := Passed(sessions, hub.showDone);
    var view := SourceSnapshot(source, HubKind, url, Ready, relayed);
    assert Flatten([view]) == relayed + Flatten([]) == relayed;
    MergeErased(relayed, client.showSubagents);
    RelayedSessions(lib, hub, source, sessions);
    MergeErased(passed, client.showSubagents);
    PassedSorted(sessions, hub.showDone);
    FilterSorted(passed, show, SessionLe);
    SortOfSorted(Filter(passed, show), SessionLe);
  }

  /** Sessions that are the same up to key source and link have the same light and
      the same counts, and render to the same rows up to the link. */
  lemma SameRendering(lib: Library, config: Config, xs: seq<Session>, ys: seq<Session>)
    requires MapSeq(xs, Erase) == MapSeq(ys, Erase)
    ensures CountOf(xs) == CountOf(ys) && AggregateOf(xs, config.yellowMode) == AggregateOf(ys, config.yellowMode)
    ensures MapSeq(RowsOf(lib, config, xs), Unlink) == MapSeq(RowsOf(lib, config, ys), Unlink)
  {
    ErasedCounts(xs);
    ErasedCounts(ys);
    SameLight(xs, ys, config.yellowMode);
    PlainRows(lib, config, xs);
    PlainRows(lib, config, ys);
  }

  lemma ErasedCounts(xs: seq<Session>)
    ensures CountOf(MapSeq(xs, Erase)) == CountOf(xs)
  {
    FilterMap(xs, Erase, HasStatus(NeedsHelp), HasStatus(NeedsHelp));
    FilterMap(xs, Erase, HasStatus(Active), HasStatus(Active));
    FilterMap(xs, Erase, HasStatus(Inactive), HasStatus(Inactive));
    FilterMap(xs, Erase, HasStatus(Done), HasStatus(Done));
  }

  /** The light is determined by the live counts. */
  lemma SameLight(xs: seq<Session>, ys: seq<Session>, mode: YellowMode)
    requires CountOf(xs).(done := 0, total := 0) == CountOf(ys).(done := 0, total := 0)
    ensures AggregateOf(xs, mode) == AggregateOf(ys, mode)
  {
    SomeCounts(xs, NeedsHelp); SomeCounts(ys, NeedsHelp);
    SomeCounts(xs, Active); SomeCounts(ys, Active);
    SomeCounts(xs, Inactive); SomeCounts(ys, Inactive);
  }

  lemma PlainRows(lib: Library, config: Config, xs: seq<Session>)
    ensures MapSeq(RowsOf(lib, config, xs), Unlink) ==
            Retained(MapSeq(MapSeq(xs, Erase), ToRow(lib)), config.showDone)
  {
    var rows := MapSeq(xs, ToRow(lib));
    RetainMap(rows, Unlink, IsDoneRow, IsDoneRow, DONE_RETENTION);
    assert MapSeq(MapSeq(xs, Erase), ToRow(lib)) == MapSeq(rows, Unlink);
    var kept := Retained(rows, config.showDone);
    assert MapSeq(MapSeq(kept, Linked(config)), Unlink) == MapSeq(kept, Unlink);
  }

  // ----------------------------------------------------------- the theorems

  /** The rows of a snapshot that are not done, without their links. */
  function LiveRows(snapshot: Snapshot): seq<Row> {
    MapSeq(Filter(snapshot.rows, Not(IsDoneRow)), Unlink)
  }

  function AllRows(snapshot: Snapshot): seq<Row> {
    MapSeq(snapshot.rows, Unlink)
  }

  lemma UnlinkLive(r: Row)
    ensures Not(IsDoneRow)(Unlink(r)) == Not(IsDoneRow)(r)
  {
    assert Not(IsDoneRow)(Unlink(r)) == !IsDoneRow(Unlink(r));
    assert Not(IsDoneRow)(r) == !IsDoneRow(r);
  }

  lemma LiveRowsOf(lib: Library, config: Config, xs: seq<Session>)
    ensures MapSeq(Filter(RowsOf(lib, config, xs), Not(IsDoneRow)), Unlink) ==
            MapSeq(MapSeq(Filter(xs, Not(SessionDone)), Erase), ToRow(lib))
  {
    forall r: Row ensures Not(IsDoneRow)(Unlink(r)) == Not(IsDoneRow)(r) {
      UnlinkLive(r);
    }
    FilterMap(RowsOf(lib, config, xs), Unlink, Not(IsDoneRow), Not(IsDoneRow));
    PlainRows(lib, config, xs);
    RetainParts(MapSeq(MapSeq(xs, Erase), ToRow(lib)), IsDoneRow, DONE_RETENTION);
    PlainLive(lib, xs);
  }

  lemma PlainLive(lib: Library, xs: seq<Session>)
    ensures Filter(MapSeq(MapSeq(xs, Erase), ToRow(lib)), Not(IsDoneRow)) ==
            MapSeq(MapSeq(Filter(xs, Not(SessionDone)), Erase), ToRow(lib))
  {
    FilterMap(MapSeq(xs, Erase), ToRow(lib), Not(IsDoneRow), Not(SessionDone));
    FilterMap(xs, Erase, Not(SessionDone), Not(SessionDone));
  }

  /** What the hub passes on has the same live part as what it had. */
  lemma PassedLive(sessions: seq<Session>, showDone: bool, show: bool)
    ensures Filter(Filter(Passed(sessions, showDone), Visible(show)), Not(SessionDone)) ==
            Filter(Filter(sessions, Visible(show)), Not(SessionDone))
  {
    var passed := Passed(sessions, showDone);
    var both := (s: Session) => Not(SessionDone)(s) && Visible(show)(s);
    FilterCompose(passed, Not(SessionDone), Visible(show), both);
    FilterCompose(sessions, Not(SessionDone), Visible(show), both);
    RetainParts(sessions, SessionDone, DONE_RETENTION);
    FilterCompose(passed, Visible(show), Not(SessionDone), both);
    FilterCompose(sessions, Visible(show), Not(SessionDone), both);
  }

  lemma LiveCounts(xs: seq<Session>, ys: seq<Session>)
    requires Filter(xs, Not(SessionDone)) == Filter(ys, Not(SessionDone))
    requires forall s :: s in xs || s in ys ==> s.isDone == (s.status == Done)
    ensures CountOf(xs).(done := 0, total := 0) == CountOf(ys).(done := 0, total := 0)
  {
    LiveCount(xs, NeedsHelp); LiveCount(ys, NeedsHelp);
    LiveCount(xs, Active); LiveCount(ys, Active);
    LiveCount(xs, Inactive); LiveCount(ys, Inactive);
  }

  lemma LiveCount(xs: seq<Session>, status: Status)
    requires status != Done && forall s :: s in xs ==> s.isDone == (s.status == Done)
    ensures Count(xs, HasStatus(status)) == Count(Filter(xs, Not(SessionDone)), HasStatus(status))
  {
    forall s | s in xs
      ensures HasStatus(status)(s) == (HasStatus(status)(s) && Not(SessionDone)(s))
    {
      assert Not(SessionDone)(s) == !SessionDone(s);
    }
    FilterCompose(xs, HasStatus(status), Not(SessionDone), HasStatus(status));
  }

  /** What the hub's engine renders from one ready source, with subagents relayed. */
  function HubRender(lib: Library, hub: Config, view: SourceSnapshot, now: int): Snapshot {
    Render(lib, hub.(showSubagents := true), [view], now)
  }

  lemma HubMerges(hub: Config, view: SourceSnapshot)
    ensures Merged(hub.(showSubagents := true), [view]) == Sort(view.sessions, SessionLe)
  {
    assert Flatten([view]) == view.sessions + Flatten([]) == view.sessions;
    FilterAll(view.sessions, Visible(true));
  }

  lemma DirectMerges(client: Config, view: SourceSnapshot)
    ensures Merged(client, [view]) == Filter(Sort(view.sessions, SessionLe), Visible(client.showSubagents))
  {
    assert Flatten([view]) == view.sessions + Flatten([]) == view.sessions;
    SessionOrder();
    SortFilter(view.sessions, SessionLe, Visible(client.showSubagents));
  }

  /** The desktop's merged list over the hub, against the list over the source. */
  lemma RemoteAgainstDirect(lib: Library, hub: Config, client: Config, source: string, url: string,
                            view: SourceSnapshot, now: int)
    requires AllConsistent(lib, view.sessions)
    ensures var sorted := Sort(view.sessions, SessionLe);
      var show := Visible(client.showSubagents);
      var remote := Merged(client, [RemoteView(lib, source, url, HubRender(lib, hub, view, now))]);
      && Sorted(sorted, SessionLe) && AllConsistent(lib, sorted)
      && MapSeq(remote, Erase) == MapSeq(Filter(Passed(sorted, hub.showDone), show), Erase)
      && Merged(client, [view]) == Filter(sorted, show)
  {
    var sorted := Sort(view.sessions, SessionLe);
    SessionOrder();
    SortSorted(view.sessions, SessionLe);
    SortElements(view.sessions, SessionLe);
    HubMerges(hub, view);
    DirectMerges(client, view);
    RemoteMerged(lib, hub.(showSubagents := true), client, source, url, sorted);
    SameFlatten(client, RemoteView(lib, source, url, HubRender(lib, hub, view, now)),
      SourceSnapshot(source, HubKind, url, Ready,
                     MapSeq(RowsOf(lib, hub.(showSubagents := true), sorted), Lifted(lib, source))));
  }

  lemma SameFlatten(client: Config, a: SourceSnapshot, b: SourceSnapshot)
    requires a.sessions == b.sessions
    ensures Merged(client, [a]) == Merged(client, [b])
  {
    assert Flatten([a]) == a.sessions + Flatten([]);
    assert Flatten([b]) == b.sessions + Flatten([]);
  }

  /** Sessions with the same live part show the same light, live counts and rows. */
  lemma SameLivePart(lib: Library, config: Config, xs: seq<Session>, ys: seq<Session>)
    requires Filter(xs, Not(SessionDone)) == Filter(ys, Not(SessionDone))
    requires forall s :: s in xs || s in ys ==> s.isDone == (s.status == Done)
    ensures CountOf(xs).(done := 0, total := 0) == CountOf(ys).(done := 0, total := 0)
    ensures AggregateOf(xs, config.yellowMode) == AggregateOf(ys, config.yellowMode)
    ensures LivePart(lib, config, xs) == LivePart(lib, config, ys)
  {
    LiveCounts(xs, ys);
    SameLight(xs, ys, config.yellowMode);
    LiveRowsOf(lib, config, xs);
    LiveRowsOf(lib, config, ys);
  }

  /** The live rows a merged list renders to, without their links. */
  function LivePart(lib: Library, config: Config, xs: seq<Session>): seq<Row> {
    MapSeq(Filter(RowsOf(lib, config, xs), Not(IsDoneRow)), Unlink)
  }

  lemma SameErasedLive(lib: Library, config: Config, xs: seq<Session>, ys: seq<Session>)
    requires MapSeq(xs, Erase) == MapSeq(ys, Erase)
    ensures LivePart(lib, config, xs) == LivePart(lib, config, ys)
  {
    LiveRowsOf(lib, config, xs);
    LiveRowsOf(lib, config, ys);
    FilterMap(xs, Erase, Not(SessionDone), Not(SessionDone));
    FilterMap(ys, Erase, Not(SessionDone), Not(SessionDone));
  }

  /** A desktop on a hub shows the same light, the same live counts and the same
      live rows in the same order as a desktop reading the hub's source directly,
      whatever the desktop's configuration and whether or not the hub retains. */
  lemma RemoteShowsSameLive(lib: Library, hub: Config, client: Config, source: string, url: string,
                            view: SourceSnapshot, now: int)
    requires AllConsistent(lib, view.sessions)
    ensures var remote := Render(lib, client, [RemoteView(lib, source, url, HubRender(lib, hub, view, now))], now);
      var direct := Render(lib, client, [view], now);
      && remote.aggregate == direct.aggregate
      && remote.counts.(done := 0, total := 0) == direct.counts.(done := 0, total := 0)
      && LiveRows(remote) == LiveRows(direct)
  {
    var remote := Merged(client, [RemoteView(lib, source, url, HubRender(lib, hub, view, now))]);
    RemoteAgainstDirect(lib, hub, client, source, url, view, now);
    SameLiveMerged(lib, hub, client, remote, Sort(view.sessions, SessionLe));
  }

  lemma SameLiveMerged(lib: Library, hub: Config, client: Config, remote: seq<Session>, sorted: seq<Session>)
    requires AllConsistent(lib, sorted)
    requires MapSeq(remote, Erase) == MapSeq(Filter(Passed(sorted, hub.showDone), Visible(client.showSubagents)), Erase)
    ensures var direct := Filter(sorted, Visible(client.showSubagents));
      && CountOf(remote).(done := 0, total := 0) == CountOf(direct).(done := 0, total := 0)
      && AggregateOf(remote, client.yellowMode) == AggregateOf(direct, client.yellowMode)
      && LivePart(lib, client, remote) == LivePart(lib, client, direct)
  {
    var passed := Filter(Passed(sorted, hub.showDone), Visible(client.showSubagents));
    SameRendering(lib, client, remote, passed);
    SameErasedLive(lib, client, remote, passed);
    PassedLive(sorted, hub.showDone, client.showSubagents);
    RetainSubset(sorted);
    SameLivePart(lib, client, passed, Filter(sorted, Visible(client.showSubagents)));
  }

  /** If the hub shows every done session, the desktop cannot be told from a direct
      one at all: same light, counts and rows. */
  lemma RemoteShowsSameAll(lib: Library, hub: Config, client: Config, source: string, url: string,
                           view: SourceSnapshot, now: int)
    requires AllConsistent(lib, view.sessions) && hub.showDone
    ensures var remote := Render(lib, client, [RemoteView(lib, source, url, HubRender(lib, hub, view, now))], now);
      var direct := Render(lib, client, [view], now);
      remote.aggregate == direct.aggregate && remote.counts == direct.counts && AllRows(remote) == AllRows(direct)
  {
    var remote := Merged(client, [RemoteView(lib, source, url, HubRender(lib, hub, view, now))]);
    RemoteAgainstDirect(lib, hub, client, source, url, view, now);
    SameRendering(lib, client, remote, Merged(client, [view]));
  }

  /** The desktop reports the hub's own health: ready exactly when the hub's source
      was, missing exactly when the hub had none, and otherwise unreadable for the
      reason the hub gives. */
  lemma RemoteHealth(lib: Library, hub: Config, view: SourceSnapshot, now: int)
    ensures var health := HealthOf(HubRender(lib, hub, view, now));
      && (health == Ready <==> view.health == Ready) && (health == Missing <==> view.health == Missing)
      && (view.health.Unreadable? ==> health == Unreadable(ErrorText(view.kind, Some(view.health.reason))))
  {
    HealthShown(hub.(showSubagents := true), view);
  }

  lemma HealthShown(hub: Config, view: SourceSnapshot)
    ensures AllReady([view]) <==> view.health == Ready
    ensures (exists s :: s in [view] && s.health != Missing) <==> view.health != Missing
    ensures view.health.Unreadable? ==> ErrorOf(hub, [view]) == Some(ErrorText(view.kind, Some(view.health.reason)))
  {
    assert [view][0] == view && view in [view];
  }
}
