/** The same sessions read through either kind of source: the file reader truncates
    hours elapsed and the push store compares a cutoff, yet at every clock both show
    the same statuses, and so the same counts and the same light. */
module Staleness {
  import opened Prelude
  import opened Text
  import opened Domain
  import opened StableSort
  import opened EngineModel
  import opened StateFile
  import PM = PushModel

  /** A state file and a push store hold the same triples of id, status and time of
      the last update, each in its own form. */
  ghost predicate SameTriples(lib: Library, state: HookState, h: PM.Hub) {
    && state.Keys == h.sessions.Keys
    && forall id :: id in h.sessions ==>
         && h.sessions[id].status == state[id].status
         && h.sessions[id].lastUpdated == state[id].lastUpdated.GetOr("")
         && Consistent(lib, h.sessions[id])
  }

  /** The status each session of the file is shown with at `now`. */
  function ShownAt(lib: Library, state: HookState, now: int): map<string, Status> {
    map id | id in state :: Reap(lib, state[id], now).status
  }

  function Showing(shown: map<string, Status>, status: Status): string -> bool {
    id => id in shown && shown[id] == status
  }

  lemma SameTime(lib: Library, state: HookState, h: PM.Hub, id: string)
    requires Lawful(lib) && SameTriples(lib, state, h) && id in h.sessions
    ensures h.sessions[id].updatedAt == UpdatedAt(lib, state[id])
    ensures h.sessions[id].isDone == (state[id].status == Done)
  {
  }

  /** Session by session: what the push store shows at `now` is what the file reader
      shows, and a session once shown as done stays so as the clock advances. */
  lemma SameStatus(lib: Library, state: HookState, h: PM.Hub, now: int, later: int, id: string)
    requires Lawful(lib) && SameTriples(lib, state, h) && id in h.sessions
    ensures PM.Downgrade(h.sessions[id], now).status == Reap(lib, state[id], now).status
    ensures now <= later && Reap(lib, state[id], now).status == Done ==> Reap(lib, state[id], later).status == Done
  {
    SameTime(lib, state, h, id);
    StalenessAgrees(state[id].status, UpdatedAt(lib, state[id]), now, later);
    StalenessAgrees(state[id].status, UpdatedAt(lib, state[id]), later, later);
  }

  /** `f` builds a row per listed id, with the status `shown` gives it. */
  ghost predicate RowsShow(ids: seq<string>, f: string -> Session, shown: map<string, Status>) {
    forall id :: id in ids ==> id in shown && f(id).status == shown[id]
  }

  lemma FileRows(lib: Library, source: string, state: HookState, order: seq<string>, now: int)
    requires Enumerates(order, state.Keys)
    ensures RowsShow(order, SessionAt(lib, source, ReapStale(lib, state, now)), ShownAt(lib, state, now))
  {
  }

  lemma PushRows(lib: Library, state: HookState, h: PM.Hub, ids: seq<string>, now: int)
    requires Lawful(lib) && SameTriples(lib, state, h) && Enumerates(ids, h.sessions.Keys)
    ensures RowsShow(ids, PM.ViewRow(h, now), ShownAt(lib, state, now))
  {
    forall id | id in ids
      ensures id in ShownAt(lib, state, now) && PM.ViewRow(h, now)(id).status == ShownAt(lib, state, now)[id]
    {
      SameStatus(lib, state, h, now, now, id);
    }
  }

  lemma RowCount(ids: seq<string>, f: string -> Session, shown: map<string, Status>, status: Status)
    requires RowsShow(ids, f, shown)
    ensures Count(MapSeq(ids, f), HasStatus(status)) == Count(ids, Showing(shown, status))
  {
    FilterMap(ids, f, HasStatus(status), Showing(shown, status));
  }

  /** Rows built by two builders that show the same statuses, in any two orders. */
  lemma SameRowCounts(order: seq<string>, f: string -> Session, ids: seq<string>, g: string -> Session,
                      shown: map<string, Status>, mode: YellowMode)
    requires Enumerates(order, shown.Keys) && Enumerates(ids, shown.Keys)
    requires RowsShow(order, f, shown) && RowsShow(ids, g, shown)
    ensures CountOf(MapSeq(order, f)) == CountOf(MapSeq(ids, g))
    ensures AggregateOf(MapSeq(order, f), mode) == AggregateOf(MapSeq(ids, g), mode)
  {
    EnumerationLength(order, shown.Keys);
    EnumerationLength(ids, shown.Keys);
    EnumerationsSameMultiset(order, ids, shown.Keys);
    forall status ensures Count(MapSeq(order, f), HasStatus(status)) == Count(MapSeq(ids, g), HasStatus(status)) {
      RowCount(order, f, shown, status);
      RowCount(ids, g, shown, status);
      CountMultiset(order, ids, Showing(shown, status));
    }
    SameLight(MapSeq(order, f), MapSeq(ids, g), mode);
  }

  lemma SameLight(xs: seq<Session>, ys: seq<Session>, mode: YellowMode)
    requires |xs| == |ys|
    requires forall status :: Count(xs, HasStatus(status)) == Count(ys, HasStatus(status))
    ensures CountOf(xs) == CountOf(ys) && AggregateOf(xs, mode) == AggregateOf(ys, mode)
  {
    SomeCounts(xs, NeedsHelp); SomeCounts(ys, NeedsHelp);
    SomeCounts(xs, Active); SomeCounts(ys, Active);
    SomeCounts(xs, Inactive); SomeCounts(ys, Inactive);
  }

  /** The two sources agree: whatever order the file's map is walked in, at every
      clock their sessions have the same counts and give the same light. */
  lemma SourcesAgree(lib: Library, source: string, state: HookState, order: seq<string>, h: PM.Hub, view: seq<Session>,
                     now: int, mode: YellowMode)
    requires Lawful(lib) && SameTriples(lib, state, h) && Enumerates(order, state.Keys) && view == PM.View(h, now)
    ensures var file := BuildSessions(lib, source, ReapStale(lib, state, now), order);
      CountOf(file) == CountOf(view) && AggregateOf(file, mode) == AggregateOf(view, mode)
  {
    PM.SortedIdsCharacter(h.sessions.Keys, PM.Listing(h.sessions.Keys));
    ListedAgree(lib, source, state, order, h, PM.SortedIds(h.sessions.Keys), now, mode);
  }

  lemma ListedAgree(lib: Library, source: string, state: HookState, order: seq<string>, h: PM.Hub, ids: seq<string>,
                    now: int, mode: YellowMode)
    requires Lawful(lib) && SameTriples(lib, state, h)
    requires Enumerates(order, state.Keys) && Enumerates(ids, h.sessions.Keys)
    ensures var file := BuildSessions(lib, source, ReapStale(lib, state, now), order);
      var push := MapSeq(ids, PM.ViewRow(h, now));
      CountOf(file) == CountOf(push) && AggregateOf(file, mode) == AggregateOf(push, mode)
  {
    var shown := ShownAt(lib, state, now);
    assert shown.Keys == state.Keys;
    FileRows(lib, source, state, order, now);
    PushRows(lib, state, h, ids, now);
    SameRowCounts(order, SessionAt(lib, source, ReapStale(lib, state, now)), ids, PM.ViewRow(h, now), shown, mode);
  }

  ghost predicate HidesNone(config: Config, sessions: seq<Session>) {
    forall s :: s in sessions ==> SessionVisible(config.showSubagents, s)
  }

  lemma FileShowsAll(lib: Library, config: Config, source: string, state: HookState, order: seq<string>)
    ensures HidesNone(config, BuildSessions(lib, source, state, order))
  {
    var sessions := BuildSessions(lib, source, state, order);
    forall s | s in sessions ensures SessionVisible(config.showSubagents, s) {
      var i :| 0 <= i < |sessions| && sessions[i] == s;
      assert s == SessionAt(lib, source, state)(order[i]);
    }
  }

  /** One source's rows, sorted and filtered. */
  lemma MergedShown(config: Config, view: SourceSnapshot)
    ensures var shown := Filter(view.sessions, Visible(config.showSubagents));
      && CountOf(Merged(config, [view])) == CountOf(shown)
      && AggregateOf(Merged(config, [view]), config.yellowMode) == AggregateOf(shown, config.yellowMode)
  {
    assert Flatten([view]) == view.sessions + Flatten([]) == view.sessions;
    var shown := Filter(view.sessions, Visible(config.showSubagents));
    OrderIrrelevant(Sort(shown, SessionLe), shown, config.yellowMode);
  }

  lemma MergedAll(config: Config, view: SourceSnapshot)
    requires HidesNone(config, view.sessions)
    ensures CountOf(Merged(config, [view])) == CountOf(view.sessions)
    ensures AggregateOf(Merged(config, [view]), config.yellowMode) == AggregateOf(view.sessions, config.yellowMode)
  {
    MergedShown(config, view);
    FilterAll(view.sessions, Visible(config.showSubagents));
  }

  lemma MergedFewer(config: Config, view: SourceSnapshot)
    requires !HidesNone(config, view.sessions)
    ensures CountOf(Merged(config, [view])).total < CountOf(view.sessions).total
  {
    MergedShown(config, view);
    FilterFewer(view.sessions, Visible(config.showSubagents));
  }

  /** A session that needs help is never hidden. */
  lemma MergedRed(config: Config, view: SourceSnapshot)
    ensures AggregateOf(Merged(config, [view]), config.yellowMode) == Red <==>
            AggregateOf(view.sessions, config.yellowMode) == Red
  {
    var shown := Filter(view.sessions, Visible(config.showSubagents));
    MergedShown(config, view);
    HelpShown(config.showSubagents, view.sessions);
    RedWhen(shown, config.yellowMode);
    RedWhen(view.sessions, config.yellowMode);
  }

  lemma RedWhen(sessions: seq<Session>, mode: YellowMode)
    ensures AggregateOf(sessions, mode) == Red <==> Some_(sessions, NeedsHelp)
  {
  }

  lemma HelpShown(showSubagents: bool, sessions: seq<Session>)
    ensures Some_(Filter(sessions, Visible(showSubagents)), NeedsHelp) <==> Some_(sessions, NeedsHelp)
  {
    if s :| s in sessions && s.status == NeedsHelp {
      assert s in Filter(sessions, Visible(showSubagents));
    }
  }

  lemma RenderedOf(lib: Library, config: Config, view: SourceSnapshot, now: int)
    ensures var r, light := Render(lib, config, [view], now), AggregateOf(Merged(config, [view]), config.yellowMode);
      && r.counts == CountOf(Merged(config, [view]))
      && r.aggregate == light.Name() && (r.aggregate == "red" <==> light == Red)
  {
  }

  lemma ShownAgree(lib: Library, config: Config, file: SourceSnapshot, push: SourceSnapshot, now: int)
    requires CountOf(file.sessions) == CountOf(push.sessions) && HidesNone(config, file.sessions)
    requires AggregateOf(file.sessions, config.yellowMode) == AggregateOf(push.sessions, config.yellowMode)
    ensures var overFile, overPush := Render(lib, config, [file], now), Render(lib, config, [push], now);
      && (overFile.counts == overPush.counts <==> HidesNone(config, push.sessions))
      && (HidesNone(config, push.sessions) ==> overFile.aggregate == overPush.aggregate)
      && (overFile.aggregate == "red" <==> overPush.aggregate == "red")
  {
    RenderedOf(lib, config, file, now);
    RenderedOf(lib, config, push, now);
    MergedAll(config, file);
    MergedRed(config, push);
    if HidesNone(config, push.sessions) {
      MergedAll(config, push);
    } else {
      MergedFewer(config, push);
    }
  }

  /** Rendered, the two differ only where subagents are hidden, since only the push
      store knows them: a desktop shows the same counts over either source exactly when
      it hides no session of the push store, then also the same light, and red over
      one exactly when red over the other in any case. */
  lemma RenderedAgree(lib: Library, config: Config, source: string, state: HookState, order: seq<string>, h: PM.Hub,
                      file: SourceSnapshot, push: SourceSnapshot, now: int)
    requires Lawful(lib) && SameTriples(lib, state, h) && Enumerates(order, state.Keys)
    requires file.sessions == BuildSessions(lib, source, ReapStale(lib, state, now), order)
    requires push.sessions == PM.View(h, now)
    ensures var overFile, overPush := Render(lib, config, [file], now), Render(lib, config, [push], now);
      && (overFile.counts == overPush.counts <==> HidesNone(config, push.sessions))
      && (HidesNone(config, push.sessions) ==> overFile.aggregate == overPush.aggregate)
      && (overFile.aggregate == "red" <==> overPush.aggregate == "red")
  {
    SourcesAgree(lib, source, state, order, h, push.sessions, now, config.yellowMode);
    FileShowsAll(lib, config, source, ReapStale(lib, state, now), order);
    ShownAgree(lib, config, file, push, now);
  }
}
