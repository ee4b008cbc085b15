/** What "Clear done" really removes: over a state file, and over the push store,
    where one bulk command stands in for the removals. */
module ClearDone {
  import opened Prelude
  import opened Text
  import opened Domain
  import opened StableSort
  import opened EngineModel
  import opened StateFile
  import PM = PushModel
  import PF = PushFacts
  import opened ClearModel

  /** The sources after the engine's `clear_done`, given the models it sampled and
      the iteration order of a bulk clear. */
  function Cleared(sources: seq<Source>, models: seq<Session>, order: seq<string>): seq<Source> {
    var keys := DoneKeys(models);
    if keys == [] then sources
    else if |sources| == 1 && Bulk(sources[0]) then [sources[0].(hub := PM.ClearDone(sources[0].hub, order))]
    else ClearEach(sources, keys)
  }

  /** What it reports: how many it removed, or an error if every removal failed. */
  function Report(sources: seq<Source>, models: seq<Session>): Result<nat> {
    var keys := DoneKeys(models);
    if keys == [] then Ok(0)
    else if |sources| == 1 && Bulk(sources[0]) then Ok(|keys|)
    else if Successes(sources, keys) == 0 then Err("every removal failed")
    else Ok(Successes(sources, keys))
  }

  /** The engine's models over one source's sessions. */
  function Models(sessions: seq<Session>): seq<Session> {
    Sort(sessions, SessionLe)
  }

  // -------------------------------------------------------------- key lists

  ghost predicate KeyedBy(sessions: seq<Session>, source: string) {
    forall s :: s in sessions ==> s.key.source == source
  }

  function IdOf(): Session -> string {
    (s: Session) => s.key.sessionId
  }

  function SessionIds(sessions: seq<Session>): seq<string> {
    MapSeq(sessions, IdOf())
  }

  lemma {:induction false} MineOfOne(sessions: seq<Session>, source: string)
    requires KeyedBy(sessions, source)
    ensures Mine(KeysOf(sessions), source) == SessionIds(sessions)
  {
    if sessions != [] {
      var rest, s := sessions[..|sessions| - 1], sessions[|sessions| - 1];
      assert sessions == rest + [s];
      MineOfOne(rest, source);
      assert KeysOf(sessions)[..|sessions| - 1] == KeysOf(rest);
      assert SessionIds(sessions) == SessionIds(rest) + [s.key.sessionId];
    }
  }

  /** Over one source, clearing key by key is removing its ids one by one. */
  lemma ClearEachOfOne(s: Source, sessions: seq<Session>)
    requires KeyedBy(sessions, s.id)
    ensures ClearEach([s], KeysOf(sessions)) == [RemoveEach(s, SessionIds(sessions))]
  {
    Routing([s], KeysOf(sessions));
    MineOfOne(sessions, s.id);
    assert ClearEach([s], KeysOf(sessions))[0] == RemoveEach([s][0], Mine(KeysOf(sessions), [s][0].id));
  }

  // ------------------------------------------------------------- state file

  /** The ids that are done or stale at `now`. */
  function DoneAt(lib: Library, file: Content, now: int): set<string> {
    match LoadState(file)
    case Loaded(state) => set id | id in state && Reap(lib, state[id], now).status == Done
    case _ => {}
  }

  lemma FileDone(lib: Library, s: Source, now: int, order: seq<string>)
    requires s.FileSource? && Enumerates(order, Keys(s.file))
    ensures var done := Filter(Models(FileView(lib, s.id, s.path, s.file, now, order).sessions), ModelDone);
      && KeyedBy(done, s.id)
      && (forall id :: id in SessionIds(done) <==> id in DoneAt(lib, s.file, now))
      && NoDup(SessionIds(done))
  {
    var sessions := FileView(lib, s.id, s.path, s.file, now, order).sessions;
    var done := Filter(Models(sessions), ModelDone);
    SortElements(sessions, SessionLe);
    if LoadState(s.file).Loaded? {
      var state := ReapStale(lib, LoadState(s.file).state, now);
      FileSessions(lib, s.id, state, order);
      SortIdsNoDup(sessions);
      FilterIdsNoDup(Models(sessions));
      forall id ensures id in SessionIds(done) <==> id in DoneAt(lib, s.file, now) {
        DoneIdIn(done, id);
        if id in DoneAt(lib, s.file, now) {
          var x := BuildSession(lib, s.id, id, state[id]);
          assert x in sessions;
          assert x in done;
        }
      }
    } else {
      assert done == [];
    }
  }

  lemma DoneIdIn(done: seq<Session>, id: string)
    ensures id in SessionIds(done) <==> exists s :: s in done && s.key.sessionId == id
  {
    if id in SessionIds(done) {
      var i :| 0 <= i < |done| && SessionIds(done)[i] == id;
      assert done[i] in done;
    }
    if s :| s in done && s.key.sessionId == id {
      var i :| 0 <= i < |done| && done[i] == s;
      assert SessionIds(done)[i] == id;
    }
  }

  lemma FileSessions(lib: Library, source: string, state: HookState, order: seq<string>)
    requires Enumerates(order, state.Keys)
    ensures var sessions := BuildSessions(lib, source, state, order);
      && (forall s :: s in sessions <==>
            s.key.sessionId in state && s == BuildSession(lib, source, s.key.sessionId, state[s.key.sessionId]))
      && (forall id :: id in state ==> BuildSession(lib, source, id, state[id]) in sessions)
      && KeyedBy(sessions, source) && NoDup(SessionIds(sessions))
  {
    var sessions := BuildSessions(lib, source, state, order);
    forall id | id in state ensures BuildSession(lib, source, id, state[id]) in sessions {
      var i :| 0 <= i < |order| && order[i] == id;
      assert sessions[i] == BuildSession(lib, source, id, state[id]);
    }
    forall s | s in sessions
      ensures s.key.sessionId in state && s == BuildSession(lib, source, s.key.sessionId, state[s.key.sessionId])
    {
      var i :| 0 <= i < |sessions| && sessions[i] == s;
      assert order[i] in state;
    }
    assert SessionIds(sessions) == order by {
      forall i | 0 <= i < |order| ensures SessionIds(sessions)[i] == order[i] {
        assert order[i] in state;
      }
    }
  }

  lemma SortIdsNoDup(sessions: seq<Session>)
    requires NoDup(SessionIds(sessions))
    ensures NoDup(SessionIds(Models(sessions)))
  {
    SortMapMultiset(sessions, SessionLe, IdOf());
    PermutationNoDup(SessionIds(sessions), SessionIds(Models(sessions)));
  }

  lemma {:induction false} FilterIdsNoDup(sessions: seq<Session>)
    requires NoDup(SessionIds(sessions))
    ensures NoDup(SessionIds(Filter(sessions, ModelDone)))
  {
    if sessions != [] {
      assert SessionIds(sessions)[1..] == SessionIds(sessions[1..]);
      FilterIdsNoDup(sessions[1..]);
      var rest := Filter(sessions[1..], ModelDone);
      forall s | s in rest ensures s.key.sessionId != sessions[0].key.sessionId {
        var i :| 0 <= i < |sessions[1..]| && sessions[1..][i] == s;
        assert SessionIds(sessions)[i + 1] == s.key.sessionId;
      }
      if ModelDone(sessions[0]) {
        assert SessionIds([sessions[0]] + rest) == [sessions[0].key.sessionId] + SessionIds(rest);
        DoneIdIn(rest, sessions[0].key.sessionId);
      }
    }
  }

  lemma FileClearing(s: Source, models: seq<Session>)
    requires s.FileSource?
    ensures var keys := KeysOf(Filter(models, ModelDone));
      && Cleared([s], models, []) == (if keys == [] then [s] else ClearEach([s], keys))
      && (keys == [] ==> Report([s], models) == Ok(0))
      && (keys != [] && Successes([s], keys) == 0 ==> Report([s], models).Err?)
      && (keys != [] && Successes([s], keys) > 0 ==> Report([s], models) == Ok(Successes([s], keys)))
  {
  }

  /** Over an editable, writable state file, "Clear done" deletes precisely the
      sessions rendered as done (done, or stale at the sampled clock) and reports
      their number. Everything else in the document stays: other entries, parsed
      or not, and the other top-level keys. */
  lemma ClearFileExact(lib: Library, s: Source, now: int, order: seq<string>)
    requires s.FileSource? && Enumerates(order, Keys(s.file))
    requires Editable(s.file) && s.writable
    ensures var models := Models(FileView(lib, s.id, s.path, s.file, now, order).sessions);
      var gone := DoneAt(lib, s.file, now);
      && Cleared([s], models, []) == (if gone == {} then [s] else [s.(file := Without(s.file, gone))])
      && Report([s], models) == Ok(|gone|)
  {
    var done := Filter(Models(FileView(lib, s.id, s.path, s.file, now, order).sessions), ModelDone);
    var gone := DoneAt(lib, s.file, now);
    FileDone(lib, s, now, order);
    FileClearing(s, Models(FileView(lib, s.id, s.path, s.file, now, order).sessions));
    EnumerationLength(SessionIds(done), gone);
    if done != [] {
      assert s.file.document.sessions.Some? by {
        assert SessionIds(done)[0] in gone;
      }
      ClearListed(s, done, gone);
    }
  }

  lemma ClearListed(s: Source, done: seq<Session>, gone: set<string>)
    requires KeyedBy(done, s.id) && Enumerates(SessionIds(done), gone)
    requires s.FileSource? && s.writable && s.file.Json? && !s.file.marked && s.file.document.sessions.Some?
    ensures ClearEach([s], KeysOf(done)) == [s.(file := Without(s.file, gone))]
    ensures Successes([s], KeysOf(done)) == |gone|
  {
    EnumerationLength(SessionIds(done), gone);
    ClearEachOfOne(s, done);
    RemoveEachFromFile(s, SessionIds(done));
    assert (set id | id in SessionIds(done)) == gone;
    AllSucceed(s, done);
  }

  /** One more key succeeds exactly when its removal does, after the earlier ones. */
  lemma {:induction false} SuccessesNext(s: Source, done: seq<Session>)
    requires done != [] && KeyedBy(done, s.id)
    ensures var rest, last := done[..|done| - 1], done[|done| - 1];
      Successes([s], KeysOf(done)) == Successes([s], KeysOf(rest)) +
        if RemoveSucceeds(RemoveEach(s, SessionIds(rest)), last.key.sessionId) then 1 else 0
  {
    var rest, last := done[..|done| - 1], done[|done| - 1];
    assert done == rest + [last];
    assert KeysOf(done)[..|rest|] == KeysOf(rest) && KeysOf(done)[|rest|] == last.key;
    ClearEachOfOne(s, rest);
    RemoveEachKeepsId(s, SessionIds(rest));
  }

  lemma {:induction false} AllSucceed(s: Source, done: seq<Session>)
    requires KeyedBy(done, s.id)
    requires s.FileSource? ==> s.writable && s.file.Json? && !s.file.marked && s.file.document.sessions.Some?
    ensures Successes([s], KeysOf(done)) == |done|
  {
    if done != [] {
      var rest := done[..|done| - 1];
      AllSucceed(s, rest);
      SuccessesNext(s, done);
      if s.FileSource? {
        RemoveEachFromFile(s, SessionIds(rest));
      } else {
        RemoveEachFromPush(s, SessionIds(rest));
      }
    }
  }

  /** Reading the file again at the sampled clock shows no done row. */
  lemma ClearFileThenRender(lib: Library, s: Source, now: int, order: seq<string>)
    requires s.FileSource? && s.file.Json? && s.file.document.sessions.Some?
    requires Enumerates(order, Keys(Without(s.file, DoneAt(lib, s.file, now))))
    ensures var after := Without(s.file, DoneAt(lib, s.file, now));
            forall x :: x in FileView(lib, s.id, s.path, after, now, order).sessions ==>
              x.status != Done && x.key.sessionId in Keys(s.file)
  {
    var after := Without(s.file, DoneAt(lib, s.file, now));
    var state := ReapStale(lib, LoadState(after).state, now);
    FileSessions(lib, s.id, state, order);
    forall x | x in BuildSessions(lib, s.id, state, order)
      ensures x.status != Done && x.key.sessionId in Keys(s.file)
    {
      var id := x.key.sessionId;
      assert id in LoadState(after).state;
      assert LoadState(after).state[id] == LoadState(s.file).state[id];
    }
  }

  /** Clearing goes wrong exactly where a guard says so: a file behind a byte
      order mark, or one that cannot be replaced, is left alone and reported as an
      error as soon as there is something to clear. */
  lemma ClearFileBlocked(lib: Library, s: Source, now: int, order: seq<string>)
    requires s.FileSource? && Enumerates(order, Keys(s.file)) && s.file.Json?
    requires s.file.marked || !s.writable
    ensures var models := Models(FileView(lib, s.id, s.path, s.file, now, order).sessions);
      && Cleared([s], models, []) == [s]
      && (DoneAt(lib, s.file, now) == {} ==> Report([s], models) == Ok(0))
      && (DoneAt(lib, s.file, now) != {} ==> Report([s], models).Err?)
  {
    var done := Filter(Models(FileView(lib, s.id, s.path, s.file, now, order).sessions), ModelDone);
    FileDone(lib, s, now, order);
    FileClearing(s, Models(FileView(lib, s.id, s.path, s.file, now, order).sessions));
    EnumerationLength(SessionIds(done), DoneAt(lib, s.file, now));
    ClearEachOfOne(s, done);
    RemoveEachUneditable(s, SessionIds(done));
    forall id | id in SessionIds(done) ensures Holds(s.file, id) {
      assert id in Keys(s.file);
    }
    NoneSucceed(s, done);
  }

  lemma {:induction false} NoneSucceed(s: Source, done: seq<Session>)
    requires s.FileSource? && s.file.Json? && (s.file.marked || !s.writable) && KeyedBy(done, s.id)
    requires forall id :: id in SessionIds(done) ==> Holds(s.file, id)
    ensures Successes([s], KeysOf(done)) == 0
  {
    if done != [] {
      var rest, last := done[..|done| - 1], done[|done| - 1];
      assert SessionIds(done) == SessionIds(rest) + [last.key.sessionId];
      NoneSucceed(s, rest);
      SuccessesNext(s, done);
      RemoveEachUneditable(s, SessionIds(rest));
    }
  }

  // ------------------------------------------------------------ push store

  /** The stored sessions that render as done although their stored flag is not. */
  function StaleIds(h: PM.Hub, now: int): set<string> {
    set id | id in h.sessions && PushStale(h.sessions[id].isDone, h.sessions[id].updatedAt, now)
  }

  /** Every row is stored under its own id, and only live sessions have owners. */
  ghost predicate Keyed(source: string, h: PM.Hub) {
    (forall id :: id in h.sessions ==> h.sessions[id].key == SessionKey(source, id)) &&
    h.owners.Keys <= h.sessions.Keys
  }

  lemma InvKeyed(site: PM.Site, h: PM.Hub)
    requires PF.Inv(site, h)
    ensures Keyed(site.source, h)
  {
  }

  /** `view` has one row per live session: its stored row, downgraded if stale. */
  ghost predicate Shows(view: seq<Session>, source: string, h: PM.Hub, now: int) {
    && NoDup(SessionIds(view)) && KeyedBy(view, source)
    && (forall id :: id in h.sessions ==> PM.Downgrade(h.sessions[id], now) in view)
    && (forall s :: s in view ==> s.key.sessionId in h.sessions && s == PM.Downgrade(h.sessions[s.key.sessionId], now))
  }

  /** `f` maps each listed id to its downgraded row. */
  ghost predicate RowPerId(ids: seq<string>, f: string -> Session, source: string, h: PM.Hub, now: int) {
    forall i :: 0 <= i < |ids| ==>
      && ids[i] in h.sessions && f(ids[i]) == PM.Downgrade(h.sessions[ids[i]], now)
      && f(ids[i]).key == SessionKey(source, ids[i])
  }

  lemma ViewRowPerId(source: string, h: PM.Hub, now: int, ids: seq<string>)
    requires Keyed(source, h) && Enumerates(ids, h.sessions.Keys)
    ensures RowPerId(ids, PM.ViewRow(h, now), source, h, now)
  {
    forall i | 0 <= i < |ids|
      ensures var f := PM.ViewRow(h, now);
        && ids[i] in h.sessions && f(ids[i]) == PM.Downgrade(h.sessions[ids[i]], now)
        && f(ids[i]).key == SessionKey(source, ids[i])
    {
      assert ids[i] in ids;
    }
  }

  lemma MapIds(ids: seq<string>, f: string -> Session, source: string, h: PM.Hub, now: int)
    requires RowPerId(ids, f, source, h, now)
    ensures SessionIds(MapSeq(ids, f)) == ids && KeyedBy(MapSeq(ids, f), source)
  {
  }

  lemma MapShows(ids: seq<string>, f: string -> Session, source: string, h: PM.Hub, now: int)
    requires RowPerId(ids, f, source, h, now) && Enumerates(ids, h.sessions.Keys)
    ensures Shows(MapSeq(ids, f), source, h, now)
  {
    MapIds(ids, f, source, h, now);
    forall id | id in h.sessions ensures PM.Downgrade(h.sessions[id], now) in MapSeq(ids, f) {
      assert id in h.sessions.Keys;
      var i :| 0 <= i < |ids| && ids[i] == id;
      assert MapSeq(ids, f)[i] == f(id);
    }
  }

  lemma ViewShows(source: string, h: PM.Hub, now: int)
    requires Keyed(source, h)
    ensures Shows(PM.View(h, now), source, h, now)
  {
    PM.SortedIdsCharacter(h.sessions.Keys, PM.Listing(h.sessions.Keys));
    ViewRowPerId(source, h, now, PM.SortedIds(h.sessions.Keys));
    MapShows(PM.SortedIds(h.sessions.Keys), PM.ViewRow(h, now), source, h, now);
  }

  lemma ShownDone(source: string, h: PM.Hub, now: int, view: seq<Session>)
    requires Keyed(source, h) && Shows(view, source, h, now)
    ensures var done := Filter(Models(view), ModelDone);
      && KeyedBy(done, source) && Enumerates(SessionIds(done), PM.DoneIds(h) + StaleIds(h, now))
  {
    var done := Filter(Models(view), ModelDone);
    SortElements(view, SessionLe);
    SortIdsNoDup(view);
    FilterIdsNoDup(Models(view));
    forall id ensures id in SessionIds(done) <==> id in PM.DoneIds(h) + StaleIds(h, now) {
      ShownDoneAt(source, h, now, view, id);
    }
  }

  lemma ShownDoneAt(source: string, h: PM.Hub, now: int, view: seq<Session>, id: string)
    requires Keyed(source, h) && Shows(view, source, h, now)
    ensures id in SessionIds(Filter(Models(view), ModelDone)) <==> id in PM.DoneIds(h) + StaleIds(h, now)
  {
    var done := Filter(Models(view), ModelDone);
    SortElements(view, SessionLe);
    DoneIdIn(done, id);
    if id in SessionIds(done) {
      var s :| s in done && s.key.sessionId == id;
      assert s in view;
    }
    if id in PM.DoneIds(h) + StaleIds(h, now) {
      assert PM.Downgrade(h.sessions[id], now) in done;
    }
  }

  /** `clear_done` over this push source reports what it will really remove. */
  ghost predicate Truthful(s: Source, models: seq<Session>)
    requires s.PushSource?
  {
    Report([s], models) == Ok(|PM.DoneIds(s.hub)|)
  }

  /** The bulk clear tells the truth exactly when no session is stale: it reports
      the done rows of the view the engine sampled, but removes the stored ones. */
  lemma BulkCountExact(s: Source, now: int, view: seq<Session>)
    requires s.PushSource? && Keyed(s.id, s.hub) && Shows(view, s.id, s.hub, now)
    ensures Truthful(s, Models(view)) <==> NoneStale(s.hub, now)
  {
    ShownDone(s.id, s.hub, now, view);
    StoredNotStale(s.hub, now);
    TruthfulFor(s, Models(view), StaleIds(s.hub, now));
    NoStaleIds(s.hub, now);
  }

  /** No stored session is past the staleness cutoff. */
  ghost predicate NoneStale(h: PM.Hub, now: int) {
    forall id :: id in h.sessions ==> !PushStale(h.sessions[id].isDone, h.sessions[id].updatedAt, now)
  }

  lemma NoStaleIds(h: PM.Hub, now: int)
    ensures NoneStale(h, now) <==> StaleIds(h, now) == {}
  {
    if StaleIds(h, now) == {} {
      forall id | id in h.sessions ensures !PushStale(h.sessions[id].isDone, h.sessions[id].updatedAt, now) {
        assert id !in StaleIds(h, now);
      }
    }
  }

  lemma TruthfulFor(s: Source, models: seq<Session>, stale: set<string>)
    requires s.PushSource? && PM.DoneIds(s.hub) !! stale
    requires Enumerates(SessionIds(Filter(models, ModelDone)), PM.DoneIds(s.hub) + stale)
    ensures Truthful(s, models) <==> stale == {}
  {
    ReportedCount(s, models, PM.DoneIds(s.hub), stale);
    TruthfulExactly(Report([s], models), PM.DoneIds(s.hub), stale);
  }

  lemma StoredNotStale(h: PM.Hub, now: int)
    ensures PM.DoneIds(h) !! StaleIds(h, now)
  {
  }

  lemma ReportedCount(s: Source, models: seq<Session>, stored: set<string>, stale: set<string>)
    requires s.PushSource? && Enumerates(SessionIds(Filter(models, ModelDone)), stored + stale)
    ensures Report([s], models) == Ok(|stored + stale|)
  {
    EnumerationLength(SessionIds(Filter(models, ModelDone)), stored + stale);
  }

  lemma TruthfulExactly(report: Result<nat>, stored: set<string>, stale: set<string>)
    requires report == Ok(|stored + stale|) && stored !! stale
    ensures report == Ok(|stored|) <==> stale == {}
  {
    assert |stored + stale| == |stored| + |stale|;
  }

  /** And exactly then it does what the removals one by one would have done: the same
      sessions and owners, and, as long as the tombstones fit, the same tombstone
      set. */
  lemma BulkMatchesRemovals(s: Source, now: int, view: seq<Session>, order: seq<string>)
    requires s.PushSource? && Keyed(s.id, s.hub) && Shows(view, s.id, s.hub, now)
    requires Enumerates(order, PM.DoneIds(s.hub))
    ensures SameAfterClear(ClearEach([s], DoneKeys(Models(view))), s.hub, order) <==> NoneStale(s.hub, now)
  {
    NoStaleIds(s.hub, now);
    ShownDone(s.id, s.hub, now, view);
    if NoneStale(s.hub, now) {
      NothingMore(PM.DoneIds(s.hub), StaleIds(s.hub, now));
      EachAsBulk(s, Filter(Models(view), ModelDone), order);
    } else {
      var id :| id in StaleIds(s.hub, now);
      StaleRemoved(s, Filter(Models(view), ModelDone), order, id);
    }
  }

  /** A listed session that is not stored as done is removed by its key, and kept by
      the bulk clear. */
  lemma StaleRemoved(s: Source, done: seq<Session>, order: seq<string>, id: string)
    requires s.PushSource? && KeyedBy(done, s.id) && id in SessionIds(done)
    requires id in s.hub.sessions && !s.hub.sessions[id].isDone
    ensures !SameAfterClear(ClearEach([s], KeysOf(done)), s.hub, order)
  {
    ClearEachOfOne(s, done);
    RemoveEachFromPush(s, SessionIds(done));
    assert id in PM.ClearDone(s.hub, order).sessions;
  }

  /** One push source is left, holding what a bulk clear of `h` leaves. */
  ghost predicate SameAfterClear(sources: seq<Source>, h: PM.Hub, order: seq<string>) {
    var bulk := PM.ClearDone(h, order);
    && |sources| == 1 && sources[0].PushSource?
    && sources[0].hub.sessions == bulk.sessions && sources[0].hub.owners == bulk.owners
    && (|h.removed| + |order| <= PM.MAX_REMOVED ==> forall id :: id in sources[0].hub.removed <==> id in bulk.removed)
  }

  lemma EachAsBulk(s: Source, done: seq<Session>, order: seq<string>)
    requires s.PushSource? && Keyed(s.id, s.hub) && KeyedBy(done, s.id)
    requires Enumerates(SessionIds(done), PM.DoneIds(s.hub)) && Enumerates(order, PM.DoneIds(s.hub))
    ensures SameAfterClear(ClearEach([s], KeysOf(done)), s.hub, order)
  {
    ClearEachOfOne(s, done);
    BulkMatchesEach(s, SessionIds(done), order);
  }

  lemma NothingMore(a: set<string>, b: set<string>)
    requires b == {}
    ensures a + b == a
  {
  }

  lemma BulkMatchesEach(s: Source, ids: seq<string>, order: seq<string>)
    requires s.PushSource? && Keyed(s.id, s.hub)
    requires Enumerates(ids, PM.DoneIds(s.hub)) && Enumerates(order, PM.DoneIds(s.hub))
    ensures var each, bulk := RemoveEach(s, ids), PM.ClearDone(s.hub, order);
      && each.PushSource? && each.hub.sessions == bulk.sessions && each.hub.owners == bulk.owners
      && (|s.hub.removed| + |order| <= PM.MAX_REMOVED ==>
            forall id :: id in each.hub.removed <==> id in bulk.removed)
  {
    RemoveEachFromPush(s, ids);
    RemoveEachTombstones(s, ids);
    var bulk, each := PM.ClearDone(s.hub, order), RemoveEach(s, ids).hub;
    assert (set id | id in ids) == PM.DoneIds(s.hub);
    assert each.sessions == bulk.sessions;
    assert each.owners == bulk.owners;
    EnumerationLength(ids, PM.DoneIds(s.hub));
    EnumerationLength(order, PM.DoneIds(s.hub));
    if |s.hub.removed| + |order| <= PM.MAX_REMOVED {
      RememberFits(s.hub.removed, ids);
      RememberFits(s.hub.removed, order);
    }
  }

  lemma {:induction false} RememberFits(removed: seq<string>, ids: seq<string>)
    requires |removed| + |ids| <= PM.MAX_REMOVED
    ensures |PM.RememberAll(removed, ids)| <= |removed| + |ids|
    ensures forall id :: id in PM.RememberAll(removed, ids) <==> id in removed || id in ids
  {
    if ids != [] {
      var rest := ids[..|ids| - 1];
      RememberFits(removed, rest);
      assert ids == rest + [ids[|ids| - 1]];
    }
  }

  /** The mismatch is real, from a hub any producer can bring about: one event for a
      session that is not done, and a clock a day after the time it carries. The bulk
      clear reports the session as cleared and leaves it. */
  lemma StaleSessionSurvivesBulk(site: PM.Site, e: Event, at: int, received: int, h: PM.Hub, now: int,
                                 view: seq<Session>)
    requires Lawful(site.lib) && e.status != Done && e.lastUpdated == Some(site.lib.render(at))
    requires h == PM.Apply(site, PM.EMPTY, [e], received) && view == PM.View(h, now)
    requires now >= at + STALE_AFTER_HOURS * NANOS_PER_HOUR
    ensures PF.Inv(site, h) && h.sessions.Keys == {e.sessionId}
    ensures Report([PushSource(site.source, h)], Models(view)) == Ok(1)
    ensures Enumerates([], PM.DoneIds(h)) && PM.ClearDone(h, []).sessions == h.sessions
  {
    OneEventFacts(site, e, at, received, h, now);
    ViewShows(site.source, h, now);
    StaleReported(site.source, h, e.sessionId, now, view);
  }

  lemma OneEventFacts(site: PM.Site, e: Event, at: int, received: int, h: PM.Hub, now: int)
    requires Lawful(site.lib) && e.status != Done && e.lastUpdated == Some(site.lib.render(at))
    requires h == PM.Apply(site, PM.EMPTY, [e], received) && now >= at + STALE_AFTER_HOURS * NANOS_PER_HOUR
    ensures PF.Inv(site, h) && Keyed(site.source, h) && h.sessions.Keys == {e.sessionId}
    ensures !h.sessions[e.sessionId].isDone && PushStale(false, h.sessions[e.sessionId].updatedAt, now)
  {
    PF.ApplyInv(site, PM.EMPTY, [e], received);
    InvKeyed(site, h);
    PF.OneEventHub(site, e, received);
    PrintedTime(site.lib, at);
  }

  lemma StaleReported(source: string, h: PM.Hub, id: string, now: int, view: seq<Session>)
    requires Keyed(source, h) && Shows(view, source, h, now) && h.sessions.Keys == {id}
    requires !h.sessions[id].isDone && PushStale(false, h.sessions[id].updatedAt, now)
    ensures Report([PushSource(source, h)], Models(view)) == Ok(1)
    ensures Enumerates([], PM.DoneIds(h)) && PM.ClearDone(h, []).sessions == h.sessions
  {
    OneStale(h, id, now);
    ShownDone(source, h, now, view);
    ReportedCount(PushSource(source, h), Models(view), {}, {id});
  }

  lemma OneStale(h: PM.Hub, id: string, now: int)
    requires h.sessions.Keys == {id} && !h.sessions[id].isDone
    requires PushStale(false, h.sessions[id].updatedAt, now)
    ensures StaleIds(h, now) == {id} && PM.DoneIds(h) == {}
  {
  }
}
