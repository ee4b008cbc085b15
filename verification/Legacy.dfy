/** The snapshot builder that predates the engine, and the proof that the engine
    over one file source computes the same snapshot. */
module Legacy {
  import opened Prelude
  import opened Text
  import opened Domain
  import opened StableSort
  import opened EngineModel
  import opened StateFile

  /** `load_sessions`'s row for one entry. */
  function LegacyRow(lib: Library, id: string, s: SessionStatus): Row {
    var path := s.projectPath.GetOr("");
    var harness := CleanHarness(lib, s);
    Row(id, SessionName(id, s), s.status, s.status.Label(), ProjectShortName(lib, path), path, harness,
        if harness.Some? then Some(HarnessBadge(lib, harness.value)) else None,
        s.lastUpdated.GetOr(""), s.status == Done, None, false)
  }

  /** The legacy comparator parses the displayed timestamp again. */
  predicate RowBefore(lib: Library, a: Row, b: Row) {
    a.status.Urgency() < b.status.Urgency() ||
    (a.status.Urgency() == b.status.Urgency() && TimeLe(lib.parse(b.lastUpdated), lib.parse(a.lastUpdated)))
  }

  function RowLe(lib: Library): (Row, Row) -> bool {
    (a, b) => RowBefore(lib, a, b)
  }

  function RowAt(lib: Library, state: HookState): string -> Row {
    id => if id in state then LegacyRow(lib, id, state[id])
          else DisplaySession(lib, SessionAt(lib, "", state)(id))
  }

  function LoadSessions(lib: Library, state: HookState, order: seq<string>, showDone: bool, retention: nat): seq<Row> {
    var rows := Sort(MapSeq(order, RowAt(lib, state)), RowLe(lib));
    if showDone then rows else Retain(rows, RowDone, retention)
  }

  function StatusIs(state: HookState, status: Status): string -> bool {
    id => id in state && state[id].status == status
  }

  function CountState(state: HookState, order: seq<string>): Counts {
    Counts(Count(order, StatusIs(state, NeedsHelp)), Count(order, StatusIs(state, Active)),
           Count(order, StatusIs(state, Inactive)), Count(order, StatusIs(state, Done)), |order|)
  }

  function AggregateState(state: HookState, mode: YellowMode): Aggregate {
    if exists id :: id in state && state[id].status == NeedsHelp then Red
    else if (exists id :: id in state && state[id].status == Inactive) &&
            (mode == AnyInactive || !exists id :: id in state && state[id].status == Active) then Yellow
    else if exists id :: id in state && state[id].status == Active then Green
    else Gray
  }

  /** `build_snapshot_at`. */
  function BuildSnapshot(lib: Library, config: Config, path: string, file: Content, now: int,
                         order: seq<string>): Snapshot {
    var blank := Snapshot(false, None, path, "file", path, !file.Absent?, "gray", Counts(0, 0, 0, 0, 0), [],
                          YellowName(config.yellowMode), lib.render(now));
    match LoadState(file)
    case Loaded(state) =>
      var reaped := ReapStale(lib, state, now);
      blank.(ok := true,
             counts := CountState(reaped, order),
             aggregate := AggregateState(reaped, config.yellowMode).Name(),
             rows := MapSeq(LoadSessions(lib, reaped, order, config.showDone, DONE_RETENTION), Linked(config)))
    case NoFile => blank.(error := Some("Waiting for clawlight state file"))
    case Broken(reason) => blank.(error := Some("Could not read state file: " + reason))
  }

  // ------------------------------------------------------- the loops it runs

  /** `count`: one counter bumped per session, in map order. */
  method CountInOrder(state: HookState, order: seq<string>) returns (counts: Counts)
    requires Enumerates(order, state.Keys)
    ensures counts == CountState(state, order)
  {
    counts := Counts(0, 0, 0, 0, 0);
    var i := 0;
    while i < |order|
      invariant 0 <= i <= |order| && counts == CountState(state, order[..i])
    {
      CountOneMore(state, order, i);
      assert order[i] in order;
      counts := counts.(total := counts.total + 1);
      match state[order[i]].status {
        case NeedsHelp => counts := counts.(needsHelp := counts.needsHelp + 1);
        case Active => counts := counts.(active := counts.active + 1);
        case Inactive => counts := counts.(inactive := counts.inactive + 1);
        case Done => counts := counts.(done := counts.done + 1);
      }
      i := i + 1;
    }
    assert order[..i] == order;
  }

  lemma CountOneMore(state: HookState, order: seq<string>, i: nat)
    requires i < |order|
    ensures forall status :: Count(order[..i + 1], StatusIs(state, status)) ==
              Count(order[..i], StatusIs(state, status)) + if StatusIs(state, status)(order[i]) then 1 else 0
  {
    assert order[..i + 1] == order[..i] + [order[i]];
    forall status ensures Count(order[..i + 1], StatusIs(state, status)) ==
              Count(order[..i], StatusIs(state, status)) + if StatusIs(state, status)(order[i]) then 1 else 0 {
      FilterAppend(order[..i], [order[i]], StatusIs(state, status));
    }
  }

  /** `load_sessions`: build the rows, sort them, then retain with a counter. */
  method LoadSessionsInPlace(lib: Library, state: HookState, order: seq<string>, showDone: bool, retention: nat)
    returns (rows: seq<Row>)
    requires Enumerates(order, state.Keys)
    ensures rows == LoadSessions(lib, state, order, showDone, retention)
  {
    rows := Sort(MapSeq(order, RowAt(lib, state)), RowLe(lib));
    if !showDone {
      rows := RetainNewest(rows, retention);
    }
  }

  /** `rows.retain` with its counter of done rows seen so far. */
  method RetainNewest(rows: seq<Row>, retention: nat) returns (kept: seq<Row>)
    ensures kept == Retain(rows, RowDone, retention)
  {
    var doneSeen := 0;
    ghost var quota := retention;
    kept := [];
    var i := 0;
    while i < |rows|
      invariant 0 <= i <= |rows|
      invariant quota == if doneSeen <= retention then retention - doneSeen else 0
      invariant Retain(rows, RowDone, retention) == kept + Retain(rows[i..], RowDone, quota)
    {
      RetainNext(rows, i, RowDone, quota);
      var keep := true;
      if rows[i].status == Done {
        doneSeen := doneSeen + 1;
        keep := doneSeen <= retention;
        quota := if quota > 0 then quota - 1 else 0;
      }
      if keep {
        PushBack(kept, rows[i], Retain(rows[i + 1..], RowDone, quota));
        kept := kept + [rows[i]];
      }
      i := i + 1;
    }
    assert rows[i..] == [] && kept + [] == kept;
  }

  /** Fill a blank snapshot from the loaded state, then link every row. */
  method BuildSnapshotAt(lib: Library, config: Config, path: string, file: Content, now: int, order: seq<string>)
    returns (snap: Snapshot)
    requires Enumerates(order, Keys(file))
    ensures snap == BuildSnapshot(lib, config, path, file, now, order)
  {
    snap := Snapshot(false, None, path, "file", path, !file.Absent?, "gray", Counts(0, 0, 0, 0, 0), [],
                     YellowName(config.yellowMode), lib.render(now));
    match LoadState(file) {
      case Loaded(state) =>
        var reaped := ReapStaleInPlace(lib, state, now);
        var counts := CountInOrder(reaped, order);
        var rows := LoadSessionsInPlace(lib, reaped, order, config.showDone, DONE_RETENTION);
        rows := LinkRows(config, rows);
        var light := AggregateState(reaped, config.yellowMode);
        snap := snap.(counts := counts, aggregate := light.Name(), rows := rows, ok := true);
      case NoFile => snap := snap.(error := Some("Waiting for clawlight state file"));
      case Broken(reason) => snap := snap.(error := Some("Could not read state file: " + reason));
    }
  }

  // ------------------------------------------------------------- refinement

  lemma SameRow(lib: Library, source: string, id: string, s: SessionStatus)
    ensures DisplaySession(lib, BuildSession(lib, source, id, s)) == LegacyRow(lib, id, s)
  {
  }

  lemma SameRowAt(lib: Library, source: string, state: HookState, id: string)
    requires id in state
    ensures ToRow(lib)(SessionAt(lib, source, state)(id)) == RowAt(lib, state)(id)
  {
    SameRow(lib, source, id, state[id]);
  }

  /** Both comparators order the same entries the same way: the engine compares
      times parsed once, the builder parses the displayed text again. */
  lemma SameComparison(lib: Library, source: string, a: string, s: SessionStatus, b: string, t: SessionStatus)
    requires Lawful(lib)
    ensures SessionLe(BuildSession(lib, source, a, s), BuildSession(lib, source, b, t)) ==
            RowBefore(lib, LegacyRow(lib, a, s), LegacyRow(lib, b, t))
  {
    SameTime(lib, source, a, s);
    SameTime(lib, source, b, t);
  }

  lemma SameTime(lib: Library, source: string, id: string, s: SessionStatus)
    requires Lawful(lib)
    ensures lib.parse(LegacyRow(lib, id, s).lastUpdated) == BuildSession(lib, source, id, s).updatedAt
  {
  }

  /** Sorting sessions and then making rows is making rows and then sorting. */
  lemma SortedRowsAgree(lib: Library, source: string, state: HookState, order: seq<string>)
    requires Lawful(lib) && Enumerates(order, state.Keys)
    ensures MapSeq(Sort(BuildSessions(lib, source, state, order), SessionLe), ToRow(lib)) ==
            Sort(MapSeq(order, RowAt(lib, state)), RowLe(lib))
  {
    SameOrderAsRows(lib, source, state, order);
    SortMap(BuildSessions(lib, source, state, order), ToRow(lib), SessionLe, RowLe(lib));
    RowsBeforeSorting(lib, source, state, order);
  }

  lemma RowsBeforeSorting(lib: Library, source: string, state: HookState, order: seq<string>)
    requires Enumerates(order, state.Keys)
    ensures MapSeq(BuildSessions(lib, source, state, order), ToRow(lib)) == MapSeq(order, RowAt(lib, state))
  {
    forall i | 0 <= i < |order|
      ensures ToRow(lib)(SessionAt(lib, source, state)(order[i])) == RowAt(lib, state)(order[i])
    {
      assert order[i] in state;
      SameRowAt(lib, source, state, order[i]);
    }
  }

  lemma SameOrderAsRows(lib: Library, source: string, state: HookState, order: seq<string>)
    requires Lawful(lib) && Enumerates(order, state.Keys)
    ensures SameOrder(BuildSessions(lib, source, state, order), ToRow(lib), SessionLe, RowLe(lib))
  {
    var sessions := BuildSessions(lib, source, state, order);
    forall i, j | 0 <= i < |sessions| && 0 <= j < |sessions|
      ensures SessionLe(sessions[i], sessions[j]) == RowLe(lib)(ToRow(lib)(sessions[i]), ToRow(lib)(sessions[j]))
    {
      var a, b := order[i], order[j];
      assert a in state && b in state;
      SameComparison(lib, source, a, state[a], b, state[b]);
      SameRow(lib, source, a, state[a]);
      SameRow(lib, source, b, state[b]);
    }
  }

  lemma SameCount(lib: Library, source: string, state: HookState, order: seq<string>, status: Status)
    requires Enumerates(order, state.Keys)
    ensures Count(BuildSessions(lib, source, state, order), HasStatus(status)) == Count(order, StatusIs(state, status))
  {
    FilterMap(order, SessionAt(lib, source, state), HasStatus(status), StatusIs(state, status));
  }

  lemma SameSome(lib: Library, source: string, state: HookState, order: seq<string>, status: Status)
    requires Enumerates(order, state.Keys)
    ensures Some_(BuildSessions(lib, source, state, order), status) <==>
            exists id :: id in state && state[id].status == status
  {
    var sessions := BuildSessions(lib, source, state, order);
    if Some_(sessions, status) {
      var s :| s in sessions && s.status == status;
      var i :| 0 <= i < |sessions| && sessions[i] == s;
      assert order[i] in state && state[order[i]].status == status;
    }
    if id :| id in state && state[id].status == status {
      assert id in order;
      var i :| 0 <= i < |order| && order[i] == id;
      assert sessions[i] in sessions && sessions[i].status == status;
    }
  }

  /** What the engine merges from one loaded file: every entry, sorted. */
  lemma MergedFile(lib: Library, config: Config, source: string, path: string, state: HookState, order: seq<string>)
    requires Enumerates(order, state.Keys)
    ensures var view := SourceSnapshot(source, FileKind, path, Ready, BuildSessions(lib, source, state, order));
      Merged(config, [view]) == Sort(BuildSessions(lib, source, state, order), SessionLe)
  {
    var sessions := BuildSessions(lib, source, state, order);
    var view := SourceSnapshot(source, FileKind, path, Ready, sessions);
    assert Flatten([view]) == sessions + Flatten([]) == sessions;
    FilterAll(sessions, Visible(config.showSubagents));
  }

  lemma SameTotals(lib: Library, source: string, state: HookState, order: seq<string>, mode: YellowMode)
    requires Enumerates(order, state.Keys)
    ensures var sessions := Sort(BuildSessions(lib, source, state, order), SessionLe);
      CountOf(sessions) == CountState(state, order) && AggregateOf(sessions, mode) == AggregateState(state, mode)
  {
    var sessions := BuildSessions(lib, source, state, order);
    OrderIrrelevant(sessions, Sort(sessions, SessionLe), mode);
    SameCounts(lib, source, state, order);
    SameAggregate(lib, source, state, order, mode);
  }

  lemma SameCounts(lib: Library, source: string, state: HookState, order: seq<string>)
    requires Enumerates(order, state.Keys)
    ensures CountOf(BuildSessions(lib, source, state, order)) == CountState(state, order)
  {
    SameCount(lib, source, state, order, NeedsHelp);
    SameCount(lib, source, state, order, Active);
    SameCount(lib, source, state, order, Inactive);
    SameCount(lib, source, state, order, Done);
  }

  lemma SameAggregate(lib: Library, source: string, state: HookState, order: seq<string>, mode: YellowMode)
    requires Enumerates(order, state.Keys)
    ensures AggregateOf(BuildSessions(lib, source, state, order), mode) == AggregateState(state, mode)
  {
    SameSome(lib, source, state, order, NeedsHelp);
    SameSome(lib, source, state, order, Active);
    SameSome(lib, source, state, order, Inactive);
  }

  lemma SameRows(lib: Library, config: Config, source: string, state: HookState, order: seq<string>)
    requires Lawful(lib) && Enumerates(order, state.Keys)
    ensures RowsOf(lib, config, Sort(BuildSessions(lib, source, state, order), SessionLe)) ==
            MapSeq(LoadSessions(lib, state, order, config.showDone, DONE_RETENTION), Linked(config))
  {
    SortedRowsAgree(lib, source, state, order);
    RowsConsistent(lib, state, order);
    RetainAgree(Sort(MapSeq(order, RowAt(lib, state)), RowLe(lib)), IsDoneRow, RowDone, DONE_RETENTION);
  }

  lemma RowsConsistent(lib: Library, state: HookState, order: seq<string>)
    requires Enumerates(order, state.Keys)
    ensures forall r :: r in Sort(MapSeq(order, RowAt(lib, state)), RowLe(lib)) ==> r.isDone == (r.status == Done)
  {
    var rows := MapSeq(order, RowAt(lib, state));
    SortElements(rows, RowLe(lib));
    forall r | r in rows ensures r.isDone == (r.status == Done) {
      var i :| 0 <= i < |rows| && rows[i] == r;
      assert order[i] in state && r == LegacyRow(lib, order[i], state[order[i]]);
    }
  }

  /** The engine over one file source renders exactly what the legacy builder
      builds: for every file content, config and clock, and whatever order the
      session map is iterated in, the two snapshots are equal in every field. */
  lemma EngineRefinesLegacy(lib: Library, config: Config, source: string, file: Content, now: int, order: seq<string>)
    requires Lawful(lib) && Enumerates(order, Keys(file))
    ensures Render(lib, config, [FileView(lib, source, config.stateFile, file, now, order)], now) ==
            BuildSnapshot(lib, config, config.stateFile, file, now, order)
  {
    match LoadState(file)
    case Loaded(state) => LoadedRefines(lib, config, source, file, state, now, order);
    case _ => FailedRefines(lib, config, FileView(lib, source, config.stateFile, file, now, order), now);
  }

  lemma LoadedRefines(lib: Library, config: Config, source: string, file: Content, state: HookState, now: int,
                      order: seq<string>)
    requires Lawful(lib) && LoadState(file) == Loaded(state) && Enumerates(order, state.Keys)
    ensures Render(lib, config, [FileView(lib, source, config.stateFile, file, now, order)], now) ==
            BuildSnapshot(lib, config, config.stateFile, file, now, order)
  {
    var view := FileView(lib, source, config.stateFile, file, now, order);
    var reaped := ReapStale(lib, state, now);
    assert reaped.Keys == state.Keys;
    RenderReady(lib, config, view, now);
    ReadyRefines(lib, config, source, reaped, order);
  }

  lemma RenderReady(lib: Library, config: Config, view: SourceSnapshot, now: int)
    requires view.kind == FileKind && view.health == Ready && view.location == config.stateFile
    ensures var merged := Merged(config, [view]);
      Render(lib, config, [view], now) ==
        Snapshot(true, None, config.stateFile, "file", config.stateFile, true,
                 AggregateOf(merged, config.yellowMode).Name(), CountOf(merged), RowsOf(lib, config, merged),
                 YellowName(config.yellowMode), lib.render(now))
  {
    assert [view][0] == view && view in [view];
  }

  lemma ReadyRefines(lib: Library, config: Config, source: string, state: HookState, order: seq<string>)
    requires Lawful(lib) && Enumerates(order, state.Keys)
    ensures var sessions := BuildSessions(lib, source, state, order);
      var merged := Merged(config, [SourceSnapshot(source, FileKind, config.stateFile, Ready, sessions)]);
      && CountOf(merged) == CountState(state, order)
      && AggregateOf(merged, config.yellowMode) == AggregateState(state, config.yellowMode)
      && RowsOf(lib, config, merged) ==
           MapSeq(LoadSessions(lib, state, order, config.showDone, DONE_RETENTION), Linked(config))
  {
    MergedFile(lib, config, source, config.stateFile, state, order);
    SameTotals(lib, source, state, order, config.yellowMode);
    SameRows(lib, config, source, state, order);
  }

  /** A source that could not be read renders as an empty, gray snapshot. */
  lemma FailedRefines(lib: Library, config: Config, view: SourceSnapshot, now: int)
    requires view.kind == FileKind && view.health != Ready && view.sessions == [] && view.location == config.stateFile
    ensures Render(lib, config, [view], now) ==
      Snapshot(false, Some(ErrorText(FileKind, if view.health.Unreadable? then Some(view.health.reason) else None)),
               config.stateFile, "file", config.stateFile, view.health != Missing, "gray", Counts(0, 0, 0, 0, 0), [],
               YellowName(config.yellowMode), lib.render(now))
  {
    assert [view][0] == view && view in [view];
    assert Flatten([view]) == [] + Flatten([]) == [];
    assert Merged(config, [view]) == [];
  }
}
