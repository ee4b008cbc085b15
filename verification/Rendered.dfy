/** What a rendered snapshot shows, in the words of its own fields: which rows, in which
    order, and how the light, the counts and the status line follow from the sessions. */
module Rendered {
  import opened Prelude
  import opened Text
  import opened Domain
  import opened StableSort
  import opened EngineModel
  import opened Relay

  /** All sessions of the sources, in the order the sources were read. */
  ghost predicate AnySession(sources: seq<SourceSnapshot>, s: Session) {
    exists v :: v in sources && s in v.sessions
  }

  lemma {:induction false} FlattenElements(sources: seq<SourceSnapshot>, s: Session)
    ensures s in Flatten(sources) <==> AnySession(sources, s)
  {
    if sources != [] {
      FlattenElements(sources[1..], s);
      assert sources == [sources[0]] + sources[1..];
    }
  }

  /** Hidden are the subagents, unless the user wants them or they need help. */
  predicate Hidden(config: Config, s: Session) {
    s.subagent && !config.showSubagents && s.status != NeedsHelp
  }

  // ------------------------------------------------------------- the order

  /** Not later: no time is earliest. */
  predicate NotLater(x: Option<int>, y: Option<int>) {
    x.Some? ==> y.Some? && x.value <= y.value
  }

  /** Whoever needs help stands first, then whoever works, then whoever is paused, and
      the done come last. */
  predicate MayFollow(first: Status, second: Status) {
    && (second == NeedsHelp ==> first == NeedsHelp)
    && (second == Active ==> first == NeedsHelp || first == Active)
    && (second == Inactive ==> first != Done)
  }

  ghost predicate InOrder(lib: Library, rows: seq<Row>) {
    forall i, j :: 0 <= i < j < |rows| ==>
      && MayFollow(rows[i].status, rows[j].status)
      && (rows[i].status == rows[j].status ==> NotLater(lib.parse(rows[j].lastUpdated), lib.parse(rows[i].lastUpdated)))
  }

  /** The merged sessions a snapshot keeps rows of. */
  function Kept(config: Config, sources: seq<SourceSnapshot>): seq<Session> {
    Passed(Merged(config, sources), config.showDone)
  }

  lemma RowsOfKept(lib: Library, config: Config, sources: seq<SourceSnapshot>, now: int)
    ensures var rows, kept := Render(lib, config, sources, now).rows, Kept(config, sources);
      |rows| == |kept| && forall i :: 0 <= i < |rows| ==> rows[i] == Linked(config)(ToRow(lib)(kept[i]))
  {
    RetainedRows(lib, Merged(config, sources), config.showDone);
  }

  lemma MergedFacts(config: Config, sources: seq<SourceSnapshot>)
    ensures Sorted(Merged(config, sources), SessionLe)
    ensures forall s :: s in Merged(config, sources) <==> AnySession(sources, s) && !Hidden(config, s)
  {
    SessionOrder();
    SortSorted(Filter(Flatten(sources), Visible(config.showSubagents)), SessionLe);
    SortElements(Filter(Flatten(sources), Visible(config.showSubagents)), SessionLe);
    forall s ensures s in Flatten(sources) <==> AnySession(sources, s) {
      FlattenElements(sources, s);
    }
    forall s ensures s in Merged(config, sources) <==> AnySession(sources, s) && !Hidden(config, s) {
      assert Visible(config.showSubagents)(s) == !Hidden(config, s);
    }
  }

  /** Every rendered list is in order. */
  lemma RowsInOrder(lib: Library, config: Config, sources: seq<SourceSnapshot>, now: int)
    requires forall s :: AnySession(sources, s) ==> Consistent(lib, s)
    ensures InOrder(lib, Render(lib, config, sources, now).rows)
  {
    var rows, kept := Render(lib, config, sources, now).rows, Kept(config, sources);
    RowsOfKept(lib, config, sources, now);
    MergedFacts(config, sources);
    PassedSorted(Merged(config, sources), config.showDone);
    forall i, j | 0 <= i < j < |rows|
      ensures MayFollow(rows[i].status, rows[j].status)
      ensures rows[i].status == rows[j].status ==>
        NotLater(lib.parse(rows[j].lastUpdated), lib.parse(rows[i].lastUpdated))
    {
      assert kept[i] in kept && kept[j] in kept;
      assert Consistent(lib, kept[i]) && Consistent(lib, kept[j]);
      OrderOfTwo(lib, kept[i], kept[j]);
    }
  }

  lemma OrderOfTwo(lib: Library, a: Session, b: Session)
    requires SessionLe(a, b) && Consistent(lib, a) && Consistent(lib, b)
    ensures MayFollow(a.status, b.status)
    ensures a.status == b.status ==> NotLater(lib.parse(b.lastUpdated), lib.parse(a.lastUpdated))
  {
  }

  // -------------------------------------------------------------- which rows

  function Label(status: Status): string {
    match status
    case Active => "working"
    case Inactive => "paused"
    case NeedsHelp => "needs help"
    case Done => "done"
  }

  /** The row of a session. */
  predicate Shows(lib: Library, config: Config, s: Session, r: Row) {
    && r.sessionId == s.key.sessionId && r.name == s.name && r.status == s.status && r.statusLabel == Label(s.status)
    && r.projectPath == (if s.project.Some? then s.project.value else "")
    && r.projectName == (if r.projectPath == "" then "unknown"
                         else if lib.fileName(r.projectPath).Some? then lib.fileName(r.projectPath).value
                         else r.projectPath)
    && r.harness == s.harness && r.harnessBadge == s.badge && r.lastUpdated == s.lastUpdated
    && r.isDone == s.isDone && r.isSubagent == s.subagent
    && r.url == config.link(r.sessionId, s.harness, s.url)
  }

  lemma RowShows(lib: Library, config: Config, s: Session)
    ensures Shows(lib, config, s, Linked(config)(ToRow(lib)(s)))
  {
  }

  ghost predicate Shown(lib: Library, config: Config, rows: seq<Row>, s: Session) {
    exists r :: r in rows && Shows(lib, config, s, r)
  }

  ghost predicate OfSession(lib: Library, config: Config, sources: seq<SourceSnapshot>, r: Row) {
    exists s :: AnySession(sources, s) && !Hidden(config, s) && Shows(lib, config, s, r)
  }

  /** A session the user could see has no row. */
  ghost predicate LeftOut(lib: Library, config: Config, sources: seq<SourceSnapshot>, rows: seq<Row>, s: Session) {
    AnySession(sources, s) && !Hidden(config, s) && !Shown(lib, config, rows, s)
  }

  /** Every row shows a session that is not hidden. Left out of the others are done ones
      only, none if all done are wanted, and none later than a done one with a row. */
  lemma RowsExactly(lib: Library, config: Config, sources: seq<SourceSnapshot>, now: int)
    requires forall s :: AnySession(sources, s) ==> Consistent(lib, s)
    ensures var rows := Render(lib, config, sources, now).rows;
      && (forall r :: r in rows ==> OfSession(lib, config, sources, r))
      && (forall s :: LeftOut(lib, config, sources, rows, s) ==> s.status == Done && !config.showDone)
      && (forall s, r :: LeftOut(lib, config, sources, rows, s) && r in rows && r.status == Done ==>
            NotLater(s.updatedAt, lib.parse(r.lastUpdated)))
  {
    var rows := Render(lib, config, sources, now).rows;
    forall r | r in rows ensures OfSession(lib, config, sources, r) {
      RowOfSession(lib, config, sources, now, r);
    }
    forall s | LeftOut(lib, config, sources, rows, s) ensures s.status == Done && !config.showDone {
      LeftOutDropped(lib, config, sources, now, s);
    }
    forall s, r | LeftOut(lib, config, sources, rows, s) && r in rows && r.status == Done
      ensures NotLater(s.updatedAt, lib.parse(r.lastUpdated))
    {
      LeftOutNotLater(lib, config, sources, now, s, r);
    }
  }

  lemma RowOfSession(lib: Library, config: Config, sources: seq<SourceSnapshot>, now: int, r: Row)
    requires r in Render(lib, config, sources, now).rows
    ensures OfSession(lib, config, sources, r)
  {
    var rows, kept := Render(lib, config, sources, now).rows, Kept(config, sources);
    RowsOfKept(lib, config, sources, now);
    MergedFacts(config, sources);
    PassedSorted(Merged(config, sources), config.showDone);
    var i :| 0 <= i < |rows| && rows[i] == r;
    assert kept[i] in kept;
    RowShows(lib, config, kept[i]);
  }

  lemma KeptShown(lib: Library, config: Config, sources: seq<SourceSnapshot>, now: int, s: Session)
    requires s in Kept(config, sources)
    ensures Shown(lib, config, Render(lib, config, sources, now).rows, s)
  {
    var rows, kept := Render(lib, config, sources, now).rows, Kept(config, sources);
    RowsOfKept(lib, config, sources, now);
    var i :| 0 <= i < |kept| && kept[i] == s;
    RowShows(lib, config, s);
    assert rows[i] in rows;
  }

  lemma LeftOutDropped(lib: Library, config: Config, sources: seq<SourceSnapshot>, now: int, s: Session)
    requires Consistent(lib, s) && LeftOut(lib, config, sources, Render(lib, config, sources, now).rows, s)
    ensures s in Merged(config, sources) && s !in Kept(config, sources) && s.status == Done && !config.showDone
  {
    MergedFacts(config, sources);
    if s in Kept(config, sources) {
      KeptShown(lib, config, sources, now, s);
    } else if config.showDone || s.status != Done {
      LiveKept(Merged(config, sources), config.showDone, s);
    }
  }

  lemma LeftOutNotLater(lib: Library, config: Config, sources: seq<SourceSnapshot>, now: int, s: Session, r: Row)
    requires forall x :: AnySession(sources, x) ==> Consistent(lib, x)
    requires LeftOut(lib, config, sources, Render(lib, config, sources, now).rows, s)
    requires r in Render(lib, config, sources, now).rows && r.status == Done
    ensures NotLater(s.updatedAt, lib.parse(r.lastUpdated))
  {
    var rows, kept := Render(lib, config, sources, now).rows, Kept(config, sources);
    LeftOutDropped(lib, config, sources, now, s);
    RowsOfKept(lib, config, sources, now);
    MergedFacts(config, sources);
    var i :| 0 <= i < |rows| && rows[i] == r;
    RowShows(lib, config, kept[i]);
    DroppedNotLater(lib, Merged(config, sources), kept[i], s);
  }

  lemma LiveKept(merged: seq<Session>, showDone: bool, s: Session)
    requires s in merged && (showDone || s.status != Done) && s.isDone == (s.status == Done)
    ensures s in Passed(merged, showDone)
  {
    if !showDone {
      RetainParts(merged, SessionDone, DONE_RETENTION);
      assert Not(SessionDone)(s) == !SessionDone(s);
      assert s in Filter(merged, Not(SessionDone));
      assert s in Filter(Passed(merged, false), Not(SessionDone));
    }
  }

  lemma DroppedNotLater(lib: Library, merged: seq<Session>, kept: Session, dropped: Session)
    requires Sorted(merged, SessionLe) && forall s :: s in merged ==> Consistent(lib, s)
    requires kept in Passed(merged, false) && kept.status == Done
    requires dropped in merged && dropped !in Passed(merged, false)
    ensures NotLater(dropped.updatedAt, lib.parse(kept.lastUpdated))
  {
    var passed := Passed(merged, false);
    DoneLastSessions(lib, merged);
    RetainPrefix(merged, SessionDone, DONE_RETENTION);
    forall k | 0 <= k < |passed| ensures merged[k] in passed {
      assert merged[k] == passed[k];
    }
    var i :| 0 <= i < |passed| && passed[i] == kept;
    var j :| 0 <= j < |merged| && merged[j] == dropped;
    assert merged[i] == kept && merged[j].isDone && SessionLe(merged[i], merged[j]);
    assert merged[i] in merged && merged[j] in merged;
  }

  lemma DoneLastSessions(lib: Library, merged: seq<Session>)
    requires Sorted(merged, SessionLe) && forall s :: s in merged ==> Consistent(lib, s)
    ensures DoneLast(merged, SessionDone)
  {
    forall i, j | 0 <= i < j < |merged| && SessionDone(merged[i]) ensures SessionDone(merged[j]) {
      assert merged[i] in merged && merged[j] in merged && SessionLe(merged[i], merged[j]);
    }
  }

  // --------------------------------------------------- the light, the counts

  function Counted(config: Config, status: Status): Session -> bool {
    (s: Session) => s.status == status && !Hidden(config, s)
  }

  function RowIs(status: Status): Row -> bool {
    (r: Row) => r.status == status
  }

  /** Each count is the number of sessions of that status that are not hidden, and their
      sum is the total. */
  lemma CountsExactly(lib: Library, config: Config, sources: seq<SourceSnapshot>, now: int)
    ensures var all, c := Flatten(sources), Render(lib, config, sources, now).counts;
      && c.needsHelp == Count(all, Counted(config, NeedsHelp)) && c.active == Count(all, Counted(config, Active))
      && c.inactive == Count(all, Counted(config, Inactive)) && c.done == Count(all, Counted(config, Done))
      && c.total == c.needsHelp + c.active + c.inactive + c.done
  {
    var shown := Filter(Flatten(sources), Visible(config.showSubagents));
    OrderIrrelevant(Sort(shown, SessionLe), shown, config.yellowMode);
    forall status ensures Count(shown, HasStatus(status)) == Count(Flatten(sources), Counted(config, status)) {
      CountShown(config, Flatten(sources), status);
    }
    CountsSum(shown);
  }

  lemma CountShown(config: Config, all: seq<Session>, status: Status)
    ensures Count(Filter(all, Visible(config.showSubagents)), HasStatus(status)) == Count(all, Counted(config, status))
  {
    FilterCompose(all, HasStatus(status), Visible(config.showSubagents), Counted(config, status));
  }

  lemma {:induction false} CountsSum(xs: seq<Session>)
    ensures |xs| == Count(xs, HasStatus(NeedsHelp)) + Count(xs, HasStatus(Active)) +
                    Count(xs, HasStatus(Inactive)) + Count(xs, HasStatus(Done))
  {
    if xs != [] {
      CountsSum(xs[1..]);
    }
  }

  /** The light follows from the counts: red if anyone needs help; else orange if someone
      is paused and, where work wins, nobody works; else green if someone works; else
      gray. */
  lemma LightFromCounts(lib: Library, config: Config, sources: seq<SourceSnapshot>, now: int)
    ensures var r := Render(lib, config, sources, now);
      && (r.aggregate == "red" <==> r.counts.needsHelp > 0)
      && (r.aggregate == "orange" <==>
            r.counts.needsHelp == 0 && r.counts.inactive > 0 &&
            (r.yellowMode == "any_inactive" || r.counts.active == 0))
      && (r.aggregate == "green" <==>
            r.counts.needsHelp == 0 && r.counts.active > 0 &&
            (r.yellowMode == "active_wins" || r.counts.inactive == 0))
      && (r.aggregate == "gray" <==> r.counts.needsHelp == 0 && r.counts.active == 0 && r.counts.inactive == 0)
  {
    var merged := Merged(config, sources);
    SomeCounts(merged, NeedsHelp);
    SomeCounts(merged, Active);
    SomeCounts(merged, Inactive);
    LightNames(AggregateOf(merged, config.yellowMode));
  }

  /** Red exactly when some session of some source needs help, subagent or not. */
  lemma RedExactly(lib: Library, config: Config, sources: seq<SourceSnapshot>, now: int)
    ensures Render(lib, config, sources, now).aggregate == "red" <==>
            exists s :: AnySession(sources, s) && s.status == NeedsHelp
  {
    var merged := Merged(config, sources);
    MergedFacts(config, sources);
    LightNames(AggregateOf(merged, config.yellowMode));
    assert AggregateOf(merged, config.yellowMode) == Red <==> Some_(merged, NeedsHelp);
    if s :| AnySession(sources, s) && s.status == NeedsHelp {
      assert s in merged;
    }
  }

  lemma LightNames(light: Aggregate)
    ensures light.Name() == "red" <==> light == Red
    ensures light.Name() == "orange" <==> light == Yellow
    ensures light.Name() == "green" <==> light == Green
    ensures light.Name() == "gray" <==> light == Gray
  {
  }

  /** There are as many live rows of a status as the count says; of the done, all if all
      are wanted, else at most five. */
  lemma RowsMatchCounts(lib: Library, config: Config, sources: seq<SourceSnapshot>, now: int)
    requires forall s :: AnySession(sources, s) ==> Consistent(lib, s)
    ensures var rows, c := Render(lib, config, sources, now).rows, Render(lib, config, sources, now).counts;
      && Count(rows, RowIs(NeedsHelp)) == c.needsHelp && Count(rows, RowIs(Active)) == c.active
      && Count(rows, RowIs(Inactive)) == c.inactive
      && Count(rows, RowIs(Done)) == if config.showDone || c.done < 5 then c.done else 5
  {
    var merged, kept := Merged(config, sources), Kept(config, sources);
    MergedFacts(config, sources);
    PassedSorted(merged, config.showDone);
    RowsOfKept(lib, config, sources, now);
    var rows := Render(lib, config, sources, now).rows;
    forall status ensures Count(rows, RowIs(status)) == Count(kept, HasStatus(status)) {
      CountRows(lib, config, kept, rows, status);
    }
    KeptCounts(lib, merged, config.showDone);
  }

  lemma CountRows(lib: Library, config: Config, kept: seq<Session>, rows: seq<Row>, status: Status)
    requires |rows| == |kept| && forall i :: 0 <= i < |rows| ==> rows[i] == Linked(config)(ToRow(lib)(kept[i]))
    ensures Count(rows, RowIs(status)) == Count(kept, HasStatus(status))
  {
    var f := (s: Session) => Linked(config)(ToRow(lib)(s));
    assert rows == MapSeq(kept, f);
    FilterMap(kept, f, RowIs(status), HasStatus(status));
  }

  lemma KeptCounts(lib: Library, merged: seq<Session>, showDone: bool)
    requires forall s :: s in merged ==> Consistent(lib, s)
    ensures var kept := Passed(merged, showDone);
      && Count(kept, HasStatus(NeedsHelp)) == Count(merged, HasStatus(NeedsHelp))
      && Count(kept, HasStatus(Active)) == Count(merged, HasStatus(Active))
      && Count(kept, HasStatus(Inactive)) == Count(merged, HasStatus(Inactive))
      && Count(kept, HasStatus(Done)) ==
           if showDone || Count(merged, HasStatus(Done)) < 5 then Count(merged, HasStatus(Done)) else 5
  {
    if !showDone {
      var kept := Passed(merged, false);
      RetainParts(merged, SessionDone, DONE_RETENTION);
      RetainElements(merged, SessionDone, DONE_RETENTION);
      LiveCounts(kept, merged);
      FilterAgree(merged, SessionDone, HasStatus(Done));
      FilterAgree(kept, SessionDone, HasStatus(Done));
    }
  }

  // --------------------------------------------------------- the status line

  function Problem(kind: Kind, health: Health): string {
    match kind
    case FileKind =>
      if health.Unreadable? then "Could not read state file: " + health.reason else "Waiting for clawlight state file"
    case HubKind => if health.Unreadable? then "Could not reach the hub: " + health.reason else "Waiting for the hub"
    case PushKind =>
      if health.Unreadable? then "Agent event source error: " + health.reason else "Waiting for agent events"
  }

  /** Source `k` is the first that is not ready. */
  ghost predicate FirstBad(sources: seq<SourceSnapshot>, k: int) {
    0 <= k < |sources| && sources[k].health != Ready && forall i :: 0 <= i < k ==> sources[i].health == Ready
  }

  /** All is well exactly when there is a source and all are ready; otherwise the first
      that is not is named, or what is configured is waited for; the state counts as
      present when some source is not missing. */
  lemma StatusLine(lib: Library, config: Config, sources: seq<SourceSnapshot>, now: int)
    ensures var r := Render(lib, config, sources, now);
      && (r.ok <==> sources != [] && forall i :: 0 <= i < |sources| ==> sources[i].health == Ready)
      && (r.ok <==> r.error.None?)
      && (sources == [] ==> r.error == Some(Problem(config.sourceKind, Missing)))
      && (forall k :: FirstBad(sources, k) ==> r.error == Some(Problem(sources[k].kind, sources[k].health)))
      && (r.present <==> exists i :: 0 <= i < |sources| && sources[i].health != Missing)
  {
    assert sources != [] && AllReady(sources) <==>
           sources != [] && forall i :: 0 <= i < |sources| ==> sources[i].health == Ready;
    forall k | FirstBad(sources, k)
      ensures ErrorOf(config, sources) == Some(Problem(sources[k].kind, sources[k].health))
    {
      FirstProblem(sources, k);
      assert sources[k] in sources;
    }
    if i :| 0 <= i < |sources| && sources[i].health != Missing {
      assert sources[i] in sources;
    }
  }

  lemma {:induction false} FirstProblem(sources: seq<SourceSnapshot>, k: nat)
    requires FirstBad(sources, k)
    ensures FirstNotReady(sources) == Some(sources[k])
  {
    if k > 0 {
      assert sources[1..][k - 1] == sources[k];
      FirstProblem(sources[1..], k - 1);
    }
  }

  /** Kind and label are those of the first source, or of the configured one. */
  lemma SourceLine(lib: Library, config: Config, sources: seq<SourceSnapshot>, now: int)
    ensures var r := Render(lib, config, sources, now);
      var kind := if sources != [] then sources[0].kind else config.sourceKind;
      && r.sourceKind == (match kind case FileKind => "file" case HubKind => "hub" case PushKind => "push")
      && r.sourceLabel == (if sources != [] then sources[0].location
                           else match kind case FileKind => config.stateFile case HubKind => config.hubUrl
                                case PushKind => "events")
      && r.statePath == config.stateFile && r.generatedAt == lib.render(now)
      && r.yellowMode == (match config.yellowMode case AnyInactive => "any_inactive" case ActiveWins => "active_wins")
  {
  }
}
