/** What a hub that keeps only the newest finished sessions costs the desktops
    behind it: exactly when their done counts and done rows are still right. */
module RelayDone {
  import opened Prelude
  import opened Text
  import opened Domain
  import opened StableSort
  import opened EngineModel
  import opened Relay

  // -------------------------------------------------- filtering and capping

  /** The finished sessions of a source, in the order they are rendered. */
  function DoneOf(view: SourceSnapshot): seq<Session> {
    Filter(Sort(view.sessions, SessionLe), SessionDone)
  }

  /** Retention on a list of finished sessions alone. */
  function Cap<T>(xs: seq<T>, all: bool): seq<T> {
    if all then xs else Take(xs, DONE_RETENTION)
  }

  /** The finished sessions past the fifth are subagents the desktop hides. */
  predicate OverflowHidden(done: seq<Session>, show: bool) {
    forall i :: DONE_RETENTION <= i < |done| ==> !SessionVisible(show, done[i])
  }

  /** The desktop hides none of the newest five. */
  predicate NewestShown(done: seq<Session>, show: bool) {
    forall i :: 0 <= i < |done| && i < DONE_RETENTION ==> SessionVisible(show, done[i])
  }

  lemma {:induction false} FilterFull<T>(xs: seq<T>, p: T -> bool)
    requires |Filter(xs, p)| == |xs|
    ensures forall x :: x in xs ==> p(x)
  {
    if xs != [] {
      assert xs == [xs[0]] + xs[1..];
      FilterCons(xs[0], xs[1..], p);
      FilterFull(xs[1..], p);
    }
  }

  lemma CapLonger<T>(a: seq<T>, b: seq<T>, all: bool)
    requires |a| <= DONE_RETENTION
    ensures Cap(a, all) == a <= Cap(a + b, all)
    ensures |a| == |Cap(a + b, all)| <==> b == [] || (!all && |a| == DONE_RETENTION)
  {
    if |a + b| <= DONE_RETENTION {
      assert Cap(a + b, all) == a + b;
    }
  }

  /** The finished sessions a desktop keeps out of what a retaining hub passes on
      are the first of those it would keep itself, and when they are all of them. */
  lemma CapFacts(done: seq<Session>, show: bool, clientAll: bool)
    ensures var near := Cap(Filter(done, Visible(show)), clientAll);
      var far := Cap(Filter(Cap(done, false), Visible(show)), clientAll);
      && far <= near
      && (|far| == |near| <==> OverflowHidden(done, show) || (!clientAll && NewestShown(done, show)))
  {
    if |done| > DONE_RETENTION {
      var first := Filter(done[..DONE_RETENTION], Visible(show));
      var rest := Filter(done[DONE_RETENTION..], Visible(show));
      ShownInTwo(done, show);
      CapLonger(first, rest, clientAll);
      OverflowExactly(done, show);
      NewestExactly(done, show);
      assert Cap(done, false) == done[..DONE_RETENTION];
    } else {
      assert Cap(done, false) == done;
    }
  }

  lemma ShownInTwo(done: seq<Session>, show: bool)
    requires |done| > DONE_RETENTION
    ensures Filter(done, Visible(show)) ==
            Filter(done[..DONE_RETENTION], Visible(show)) + Filter(done[DONE_RETENTION..], Visible(show))
  {
    assert done == done[..DONE_RETENTION] + done[DONE_RETENTION..];
    FilterAppend(done[..DONE_RETENTION], done[DONE_RETENTION..], Visible(show));
  }

  lemma OverflowExactly(done: seq<Session>, show: bool)
    requires |done| > DONE_RETENTION
    ensures OverflowHidden(done, show) <==> Filter(done[DONE_RETENTION..], Visible(show)) == []
  {
    var rest := done[DONE_RETENTION..];
    if OverflowHidden(done, show) {
      FilterNone(rest, Visible(show));
    } else {
      var i :| DONE_RETENTION <= i < |done| && SessionVisible(show, done[i]);
      assert rest[i - DONE_RETENTION] in rest && Visible(show)(done[i]);
    }
  }

  lemma NewestExactly(done: seq<Session>, show: bool)
    requires |done| > DONE_RETENTION
    ensures NewestShown(done, show) <==> |Filter(done[..DONE_RETENTION], Visible(show))| == DONE_RETENTION
  {
    var first := done[..DONE_RETENTION];
    if NewestShown(done, show) {
      FilterAll(first, Visible(show));
    } else {
      var i :| 0 <= i < DONE_RETENTION && !SessionVisible(show, done[i]);
      assert first[i] in first && !Visible(show)(done[i]);
      if |Filter(first, Visible(show))| == |first| {
        FilterFull(first, Visible(show));
      }
    }
  }

  // ---------------------------------------------- live part, then done part

  /** A rendered list is its live part followed by its done part. */
  lemma {:induction false} DoneLastSplit<T>(xs: seq<T>, done: T -> bool)
    requires DoneLast(xs, done)
    ensures xs == Filter(xs, Not(done)) + Filter(xs, done)
  {
    if xs != [] {
      assert xs == [xs[0]] + xs[1..];
      DoneLastSplit(xs[1..], done);
      if done(xs[0]) {
        FilterNone(xs[1..], Not(done));
      }
    }
  }

  lemma SessionsDoneLast(xs: seq<Session>)
    requires Sorted(xs, SessionLe) && forall s :: s in xs ==> s.isDone == (s.status == Done)
    ensures DoneLast(xs, SessionDone)
  {
    forall i, j | 0 <= i < j < |xs| && SessionDone(xs[i]) ensures SessionDone(xs[j]) {
      assert xs[i] in xs && xs[j] in xs && SessionLe(xs[i], xs[j]);
    }
  }

  /** What a desktop renders of a sorted list, split into live and done. */
  lemma KeptParts(sorted: seq<Session>, passedAll: bool, show: bool, all: bool)
    requires Sorted(sorted, SessionLe) && forall s :: s in sorted ==> s.isDone == (s.status == Done)
    ensures var kept := Passed(Filter(Passed(sorted, passedAll), Visible(show)), all);
      kept == Filter(Filter(sorted, Visible(show)), Not(SessionDone)) +
              Cap(Filter(Cap(Filter(sorted, SessionDone), passedAll), Visible(show)), all)
  {
    var passed := Passed(sorted, passedAll);
    var shown := Filter(passed, Visible(show));
    var kept := Passed(shown, all);
    PassedSorted(sorted, passedAll);
    FilterSorted(passed, Visible(show), SessionLe);
    PassedSorted(shown, all);
    SessionsDoneLast(kept);
    DoneLastSplit(kept, SessionDone);
    PassedParts(shown, all);
    PassedLive(sorted, passedAll, show);
    DoneShown(sorted, passedAll, show);
  }

  lemma PassedParts(xs: seq<Session>, all: bool)
    ensures Filter(Passed(xs, all), Not(SessionDone)) == Filter(xs, Not(SessionDone))
    ensures Filter(Passed(xs, all), SessionDone) == Cap(Filter(xs, SessionDone), all)
  {
    RetainParts(xs, SessionDone, DONE_RETENTION);
  }

  function Both(p: Session -> bool, q: Session -> bool): Session -> bool {
    s => p(s) && q(s)
  }

  lemma DoneShown(sorted: seq<Session>, passedAll: bool, show: bool)
    ensures Filter(Filter(Passed(sorted, passedAll), Visible(show)), SessionDone) ==
            Filter(Cap(Filter(sorted, SessionDone), passedAll), Visible(show))
  {
    var passed := Passed(sorted, passedAll);
    var both := Both(SessionDone, Visible(show));
    FilterCompose(passed, SessionDone, Visible(show), both);
    FilterCompose(passed, Visible(show), SessionDone, both);
    PassedParts(sorted, passedAll);
  }

  // ----------------------------------------------------------- done counts

  lemma {:induction false} PartLengths<T>(xs: seq<T>, p: T -> bool)
    ensures |xs| == |Filter(xs, p)| + |Filter(xs, Not(p))|
  {
    if xs != [] {
      assert xs == [xs[0]] + xs[1..];
      PartLengths(xs[1..], p);
    }
  }

  /** The totals of a list differ from those of another with the same live part
      exactly by their finished sessions. */
  lemma CountsByDone(xs: seq<Session>, ys: seq<Session>)
    requires Filter(xs, Not(SessionDone)) == Filter(ys, Not(SessionDone))
    requires forall s :: s in xs || s in ys ==> s.isDone == (s.status == Done)
    ensures CountOf(xs).done == |Filter(xs, SessionDone)| && CountOf(ys).done == |Filter(ys, SessionDone)|
    ensures CountOf(xs) == CountOf(ys) <==> |Filter(xs, SessionDone)| == |Filter(ys, SessionDone)|
  {
    LiveCounts(xs, ys);
    FilterAgree(xs, HasStatus(Done), SessionDone);
    FilterAgree(ys, HasStatus(Done), SessionDone);
    PartLengths(xs, SessionDone);
    PartLengths(ys, SessionDone);
  }

  lemma ShownCounts(sorted: seq<Session>, hubAll: bool, show: bool)
    requires forall s :: s in sorted ==> s.isDone == (s.status == Done)
    ensures var remote := CountOf(Filter(Passed(sorted, hubAll), Visible(show)));
      var direct := CountOf(Filter(sorted, Visible(show)));
      && (remote.done == direct.done <==> hubAll || OverflowHidden(Filter(sorted, SessionDone), show))
      && (remote == direct <==> remote.done == direct.done)
  {
    var done := Filter(sorted, SessionDone);
    var remote, direct := Filter(Passed(sorted, hubAll), Visible(show)), Filter(sorted, Visible(show));
    RetainSubset(sorted);
    PassedLive(sorted, hubAll, show);
    CountsByDone(remote, direct);
    DoneShown(sorted, hubAll, show);
    DoneShown(sorted, true, show);
    CapFacts(done, show, true);
  }

  /** The desktop's counts behind a hub: wrong exactly when the hub keeps five done
      sessions and drops one the desktop would show. */
  lemma RemoteDoneCount(lib: Library, hub: Config, client: Config, source: string, url: string,
                        view: SourceSnapshot, now: int)
    requires AllConsistent(lib, view.sessions)
    ensures var remote := Render(lib, client, [RemoteView(lib, source, url, HubRender(lib, hub, view, now))], now);
      var direct := Render(lib, client, [view], now);
      && (remote.counts.done == direct.counts.done <==>
            hub.showDone || OverflowHidden(DoneOf(view), client.showSubagents))
      && (remote.counts == direct.counts <==> remote.counts.done == direct.counts.done)
  {
    var sorted := Sort(view.sessions, SessionLe);
    var remote := Merged(client, [RemoteView(lib, source, url, HubRender(lib, hub, view, now))]);
    RemoteAgainstDirect(lib, hub, client, source, url, view, now);
    SameRendering(lib, client, remote, Filter(Passed(sorted, hub.showDone), Visible(client.showSubagents)));
    ShownCounts(sorted, hub.showDone, client.showSubagents);
  }

  // ------------------------------------------------------------- done rows

  function PlainRow(lib: Library): Session -> Row {
    s => ToRow(lib)(Erase(s))
  }

  lemma PlainRowsOf(lib: Library, config: Config, xs: seq<Session>)
    ensures MapSeq(RowsOf(lib, config, xs), Unlink) == MapSeq(Passed(xs, config.showDone), PlainRow(lib))
  {
    PlainRows(lib, config, xs);
    assert MapSeq(MapSeq(xs, Erase), ToRow(lib)) == MapSeq(xs, PlainRow(lib));
    RetainMap(xs, PlainRow(lib), SessionDone, IsDoneRow, DONE_RETENTION);
  }

  lemma SameMapped<T, U>(live: seq<T>, far: seq<T>, near: seq<T>, f: T -> U)
    requires far <= near
    ensures MapSeq(live + far, f) == MapSeq(live + near, f) <==> |far| == |near|
  {
    if |far| == |near| {
      assert far == near;
    } else {
      assert |MapSeq(live + far, f)| != |MapSeq(live + near, f)|;
    }
  }

  /** The condition under which a desktop's whole row list survives the relay. */
  predicate RowsSurvive(hub: Config, client: Config, done: seq<Session>) {
    hub.showDone || OverflowHidden(done, client.showSubagents) ||
    (!client.showDone && NewestShown(done, client.showSubagents))
  }

  lemma ShownRows(lib: Library, hub: Config, client: Config, sorted: seq<Session>)
    requires Sorted(sorted, SessionLe) && forall s :: s in sorted ==> s.isDone == (s.status == Done)
    ensures var show := Visible(client.showSubagents);
      MapSeq(RowsOf(lib, client, Filter(Passed(sorted, hub.showDone), show)), Unlink) ==
      MapSeq(RowsOf(lib, client, Filter(sorted, show)), Unlink)
      <==> RowsSurvive(hub, client, Filter(sorted, SessionDone))
  {
    var done, show := Filter(sorted, SessionDone), client.showSubagents;
    var live := Filter(Filter(sorted, Visible(show)), Not(SessionDone));
    PlainRowsOf(lib, client, Filter(Passed(sorted, hub.showDone), Visible(show)));
    PlainRowsOf(lib, client, Filter(sorted, Visible(show)));
    KeptParts(sorted, hub.showDone, show, client.showDone);
    KeptParts(sorted, true, show, client.showDone);
    CapFacts(done, show, client.showDone);
    if !hub.showDone {
      SameMapped(live, Cap(Filter(Cap(done, false), Visible(show)), client.showDone),
                 Cap(Filter(done, Visible(show)), client.showDone), PlainRow(lib));
    }
  }

  /** The desktop's rows behind a hub, for every pair of configurations: the same as
      read directly exactly when the hub keeps every done session, or drops only ones
      the desktop hides, or passes on five the desktop shows and wants no more. */
  lemma RemoteShowsSameDone(lib: Library, hub: Config, client: Config, source: string, url: string,
                            view: SourceSnapshot, now: int)
    requires AllConsistent(lib, view.sessions)
    ensures AllRows(Render(lib, client, [RemoteView(lib, source, url, HubRender(lib, hub, view, now))], now)) ==
            AllRows(Render(lib, client, [view], now))
            <==> RowsSurvive(hub, client, DoneOf(view))
  {
    var sorted := Sort(view.sessions, SessionLe);
    var remote := Merged(client, [RemoteView(lib, source, url, HubRender(lib, hub, view, now))]);
    RemoteAgainstDirect(lib, hub, client, source, url, view, now);
    SameRendering(lib, client, remote, Filter(Passed(sorted, hub.showDone), Visible(client.showSubagents)));
    ShownRows(lib, hub, client, sorted);
  }

  /** In particular a desktop that shows subagents and keeps five done rows itself
      never misses one. */
  lemma SubagentsShownRowsSurvive(hub: Config, client: Config, done: seq<Session>)
    requires client.showSubagents && !client.showDone
    ensures RowsSurvive(hub, client, done)
  {
  }
}
