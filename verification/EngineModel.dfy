/** The policy engine's rules as functions: visibility, ordering, counts, the
    aggregate light, retention, and the rendered snapshot. */
module EngineModel {
  import opened Prelude
  import opened Text
  import opened Domain
  import opened StableSort

  const DONE_RETENTION: nat := 5

  datatype YellowMode = AnyInactive | ActiveWins

  datatype Kind = FileKind | HubKind | PushKind {
    function Name(): string {
      match this
      case FileKind => "file"
      case HubKind => "hub"
      case PushKind => "push"
    }
  }

  datatype Trigger = OnNeedsHelp | OnDone | OnSubagentDone | OnAnyStatus

  /** `link` is the configured "Open" link builder, applied to a row's id, harness
      and producer url. */
  datatype Config = Config(
    yellowMode: YellowMode,
    showDone: bool,
    showSubagents: bool,
    notifications: bool,
    notificationTrigger: seq<Trigger>,
    alarmsEnabled: bool,
    alarmTrigger: seq<Trigger>,
    sourceKind: Kind,
    stateFile: string,
    hubUrl: string,
    link: (string, Option<string>, Option<string>) -> Option<string>)

  datatype Health = Ready | Missing | Unreadable(reason: string)

  datatype SourceSnapshot = SourceSnapshot(
    source: string, kind: Kind, location: string, health: Health, sessions: seq<Session>)

  datatype Counts = Counts(needsHelp: nat, active: nat, inactive: nat, done: nat, total: nat)

  datatype Aggregate = Red | Yellow | Green | Gray {
    function Name(): string {
      match this
      case Red => "red"
      case Yellow => "orange"
      case Green => "green"
      case Gray => "gray"
    }
  }

  datatype Snapshot = Snapshot(
    ok: bool,
    error: Option<string>,
    statePath: string,
    sourceKind: string,
    sourceLabel: string,
    present: bool,
    aggregate: string,
    counts: Counts,
    rows: seq<Row>,
    yellowMode: string,
    generatedAt: string)

  // ------------------------------------------------------ ordering and tests

  /** `Option<DateTime>` order: absent is earliest. */
  predicate TimeLe(x: Option<int>, y: Option<int>) {
    x.None? || (y.Some? && x.value <= y.value)
  }

  /** `compare_sessions`: most urgent first, then most recent. */
  predicate SessionLe(a: Session, b: Session) {
    a.status.Urgency() < b.status.Urgency() ||
    (a.status.Urgency() == b.status.Urgency() && TimeLe(b.updatedAt, a.updatedAt))
  }

  predicate SessionVisible(showSubagents: bool, s: Session) {
    showSubagents || !s.subagent || s.status == NeedsHelp
  }

  function Visible(showSubagents: bool): Session -> bool {
    s => SessionVisible(showSubagents, s)
  }

  function HasStatus(status: Status): Session -> bool {
    (s: Session) => s.status == status
  }

  predicate RowDone(r: Row) { r.status == Done }

  // ------------------------------------------------------------------ policy

  function CountOf(sessions: seq<Session>): Counts {
    Counts(Count(sessions, HasStatus(NeedsHelp)), Count(sessions, HasStatus(Active)),
           Count(sessions, HasStatus(Inactive)), Count(sessions, HasStatus(Done)), |sessions|)
  }

  predicate Some_(sessions: seq<Session>, status: Status) {
    exists s :: s in sessions && s.status == status
  }

  /** The light: red if anyone needs help; otherwise orange if someone is paused
      (and, under `active_wins`, nobody works); otherwise green if someone works. */
  function AggregateOf(sessions: seq<Session>, mode: YellowMode): Aggregate {
    if Some_(sessions, NeedsHelp) then Red
    else if Some_(sessions, Inactive) && (mode == AnyInactive || !Some_(sessions, Active)) then Yellow
    else if Some_(sessions, Active) then Green
    else Gray
  }

  /** Keep everything that is not done and the first `quota` items that are. */
  function Retain<T>(xs: seq<T>, done: T -> bool, quota: nat): seq<T> {
    if xs == [] then []
    else if !done(xs[0]) then [xs[0]] + Retain(xs[1..], done, quota)
    else if quota > 0 then [xs[0]] + Retain(xs[1..], done, quota - 1)
    else Retain(xs[1..], done, 0)
  }

  predicate IsDoneRow(r: Row) { r.isDone }

  function Retained(rows: seq<Row>, showDone: bool): seq<Row> {
    if showDone then rows else Retain(rows, IsDoneRow, DONE_RETENTION)
  }

  function Flatten(sources: seq<SourceSnapshot>): seq<Session> {
    if sources == [] then [] else sources[0].sessions + Flatten(sources[1..])
  }

  function Merged(config: Config, sources: seq<SourceSnapshot>): seq<Session> {
    Sort(Filter(Flatten(sources), Visible(config.showSubagents)), SessionLe)
  }

  function ToRow(lib: Library): Session -> Row {
    s => DisplaySession(lib, s)
  }

  function Linked(config: Config): Row -> Row {
    (r: Row) => r.(url := config.link(r.sessionId, r.harness, r.url))
  }

  function RowsOf(lib: Library, config: Config, sessions: seq<Session>): seq<Row> {
    MapSeq(Retained(MapSeq(sessions, ToRow(lib)), config.showDone), Linked(config))
  }

  /** `for row in rows.iter_mut()`: point each row's url at the configured link. */
  method LinkRows(config: Config, rows: seq<Row>) returns (linked: seq<Row>)
    ensures linked == MapSeq(rows, Linked(config))
  {
    linked := [];
    var i := 0;
    while i < |rows|
      invariant 0 <= i <= |rows| && linked == MapSeq(rows[..i], Linked(config))
    {
      linked := linked + [rows[i].(url := config.link(rows[i].sessionId, rows[i].harness, rows[i].url))];
      i := i + 1;
    }
    assert rows[..i] == rows;
  }

  predicate AllReady(sources: seq<SourceSnapshot>) {
    forall s :: s in sources ==> s.health == Ready
  }

  function FirstNotReady(sources: seq<SourceSnapshot>): Option<SourceSnapshot> {
    if sources == [] then None
    else if sources[0].health != Ready then Some(sources[0])
    else FirstNotReady(sources[1..])
  }

  function ErrorText(kind: Kind, reason: Option<string>): string {
    match kind
    case HubKind =>
      if reason.Some? then "Could not reach the hub: " + reason.value else "Waiting for the hub"
    case FileKind =>
      if reason.Some? then "Could not read state file: " + reason.value else "Waiting for clawlight state file"
    case PushKind =>
      if reason.Some? then "Agent event source error: " + reason.value else "Waiting for agent events"
  }

  function ErrorOf(config: Config, sources: seq<SourceSnapshot>): Option<string> {
    if sources != [] && AllReady(sources) then None
    else
      var bad := FirstNotReady(sources);
      Some(ErrorText(if bad.Some? then bad.value.kind else config.sourceKind,
                     if bad.Some? && bad.value.health.Unreadable? then Some(bad.value.health.reason) else None))
  }

  function LabelOf(config: Config, sources: seq<SourceSnapshot>): string {
    if sources != [] then sources[0].location
    else match config.sourceKind
      case FileKind => config.stateFile
      case HubKind => config.hubUrl
      case PushKind => "events"
  }

  function YellowName(mode: YellowMode): string {
    if mode == AnyInactive then "any_inactive" else "active_wins"
  }

  function Render(lib: Library, config: Config, sources: seq<SourceSnapshot>, now: int): Snapshot {
    var sessions := Merged(config, sources);
    Snapshot(
      sources != [] && AllReady(sources),
      ErrorOf(config, sources),
      config.stateFile,
      (if sources != [] then sources[0].kind else config.sourceKind).Name(),
      LabelOf(config, sources),
      exists s :: s in sources && s.health != Missing,
      AggregateOf(sessions, config.yellowMode).Name(),
      CountOf(sessions),
      RowsOf(lib, config, sessions),
      YellowName(config.yellowMode),
      lib.render(now))
  }

  // -------------------------------------------------------------- facts

  lemma SessionOrder()
    ensures TotalPreorder(SessionLe)
  {
  }

  lemma SomeCounts(sessions: seq<Session>, status: Status)
    ensures Some_(sessions, status) <==> Count(sessions, HasStatus(status)) > 0
  {
    var hits := Filter(sessions, HasStatus(status));
    if Some_(sessions, status) {
      var s :| s in sessions && s.status == status;
      assert s in hits;
    }
    if |hits| > 0 {
      assert hits[0] in hits;
    }
  }

  /** The light and the counts do not depend on the order of the sessions. */
  lemma OrderIrrelevant(xs: seq<Session>, ys: seq<Session>, mode: YellowMode)
    requires multiset(xs) == multiset(ys)
    ensures CountOf(xs) == CountOf(ys) && AggregateOf(xs, mode) == AggregateOf(ys, mode)
  {
    CountMultiset(xs, ys, HasStatus(NeedsHelp));
    CountMultiset(xs, ys, HasStatus(Active));
    CountMultiset(xs, ys, HasStatus(Inactive));
    CountMultiset(xs, ys, HasStatus(Done));
    SomeCounts(xs, NeedsHelp); SomeCounts(ys, NeedsHelp);
    SomeCounts(xs, Active); SomeCounts(ys, Active);
    SomeCounts(xs, Inactive); SomeCounts(ys, Inactive);
    assert |multiset(xs)| == |multiset(ys)|;
  }

  function Not<T>(p: T -> bool): T -> bool {
    x => !p(x)
  }

  /** Retention keeps everything live, and of the done the first `quota`. */
  lemma {:induction false} RetainParts<T>(xs: seq<T>, done: T -> bool, quota: nat)
    ensures Filter(Retain(xs, done, quota), Not(done)) == Filter(xs, Not(done))
    ensures Filter(Retain(xs, done, quota), done) == Take(Filter(xs, done), quota)
  {
    if xs != [] {
      var q := if done(xs[0]) && quota > 0 then quota - 1 else quota;
      RetainParts(xs[1..], done, q);
      FilterAppend([xs[0]], Retain(xs[1..], done, q), Not(done));
      FilterAppend([xs[0]], Retain(xs[1..], done, q), done);
    }
  }

  /** One turn of a retention loop with `quota` done items still to keep. */
  lemma RetainNext<T>(xs: seq<T>, i: nat, done: T -> bool, quota: nat)
    requires i < |xs|
    ensures Retain(xs[i..], done, quota) ==
      if !done(xs[i]) then [xs[i]] + Retain(xs[i + 1..], done, quota)
      else if quota > 0 then [xs[i]] + Retain(xs[i + 1..], done, quota - 1)
      else Retain(xs[i + 1..], done, 0)
  {
    assert xs[i..][0] == xs[i] && xs[i..][1..] == xs[i + 1..];
  }

  lemma RetainCons<T>(x: T, xs: seq<T>, done: T -> bool, quota: nat)
    ensures Retain([x] + xs, done, quota) ==
      if !done(x) then [x] + Retain(xs, done, quota)
      else if quota > 0 then [x] + Retain(xs, done, quota - 1)
      else Retain(xs, done, 0)
  {
    assert ([x] + xs)[1..] == xs;
  }

  lemma RetainMapCons<T, U>(x: T, xs: seq<T>, f: T -> U, done: T -> bool, done': U -> bool, quota: nat, q: nat)
    requires done'(f(x)) == done(x) && q == if done(x) && quota > 0 then quota - 1 else quota
    requires Retain(MapSeq(xs, f), done', q) == MapSeq(Retain(xs, done, q), f)
    ensures Retain([f(x)] + MapSeq(xs, f), done', quota) == MapSeq(Retain([x] + xs, done, quota), f)
  {
    RetainCons(x, xs, done, quota);
    RetainCons(f(x), MapSeq(xs, f), done', quota);
    MapCons(x, Retain(xs, done, q), f);
  }

  lemma {:induction false} RetainMap<T, U>(xs: seq<T>, f: T -> U, done: T -> bool, done': U -> bool, quota: nat)
    requires forall x :: x in xs ==> done'(f(x)) == done(x)
    ensures Retain(MapSeq(xs, f), done', quota) == MapSeq(Retain(xs, done, quota), f)
  {
    if xs != [] {
      var x, rest := xs[0], xs[1..];
      var q := if done(x) && quota > 0 then quota - 1 else quota;
      RetainMap(rest, f, done, done', q);
      assert x in xs && xs == [x] + rest;
      MapCons(x, rest, f);
      RetainMapCons(x, rest, f, done, done', quota, q);
    }
  }

  lemma {:induction false} RetainAgree<T>(xs: seq<T>, p: T -> bool, q: T -> bool, quota: nat)
    requires forall x :: x in xs ==> p(x) == q(x)
    ensures Retain(xs, p, quota) == Retain(xs, q, quota)
  {
    if xs != [] {
      assert xs[0] in xs;
      RetainAgree(xs[1..], p, q, if p(xs[0]) && quota > 0 then quota - 1 else quota);
    }
  }

  lemma {:induction false} RetainSorted<T>(xs: seq<T>, done: T -> bool, quota: nat, le: (T, T) -> bool)
    requires Sorted(xs, le)
    ensures Sorted(Retain(xs, done, quota), le)
    ensures forall x :: x in Retain(xs, done, quota) ==> x in xs
  {
    if xs != [] {
      var q := if done(xs[0]) && quota > 0 then quota - 1 else quota;
      RetainSorted(xs[1..], done, q, le);
      forall y | y in Retain(xs[1..], done, q) ensures y in xs && le(xs[0], y) {
        var i :| 0 <= i < |xs[1..]| && xs[1..][i] == y;
      }
    }
  }

  lemma {:induction false} FilterSorted<T>(xs: seq<T>, p: T -> bool, le: (T, T) -> bool)
    requires Sorted(xs, le)
    ensures Sorted(Filter(xs, p), le)
  {
    if xs != [] {
      FilterSorted(xs[1..], p, le);
      forall y | y in Filter(xs[1..], p) ensures le(xs[0], y) {
        var i :| 0 <= i < |xs[1..]| && xs[1..][i] == y;
      }
    }
  }

  ghost predicate DoneLast<T>(xs: seq<T>, done: T -> bool) {
    forall i, j :: 0 <= i < j < |xs| && done(xs[i]) ==> done(xs[j])
  }

  lemma PrefixCons<T>(x: T, a: seq<T>, b: seq<T>, done: T -> bool)
    requires a <= b && forall j :: |a| <= j < |b| ==> done(b[j])
    ensures [x] + a <= [x] + b
    ensures forall j :: |[x] + a| <= j < |[x] + b| ==> done(([x] + b)[j])
  {
  }

  /** When the done items come last, as they do in a rendered list, retention
      drops a suffix made of done items. */
  lemma {:induction false} RetainPrefix<T>(xs: seq<T>, done: T -> bool, quota: nat)
    requires DoneLast(xs, done)
    ensures Retain(xs, done, quota) <= xs
    ensures forall j :: |Retain(xs, done, quota)| <= j < |xs| ==> done(xs[j])
  {
    if xs != [] {
      var q := if done(xs[0]) && quota > 0 then quota - 1 else quota;
      RetainPrefix(xs[1..], done, q);
      if done(xs[0]) && quota == 0 {
        AllDropped(xs, done);
      } else {
        PrefixCons(xs[0], Retain(xs[1..], done, q), xs[1..], done);
        assert xs == [xs[0]] + xs[1..];
      }
    }
  }

  lemma {:induction false} AllDropped<T>(xs: seq<T>, done: T -> bool)
    requires forall i :: 0 <= i < |xs| ==> done(xs[i])
    ensures Retain(xs, done, 0) == []
  {
    if xs != [] {
      AllDropped(xs[1..], done);
    }
  }

  lemma SortedDoneLast(lib: Library, sessions: seq<Session>)
    requires Sorted(sessions, SessionLe)
    requires forall s :: s in sessions ==> s.isDone == (s.status == Done)
    ensures DoneLast(MapSeq(sessions, ToRow(lib)), IsDoneRow)
  {
    var rows := MapSeq(sessions, ToRow(lib));
    forall i, j | 0 <= i < j < |rows| && rows[i].isDone ensures rows[j].isDone {
      assert sessions[i] in sessions && sessions[j] in sessions && SessionLe(sessions[i], sessions[j]);
    }
  }

  /** On a rendered list retention drops a suffix of done rows, none of them newer
      than a done row it keeps. */
  lemma RetentionKeepsNewest(lib: Library, sessions: seq<Session>)
    requires Sorted(sessions, SessionLe)
    requires forall s :: s in sessions ==> s.isDone == (s.status == Done)
    ensures var rows := MapSeq(sessions, ToRow(lib));
      var kept := Retained(rows, false);
      && kept <= rows
      && forall i, j :: 0 <= i < |kept| <= j < |rows| ==>
           rows[j].isDone && (rows[i].isDone ==> TimeLe(sessions[j].updatedAt, sessions[i].updatedAt))
  {
    var rows := MapSeq(sessions, ToRow(lib));
    SortedDoneLast(lib, sessions);
    RetainPrefix(rows, IsDoneRow, DONE_RETENTION);
    forall i, j | 0 <= i < |Retained(rows, false)| <= j < |rows| && rows[i].isDone
      ensures TimeLe(sessions[j].updatedAt, sessions[i].updatedAt)
    {
      assert sessions[i] in sessions && sessions[j] in sessions && SessionLe(sessions[i], sessions[j]);
    }
  }
}
