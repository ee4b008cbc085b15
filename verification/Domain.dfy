/** The normalized model every component exchanges: statuses, sessions, the wire
    event a producer pushes, and the display row a hub serves. */
module Domain {
  import opened Prelude
  import opened Text

  datatype Status = Active | Inactive | NeedsHelp | Done {
    function Urgency(): nat {
      match this
      case NeedsHelp => 0
      case Active => 1
      case Inactive => 2
      case Done => 3
    }

    function Label(): string {
      match this
      case Active => "working"
      case Inactive => "paused"
      case NeedsHelp => "needs help"
      case Done => "done"
    }
  }

  datatype SessionKey = SessionKey(source: string, sessionId: string)

  datatype Session = Session(
    key: SessionKey,
    name: string,
    status: Status,
    project: Option<string>,
    harness: Option<string>,
    badge: Option<string>,
    updatedAt: Option<int>,
    isDone: bool,
    lastUpdated: string,
    url: Option<string>,
    subagent: bool)

  datatype Event = Event(
    sessionId: string,
    status: Status,
    name: Option<string>,
    projectPath: Option<string>,
    harness: Option<string>,
    lastUpdated: Option<string>,
    url: Option<string>,
    producer: Option<string>,
    subagent: bool)

  datatype Row = Row(
    sessionId: string,
    name: string,
    status: Status,
    statusLabel: string,
    projectName: string,
    projectPath: string,
    harness: Option<string>,
    harnessBadge: Option<string>,
    lastUpdated: string,
    isDone: bool,
    url: Option<string>,
    isSubagent: bool)

  /** `display_session`: the row the frontend consumes. */
  function DisplaySession(lib: Library, s: Session): Row {
    var path := s.project.GetOr("");
    Row(s.key.sessionId, s.name, s.status, s.status.Label(), ProjectShortName(lib, path), path,
        s.harness, s.badge, s.lastUpdated, s.isDone, s.url, s.subagent)
  }

  /** Facts every adapter establishes about the redundant fields of a session. */
  ghost predicate Consistent(lib: Library, s: Session) {
    && s.isDone == (s.status == Done)
    && s.updatedAt == lib.parse(s.lastUpdated)
    && s.project != Some("")
  }

  // ------------------------------------------------------------ staleness

  const STALE_AFTER_HOURS: int := 24
  const NANOS_PER_SECOND: int := 1_000_000_000
  const NANOS_PER_HOUR: int := 3_600_000_000_000

  /** Integer division truncating toward zero, as Rust and chrono divide. */
  function TruncDiv(a: int, b: int): int
    requires b > 0
  {
    if a >= 0 then a / b else -((-a) / b)
  }

  /** `TimeDelta::num_hours` of a difference in nanoseconds. */
  function NumHours(delta: int): int {
    TruncDiv(TruncDiv(delta, NANOS_PER_SECOND), 3600)
  }

  /** The file source's test: whole hours elapsed since the last update. */
  predicate FileStale(status: Status, at: Option<int>, now: int) {
    status != Done && at.Some? && NumHours(now - at.value) >= STALE_AFTER_HOURS
  }

  /** The push store's test: last update at or before a cutoff. */
  predicate PushStale(isDone: bool, at: Option<int>, now: int) {
    !isDone && at.Some? && at.value <= now - STALE_AFTER_HOURS * NANOS_PER_HOUR
  }

  /** The file reader truncates hours and the push store compares a cutoff, yet
      both downgrade the same sessions, and a session once downgraded stays so as
      the clock advances. */
  lemma StalenessAgrees(status: Status, at: Option<int>, now: int, later: int)
    ensures FileStale(status, at, now) <==> PushStale(status == Done, at, now)
    ensures now <= later && PushStale(status == Done, at, now) ==> PushStale(status == Done, at, later)
  {
    if at.Some? {
      var d := now - at.value;
      if d >= 0 {
        assert d / NANOS_PER_SECOND / 3600 >= 24 <==> d >= 24 * NANOS_PER_HOUR;
      }
    }
  }
}
