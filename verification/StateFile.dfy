/** clawlight's `state.json` seen as a document: a map of session entries beside an
    opaque remainder. Reading, the staleness reap, and the rewriting removals. */
module StateFile {
  import opened Prelude
  import opened Text
  import opened Domain
  import opened EngineModel

  /** One entry of the sessions object. `rest` stands for every field AgentLight
      does not read. */
  datatype Entry = Entry(
    status: Option<string>,
    lastUpdated: Option<string>,
    projectPath: Option<string>,
    name: Option<string>,
    harness: Option<string>,
    rest: string)

  /** `sessions` is `None` when the key is missing or not an object; `rest` stands
      for every other top-level key. */
  datatype Document = Document(sessions: Option<map<string, Entry>>, rest: string)

  /** The file: absent, unreadable, not JSON, or a document, possibly behind a
      byte order mark. */
  datatype Content =
    | Absent
    | IoFailure(reason: string)
    | NotJson(reason: string)
    | Json(marked: bool, document: Document)

  datatype SessionStatus = SessionStatus(
    status: Status,
    lastUpdated: Option<string>,
    projectPath: Option<string>,
    name: Option<string>,
    harness: Option<string>)

  type HookState = map<string, SessionStatus>

  datatype LoadResult = Loaded(state: HookState) | NoFile | Broken(reason: string)

  function ParseStatus(s: Option<string>): Option<Status> {
    if s == Some("active") then Some(Active)
    else if s == Some("inactive") then Some(Inactive)
    else if s == Some("needs_help") then Some(NeedsHelp)
    else if s == Some("done") then Some(Done)
    else None
  }

  /** `HookState::from_json_str`: entries with a missing or unknown status are
      skipped. */
  function ReadDocument(doc: Document): HookState {
    if doc.sessions.None? then map[]
    else
      map id | id in doc.sessions.value && ParseStatus(doc.sessions.value[id].status).Some? ::
        var e := doc.sessions.value[id];
        SessionStatus(ParseStatus(e.status).value, e.lastUpdated, e.projectPath, e.name, e.harness)
  }

  function LoadState(file: Content): LoadResult {
    match file
    case Absent => NoFile
    case IoFailure(reason) => Broken(reason)
    case NotJson(reason) => Broken(reason)
    case Json(_, doc) => Loaded(ReadDocument(doc))   // a byte order mark is tolerated
  }

  function UpdatedAt(lib: Library, s: SessionStatus): Option<int> {
    if s.lastUpdated.Some? then lib.parse(s.lastUpdated.value) else None
  }

  function Reap(lib: Library, s: SessionStatus, now: int): SessionStatus {
    if FileStale(s.status, UpdatedAt(lib, s), now) then s.(status := Done) else s
  }

  /** `reap_stale`, in memory only. */
  function ReapStale(lib: Library, state: HookState, now: int): HookState {
    map id | id in state :: Reap(lib, state[id], now)
  }

  method ReapStaleInPlace(lib: Library, state: HookState, now: int) returns (reaped: HookState)
    ensures reaped == ReapStale(lib, state, now)
  {
    reaped := state;
    var todo := state.Keys;
    while todo != {}
      invariant todo <= state.Keys == reaped.Keys
      invariant forall id :: id in state ==> reaped[id] == if id in todo then state[id] else Reap(lib, state[id], now)
      decreases todo
    {
      var id :| id in todo;
      var session := reaped[id];
      if session.status != Done {
        var at := if session.lastUpdated.Some? then lib.parse(session.lastUpdated.value) else None;
        if at.Some? && NumHours(now - at.value) >= STALE_AFTER_HOURS {
          reaped := reaped[id := session.(status := Done)];
        }
      }
      todo := todo - {id};
    }
  }

  // ---------------------------------------------------------------- removals

  /** The file after deleting keys from the sessions object; a rewritten file
      carries no byte order mark. */
  function Without(file: Content, ids: set<string>): Content
    requires file.Json? && file.document.sessions.Some?
  {
    Json(false, file.document.(sessions := Some(file.document.sessions.value - ids)))
  }

  predicate Holds(file: Content, id: string) {
    file.Json? && file.document.sessions.Some? && id in file.document.sessions.value
  }

  /** Whether the mutating commands can parse the file: unlike the reader they do
      not skip a byte order mark. */
  predicate Editable(file: Content) {
    file.Absent? || (file.Json? && !file.marked)
  }

  function SessionName(id: string, s: SessionStatus): string {
    s.name.GetOr("Session " + CharPrefix(id, 8))
  }

  function CleanHarness(lib: Library, s: SessionStatus): Option<string> {
    Clean(lib, s.harness)
  }

  function BuildSession(lib: Library, source: string, id: string, s: SessionStatus): Session {
    var harness := CleanHarness(lib, s);
    var path := s.projectPath.GetOr("");
    Session(SessionKey(source, id), SessionName(id, s), s.status,
            if path == "" then None else Some(path),
            harness, if harness.Some? then Some(HarnessBadge(lib, harness.value)) else None,
            UpdatedAt(lib, s), s.status == Done, s.lastUpdated.GetOr(""), None, false)
  }

  function SessionAt(lib: Library, source: string, state: HookState): string -> Session {
    id => if id in state then BuildSession(lib, source, id, state[id])
          else Session(SessionKey(source, id), "", Done, None, None, None, None, true, "", None, false)
  }

  /** `build_sessions` when the hash map yields its keys in `order`. */
  function BuildSessions(lib: Library, source: string, state: HookState, order: seq<string>): seq<Session> {
    MapSeq(order, SessionAt(lib, source, state))
  }

  /** The rows the file source contributes at `now`. */
  function FileView(lib: Library, source: string, path: string, file: Content, now: int,
                    order: seq<string>): SourceSnapshot {
    match LoadState(file)
    case Loaded(state) =>
      SourceSnapshot(source, FileKind, path, Ready, BuildSessions(lib, source, ReapStale(lib, state, now), order))
    case NoFile => SourceSnapshot(source, FileKind, path, Missing, [])
    case Broken(reason) => SourceSnapshot(source, FileKind, path, Unreadable(reason), [])
  }

  /** The keys whose iteration order matters: the sessions the file parses to. */
  function Keys(file: Content): set<string> {
    match LoadState(file)
    case Loaded(state) => state.Keys
    case NoFile => {}
    case Broken(_) => {}
  }

  // ------------------------------------------------------------- the source

  class ClawlightFileSource {
    const lib: Library
    const id: string
    const path: string
    var file: Content
    var writable: bool    // whether an atomic replace currently succeeds
    var revision: nat

    constructor (lib: Library, id: string, path: string, file: Content, writable: bool)
      ensures this.lib == lib && this.id == id && this.path == path
      ensures this.file == file && this.writable == writable && revision == 0
    {
      this.lib, this.id, this.path := lib, id, path;
      this.file, this.writable, this.revision := file, writable, 0;
    }

    /** Parse, reap and build the rows; `order` reports the order the hash map
        yielded its keys in. */
    method Snapshot(now: int) returns (snapshot: SourceSnapshot, order: seq<string>)
      modifies `revision
      ensures Enumerates(order, Keys(file))
      ensures snapshot == FileView(lib, id, path, file, now, order)
      ensures revision == old(revision) + 1
    {
      revision := revision + 1;
      order := [];
      match LoadState(file) {
        case Loaded(state) =>
          var reaped := ReapStaleInPlace(lib, state, now);
          var sessions;
          sessions, order := CollectSessions(reaped);
          snapshot := SourceSnapshot(id, FileKind, path, Ready, sessions);
        case NoFile => snapshot := SourceSnapshot(id, FileKind, path, Missing, []);
        case Broken(reason) => snapshot := SourceSnapshot(id, FileKind, path, Unreadable(reason), []);
      }
    }

    /** `build_sessions`, over the map in some order. */
    method CollectSessions(state: HookState) returns (sessions: seq<Session>, order: seq<string>)
      ensures Enumerates(order, state.Keys) && sessions == BuildSessions(lib, id, state, order)
    {
      sessions, order := [], [];
      var todo := state.Keys;
      while todo != {}
        invariant todo <= state.Keys && Enumerates(order, state.Keys - todo)
        invariant sessions == BuildSessions(lib, id, state, order)
        decreases todo
      {
        var key :| key in todo;
        sessions := sessions + [BuildSession(lib, id, key, state[key])];
        order, todo := order + [key], todo - {key};
      }
    }

    /** `clear_session`: never writes a file it could not parse, and writes only
        when a key was really removed. */
    method ClearSession(session: string) returns (removed: Result<bool>)
      modifies `file
      ensures removed.Err? <==> !Editable(old(file)) || (Holds(old(file), session) && !writable)
      ensures removed.Ok? ==> removed.value == Holds(old(file), session)
      ensures file == if removed == Ok(true) then Without(old(file), {session}) else old(file)
    {
      match file {
        case Absent => return Ok(false);
        case IoFailure(reason) => return Err(reason);
        case NotJson(reason) => return Err("unreadable state file: " + reason);
        case Json(marked, doc) =>
          if marked {
            return Err("unreadable state file: unexpected byte order mark");
          }
          if doc.sessions.None? || session !in doc.sessions.value {
            return Ok(false);
          }
          if !writable {
            return Err("cannot replace state file");
          }
          file := Json(false, doc.(sessions := Some(doc.sessions.value - {session})));
          return Ok(true);
      }
    }
  }
}
