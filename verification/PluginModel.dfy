/** The opencode plugin (V2 edition) as a state machine: what each opencode event,
    coalescing timer and heartbeat does to the sessions it tracks. An event is one
    atomic step, as V2 awaits each before the next; the flush and heartbeat timers
    are atomic too. */
module PluginModel {
  import opened Prelude
  import opened Text
  import opened Domain
  import opened StableSort

  const MAX_DONE_SESSIONS: nat := 5
  const HARNESS: string := "opencode"

  /** What one plugin instance is configured with. */
  datatype Env = Env(
    lib: Library,                          // JavaScript's trim table and ISO printing
    producer: string,
    directory: Option<string>,
    sessionUrl: string -> Option<string>)  // buildSessionUrl

  /** `parentID`: not asked yet, asked and absent, or the parent's id. */
  datatype Parent = Unknown | NoParent | Parent(id: string)

  datatype Info = Info(
    name: Option<string>,
    projectPath: Option<string>,
    parent: Parent,
    status: Option<Status>,
    updatedAt: Option<int>)

  const BLANK: Info := Info(None, None, Unknown, None, None)

  /** `order` is the insertion order of the `sessions` map. */
  datatype Agent = Agent(
    order: seq<string>,
    info: map<string, Info>,
    pending: map<string, Status>,
    awaiting: set<string>)

  const FRESH: Agent := Agent([], map[], map[], {})

  /** A session description, from an event payload or from `session.get`. */
  datatype Description = Description(
    sessionID: Option<string>,
    id: Option<string>,
    title: Option<string>,
    location: Option<string>,
    directory: Option<string>,
    parent: Parent)

  /** An opencode event: its type and the payload fields the plugin reads. */
  datatype Message = Message(
    kind: string,
    sessionID: Option<string>,
    statusType: Option<string>,        // props.status.type
    title: Option<Option<string>>,     // props.title; None is undefined
    info: Option<Description>,         // props.info
    self: Description,                 // props itself, read as a description
    question: Option<string>,          // props.question.sessionID
    form: Option<string>)              // props.form.sessionID

  // ------------------------------------------------------------ JavaScript

  /** A non-empty string, the only truthy optional string. */
  predicate Truthy(s: Option<string>) {
    s.Some? && s.value != ""
  }

  /** `a || b`. */
  function Or(a: Option<string>, b: Option<string>): Option<string> {
    if Truthy(a) then a else b
  }

  /** `s || null`. */
  function OrNull(s: Option<string>): Option<string> {
    if Truthy(s) then s else None
  }

  function Known(a: Agent, id: string): Info {
    if id in a.info then a.info[id] else BLANK
  }

  /** `sessions.set`: a new key goes last, an old one keeps its place. */
  function Put(a: Agent, id: string, info: Info): Agent {
    a.(order := if id in a.info then a.order else a.order + [id], info := a.info[id := info])
  }

  predicate IsSubagent(info: Info) {
    info.parent.Parent? && info.parent.id != ""
  }

  // --------------------------------------------------------------- learning

  function RememberAs(env: Env, a: Agent, id: string, d: Description): Agent {
    var known := Known(a, id);
    var title := if d.title.Some? && Trim(env.lib, d.title.value) != "" then d.title else None;
    Put(a, id, known.(
      name := OrNull(Or(title, known.name)),
      projectPath := OrNull(Or(d.location, Or(d.directory, known.projectPath))),
      parent := if d.parent != Unknown then d.parent
                else if IsSubagent(known) then known.parent else NoParent))
  }

  function Remember(env: Env, a: Agent, d: Description): Agent {
    var id := Or(d.sessionID, d.id);
    if Truthy(id) then RememberAs(env, a, id.value, d) else a
  }

  /** `ensureParentKnown`; `reply` is what `session.get` answers, `None` when it
      throws or has no answer. */
  function EnsureParent(env: Env, a: Agent, id: string, reply: Option<Description>): Agent {
    if Known(a, id).parent != Unknown then a
    else
      var asked := if reply.Some? then Remember(env, a, reply.value.(sessionID := Or(reply.value.id, Some(id)))) else a;
      if Known(asked, id).parent == Unknown then Put(asked, id, Known(asked, id).(parent := NoParent)) else asked
  }

  // -------------------------------------------------------------- reporting

  function Touch(a: Agent, id: string, status: Status, now: int): Agent {
    Put(a, id, Known(a, id).(status := Some(status), updatedAt := Some(now)))
  }

  function Report(a: Agent, id: Option<string>, status: Status, now: int): Agent {
    if !Truthy(id) then a
    else
      var b := Touch(a, id.value, status, now);
      b.(pending := b.pending[id.value := status])
  }

  function Await(a: Agent, id: Option<string>): Agent {
    if Truthy(id) then a.(awaiting := a.awaiting + {id.value}) else a
  }

  function Answer(a: Agent, id: Option<string>): Agent {
    if Truthy(id) then a.(awaiting := a.awaiting - {id.value}) else a
  }

  function ReportIdle(env: Env, a: Agent, id: Option<string>, now: int, reply: Option<Description>): Agent {
    if !Truthy(id) then a
    else if id.value in a.awaiting then Report(a, id, NeedsHelp, now)
    else
      var b := EnsureParent(env, a, id.value, reply);
      Report(b, id, if IsSubagent(Known(b, id.value)) then Done else Inactive, now)
  }

  /** `nestedSessionID(props, "question", "form", "info")`. */
  function NestedId(m: Message): Option<string> {
    Or(m.sessionID, Or(m.question, Or(m.form, if m.info.Some? then m.info.value.sessionID else None)))
  }

  /** What an event means, whatever its name: opencode builds spell the same
      thing several ways. */
  datatype Action =
    | Learn(d: Description)
    | Rename(id: Option<string>, title: Option<string>)
    | Forget(learned: Option<Description>, id: Option<string>)   // the session was deleted
    | Becomes(id: Option<string>, status: Status)
    | GoesIdle(id: Option<string>)
    | Asks(id: Option<string>)                                   // the user must answer
    | Answered(id: Option<string>)
    | Withdrawn(id: Option<string>)                              // the question was cancelled
    | Ignored

  function Decode(m: Message): Action {
    if m.kind in {"session.created", "session.updated"} then Learn(m.info.GetOr(m.self))
    else if m.kind == "session.renamed" then
      if m.title.Some? then Rename(m.sessionID, m.title.value) else Ignored
    else if m.kind == "session.deleted" then
      if Truthy(m.sessionID) then Forget(None, m.sessionID)
      else if m.info.Some? && Truthy(m.info.value.id) then Forget(m.info, m.info.value.id)
      else Ignored
    else if m.kind == "session.status" then
      if m.statusType == Some("idle") then GoesIdle(m.sessionID) else Becomes(m.sessionID, Active)
    else if m.kind in {"session.idle", "session.execution.succeeded", "session.execution.interrupted"} then
      GoesIdle(m.sessionID)
    else if m.kind == "session.execution.started" then Becomes(m.sessionID, Active)
    else if m.kind in {"session.execution.failed", "session.error"} then Becomes(m.sessionID, NeedsHelp)
    else DecodePrompt(m)
  }

  /** Permission and form events. */
  function DecodePrompt(m: Message): Action {
    if m.kind in {"permission.asked", "permission.updated"} then Asks(m.sessionID)
    else if m.kind == "form.created" then Asks(Or(m.sessionID, m.form))
    else if m.kind in {"permission.replied", "form.replied"} then Answered(m.sessionID)
    else if m.kind == "form.cancelled" then Withdrawn(m.sessionID)
    else DecodeQuestion(m)
  }

  function DecodeQuestion(m: Message): Action {
    if m.kind in {"question.asked", "question.v2.asked"} then Asks(NestedId(m))
    else if m.kind in {"question.replied", "question.v2.replied"} then Answered(NestedId(m))
    else if m.kind in {"question.rejected", "question.v2.rejected"} then Withdrawn(NestedId(m))
    else Ignored
  }

  function Perform(env: Env, a: Agent, action: Action, now: int, reply: Option<Description>): Agent {
    match action
    case Learn(d) => Remember(env, a, d)
    case Rename(id, title) => if Truthy(id) then Put(a, id.value, Known(a, id.value).(name := title)) else a
    case Forget(learned, id) =>
      var b := if learned.Some? then Remember(env, a, learned.value) else a;
      Report(Answer(b, id), id, Done, now)
    case Becomes(id, status) => Report(a, id, status, now)
    case GoesIdle(id) => ReportIdle(env, a, id, now, reply)
    case Asks(id) => Report(Await(a, id), id, NeedsHelp, now)
    case Answered(id) => Report(Answer(a, id), id, Active, now)
    case Withdrawn(id) => ReportIdle(env, Answer(a, id), id, now, reply)
    case Ignored => a
  }

  /** `handleEvent`. */
  function Handle(env: Env, a: Agent, m: Message, now: int, reply: Option<Description>): Agent {
    Perform(env, a, Decode(m), now, reply)
  }

  // ---------------------------------------------------------------- sending

  function BuildEvent(env: Env, a: Agent, id: string, status: Status, now: int): Event {
    var known := Known(a, id);
    Event(id, status, OrNull(known.name), OrNull(Or(known.projectPath, env.directory)), Some(HARNESS),
          Some(env.lib.render(known.updatedAt.GetOr(now))), env.sessionUrl(id), Some(env.producer), IsSubagent(known))
  }

  /** The state after a session's coalescing timer fires. */
  function Flushed(env: Env, a: Agent, id: string, reply: Option<Description>): Agent {
    if id in a.pending then EnsureParent(env, a.(pending := a.pending - {id}), id, reply) else a
  }

  /** The upsert that firing sends, if an entry was pending. */
  function FlushEvent(env: Env, a: Agent, id: string, now: int, reply: Option<Description>): Option<Event> {
    if id in a.pending then Some(BuildEvent(env, Flushed(env, a, id, reply), id, a.pending[id], now)) else None
  }

  function IsDone(a: Agent): string -> bool {
    id => Known(a, id).status == Some(Done)
  }

  function IsLive(a: Agent): string -> bool {
    id => Known(a, id).status != Some(Done)
  }

  /** Newest first; a session that was never touched counts as oldest. */
  predicate NewerOrSame(x: Option<int>, y: Option<int>) {
    y.None? || (x.Some? && x.value >= y.value)
  }

  function NewestFirst(a: Agent): (string, string) -> bool {
    (x, y) => NewerOrSame(Known(a, x).updatedAt, Known(a, y).updatedAt)
  }

  /** The sessions a heartbeat lists: all live ones, then the newest five done. */
  function Listed(a: Agent): seq<string> {
    Filter(a.order, IsLive(a)) + Take(Sort(Filter(a.order, IsDone(a)), NewestFirst(a)), MAX_DONE_SESSIONS)
  }

  function EventFor(env: Env, a: Agent, now: int): string -> Event {
    id => BuildEvent(env, a, id, Known(a, id).status.GetOr(Inactive), now)
  }

  function SnapshotEvents(env: Env, a: Agent, now: int): seq<Event> {
    MapSeq(Listed(a), EventFor(env, a, now))
  }

  /** `sendSnapshot` first asks for the parents it does not know yet. A session
      added by a reply already has its parent known, so only the sessions present
      at the start can need the question. */
  function ResolveParents(env: Env, a: Agent, ids: seq<string>, replies: map<string, Description>): Agent {
    if ids == [] then a
    else
      var b := ResolveParents(env, a, ids[..|ids| - 1], replies);
      var id := ids[|ids| - 1];
      EnsureParent(env, b, id, if id in replies then Some(replies[id]) else None)
  }
}
