/** Whole runs of the plugin: what every reachable state keeps, and that a session
    waiting on the user is never reported as finished or idle. */
module PluginRuns {
  import opened Prelude
  import opened Text
  import opened Domain
  import opened StableSort
  import opened PluginModel

  datatype Step =
    | Opencode(m: Message, now: int, reply: Option<Description>)
    | Tool(session: Option<string>, now: int)                       // the tool hooks: report active
    | Timer(id: string, now: int, reply: Option<Description>)     // flush
    | Beat(now: int, replies: map<string, Description>)           // sendSnapshot

  function After(env: Env, a: Agent, s: Step): Agent {
    match s
    case Opencode(m, now, reply) => Handle(env, a, m, now, reply)
    case Tool(id, now) => Report(a, id, Active, now)
    case Timer(id, _, reply) => Flushed(env, a, id, reply)
    case Beat(_, replies) => ResolveParents(env, a, a.order, replies)
  }

  function RunAll(env: Env, a: Agent, steps: seq<Step>): Agent
    decreases |steps|
  {
    if steps == [] then a else RunAll(env, After(env, a, steps[0]), steps[1..])
  }

  // -------------------------------------------------------------- invariant

  /** The status a session was last reported with, if any. */
  function StatusOf(a: Agent, id: string): Option<Status> {
    Known(a, id).status
  }

  ghost predicate Inv(a: Agent) {
    && Enumerates(a.order, a.info.Keys)
    // every pending upsert carries its session's current status
    && (forall id :: id in a.pending ==> StatusOf(a, id) == Some(a.pending[id]))
    // a session waiting on the user is red, or green after activity resumed
    && (forall id :: id in a.awaiting ==> StatusOf(a, id) in {Some(NeedsHelp), Some(Active)})
    && (forall id :: id in a.info && a.info[id].status.Some? ==> a.info[id].updatedAt.Some?)
  }

  /** `b` knows more about the sessions than `a`, but no status, pending upsert
      or wait differs. */
  ghost predicate SameReports(a: Agent, b: Agent) {
    && b.pending == a.pending && b.awaiting == a.awaiting
    && Enumerates(b.order, b.info.Keys)
    && (forall id :: StatusOf(b, id) == StatusOf(a, id))
    && (forall id :: Known(b, id).updatedAt == Known(a, id).updatedAt)
    && a.info.Keys <= b.info.Keys
  }

  lemma LearningKeepsInv(a: Agent, b: Agent)
    requires Inv(a) && SameReports(a, b)
    ensures Inv(b)
  {
    forall id | id in b.info && b.info[id].status.Some? ensures b.info[id].updatedAt.Some? {
      assert StatusOf(b, id) == StatusOf(a, id) && Known(b, id).updatedAt == Known(a, id).updatedAt;
      assert id in a.info;
    }
  }

  lemma PutSame(a: Agent, id: string, info: Info)
    requires Enumerates(a.order, a.info.Keys)
    requires info.status == StatusOf(a, id) && info.updatedAt == Known(a, id).updatedAt
    ensures SameReports(a, Put(a, id, info))
  {
  }

  lemma RememberSame(env: Env, a: Agent, d: Description)
    requires Enumerates(a.order, a.info.Keys)
    ensures SameReports(a, Remember(env, a, d))
  {
    var id := Or(d.sessionID, d.id);
    if Truthy(id) {
      PutSame(a, id.value, Known(RememberAs(env, a, id.value, d), id.value));
    }
  }

  /** Learning a parent changes no status, and neither what is pending nor who
      waits. */
  lemma EnsureParentSame(env: Env, a: Agent, id: string, reply: Option<Description>)
    requires Enumerates(a.order, a.info.Keys)
    ensures SameReports(a, EnsureParent(env, a, id, reply))
    ensures Known(EnsureParent(env, a, id, reply), id).parent != Unknown
  {
    if Known(a, id).parent == Unknown {
      var asked := if reply.Some? then Remember(env, a, reply.value.(sessionID := Or(reply.value.id, Some(id)))) else a;
      if reply.Some? {
        RememberSame(env, a, reply.value.(sessionID := Or(reply.value.id, Some(id))));
      }
      assert SameReports(a, asked);
      if Known(asked, id).parent == Unknown {
        PutSame(asked, id, Known(asked, id).(parent := NoParent));
      }
    }
  }

  lemma {:induction false} ResolveSame(env: Env, a: Agent, ids: seq<string>, replies: map<string, Description>)
    requires Enumerates(a.order, a.info.Keys)
    ensures SameReports(a, ResolveParents(env, a, ids, replies))
    ensures forall id :: id in ids ==> Known(ResolveParents(env, a, ids, replies), id).parent != Unknown
  {
    if ids != [] {
      var rest, id := ids[..|ids| - 1], ids[|ids| - 1];
      var b := ResolveParents(env, a, rest, replies);
      ResolveSame(env, a, rest, replies);
      var reply := if id in replies then Some(replies[id]) else None;
      EnsureParentSame(env, b, id, reply);
      forall x | x in rest ensures Known(EnsureParent(env, b, id, reply), x).parent != Unknown {
        EnsureParentKeeps(env, b, id, reply, x);
      }
    }
  }

  /** A parent once known stays known. */
  lemma EnsureParentKeeps(env: Env, a: Agent, id: string, reply: Option<Description>, x: string)
    requires Known(a, x).parent != Unknown
    ensures Known(EnsureParent(env, a, id, reply), x).parent != Unknown
  {
  }

  /** Reporting is sound as long as a waiting session is reported red or green. */
  lemma ReportInv(a: Agent, id: Option<string>, status: Status, now: int)
    requires Inv(a)
    requires Truthy(id) && id.value in a.awaiting ==> status in {NeedsHelp, Active}
    ensures Inv(Report(a, id, status, now))
    ensures Report(a, id, status, now).awaiting == a.awaiting
  {
  }

  lemma AskInv(a: Agent, id: Option<string>, now: int)
    requires Inv(a)
    ensures Inv(Report(Await(a, id), id, NeedsHelp, now))
  {
  }

  lemma AnswerInv(a: Agent, id: Option<string>)
    requires Inv(a)
    ensures Inv(Answer(a, id)) && (Truthy(id) ==> id.value !in Answer(a, id).awaiting)
  {
  }

  lemma ReportIdleInv(env: Env, a: Agent, id: Option<string>, now: int, reply: Option<Description>)
    requires Inv(a)
    ensures Inv(ReportIdle(env, a, id, now, reply))
    ensures ReportIdle(env, a, id, now, reply).awaiting == a.awaiting
  {
    if Truthy(id) {
      if id.value in a.awaiting {
        ReportInv(a, id, NeedsHelp, now);
      } else {
        var b := EnsureParent(env, a, id.value, reply);
        EnsureParentSame(env, a, id.value, reply);
        LearningKeepsInv(a, b);
        ReportInv(b, id, if IsSubagent(Known(b, id.value)) then Done else Inactive, now);
      }
    }
  }

  lemma PerformInv(env: Env, a: Agent, action: Action, now: int, reply: Option<Description>)
    requires Inv(a) && (action.Becomes? ==> action.status in {NeedsHelp, Active})
    ensures Inv(Perform(env, a, action, now, reply))
  {
    match action
    case Learn(d) =>
      RememberSame(env, a, d);
      LearningKeepsInv(a, Remember(env, a, d));
    case Rename(id, title) =>
      if Truthy(id) {
        PutSame(a, id.value, Known(a, id.value).(name := title));
        LearningKeepsInv(a, Perform(env, a, action, now, reply));
      }
    case Forget(learned, id) =>
      var b := if learned.Some? then Remember(env, a, learned.value) else a;
      if learned.Some? {
        RememberSame(env, a, learned.value);
        LearningKeepsInv(a, b);
      }
      AnswerInv(b, id);
      ReportInv(Answer(b, id), id, Done, now);
    case Becomes(id, status) =>
      ReportInv(a, id, status, now);
    case GoesIdle(id) => ReportIdleInv(env, a, id, now, reply);
    case Asks(id) => AskInv(a, id, now);
    case Answered(id) =>
      AnswerInv(a, id);
      ReportInv(Answer(a, id), id, Active, now);
    case Withdrawn(id) =>
      AnswerInv(a, id);
      ReportIdleInv(env, Answer(a, id), id, now, reply);
    case Ignored =>
  }

  lemma AfterInv(env: Env, a: Agent, s: Step)
    requires Inv(a)
    ensures Inv(After(env, a, s))
  {
    match s
    case Opencode(m, now, reply) => PerformInv(env, a, Decode(m), now, reply);
    case Tool(id, now) => ReportInv(a, id, Active, now);
    case Timer(id, _, reply) =>
      if id in a.pending {
        FlushSame(env, a, id, reply);
      }
    case Beat(_, replies) =>
      ResolveSame(env, a, a.order, replies);
      LearningKeepsInv(a, After(env, a, s));
  }

  lemma FlushSame(env: Env, a: Agent, id: string, reply: Option<Description>)
    requires Inv(a) && id in a.pending
    ensures Inv(Flushed(env, a, id, reply))
    ensures SameReports(a.(pending := a.pending - {id}), Flushed(env, a, id, reply))
  {
    var b := a.(pending := a.pending - {id});
    EnsureParentSame(env, b, id, reply);
    LearningKeepsInv(b, Flushed(env, a, id, reply));
  }

  /** In every reachable state each pending upsert carries its session's current
      status, and a session waiting on the user is `needs_help` or `active`. */
  lemma {:induction false} ReachableInv(env: Env, a: Agent, steps: seq<Step>)
    requires Inv(a)
    ensures Inv(RunAll(env, a, steps))
    decreases |steps|
  {
    if steps != [] {
      AfterInv(env, a, steps[0]);
      ReachableInv(env, After(env, a, steps[0]), steps[1..]);
    }
  }

  // ------------------------------------------------- waiting is never lost

  /** Steps that end a wait: the question is answered or withdrawn, or the
      session deleted. */
  predicate EndsWait(s: Step, id: string) {
    s.Opencode? && (Decode(s.m) in {Answered(Some(id)), Withdrawn(Some(id))} ||
                    (Decode(s.m).Forget? && Decode(s.m).id == Some(id)))
  }

  lemma KeepsWaiting(env: Env, a: Agent, s: Step, id: string)
    requires Inv(a) && id in a.awaiting && !EndsWait(s, id)
    ensures id in After(env, a, s).awaiting
  {
    match s
    case Opencode(m, now, reply) =>
      var action := Decode(m);
      match action {
        case Learn(d) => RememberSame(env, a, d);
        case Forget(learned, x) =>
          if learned.Some? {
            RememberSame(env, a, learned.value);
          }
        case GoesIdle(x) => ReportIdleInv(env, a, x, now, reply);
        case Withdrawn(x) =>
          AnswerInv(a, x);
          ReportIdleInv(env, Answer(a, x), x, now, reply);
        case _ =>
      }
    case Tool(_, _) =>
    case Timer(x, _, reply) =>
      if x in a.pending {
        FlushSame(env, a, x, reply);
      }
    case Beat(_, replies) => ResolveSame(env, a, a.order, replies);
  }

  /** Once the user has been asked something, no run of other events, tool calls,
      flushes and heartbeats makes the session look finished or idle until the
      question is answered, cancelled or the session deleted. */
  lemma {:induction false} WaitingNeverLost(env: Env, a: Agent, steps: seq<Step>, id: string)
    requires Inv(a) && id in a.awaiting
    requires forall s :: s in steps ==> !EndsWait(s, id)
    ensures var b := RunAll(env, a, steps);
      id in b.awaiting && StatusOf(b, id) in {Some(NeedsHelp), Some(Active)}
    decreases |steps|
  {
    if steps != [] {
      assert steps[0] in steps;
      AfterInv(env, a, steps[0]);
      KeepsWaiting(env, a, steps[0], id);
      forall s | s in steps[1..] ensures !EndsWait(s, id) {
        assert s in steps;
      }
      WaitingNeverLost(env, After(env, a, steps[0]), steps[1..], id);
    }
  }

  /** Steps that report activity on `id`: a tool call, or a status that is not idle. */
  predicate Activity(s: Step, id: string) {
    match s
    case Tool(x, _) => x == Some(id)
    case Opencode(m, _, _) => Decode(m) == Becomes(Some(id), Active)
    case _ => false
  }

  /** Steps that report on a waiting `id` that it needs help: one more question, going
      idle, or an error. */
  predicate Alarming(s: Step, id: string) {
    s.Opencode? && Decode(s.m) in {Asks(Some(id)), GoesIdle(Some(id)), Becomes(Some(id), NeedsHelp)}
  }

  /** Whether the last of the steps that report on `id` reports activity. */
  function Resumed(steps: seq<Step>, id: string, before: bool): bool
    decreases |steps|
  {
    if steps == [] then before
    else
      var now := if Activity(steps[0], id) then true else if Alarming(steps[0], id) then false else before;
      Resumed(steps[1..], id, now)
  }

  function WaitStatus(resumed: bool): Option<Status> {
    Some(if resumed then Active else NeedsHelp)
  }

  lemma IdleElsewhere(env: Env, a: Agent, id: string, now: int, reply: Option<Description>, x: string)
    requires Inv(a) && id != "" && id != x
    ensures StatusOf(ReportIdle(env, a, Some(id), now, reply), x) == StatusOf(a, x)
  {
    EnsureParentSame(env, a, id, reply);
    var b := EnsureParent(env, a, id, reply);
    assert StatusOf(b, x) == StatusOf(a, x);
  }

  lemma IdleStatus(env: Env, a: Agent, id: Option<string>, now: int, reply: Option<Description>, x: string)
    requires Inv(a)
    ensures !Truthy(id) || id.value != x ==> StatusOf(ReportIdle(env, a, id, now, reply), x) == StatusOf(a, x)
    ensures Truthy(id) && id.value == x && x in a.awaiting ==>
      StatusOf(ReportIdle(env, a, id, now, reply), x) == Some(NeedsHelp)
  {
    if Truthy(id) && id.value != x {
      IdleElsewhere(env, a, id.value, now, reply, x);
    }
  }

  /** One event during a wait: activity turns the session green, a question, an idle
      event or an error red, and nothing else changes its colour. */
  lemma WaitEvent(env: Env, a: Agent, action: Action, now: int, reply: Option<Description>, id: string)
    requires Inv(a) && id in a.awaiting && id != ""
    requires action !in {Answered(Some(id)), Withdrawn(Some(id))} && !(action.Forget? && action.id == Some(id))
    ensures StatusOf(Perform(env, a, action, now, reply), id) ==
      if action == Becomes(Some(id), Active) then Some(Active)
      else if action in {Asks(Some(id)), GoesIdle(Some(id)), Becomes(Some(id), NeedsHelp)} then Some(NeedsHelp)
      else if action.Becomes? && action.id == Some(id) then Some(action.status)
      else StatusOf(a, id)
  {
    match action {
      case Learn(d) => RememberSame(env, a, d);
      case Forget(learned, x) =>
        if learned.Some? {
          RememberSame(env, a, learned.value);
        }
      case GoesIdle(x) => IdleStatus(env, a, x, now, reply, id);
      case Withdrawn(x) =>
        AnswerInv(a, x);
        IdleStatus(env, Answer(a, x), x, now, reply, id);
      case _ =>
    }
  }

  /** Events set no status outright but working and needing help. */
  lemma DecodedStatus(m: Message)
    ensures Decode(m).Becomes? ==> Decode(m).status in {Active, NeedsHelp}
  {
  }

  /** One step during a wait: tool calls count as activity, timers and heartbeats leave
      its colour alone. */
  lemma WaitStep(env: Env, a: Agent, s: Step, id: string)
    requires Inv(a) && id in a.awaiting && id != "" && !EndsWait(s, id)
    ensures StatusOf(After(env, a, s), id) ==
      if Activity(s, id) then Some(Active) else if Alarming(s, id) then Some(NeedsHelp) else StatusOf(a, id)
  {
    match s
    case Opencode(m, now, reply) =>
      DecodedStatus(m);
      WaitEvent(env, a, Decode(m), now, reply, id);
    case Tool(_, _) =>
    case Timer(x, _, reply) =>
      if x in a.pending {
        FlushSame(env, a, x, reply);
      }
    case Beat(_, replies) => ResolveSame(env, a, a.order, replies);
  }

  /** The colour of a wait over a run: red exactly while no activity was reported since
      the last question, idle event or error. */
  lemma {:induction false} WaitingColour(env: Env, a: Agent, steps: seq<Step>, id: string, resumed: bool)
    requires Inv(a) && id in a.awaiting && id != "" && StatusOf(a, id) == WaitStatus(resumed)
    requires forall s :: s in steps ==> !EndsWait(s, id)
    ensures var b := RunAll(env, a, steps);
      id in b.awaiting && StatusOf(b, id) == WaitStatus(Resumed(steps, id, resumed))
    decreases |steps|
  {
    if steps != [] {
      assert steps[0] in steps;
      AfterInv(env, a, steps[0]);
      KeepsWaiting(env, a, steps[0], id);
      WaitStep(env, a, steps[0], id);
      forall s | s in steps[1..] ensures !EndsWait(s, id) {
        assert s in steps;
      }
      var next := if Activity(steps[0], id) then true else if Alarming(steps[0], id) then false else resumed;
      WaitingColour(env, After(env, a, steps[0]), steps[1..], id, next);
    }
  }

  lemma {:induction false} RunAppend(env: Env, a: Agent, first: seq<Step>, second: seq<Step>)
    ensures RunAll(env, a, first + second) == RunAll(env, RunAll(env, a, first), second)
    decreases |first|
  {
    if first == [] {
      assert first + second == second;
    } else {
      assert (first + second)[0] == first[0] && (first + second)[1..] == first[1..] + second;
      RunAppend(env, After(env, a, first[0]), first[1..], second);
    }
  }

  /** A session whose user was asked, and has not answered: it is red if and only if
      the last report on it since is not activity. */
  lemma AskedColour(env: Env, before: seq<Step>, ask: Step, since: seq<Step>, id: string)
    requires ask.Opencode? && Decode(ask.m) == Asks(Some(id)) && id != ""
    requires forall s :: s in since ==> !EndsWait(s, id)
    ensures var b := RunAll(env, FRESH, before + ([ask] + since));
      id in b.awaiting && StatusOf(b, id) == WaitStatus(Resumed(since, id, false))
  {
    var a := RunAll(env, FRESH, before);
    RunAppend(env, FRESH, before, [ask] + since);
    ReachableInv(env, FRESH, before);
    AfterInv(env, a, ask);
    assert ([ask] + since)[1..] == since;
    WaitingColour(env, After(env, a, ask), since, id, false);
  }

  /** So a tool call after a question leaves the user asked and the light green. */
  lemma ToolHidesQuestion(env: Env, ask: Step, tool: Step, id: string)
    requires ask.Opencode? && Decode(ask.m) == Asks(Some(id)) && id != "" && tool.Tool? && tool.session == Some(id)
    ensures var b := RunAll(env, FRESH, [ask, tool]); id in b.awaiting && StatusOf(b, id) == Some(Active)
  {
    AskedColour(env, [], ask, [tool], id);
    assert [] + ([ask] + [tool]) == [ask, tool] && [tool][1..] == [];
  }

  const ASKING := {"permission.asked", "permission.updated", "form.created", "question.asked", "question.v2.asked"}
  const ANSWERING := {"permission.replied", "form.replied", "question.replied", "question.v2.replied"}
  const WITHDRAWING := {"form.cancelled", "question.rejected", "question.v2.rejected"}
  const QUESTIONS := {"question.asked", "question.v2.asked", "question.replied", "question.v2.replied",
    "question.rejected", "question.v2.rejected"}

  /** The session a prompt event is about: question events may carry it under their
      question, form or info, a created form under its form. */
  function Subject(m: Message): Option<string> {
    if m.kind in QUESTIONS then NestedId(m)
    else if m.kind == "form.created" then Or(m.sessionID, m.form)
    else m.sessionID
  }

  lemma PromptKind(m: Message)
    requires m.kind in ASKING || m.kind in ANSWERING || m.kind in WITHDRAWING
    ensures Decode(m) == DecodePrompt(m)
  {
    assert m.kind[0] != 's';
    NotSessionKind(m);
  }

  /** The names of all session events start with an s. */
  lemma NotSessionKind(m: Message)
    requires m.kind != "" && m.kind[0] != 's'
    ensures Decode(m) == DecodePrompt(m)
  {
  }

  lemma DecodeAsking(m: Message)
    requires m.kind in ASKING
    ensures Decode(m) == Asks(Subject(m))
  {
    PromptKind(m);
    AskingKind(m);
  }

  lemma AskingKind(m: Message)
    requires m.kind in ASKING
    ensures DecodePrompt(m) == Asks(Subject(m))
  {
  }

  lemma DecodeAnswering(m: Message)
    requires m.kind in ANSWERING
    ensures Decode(m) == Answered(Subject(m))
  {
    PromptKind(m);
    AnsweringKind(m);
  }

  lemma AnsweringKind(m: Message)
    requires m.kind in ANSWERING
    ensures DecodePrompt(m) == Answered(Subject(m))
  {
  }

  lemma DecodeWithdrawing(m: Message)
    requires m.kind in WITHDRAWING
    ensures Decode(m) == Withdrawn(Subject(m))
  {
    PromptKind(m);
    WithdrawingKind(m);
  }

  lemma WithdrawingKind(m: Message)
    requires m.kind in WITHDRAWING
    ensures DecodePrompt(m) == Withdrawn(Subject(m))
  {
  }

  lemma DecodeIdle(m: Message)
    requires IdleEvent(m)
    ensures Decode(m) == GoesIdle(m.sessionID)
  {
  }

  /** The status of a session that stopped working: a subagent is done, a main session
      paused. */
  predicate Stopped(a: Agent, id: string) {
    StatusOf(a, id) == Some(if IsSubagent(Known(a, id)) then Done else Inactive)
  }

  lemma IdleMeans(env: Env, a: Agent, id: string, now: int, reply: Option<Description>)
    requires Inv(a) && id != "" && id !in a.awaiting
    ensures var b := ReportIdle(env, a, Some(id), now, reply);
      Stopped(b, id) && id !in b.awaiting && id in b.pending
  {
    EnsureParentSame(env, a, id, reply);
  }

  lemma WithdrawnMeans(env: Env, a: Agent, id: string, now: int, reply: Option<Description>)
    requires Inv(a) && id != ""
    ensures var b := Perform(env, a, Withdrawn(Some(id)), now, reply);
      Stopped(b, id) && id !in b.awaiting && id in b.pending
  {
    AnswerInv(a, Some(id));
    IdleMeans(env, Answer(a, Some(id)), id, now, reply);
  }

  /** What the user's prompts mean: a question turns the session red and starts a
      wait, an answer turns it green and ends the wait, a withdrawn one ends the wait
      and the work; each is reported to the hub. */
  lemma PromptMeaning(env: Env, a: Agent, m: Message, now: int, reply: Option<Description>)
    requires Inv(a) && Truthy(Subject(m))
    ensures var b, id := Handle(env, a, m, now, reply), Subject(m).value;
      && (m.kind in ASKING ==> StatusOf(b, id) == Some(NeedsHelp) && id in b.awaiting && id in b.pending)
      && (m.kind in ANSWERING ==> StatusOf(b, id) == Some(Active) && id !in b.awaiting && id in b.pending)
      && (m.kind in WITHDRAWING ==> Stopped(b, id) && id !in b.awaiting && id in b.pending)
  {
    if m.kind in ASKING {
      DecodeAsking(m);
    }
    if m.kind in ANSWERING {
      DecodeAnswering(m);
    }
    if m.kind in WITHDRAWING {
      DecodeWithdrawing(m);
      WithdrawnMeans(env, a, Subject(m).value, now, reply);
    }
  }

  /** The events that say a session stopped working. */
  predicate IdleEvent(m: Message) {
    m.kind in {"session.idle", "session.execution.succeeded", "session.execution.interrupted"} ||
    (m.kind == "session.status" && m.statusType == Some("idle"))
  }

  /** Going idle while waiting turns (or keeps) the session red; otherwise a subagent
      is done and a main session paused. */
  lemma IdleWhileWaiting(env: Env, a: Agent, m: Message, now: int, reply: Option<Description>)
    requires Inv(a) && IdleEvent(m) && Truthy(m.sessionID)
    ensures var b, id := Handle(env, a, m, now, reply), m.sessionID.value;
      if id in a.awaiting then StatusOf(b, id) == Some(NeedsHelp) && id in b.awaiting else Stopped(b, id)
  {
    DecodeIdle(m);
    if m.sessionID.value !in a.awaiting {
      IdleMeans(env, a, m.sessionID.value, now, reply);
    }
  }

  // --------------------------------------------------------- what is learned

  /** A description changes only the session it is about. There it keeps the name unless
      it has a title that is not blank, and the path unless it has one; a name or path
      once known is never lost, nor is a known parent. */
  lemma RememberKeeps(env: Env, a: Agent, d: Description, id: string)
    ensures var was, now := Known(a, id), Known(PluginModel.Remember(env, a, d), id);
      && (Or(d.sessionID, d.id) != Some(id) ==> now == was)
      && (Truthy(was.name) ==> Truthy(now.name) && (now.name == was.name || now.name == d.title))
      && (d.title.None? || Trim(env.lib, d.title.value) == "" ==> OrNull(now.name) == OrNull(was.name))
      && (Truthy(was.projectPath) ==> Truthy(now.projectPath))
      && (!Truthy(d.location) && !Truthy(d.directory) ==> OrNull(now.projectPath) == OrNull(was.projectPath))
      && (d.parent == Unknown && IsSubagent(was) ==> now.parent == was.parent)
      && now.status == was.status && now.updatedAt == was.updatedAt
  {
  }

  // ----------------------------------------------------------- what is sent

  /** The statuses a heartbeat at `now` carries. */
  function Carried(env: Env, a: Agent, now: int): map<string, Status> {
    map id | id in Listed(a) :: EventFor(env, a, now)(id).status
  }

  /** The last status sent to the hub, per session: by the upsert of a timer, or by a
      heartbeat for every session it lists. */
  function Sent(env: Env, a: Agent, log: map<string, Status>, s: Step): map<string, Status> {
    match s
    case Timer(id, now, reply) =>
      var e := FlushEvent(env, a, id, now, reply);
      if e.Some? then log[id := e.value.status] else log
    case Beat(now, _) => log + Carried(env, After(env, a, s), now)
    case _ => log
  }

  function SentOver(env: Env, a: Agent, log: map<string, Status>, steps: seq<Step>): map<string, Status>
    decreases |steps|
  {
    if steps == [] then log else SentOver(env, After(env, a, steps[0]), Sent(env, a, log, steps[0]), steps[1..])
  }

  /** Every reported session either waits in the coalescing window or was last
      sent with its current status. */
  ghost predicate Accounted(a: Agent, log: map<string, Status>) {
    forall id :: StatusOf(a, id).Some? ==>
      id in a.pending || (id in log && Some(log[id]) == StatusOf(a, id))
  }

  lemma SameAccounted(a: Agent, b: Agent, log: map<string, Status>)
    requires SameReports(a, b) && Accounted(a, log)
    ensures Accounted(b, log)
  {
    forall id | StatusOf(b, id).Some? ensures id in b.pending || (id in log && Some(log[id]) == StatusOf(b, id)) {
      assert StatusOf(b, id) == StatusOf(a, id);
    }
  }

  lemma IdleAccounted(env: Env, a: Agent, log: map<string, Status>, id: Option<string>, now: int,
                      reply: Option<Description>)
    requires Inv(a) && Accounted(a, log)
    ensures Accounted(ReportIdle(env, a, id, now, reply), log)
  {
    if Truthy(id) {
      EnsureParentSame(env, a, id.value, reply);
      SameAccounted(a, EnsureParent(env, a, id.value, reply), log);
    }
  }

  lemma PerformAccounted(env: Env, a: Agent, log: map<string, Status>, action: Action, now: int,
                         reply: Option<Description>)
    requires Inv(a) && Accounted(a, log)
    ensures Accounted(Perform(env, a, action, now, reply), log)
  {
    match action
    case Learn(d) =>
      RememberSame(env, a, d);
      SameAccounted(a, Remember(env, a, d), log);
    case Rename(id, title) =>
      if Truthy(id) {
        PutSame(a, id.value, Known(a, id.value).(name := title));
        SameAccounted(a, Perform(env, a, action, now, reply), log);
      }
    case Forget(learned, id) =>
      if learned.Some? {
        RememberSame(env, a, learned.value);
        SameAccounted(a, Remember(env, a, learned.value), log);
      }
    case GoesIdle(id) => IdleAccounted(env, a, log, id, now, reply);
    case Withdrawn(id) =>
      AnswerInv(a, id);
      IdleAccounted(env, Answer(a, id), log, id, now, reply);
    case _ =>
  }

  lemma AccountedAfter(env: Env, a: Agent, log: map<string, Status>, s: Step)
    requires Inv(a) && Accounted(a, log)
    ensures Accounted(After(env, a, s), Sent(env, a, log, s))
  {
    match s
    case Opencode(m, now, reply) => PerformAccounted(env, a, log, Decode(m), now, reply);
    case Tool(_, _) =>
    case Timer(id, now, reply) =>
      if id in a.pending {
        FlushSame(env, a, id, reply);
        SameAccounted(a.(pending := a.pending - {id}), Flushed(env, a, id, reply), log[id := a.pending[id]]);
      }
    case Beat(now, replies) =>
      ResolveSame(env, a, a.order, replies);
      SameAccounted(a, After(env, a, s), log);
      CarriedAccounted(env, After(env, a, s), log, now);
  }

  /** What a heartbeat carries is current, so it only adds to what is accounted for. */
  lemma CarriedAccounted(env: Env, a: Agent, log: map<string, Status>, now: int)
    requires Accounted(a, log)
    ensures Accounted(a, log + Carried(env, a, now))
  {
  }

  /** At quiescence, when nothing is pending, the last status sent for every
      session ever reported is its current one. */
  lemma {:induction false} QuiescentHubIsCurrent(env: Env, a: Agent, log: map<string, Status>, steps: seq<Step>)
    requires Inv(a) && Accounted(a, log)
    ensures var b, sent := RunAll(env, a, steps), SentOver(env, a, log, steps);
      && Accounted(b, sent)
      && (b.pending == map[] ==> forall id :: StatusOf(b, id).Some? ==> id in sent && Some(sent[id]) == StatusOf(b, id))
    decreases |steps|
  {
    if steps != [] {
      AfterInv(env, a, steps[0]);
      AccountedAfter(env, a, log, steps[0]);
      QuiescentHubIsCurrent(env, After(env, a, steps[0]), Sent(env, a, log, steps[0]), steps[1..]);
    }
  }

  // ------------------------------------------------------ heartbeat contents

  lemma NewestOrder(a: Agent)
    ensures TotalPreorder(NewestFirst(a))
  {
  }

  /** A done session the heartbeat leaves out. */
  predicate Dropped(a: Agent, id: string) {
    id in a.info && IsDone(a)(id) && id !in Listed(a)
  }

  function Min(a: nat, b: nat): nat { if a <= b then a else b }

  function TopDone(a: Agent): seq<string> {
    Take(Sort(Filter(a.order, IsDone(a)), NewestFirst(a)), MAX_DONE_SESSIONS)
  }

  lemma TopDoneFacts(a: Agent)
    requires Inv(a)
    ensures NoDup(TopDone(a)) && |TopDone(a)| == Min(MAX_DONE_SESSIONS, Count(a.order, IsDone(a)))
    ensures forall id :: id in TopDone(a) ==> id in a.info && IsDone(a)(id)
    ensures forall x, y :: x in TopDone(a) && y in a.info && IsDone(a)(y) && y !in TopDone(a) ==> NewestFirst(a)(x, y)
  {
    var done := Filter(a.order, IsDone(a));
    var sorted := Sort(done, NewestFirst(a));
    var top := TopDone(a);
    NewestOrder(a);
    SortSorted(done, NewestFirst(a));
    SortElements(done, NewestFirst(a));
    FilterNoDup(a.order, IsDone(a));
    SortNoDup(done, NewestFirst(a));
    assert top <= sorted;
    forall x, y | x in top && y in a.info && IsDone(a)(y) && y !in top ensures NewestFirst(a)(x, y) {
      assert y in sorted;
      BeforeDropped(sorted, top, NewestFirst(a), x, y);
    }
  }

  lemma BeforeDropped(sorted: seq<string>, top: seq<string>, le: (string, string) -> bool, x: string, y: string)
    requires Sorted(sorted, le) && top <= sorted && x in top && y in sorted && y !in top
    ensures le(x, y)
  {
    var i :| 0 <= i < |top| && top[i] == x;
    var j :| 0 <= j < |sorted| && sorted[j] == y;
    assert i < j;
  }

  /** A heartbeat lists every session that is not done, in the order it was first
      seen, then the newest five of the others: each at most once, and no unlisted
      done session is newer than a listed one. */
  lemma HeartbeatContents(a: Agent)
    requires Inv(a)
    ensures NoDup(Listed(a)) && forall id :: id in Listed(a) ==> id in a.info
    ensures forall id :: id in a.info && IsLive(a)(id) ==> id in Listed(a)
    ensures Filter(Listed(a), IsLive(a)) == Filter(a.order, IsLive(a))
    ensures Count(Listed(a), IsDone(a)) == Min(MAX_DONE_SESSIONS, Count(a.order, IsDone(a)))
    ensures forall x, y :: x in Listed(a) && IsDone(a)(x) && Dropped(a, y) ==> NewestFirst(a)(x, y)
  {
    var live, top := Filter(a.order, IsLive(a)), TopDone(a);
    TopDoneFacts(a);
    FilterNoDup(a.order, IsLive(a));
    FilterAppend(live, top, IsLive(a));
    FilterAppend(live, top, IsDone(a));
    FilterAll(live, IsLive(a));
    FilterAll(top, IsDone(a));
    FilterNone(top, IsLive(a));
    FilterNone(live, IsDone(a));
    assert live + [] == live && [] + top == top;
    DisjointNoDup(live, top);
  }

  lemma DisjointNoDup<T>(xs: seq<T>, ys: seq<T>)
    requires NoDup(xs) && NoDup(ys) && forall x :: x in xs ==> x !in ys
    ensures NoDup(xs + ys)
  {
    forall i, j | 0 <= i < j < |xs + ys| ensures (xs + ys)[i] != (xs + ys)[j] {
      if i < |xs| <= j {
        assert xs[i] in xs && ys[j - |xs|] in ys;
      }
    }
  }
}
