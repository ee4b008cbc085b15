/** What each opencode event does, by its name: the meaning of every kind the plugin
    listens to, in any state, and what it tells the hub about a session. */
module PluginEvents {
  import opened Prelude
  import opened Text
  import opened Domain
  import opened PluginModel
  import opened PluginRuns

  /** The first text given that is not empty. */
  function FirstText(texts: seq<Option<string>>): Option<string> {
    if texts == [] then None
    else if texts[0].Some? && texts[0].value != "" then texts[0]
    else FirstText(texts[1..])
  }

  predicate Names(m: Message, id: string) {
    id != "" && m.sessionID == Some(id)
  }

  /** Every other session, and every other pending upsert, is as it was. */
  ghost predicate OthersSame(a: Agent, b: Agent, id: string) {
    forall x :: x != id ==>
      && (x in b.info <==> x in a.info) && (x in a.info ==> b.info[x] == a.info[x])
      && (x in b.pending <==> x in a.pending) && (x in a.pending ==> b.pending[x] == a.pending[x])
  }

  /** `id` has this status since `now`, and an upsert saying so is pending. */
  predicate Says(b: Agent, id: string, status: Status, now: int) {
    && id in b.info && b.info[id].status == Some(status) && b.info[id].updatedAt == Some(now)
    && id in b.pending && b.pending[id] == status
  }

  /** From `a` to `b` only the status of `id` was reported: what is known about it
      otherwise stays, a new session goes last, and these sessions wait. */
  ghost predicate OnlySays(a: Agent, b: Agent, id: string, status: Status, now: int, waiting: set<string>) {
    && Says(b, id, status, now) && OthersSame(a, b, id) && b.awaiting == waiting
    && (id in a.info ==>
          b.order == a.order && b.info[id] == a.info[id].(status := Some(status), updatedAt := Some(now)))
    && (id !in a.info ==> b.order == a.order + [id] && b.info[id] == Info(None, None, Unknown, Some(status), Some(now)))
  }

  /** Nothing about a status, a pending upsert or a wait differs. */
  ghost predicate SaysNothing(a: Agent, b: Agent) {
    && b.pending == a.pending && b.awaiting == a.awaiting
    && (forall x :: StatusOf(b, x) == StatusOf(a, x) && Known(b, x).updatedAt == Known(a, x).updatedAt)
  }

  lemma ReportSays(a: Agent, id: string, status: Status, now: int)
    requires id != ""
    ensures OnlySays(a, Report(a, Some(id), status, now), id, status, now, a.awaiting)
  {
  }

  // ------------------------------------------------------- errors and activity

  /** A failed run or an error says that the session needs its user's help. */
  lemma ErrorMeaning(env: Env, a: Agent, m: Message, now: int, reply: Option<Description>, id: string)
    requires m.kind == "session.error" || m.kind == "session.execution.failed"
    requires Names(m, id)
    ensures OnlySays(a, Handle(env, a, m, now, reply), id, NeedsHelp, now, a.awaiting)
  {
    ReportSays(a, id, NeedsHelp, now);
    assert Handle(env, a, m, now, reply) == Report(a, Some(id), NeedsHelp, now);
  }

  /** A run that starts, and every status but `idle`, says that it works. */
  lemma ActivityMeaning(env: Env, a: Agent, m: Message, now: int, reply: Option<Description>, id: string)
    requires m.kind == "session.execution.started" || (m.kind == "session.status" && m.statusType != Some("idle"))
    requires Names(m, id)
    ensures OnlySays(a, Handle(env, a, m, now, reply), id, Active, now, a.awaiting)
  {
    ReportSays(a, id, Active, now);
    assert Handle(env, a, m, now, reply) == Report(a, Some(id), Active, now);
  }

  /** So does a tool call. */
  lemma ToolMeaning(env: Env, a: Agent, now: int, id: string)
    requires id != ""
    ensures OnlySays(a, After(env, a, Tool(Some(id), now)), id, Active, now, a.awaiting)
  {
    ReportSays(a, id, Active, now);
  }

  // ---------------------------------------------------------- going idle

  /** The parent of a session that goes idle: the one known, or else the one
      `session.get` answers for this session, or else none. */
  function ParentThen(a: Agent, id: string, reply: Option<Description>): Parent {
    if id in a.info && a.info[id].parent != Unknown then a.info[id].parent
    else if reply.Some? && FirstText([reply.value.id, Some(id)]) == Some(id) && reply.value.parent != Unknown then
      reply.value.parent
    else NoParent
  }

  predicate HasParent(p: Parent) {
    p.Parent? && p.id != ""
  }

  /** What asking for the parent of `id` leaves: its parent known, and no status,
      pending upsert or wait different. */
  lemma ParentAsked(env: Env, a: Agent, id: string, reply: Option<Description>)
    requires Inv(a) && id != ""
    ensures var b := EnsureParent(env, a, id, reply);
      && SaysNothing(a, b) && Known(b, id).parent == ParentThen(a, id, reply)
      && (id in a.info && a.info[id].parent != Unknown ==> b == a)
  {
    EnsureParentSame(env, a, id, reply);
    if reply.Some? {
      FirstOfTwo(reply.value.id, Some(id));
    }
  }

  /** A session that stops working while its user is asked needs help; otherwise a
      subagent is done and a main session is paused. */
  lemma IdleMeaning(env: Env, a: Agent, m: Message, now: int, reply: Option<Description>, id: string)
    requires Inv(a) && Names(m, id)
    requires m.kind in {"session.idle", "session.execution.succeeded", "session.execution.interrupted"} ||
             (m.kind == "session.status" && m.statusType == Some("idle"))
    ensures var b := Handle(env, a, m, now, reply);
      && (id in a.awaiting ==> OnlySays(a, b, id, NeedsHelp, now, a.awaiting))
      && (id !in a.awaiting ==>
            Says(b, id, if HasParent(ParentThen(a, id, reply)) then Done else Inactive, now) &&
            b.awaiting == a.awaiting && OtherStatusesSame(a, b, id))
  {
    DecodeIdle(m);
    IdleSays(env, a, id, now, reply);
  }

  ghost predicate OtherStatusesSame(a: Agent, b: Agent, id: string) {
    && (forall x :: x != id ==> StatusOf(b, x) == StatusOf(a, x) && Known(b, x).updatedAt == Known(a, x).updatedAt)
    && (forall x :: x != id ==> (x in b.pending <==> x in a.pending))
    && (forall x :: x != id && x in a.pending ==> b.pending[x] == a.pending[x])
  }

  lemma IdleSays(env: Env, a: Agent, id: string, now: int, reply: Option<Description>)
    requires Inv(a) && id != ""
    ensures var b := ReportIdle(env, a, Some(id), now, reply);
      && (id in a.awaiting ==> OnlySays(a, b, id, NeedsHelp, now, a.awaiting))
      && (id !in a.awaiting ==>
            Says(b, id, if HasParent(ParentThen(a, id, reply)) then Done else Inactive, now) &&
            b.awaiting == a.awaiting && OtherStatusesSame(a, b, id))
  {
    if id in a.awaiting {
      ReportSays(a, id, NeedsHelp, now);
    } else {
      ParentAsked(env, a, id, reply);
      var b := EnsureParent(env, a, id, reply);
      var status := if HasParent(ParentThen(a, id, reply)) then Done else Inactive;
      ReportSays(b, id, status, now);
      SaysOthers(a, b, Report(b, Some(id), status, now), id, status, now);
    }
  }

  lemma SaysOthers(a: Agent, b: Agent, c: Agent, id: string, status: Status, now: int)
    requires SaysNothing(a, b) && OnlySays(b, c, id, status, now, b.awaiting)
    ensures Says(c, id, status, now) && c.awaiting == a.awaiting && OtherStatusesSame(a, c, id)
  {
    forall x | x != id ensures StatusOf(c, x) == StatusOf(a, x) && Known(c, x).updatedAt == Known(a, x).updatedAt {
      assert StatusOf(b, x) == StatusOf(a, x) && Known(b, x).updatedAt == Known(a, x).updatedAt;
    }
  }

  // ------------------------------------------------------------- the questions

  /** The session a question, permission or form event is about. */
  function About(m: Message): Option<string> {
    if m.kind in {"question.asked", "question.v2.asked", "question.replied", "question.v2.replied",
                  "question.rejected", "question.v2.rejected"} then
      FirstText([m.sessionID, m.question, m.form, if m.info.Some? then m.info.value.sessionID else None])
    else if m.kind == "form.created" then FirstText([m.sessionID, m.form])
    else FirstText([m.sessionID])
  }

  lemma AboutSubject(m: Message)
    requires m.kind in ASKING || m.kind in ANSWERING || m.kind in WITHDRAWING
    ensures About(m).Some? <==> Truthy(Subject(m))
    ensures About(m).Some? ==> About(m) == Subject(m)
  {
    if m.kind in QUESTIONS {
      FirstOfFour(m);
    } else if m.kind == "form.created" {
      FirstOfTwo(m.sessionID, m.form);
    } else {
      FirstOfOne(m.sessionID);
    }
  }

  lemma FirstOfOne(a: Option<string>)
    ensures FirstText([a]) == if Truthy(a) then a else None
  {
    assert [a][1..] == [];
  }

  lemma FirstOfTwo(a: Option<string>, b: Option<string>)
    ensures FirstText([a, b]) == if Truthy(Or(a, b)) then Or(a, b) else None
  {
    FirstOfOne(b);
    assert [a, b][1..] == [b];
  }

  lemma FirstOfFour(m: Message)
    ensures FirstText([m.sessionID, m.question, m.form, if m.info.Some? then m.info.value.sessionID else None]) ==
            if Truthy(NestedId(m)) then NestedId(m) else None
  {
    var a, b, c, d := m.sessionID, m.question, m.form, if m.info.Some? then m.info.value.sessionID else None;
    FirstOfTwo(c, d);
    assert [b, c, d][1..] == [c, d];
    assert [a, b, c, d][1..] == [b, c, d];
  }

  /** A question turns the session red and makes it wait. */
  lemma AskMeaning(env: Env, a: Agent, m: Message, now: int, reply: Option<Description>, id: string)
    requires m.kind in {"permission.asked", "permission.updated", "form.created", "question.asked", "question.v2.asked"}
    requires About(m) == Some(id)
    ensures OnlySays(a, Handle(env, a, m, now, reply), id, NeedsHelp, now, a.awaiting + {id})
  {
    AboutSubject(m);
    DecodeAsking(m);
    ReportSays(a.(awaiting := a.awaiting + {id}), id, NeedsHelp, now);
  }

  /** An answer turns it green and ends the wait. */
  lemma AnswerMeaning(env: Env, a: Agent, m: Message, now: int, reply: Option<Description>, id: string)
    requires m.kind in {"permission.replied", "form.replied", "question.replied", "question.v2.replied"}
    requires About(m) == Some(id)
    ensures OnlySays(a, Handle(env, a, m, now, reply), id, Active, now, a.awaiting - {id})
  {
    AboutSubject(m);
    DecodeAnswering(m);
    ReportSays(a.(awaiting := a.awaiting - {id}), id, Active, now);
  }

  /** A withdrawn question ends the wait and the work. */
  lemma WithdrawalMeaning(env: Env, a: Agent, m: Message, now: int, reply: Option<Description>, id: string)
    requires Inv(a) && m.kind in {"form.cancelled", "question.rejected", "question.v2.rejected"}
    requires About(m) == Some(id)
    ensures var b := Handle(env, a, m, now, reply);
      && Says(b, id, if HasParent(ParentThen(a, id, reply)) then Done else Inactive, now)
      && b.awaiting == a.awaiting - {id} && OtherStatusesSame(a, b, id)
  {
    AboutSubject(m);
    DecodeWithdrawing(m);
    assert Handle(env, a, m, now, reply) == ReportIdle(env, Answer(a, Some(id)), Some(id), now, reply);
    WithdrawnSays(env, a, id, now, reply);
  }

  lemma WithdrawnSays(env: Env, a: Agent, id: string, now: int, reply: Option<Description>)
    requires Inv(a) && id != ""
    ensures var b := ReportIdle(env, Answer(a, Some(id)), Some(id), now, reply);
      && Says(b, id, if HasParent(ParentThen(a, id, reply)) then Done else Inactive, now)
      && b.awaiting == a.awaiting - {id} && OtherStatusesSame(a, b, id)
  {
    var c := Answer(a, Some(id));
    AnswerInv(a, Some(id));
    IdleSays(env, c, id, now, reply);
    OthersFrom(a, c, ReportIdle(env, c, Some(id), now, reply), id);
  }

  lemma OthersFrom(a: Agent, c: Agent, b: Agent, id: string)
    requires c.info == a.info && c.pending == a.pending && OtherStatusesSame(c, b, id)
    ensures OtherStatusesSame(a, b, id)
  {
    forall x ensures StatusOf(c, x) == StatusOf(a, x) && Known(c, x).updatedAt == Known(a, x).updatedAt {
    }
  }

  // ------------------------------------------------- deletion, names, the rest

  /** A deleted session is done and waits no more, whether the event carries its id
      itself or only in its description. */
  lemma DeletionMeaning(env: Env, a: Agent, m: Message, now: int, reply: Option<Description>, id: string)
    requires Inv(a) && m.kind == "session.deleted"
    requires FirstText([m.sessionID, if m.info.Some? then m.info.value.id else None]) == Some(id)
    ensures var b := Handle(env, a, m, now, reply);
      && Says(b, id, Done, now) && b.awaiting == a.awaiting - {id} && OtherStatusesSame(a, b, id)
      && (Names(m, id) ==> OnlySays(a, b, id, Done, now, a.awaiting - {id}))
  {
    DecodeDeleted(m, id);
    if Names(m, id) {
      NamedSays(a, id, now);
    } else {
      DeletedSays(env, a, m.info.value, id, now);
    }
  }

  lemma DecodeDeleted(m: Message, id: string)
    requires m.kind == "session.deleted"
    requires FirstText([m.sessionID, if m.info.Some? then m.info.value.id else None]) == Some(id)
    ensures Names(m, id) || (m.info.Some? && m.info.value.id == Some(id))
    ensures id != "" && Decode(m) == Forget(if Names(m, id) then None else m.info, Some(id))
  {
    FirstOfTwo(m.sessionID, if m.info.Some? then m.info.value.id else None);
  }

  lemma NamedSays(a: Agent, id: string, now: int)
    requires id != ""
    ensures var b := Report(Answer(a, Some(id)), Some(id), Done, now);
      && Says(b, id, Done, now) && b.awaiting == a.awaiting - {id} && OtherStatusesSame(a, b, id)
      && OnlySays(a, b, id, Done, now, a.awaiting - {id})
  {
    ReportSays(a.(awaiting := a.awaiting - {id}), id, Done, now);
  }

  lemma DeletedSays(env: Env, a: Agent, d: Description, id: string, now: int)
    requires Inv(a) && id != ""
    ensures var b := Report(Answer(Remember(env, a, d), Some(id)), Some(id), Done, now);
      Says(b, id, Done, now) && b.awaiting == a.awaiting - {id} && OtherStatusesSame(a, b, id)
  {
    var b := Remember(env, a, d);
    RememberSame(env, a, d);
    var c, e := Answer(a, Some(id)), Answer(b, Some(id));
    ReportSays(e, id, Done, now);
    AnswerSame(a, b, id);
    SaysOthers(c, e, Report(e, Some(id), Done, now), id, Done, now);
    OthersFrom(a, c, Report(e, Some(id), Done, now), id);
  }

  lemma AnswerSame(a: Agent, b: Agent, id: string)
    requires SaysNothing(a, b) && id != ""
    ensures SaysNothing(Answer(a, Some(id)), Answer(b, Some(id)))
  {
    forall x ensures StatusOf(Answer(b, Some(id)), x) == StatusOf(Answer(a, Some(id)), x)
             ensures Known(Answer(b, Some(id)), x).updatedAt == Known(Answer(a, Some(id)), x).updatedAt
    {
      assert StatusOf(b, x) == StatusOf(a, x) && Known(b, x).updatedAt == Known(a, x).updatedAt;
    }
  }

  /** A rename with a title sets the name, even to none, and nothing else. */
  lemma RenameMeaning(env: Env, a: Agent, m: Message, now: int, reply: Option<Description>, id: string)
    requires m.kind == "session.renamed" && Names(m, id)
    ensures var b := Handle(env, a, m, now, reply);
      && OthersSame(a, b, id) && b.pending == a.pending && b.awaiting == a.awaiting
      && (m.title.None? ==> b == a)
      && (m.title.Some? && id in a.info ==> b.order == a.order && b.info[id] == a.info[id].(name := m.title.value))
      && (m.title.Some? && id !in a.info ==>
            b.order == a.order + [id] && b.info[id] == Info(m.title.value, None, Unknown, None, None))
  {
  }

  predicate Blank(lib: Library, text: Option<string>) {
    text.None? || forall c :: c in text.value ==> lib.isSpace(c)
  }

  /** What is known about a session once it has been described: its title if there is
      one that is not blank, else the name known before; where it works, taken from
      its location, else from its directory, else as known before; and its parent,
      none unless the description or what was known before names one. */
  predicate Describes(env: Env, d: Description, was: Info, now: Info) {
    && now.name == (if !Blank(env.lib, d.title) then d.title else FirstText([was.name]))
    && now.projectPath == FirstText([d.location, d.directory, was.projectPath])
    && now.parent == (if d.parent != Unknown then d.parent else if HasParent(was.parent) then was.parent else NoParent)
    && now.status == was.status && now.updatedAt == was.updatedAt
  }

  /** Created and updated sessions are described, by their info if the event has one;
      no status is reported. */
  lemma DescriptionMeaning(env: Env, a: Agent, m: Message, now: int, reply: Option<Description>)
    requires m.kind == "session.created" || m.kind == "session.updated"
    ensures var b, d := Handle(env, a, m, now, reply), if m.info.Some? then m.info.value else m.self;
      var id := FirstText([d.sessionID, d.id]);
      && (id.None? ==> b == a)
      && (id.Some? ==>
            && OthersSame(a, b, id.value) && b.pending == a.pending && b.awaiting == a.awaiting
            && b.order == (if id.value in a.info then a.order else a.order + [id.value])
            && id.value in b.info
            && Describes(env, d, if id.value in a.info then a.info[id.value] else BLANK, b.info[id.value]))
  {
    var d := if m.info.Some? then m.info.value else m.self;
    FirstOfTwo(d.sessionID, d.id);
    if Truthy(Or(d.sessionID, d.id)) {
      DescribesAs(env, a, Or(d.sessionID, d.id).value, d);
    }
  }

  lemma DescribesAs(env: Env, a: Agent, id: string, d: Description)
    requires id != ""
    ensures Describes(env, d, Known(a, id), Known(RememberAs(env, a, id, d), id))
  {
    var was := Known(a, id);
    FirstOfOne(was.name);
    FirstOfOne(was.projectPath);
    FirstOfTwo(d.directory, was.projectPath);
    assert [d.location, d.directory, was.projectPath][1..] == [d.directory, was.projectPath];
    if d.title.Some? {
      BlankTrims(env.lib, d.title.value);
    }
  }

  lemma BlankTrims(lib: Library, s: string)
    ensures Trim(lib, s) == "" <==> forall c :: c in s ==> lib.isSpace(c)
  {
    TrimStartBlank(lib, s);
    TrimEndBlank(lib, TrimStart(lib, s));
    TrimStartCharacter(lib, s);
    if TrimStart(lib, s) != "" {
      assert TrimStart(lib, s)[0] in TrimStart(lib, s);
    }
  }

  lemma {:induction false} TrimStartBlank(lib: Library, s: string)
    ensures TrimStart(lib, s) == "" <==> forall c :: c in s ==> lib.isSpace(c)
  {
    if s != "" {
      TrimStartBlank(lib, s[1..]);
      assert s == [s[0]] + s[1..];
    }
  }

  lemma {:induction false} TrimEndBlank(lib: Library, s: string)
    ensures TrimEnd(lib, s) == "" <==> forall c :: c in s ==> lib.isSpace(c)
  {
    if s != "" {
      TrimEndBlank(lib, s[..|s| - 1]);
      assert s == s[..|s| - 1] + [s[|s| - 1]];
    }
  }

  const LISTED := {
    "session.created", "session.updated", "session.renamed", "session.deleted", "session.status", "session.idle",
    "session.execution.started", "session.execution.failed", "session.execution.succeeded",
    "session.execution.interrupted", "session.error", "permission.asked", "permission.updated", "permission.replied",
    "form.created", "form.replied", "form.cancelled", "question.asked", "question.v2.asked", "question.replied",
    "question.v2.replied", "question.rejected", "question.v2.rejected"}

  /** Every other kind changes nothing. */
  lemma OtherKindsIgnored(env: Env, a: Agent, m: Message, now: int, reply: Option<Description>)
    requires m.kind !in LISTED
    ensures Handle(env, a, m, now, reply) == a
  {
  }

  /** Nor does any listed event that names no session, descriptions aside. */
  lemma NamelessIgnored(env: Env, a: Agent, m: Message, now: int, reply: Option<Description>)
    requires m.kind in LISTED && m.kind != "session.created" && m.kind != "session.updated"
    requires m.sessionID in {None, Some("")} && m.question in {None, Some("")} && m.form in {None, Some("")}
    requires m.info.Some? ==> m.info.value.sessionID in {None, Some("")} && m.info.value.id in {None, Some("")}
    ensures Handle(env, a, m, now, reply) == a
  {
    if m.kind in ASKING || m.kind in ANSWERING || m.kind in WITHDRAWING {
      NamelessPrompt(env, a, m, now, reply);
    } else {
      NamelessAction(m);
    }
  }

  lemma NamelessAction(m: Message)
    requires m.kind in LISTED && m.kind != "session.created" && m.kind != "session.updated"
    requires m.kind !in ASKING && m.kind !in ANSWERING && m.kind !in WITHDRAWING
    requires m.info.Some? ==> !Truthy(m.info.value.id)
    requires !Truthy(m.sessionID)
    ensures Decode(m) == Ignored ||
            ((Decode(m).Rename? || Decode(m).Becomes? || Decode(m).GoesIdle?) && Decode(m).id == m.sessionID)
  {
  }

  lemma NamelessPrompt(env: Env, a: Agent, m: Message, now: int, reply: Option<Description>)
    requires m.kind in ASKING || m.kind in ANSWERING || m.kind in WITHDRAWING
    requires !Truthy(Subject(m))
    ensures Handle(env, a, m, now, reply) == a
  {
    if m.kind in ASKING {
      DecodeAsking(m);
    } else if m.kind in ANSWERING {
      DecodeAnswering(m);
    } else {
      DecodeWithdrawing(m);
    }
  }

  // ------------------------------------------------------- what the hub is told

  /** What an event says of a session: its status, the name and the place known of it
      (the plugin's own directory if none is), when it was last touched, its link, who
      reports it and whether it has a parent. */
  predicate Tells(env: Env, known: Info, e: Event, status: Status, now: int) {
    && e.status == status
    && e.name == FirstText([known.name])
    && e.projectPath == FirstText([known.projectPath, env.directory])
    && e.lastUpdated == Some(env.lib.render(if known.updatedAt.Some? then known.updatedAt.value else now))
    && e.harness == Some("opencode") && e.producer == Some(env.producer)
    && e.url == env.sessionUrl(e.sessionId)
    && e.subagent == HasParent(known.parent)
  }

  lemma BuiltTells(env: Env, a: Agent, id: string, status: Status, now: int)
    ensures var e := BuildEvent(env, a, id, status, now); e.sessionId == id && Tells(env, Known(a, id), e, status, now)
  {
    FirstOfOne(Known(a, id).name);
    FirstOfTwo(Known(a, id).projectPath, env.directory);
  }

  /** A heartbeat tells of every session it lists what is known, a session that was
      never reported as paused. */
  lemma HeartbeatTells(env: Env, a: Agent, now: int, e: Event)
    requires Inv(a) && e in SnapshotEvents(env, a, now)
    ensures e.sessionId in a.info
    ensures var known := a.info[e.sessionId];
      Tells(env, known, e, if known.status.Some? then known.status.value else Inactive, now)
  {
    var i :| 0 <= i < |Listed(a)| && SnapshotEvents(env, a, now)[i] == e;
    var id := Listed(a)[i];
    HeartbeatContents(a);
    assert id in Listed(a) && e == EventFor(env, a, now)(id);
    BuiltTells(env, a, id, Known(a, id).status.GetOr(Inactive), now);
  }

  /** A timer's upsert tells the same of its session: its current status, and all that
      is known once its parent has been asked for. */
  lemma UpsertTells(env: Env, a: Agent, id: string, now: int, reply: Option<Description>)
    requires Inv(a) && id in a.pending && id != ""
    ensures FlushEvent(env, a, id, now, reply).Some? && id in a.info && a.info[id].status.Some?
    ensures var e, b := FlushEvent(env, a, id, now, reply).value, Flushed(env, a, id, reply);
      && e.sessionId == id && id in b.info && Tells(env, b.info[id], e, a.info[id].status.value, now)
      && b.pending == a.pending - {id} && b.awaiting == a.awaiting
      && b.info[id].updatedAt == a.info[id].updatedAt && b.info[id].parent == ParentThen(a, id, reply)
      && (a.info[id].parent != Unknown ==> b.info == a.info)
  {
    assert StatusOf(a, id) == Some(a.pending[id]);
    FlushSame(env, a, id, reply);
    ParentAskedAfter(env, a, a.(pending := a.pending - {id}), id, reply);
    BuiltTells(env, Flushed(env, a, id, reply), id, a.pending[id], now);
  }

  lemma ParentAskedAfter(env: Env, a: Agent, b: Agent, id: string, reply: Option<Description>)
    requires Inv(a) && id != "" && b == a.(pending := a.pending - {id})
    ensures Known(EnsureParent(env, b, id, reply), id).parent == ParentThen(a, id, reply)
    ensures id in a.info && a.info[id].parent != Unknown ==> EnsureParent(env, b, id, reply) == b
  {
    assert Inv(b);
    ParentAsked(env, b, id, reply);
  }

  predicate DoneAt(a: Agent, id: string) {
    id in a.info && a.info[id].status == Some(Done)
  }

  function Finished(a: Agent): string -> bool {
    id => DoneAt(a, id)
  }

  /** Of the done sessions a heartbeat lists five, or all if there are fewer, and none it
      leaves out was touched later than one it lists. */
  lemma NewestFive(a: Agent)
    requires Inv(a)
    ensures var n := Count(a.order, Finished(a)); Count(Listed(a), Finished(a)) == if n < 5 then n else 5
    ensures forall x, y :: x in Listed(a) && DoneAt(a, x) && DoneAt(a, y) && y !in Listed(a) ==> NotLater(a, y, x)
  {
    HeartbeatContents(a);
    FilterAgree(a.order, Finished(a), IsDone(a));
    FilterAgree(Listed(a), Finished(a), IsDone(a));
    forall x, y | x in Listed(a) && DoneAt(a, x) && DoneAt(a, y) && y !in Listed(a) ensures NotLater(a, y, x) {
      assert IsDone(a)(x) && Dropped(a, y) && NewestFirst(a)(x, y);
      Touched(a, x);
      Touched(a, y);
    }
  }

  /** Both were touched, and `x` no later than `y`. */
  predicate NotLater(a: Agent, x: string, y: string) {
    && x in a.info && y in a.info && a.info[x].updatedAt.Some? && a.info[y].updatedAt.Some?
    && a.info[x].updatedAt.value <= a.info[y].updatedAt.value
  }

  lemma Touched(a: Agent, id: string)
    requires Inv(a) && DoneAt(a, id)
    ensures a.info[id].updatedAt.Some?
  {
  }
}
