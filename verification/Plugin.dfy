/** The plugin instance: an object whose handlers update the session map, the
    pending map and the set of sessions waiting on the user. */
module Plugin {
  import opened Prelude
  import opened Text
  import opened Domain
  import opened StableSort
  import opened PluginModel

  class AgentLightPlugin {
    const env: Env
    var order: seq<string>
    var sessions: map<string, Info>
    var pending: map<string, Status>
    var awaitingPermission: set<string>

    ghost function State(): Agent
      reads this
    {
      Agent(order, sessions, pending, awaitingPermission)
    }

    constructor (env: Env)
      ensures this.env == env && State() == FRESH
    {
      this.env := env;
      order, sessions, pending, awaitingPermission := [], map[], map[], {};
    }

    method SetSession(id: string, info: Info)
      modifies `order, `sessions
      ensures State() == Put(old(State()), id, info)
    {
      if id !in sessions {
        order := order + [id];
      }
      sessions := sessions[id := info];
    }

    method Touch(id: string, status: Status, now: int)
      modifies `order, `sessions
      ensures State() == PluginModel.Touch(old(State()), id, status, now)
    {
      var known := if id in sessions then sessions[id] else BLANK;
      SetSession(id, known.(status := Some(status), updatedAt := Some(now)));
    }

    /** Record the status and (re)arm the session's coalescing timer. */
    method Report(sessionID: Option<string>, status: Status, now: int)
      modifies `order, `sessions, `pending
      ensures State() == PluginModel.Report(old(State()), sessionID, status, now)
    {
      if !Truthy(sessionID) {
        return;
      }
      Touch(sessionID.value, status, now);
      pending := pending[sessionID.value := status];
    }

    method Remember(info: Description)
      modifies `order, `sessions
      ensures State() == PluginModel.Remember(env, old(State()), info)
    {
      var id := Or(info.sessionID, info.id);
      if !Truthy(id) {
        return;
      }
      var known := if id.value in sessions then sessions[id.value] else BLANK;
      var title := if info.title.Some? && Trim(env.lib, info.title.value) != "" then info.title else None;
      SetSession(id.value, known.(
        name := OrNull(Or(title, known.name)),
        projectPath := OrNull(Or(info.location, Or(info.directory, known.projectPath))),
        parent := if info.parent != Unknown then info.parent
                  else if IsSubagent(known) then known.parent else NoParent));
    }

    method EnsureParentKnown(id: string, reply: Option<Description>)
      modifies `order, `sessions
      ensures State() == EnsureParent(env, old(State()), id, reply)
    {
      if id in sessions && sessions[id].parent != Unknown {
        return;
      }
      if reply.Some? {
        Remember(reply.value.(sessionID := Or(reply.value.id, Some(id))));
      }
      var after := if id in sessions then sessions[id] else BLANK;
      if after.parent == Unknown {
        SetSession(id, after.(parent := NoParent));
      }
    }

    method ReportIdle(sessionID: Option<string>, now: int, reply: Option<Description>)
      modifies `order, `sessions, `pending
      ensures State() == PluginModel.ReportIdle(env, old(State()), sessionID, now, reply)
    {
      if !Truthy(sessionID) {
        return;
      }
      if sessionID.value in awaitingPermission {
        Report(sessionID, NeedsHelp, now);
        return;
      }
      EnsureParentKnown(sessionID.value, reply);
      var subagent := sessionID.value in sessions && IsSubagent(sessions[sessionID.value]);
      Report(sessionID, if subagent then Done else Inactive, now);
    }

    method Await(sessionID: Option<string>)
      modifies `awaitingPermission
      ensures State() == PluginModel.Await(old(State()), sessionID)
    {
      if Truthy(sessionID) {
        awaitingPermission := awaitingPermission + {sessionID.value};
      }
    }

    method Answer(sessionID: Option<string>)
      modifies `awaitingPermission
      ensures State() == PluginModel.Answer(old(State()), sessionID)
    {
      if Truthy(sessionID) {
        awaitingPermission := awaitingPermission - {sessionID.value};
      }
    }

    method HandleEvent(m: Message, now: int, reply: Option<Description>)
      modifies this
      ensures State() == Handle(env, old(State()), m, now, reply)
    {
      match m.kind {
        case "session.created" => Remember(m.info.GetOr(m.self));
        case "session.updated" => Remember(m.info.GetOr(m.self));
        case "session.renamed" =>
          if Truthy(m.sessionID) && m.title.Some? {
            var known := if m.sessionID.value in sessions then sessions[m.sessionID.value] else BLANK;
            SetSession(m.sessionID.value, known.(name := m.title.value));
          }
        case "session.deleted" => HandleDeleted(m, now);
        case "session.status" =>
          if m.statusType == Some("idle") {
            ReportIdle(m.sessionID, now, reply);
          } else {
            Report(m.sessionID, Active, now);
          }
        case "session.idle" => ReportIdle(m.sessionID, now, reply);
        case "session.execution.started" => Report(m.sessionID, Active, now);
        case "session.execution.failed" => Report(m.sessionID, NeedsHelp, now);
        case "session.execution.succeeded" => ReportIdle(m.sessionID, now, reply);
        case "session.execution.interrupted" => ReportIdle(m.sessionID, now, reply);
        case "session.error" => Report(m.sessionID, NeedsHelp, now);
        case _ => HandlePrompt(m, now, reply);
      }
    }

    method HandleDeleted(m: Message, now: int)
      requires m.kind == "session.deleted"
      modifies this
      ensures State() == Handle(env, old(State()), m, now, None)
    {
      if Truthy(m.sessionID) {
        Answer(m.sessionID);
        Report(m.sessionID, Done, now);
      } else if m.info.Some? && Truthy(m.info.value.id) {
        Remember(m.info.value);
        Answer(m.info.value.id);
        Report(m.info.value.id, Done, now);
      }
    }

    /** The permission, form and question events: the user is asked, answers or
        cancels. */
    method HandlePrompt(m: Message, now: int, reply: Option<Description>)
      modifies this
      ensures State() == Perform(env, old(State()), DecodePrompt(m), now, reply)
    {
      match m.kind {
        case "permission.asked" => Await(m.sessionID); Report(m.sessionID, NeedsHelp, now);
        case "permission.updated" => Await(m.sessionID); Report(m.sessionID, NeedsHelp, now);
        case "permission.replied" => Answer(m.sessionID); Report(m.sessionID, Active, now);
        case "form.created" =>
          var sid := Or(m.sessionID, m.form);
          Await(sid);
          Report(sid, NeedsHelp, now);
        case "form.replied" => Answer(m.sessionID); Report(m.sessionID, Active, now);
        case "form.cancelled" => Answer(m.sessionID); ReportIdle(m.sessionID, now, reply);
        case _ => HandleQuestion(m, now, reply);
      }
    }

    method HandleQuestion(m: Message, now: int, reply: Option<Description>)
      modifies this
      ensures State() == Perform(env, old(State()), DecodeQuestion(m), now, reply)
    {
      match m.kind {
        case "question.asked" => Await(NestedId(m)); Report(NestedId(m), NeedsHelp, now);
        case "question.v2.asked" => Await(NestedId(m)); Report(NestedId(m), NeedsHelp, now);
        case "question.replied" => Answer(NestedId(m)); Report(NestedId(m), Active, now);
        case "question.v2.replied" => Answer(NestedId(m)); Report(NestedId(m), Active, now);
        case "question.rejected" => Answer(NestedId(m)); ReportIdle(NestedId(m), now, reply);
        case "question.v2.rejected" => Answer(NestedId(m)); ReportIdle(NestedId(m), now, reply);
        case _ =>
      }
    }

    /** The coalescing timer of one session: the upsert to post, if any. */
    method Flush(id: string, now: int, reply: Option<Description>) returns (event: Option<Event>)
      modifies `order, `sessions, `pending
      ensures State() == Flushed(env, old(State()), id, reply)
      ensures event == FlushEvent(env, old(State()), id, now, reply)
    {
      if id !in pending {
        return None;
      }
      var status := pending[id];
      pending := pending - {id};
      EnsureParentKnown(id, reply);
      event := Some(BuildEvent(env, Agent(order, sessions, pending, awaitingPermission), id, status, now));
    }

    /** The batch of one heartbeat: live sessions in insertion order, then the
        newest five done ones. */
    method CollectSnapshot(now: int) returns (events: seq<Event>)
      ensures events == SnapshotEvents(env, State(), now)
    {
      var a := Agent(order, sessions, pending, awaitingPermission);
      var live, done := [], [];
      var i := 0;
      while i < |order|
        invariant 0 <= i <= |order|
        invariant live == Filter(order[..i], IsLive(a)) && done == Filter(order[..i], IsDone(a))
      {
        FilterNext(order, i, IsLive(a));
        FilterNext(order, i, IsDone(a));
        if Known(a, order[i]).status == Some(Done) {
          done := done + [order[i]];
        } else {
          live := live + [order[i]];
        }
        i := i + 1;
      }
      assert order[..i] == order;
      done := Sort(done, NewestFirst(a));
      events := MapSeq(live + Take(done, MAX_DONE_SESSIONS), EventFor(env, a, now));
    }

    /** `sendSnapshot`: resolve unknown parents, then post unless empty. */
    method SendSnapshot(now: int, replies: map<string, Description>) returns (batch: Option<seq<Event>>)
      modifies `order, `sessions
      ensures State() == ResolveParents(env, old(State()), old(order), replies)
      ensures batch == var events := SnapshotEvents(env, State(), now); if events == [] then None else Some(events)
    {
      ghost var start := State();
      var ids := order;
      var i := 0;
      while i < |ids|
        invariant 0 <= i <= |ids|
        invariant State() == ResolveParents(env, start, ids[..i], replies)
      {
        assert ids[..i + 1][..i] == ids[..i];
        EnsureParentKnown(ids[i], if ids[i] in replies then Some(replies[ids[i]]) else None);
        i := i + 1;
      }
      assert ids[..i] == ids;
      var events := CollectSnapshot(now);
      batch := if events == [] then None else Some(events);
    }
  }
}
