/** Attention edges: which status transitions fire a notification, and what that
    means over a whole run of publishes. */
module Notify {
  import opened Prelude
  import opened Domain
  import opened EngineModel

  datatype Urgency = Normal | Critical

  datatype Notification = Notification(key: SessionKey, title: string, body: string, urgency: Urgency)

  type Memory = map<SessionKey, Status>

  function Before(memory: Memory, key: SessionKey): Option<Status> {
    if key in memory then Some(memory[key]) else None
  }

  predicate TriggerFires(t: Trigger, status: Status, before: Option<Status>, subagent: bool) {
    match t
    case OnNeedsHelp => status == NeedsHelp && before != Some(NeedsHelp)
    case OnDone => status == Done && before != Some(Done) && !subagent
    case OnSubagentDone => status == Done && before != Some(Done) && subagent
    case OnAnyStatus => before.Some? && before.value != status
  }

  /** `triggers_fire`: any of the configured triggers matches. */
  predicate TriggersFire(triggers: seq<Trigger>, status: Status, before: Option<Status>, subagent: bool) {
    exists t :: t in triggers && TriggerFires(t, status, before, subagent)
  }

  function Attention(s: Session): Notification {
    var phrase := match s.status
      case NeedsHelp => "needs help"
      case Done => "finished"
      case Inactive => "is now paused"
      case Active => "is now working";
    Notification(s.key, "AgentLight", "\"" + s.name + "\" " + phrase,
                 if s.status == NeedsHelp then Critical else Normal)
  }

  function Fires(triggers: seq<Trigger>, memory: Memory): Session -> bool {
    (s: Session) => TriggersFire(triggers, s.status, Before(memory, s.key), s.subagent)
  }

  /** The edges of one publish. */
  function Edges(triggers: seq<Trigger>, memory: Memory, models: seq<Session>): seq<Notification> {
    MapSeq(Filter(models, Fires(triggers, memory)), Attention)
  }

  /** The statuses remembered for the next publish; a later row wins. */
  function Recall(models: seq<Session>): Memory {
    if models == [] then map[]
    else Recall(models[..|models| - 1])[models[|models| - 1].key := models[|models| - 1].status]
  }

  /** Keys identify sessions within one publish. */
  ghost predicate UniqueKeys(models: seq<Session>) {
    forall i, j :: 0 <= i < j < |models| ==> models[i].key != models[j].key
  }

  lemma {:induction false} RecallAt(models: seq<Session>, key: SessionKey)
    requires UniqueKeys(models)
    ensures key in Recall(models) <==> exists s :: s in models && s.key == key
    ensures forall s :: s in models && s.key == key ==> Before(Recall(models), key) == Some(s.status)
  {
    if models != [] {
      var rest, last := models[..|models| - 1], models[|models| - 1];
      assert models == rest + [last];
      RecallAt(rest, key);
    }
  }

  /** Of rows with one key the last is remembered. */
  lemma {:induction false} RecallLast(models: seq<Session>, k: nat)
    requires k < |models| && forall j :: k < j < |models| ==> models[j].key != models[k].key
    ensures Before(Recall(models), models[k].key) == Some(models[k].status)
  {
    var n := |models| - 1;
    if k < n {
      assert models[n].key != models[k].key;
      assert forall j :: k < j < n ==> models[..n][j] == models[j];
      RecallLast(models[..n], k);
    }
  }

  // ---------------------------------------------------- what one publish says

  ghost predicate HadStatus(last: seq<Session>, key: SessionKey, status: Status) {
    exists l :: l in last && l.key == key && l.status == status
  }

  /** The transitions that fire, from the sessions of one publish to those of the next:
      coming to need help, finishing as a main session or as a subagent, and, of a
      session that was there before, any change of status. */
  ghost predicate Transition(triggers: seq<Trigger>, last: seq<Session>, s: Session) {
    || (OnNeedsHelp in triggers && s.status == NeedsHelp && !HadStatus(last, s.key, NeedsHelp))
    || (OnDone in triggers && s.status == Done && !s.subagent && !HadStatus(last, s.key, Done))
    || (OnSubagentDone in triggers && s.status == Done && s.subagent && !HadStatus(last, s.key, Done))
    || (OnAnyStatus in triggers && exists l :: l in last && l.key == s.key && l.status != s.status)
  }

  /** The notification of a session: its name and what it came to, critical when it
      needs help. */
  predicate Announces(s: Session, n: Notification) {
    && n.key == s.key && n.title == "AgentLight"
    && (n.urgency == Critical <==> s.status == NeedsHelp)
    && (s.status == NeedsHelp ==> n.body == "\"" + s.name + "\" needs help")
    && (s.status == Done ==> n.body == "\"" + s.name + "\" finished")
    && (s.status == Inactive ==> n.body == "\"" + s.name + "\" is now paused")
    && (s.status == Active ==> n.body == "\"" + s.name + "\" is now working")
  }

  lemma FiresExactly(triggers: seq<Trigger>, last: seq<Session>, s: Session)
    requires UniqueKeys(last)
    ensures Fires(triggers, Recall(last))(s) <==> Transition(triggers, last, s)
  {
    RecallAt(last, s.key);
    var before := Before(Recall(last), s.key);
    forall status ensures before == Some(status) <==> HadStatus(last, s.key, status) {
      if before == Some(status) {
        var l :| l in last && l.key == s.key;
      }
    }
    if before.Some? {
      var l :| l in last && l.key == s.key;
      assert before == Some(l.status);
    }
    TriggersExactly(triggers, s.status, before, s.subagent);
  }

  lemma TriggersExactly(triggers: seq<Trigger>, status: Status, before: Option<Status>, subagent: bool)
    ensures TriggersFire(triggers, status, before, subagent) <==>
      || (OnNeedsHelp in triggers && status == NeedsHelp && before != Some(NeedsHelp))
      || (OnDone in triggers && status == Done && !subagent && before != Some(Done))
      || (OnSubagentDone in triggers && status == Done && subagent && before != Some(Done))
      || (OnAnyStatus in triggers && before.Some? && before.value != status)
  {
    assert OnNeedsHelp in triggers && status == NeedsHelp && before != Some(NeedsHelp) ==>
      TriggerFires(OnNeedsHelp, status, before, subagent);
    assert OnDone in triggers && status == Done && !subagent && before != Some(Done) ==>
      TriggerFires(OnDone, status, before, subagent);
    assert OnSubagentDone in triggers && status == Done && subagent && before != Some(Done) ==>
      TriggerFires(OnSubagentDone, status, before, subagent);
    assert OnAnyStatus in triggers && before.Some? && before.value != status ==>
      TriggerFires(OnAnyStatus, status, before, subagent);
  }

  ghost predicate Announced(notifications: seq<Notification>, s: Session) {
    exists n :: n in notifications && Announces(s, n)
  }

  ghost predicate Announcing(triggers: seq<Trigger>, last: seq<Session>, models: seq<Session>, n: Notification) {
    exists s :: s in models && Transition(triggers, last, s) && Announces(s, n)
  }

  /** A publish announces exactly the sessions whose status made a transition since the
      last one, each once and in their order. */
  lemma EdgesExactly(triggers: seq<Trigger>, last: seq<Session>, models: seq<Session>)
    requires UniqueKeys(last)
    ensures var edges := Edges(triggers, Recall(last), models);
      && (forall s :: s in models && Transition(triggers, last, s) ==> Announced(edges, s))
      && (forall n :: n in edges ==> Announcing(triggers, last, models, n))
      && |edges| == Count(models, Fires(triggers, Recall(last)))
  {
    var edges := Edges(triggers, Recall(last), models);
    forall s | s in models && Transition(triggers, last, s) ensures Announced(edges, s) {
      FiresExactly(triggers, last, s);
      TransitionAnnounced(triggers, Recall(last), models, s);
    }
    forall n | n in edges ensures Announcing(triggers, last, models, n) {
      var s := AnnouncedOf(triggers, Recall(last), models, n);
      FiresExactly(triggers, last, s);
    }
  }

  lemma AttentionAnnounces(s: Session)
    ensures Announces(s, Attention(s))
  {
  }

  lemma TransitionAnnounced(triggers: seq<Trigger>, memory: Memory, models: seq<Session>, s: Session)
    requires s in models && Fires(triggers, memory)(s)
    ensures Announced(Edges(triggers, memory, models), s)
  {
    var hits := Filter(models, Fires(triggers, memory));
    assert s in hits;
    var i :| 0 <= i < |hits| && hits[i] == s;
    AttentionAnnounces(s);
    assert Edges(triggers, memory, models)[i] == Attention(s);
  }

  lemma AnnouncedOf(triggers: seq<Trigger>, memory: Memory, models: seq<Session>, n: Notification)
    returns (s: Session)
    requires n in Edges(triggers, memory, models)
    ensures s in models && Fires(triggers, memory)(s) && Announces(s, n)
  {
    var hits := Filter(models, Fires(triggers, memory));
    var i :| 0 <= i < |hits| && Edges(triggers, memory, models)[i] == n;
    s := hits[i];
    assert s in hits;
    AttentionAnnounces(s);
  }

  // ------------------------------------------------------------- accounting

  predicate Red(models: seq<Session>, key: SessionKey) {
    exists s :: s in models && s.key == key && s.status == NeedsHelp
  }

  function KeyIs(key: SessionKey): Notification -> bool {
    (n: Notification) => n.key == key
  }

  function Bit(b: bool): int { if b then 1 else 0 }

  /** Notifications about `key` over a run of publishes, each given by its visible
      sessions. */
  function FiresOver(triggers: seq<Trigger>, memory: Memory, run: seq<seq<Session>>, key: SessionKey): nat
    decreases |run|
  {
    if run == [] then 0
    else Count(Edges(triggers, memory, run[0]), KeyIs(key)) + FiresOver(triggers, Recall(run[0]), run[1..], key)
  }

  /** Falling edges: publishes at which `key` stopped needing help. */
  function FallsOver(memory: Memory, run: seq<seq<Session>>, key: SessionKey): nat
    decreases |run|
  {
    if run == [] then 0
    else Bit(Before(memory, key) == Some(NeedsHelp) && !Red(run[0], key)) + FallsOver(Recall(run[0]), run[1..], key)
  }

  ghost predicate OnlyNeedsHelp(triggers: seq<Trigger>) {
    OnNeedsHelp in triggers && forall t :: t in triggers ==> t == OnNeedsHelp
  }

  lemma {:induction false} CountOfKey(models: seq<Session>, triggers: seq<Trigger>, memory: Memory, key: SessionKey)
    requires UniqueKeys(models) && OnlyNeedsHelp(triggers)
    ensures Count(Edges(triggers, memory, models), KeyIs(key)) ==
            Bit(Red(models, key) && Before(memory, key) != Some(NeedsHelp))
  {
    if models != [] {
      var s, rest := models[0], models[1..];
      assert models == [s] + rest;
      CountOfKey(rest, triggers, memory, key);
      FilterAppend([s], rest, Fires(triggers, memory));
      MapAppend(Filter([s], Fires(triggers, memory)), Filter(rest, Fires(triggers, memory)), Attention);
      FilterAppend(Edges(triggers, memory, [s]), Edges(triggers, memory, rest), KeyIs(key));
      assert TriggerFires(OnNeedsHelp, s.status, Before(memory, s.key), s.subagent) <==>
             s.status == NeedsHelp && Before(memory, s.key) != Some(NeedsHelp);
      if s.key == key {
        assert !Red(rest, key);
      }
    }
  }

  /** Over any run of publishes, each key's notifications and falling edges
      alternate: fires minus falls is one exactly while the key needs help. */
  lemma {:induction false} Accounting(triggers: seq<Trigger>, memory: Memory, run: seq<seq<Session>>, key: SessionKey)
    requires OnlyNeedsHelp(triggers)
    requires forall models :: models in run ==> UniqueKeys(models)
    ensures FiresOver(triggers, memory, run, key) - FallsOver(memory, run, key) ==
            Bit(if run == [] then Before(memory, key) == Some(NeedsHelp) else Red(run[|run| - 1], key)) -
            Bit(Before(memory, key) == Some(NeedsHelp))
    decreases |run|
  {
    if run != [] {
      assert run[0] in run;
      forall models | models in run[1..] ensures UniqueKeys(models) {
        assert models in run;
      }
      CountOfKey(run[0], triggers, memory, key);
      RecallAt(run[0], key);
      assert Before(Recall(run[0]), key) == Some(NeedsHelp) <==> Red(run[0], key);
      Accounting(triggers, Recall(run[0]), run[1..], key);
    }
  }

  // ------------------------------------------------- hidden subagents

  function Shown(showSubagents: bool, models: seq<Session>): seq<Session> {
    Filter(models, Visible(showSubagents))
  }

  /** The notification stream of a run, publish by publish. */
  function Stream(triggers: seq<Trigger>, showSubagents: bool, memory: Memory,
                  run: seq<seq<Session>>): seq<seq<Notification>>
    decreases |run|
  {
    if run == [] then []
    else [Edges(triggers, memory, Shown(showSubagents, run[0]))] +
         Stream(triggers, showSubagents, Recall(Shown(showSubagents, run[0])), run[1..])
  }

  /** A finished subagent that the next publish reports as a finished main
      session: the one transition on which hiding subagents changes what fires. */
  predicate Promoted(last: seq<Session>, s: Session) {
    s.status == Done && !s.subagent && exists l :: l in last && l.key == s.key && l.status == Done && l.subagent
  }

  ghost predicate NoPromotion(last: seq<Session>, models: seq<Session>) {
    forall s :: s in models ==> !Promoted(last, s)
  }

  ghost predicate NoPromotions(last: seq<Session>, run: seq<seq<Session>>)
    decreases |run|
  {
    run != [] ==> NoPromotion(last, run[0]) && NoPromotions(run[0], run[1..])
  }

  ghost predicate WithinHelpAndDone(triggers: seq<Trigger>) {
    forall t :: t in triggers ==> t == OnNeedsHelp || t == OnDone
  }

  lemma ShownUnique(showSubagents: bool, models: seq<Session>)
    requires UniqueKeys(models)
    ensures UniqueKeys(Shown(showSubagents, models))
  {
    FilterUnique(models, Visible(showSubagents));
  }

  lemma {:induction false} FilterUnique(models: seq<Session>, p: Session -> bool)
    requires UniqueKeys(models)
    ensures UniqueKeys(Filter(models, p))
  {
    if models != [] {
      FilterUnique(models[1..], p);
      forall s | s in Filter(models[1..], p) ensures s.key != models[0].key {
        var i :| 0 <= i < |models[1..]| && models[1..][i] == s;
      }
    }
  }

  /** What both modes remember about one session's predecessor. */
  lemma Remembered(last: seq<Session>, key: SessionKey)
    requires UniqueKeys(last)
    ensures var all, shown := Recall(Shown(true, last)), Recall(Shown(false, last));
      && (Before(all, key) == Some(NeedsHelp) <==> Before(shown, key) == Some(NeedsHelp))
      && (Before(shown, key) == Some(Done) ==> Before(all, key) == Some(Done))
      && (Before(all, key) == Some(Done) && Before(shown, key) != Some(Done) <==>
            exists l :: l in last && l.key == key && l.status == Done && l.subagent)
  {
    ShownUnique(true, last);
    ShownUnique(false, last);
    RecallAt(Shown(true, last), key);
    RecallAt(Shown(false, last), key);
    if l :| l in last && l.key == key {
      assert l in Shown(true, last);
      assert SessionVisible(false, l) ==> l in Shown(false, last);
      forall m | m in last && m.key == key ensures m == l {
        var i :| 0 <= i < |last| && last[i] == l;
        var j :| 0 <= j < |last| && last[j] == m;
      }
    }
  }

  lemma FiresIn(triggers: seq<Trigger>, last: seq<Session>, s: Session)
    requires UniqueKeys(last) && WithinHelpAndDone(triggers)
    ensures var all, shown := Recall(Shown(true, last)), Recall(Shown(false, last));
      && (Fires(triggers, all)(s) ==> SessionVisible(false, s) && Fires(triggers, shown)(s))
      && (SessionVisible(false, s) && Fires(triggers, shown)(s) && !Fires(triggers, all)(s) <==>
            OnDone in triggers && Promoted(last, s))
  {
    Remembered(last, s.key);
    var all, shown := Recall(Shown(true, last)), Recall(Shown(false, last));
    FiresMeaning(triggers, all, s);
    FiresMeaning(triggers, shown, s);
  }

  lemma FiresMeaning(triggers: seq<Trigger>, memory: Memory, s: Session)
    requires WithinHelpAndDone(triggers)
    ensures Fires(triggers, memory)(s) <==>
      (OnNeedsHelp in triggers && TriggerFires(OnNeedsHelp, s.status, Before(memory, s.key), s.subagent)) ||
      (OnDone in triggers && TriggerFires(OnDone, s.status, Before(memory, s.key), s.subagent))
  {
  }

  /** One publish: both modes notify the same unless a finished subagent was
      promoted and `done` is a trigger. */
  lemma SameEdges(triggers: seq<Trigger>, last: seq<Session>, models: seq<Session>)
    requires UniqueKeys(last) && UniqueKeys(models) && WithinHelpAndDone(triggers)
    ensures Edges(triggers, Recall(Shown(true, last)), Shown(true, models)) ==
            Edges(triggers, Recall(Shown(false, last)), Shown(false, models)) <==>
            (OnDone in triggers ==> NoPromotion(last, models))
  {
    var all, shown := Recall(Shown(true, last)), Recall(Shown(false, last));
    FilterAll(models, Visible(true));
    if OnDone in triggers && !NoPromotion(last, models) {
      var s :| s in models && Promoted(last, s);
      FiresIn(triggers, last, s);
      assert s in Shown(false, models) && s in Filter(Shown(false, models), Fires(triggers, shown));
      EdgeKeys(triggers, shown, Shown(false, models), s);
      NoEdgeKeys(triggers, all, models, s);
    } else {
      forall s | s in models
        ensures Fires(triggers, all)(s) == (Fires(triggers, shown)(s) && Visible(false)(s))
      {
        FiresIn(triggers, last, s);
      }
      FilterCompose(models, Fires(triggers, shown), Visible(false), Fires(triggers, all));
    }
  }

  lemma EdgeKeys(triggers: seq<Trigger>, memory: Memory, models: seq<Session>, s: Session)
    requires s in models && Fires(triggers, memory)(s)
    ensures exists n :: n in Edges(triggers, memory, models) && n.key == s.key
  {
    var hits := Filter(models, Fires(triggers, memory));
    assert s in hits;
    var i :| 0 <= i < |hits| && hits[i] == s;
    assert Edges(triggers, memory, models)[i] == Attention(s);
  }

  lemma NoEdgeKeys(triggers: seq<Trigger>, memory: Memory, models: seq<Session>, s: Session)
    requires UniqueKeys(models) && s in models && !Fires(triggers, memory)(s)
    ensures forall n :: n in Edges(triggers, memory, models) ==> n.key != s.key
  {
    var hits := Filter(models, Fires(triggers, memory));
    forall n | n in Edges(triggers, memory, models) ensures n.key != s.key {
      var i :| 0 <= i < |hits| && Attention(hits[i]) == n;
      assert hits[i] in hits;
      var j :| 0 <= j < |models| && models[j] == hits[i];
      var k :| 0 <= k < |models| && models[k] == s;
    }
  }

  /** For triggers within `needs_help` and `done`, the whole notification stream is
      the same whether subagents are shown or hidden, exactly when no finished
      subagent is later reported as a finished main session while `done` is a
      trigger. */
  lemma {:induction false} StreamIgnoresSubagents(triggers: seq<Trigger>, last: seq<Session>, run: seq<seq<Session>>)
    requires WithinHelpAndDone(triggers) && UniqueKeys(last)
    requires forall models :: models in run ==> UniqueKeys(models)
    ensures Stream(triggers, true, Recall(Shown(true, last)), run) ==
            Stream(triggers, false, Recall(Shown(false, last)), run)
            <==> (OnDone in triggers ==> NoPromotions(last, run))
    decreases |run|
  {
    if run != [] {
      assert run[0] in run;
      forall models | models in run[1..] ensures UniqueKeys(models) {
        assert models in run;
      }
      SameEdges(triggers, last, run[0]);
      StreamIgnoresSubagents(triggers, run[0], run[1..]);
      var all := Stream(triggers, true, Recall(Shown(true, last)), run);
      var shown := Stream(triggers, false, Recall(Shown(false, last)), run);
      assert all[0] == Edges(triggers, Recall(Shown(true, last)), Shown(true, run[0]));
      assert shown[0] == Edges(triggers, Recall(Shown(false, last)), Shown(false, run[0]));
      assert all[1..] == Stream(triggers, true, Recall(Shown(true, run[0])), run[1..]);
      assert shown[1..] == Stream(triggers, false, Recall(Shown(false, run[0])), run[1..]);
      assert all == [all[0]] + all[1..] && shown == [shown[0]] + shown[1..];
    }
  }

  /** The promotion is real: a subagent finishes and is then reported as a main
      session. With subagents hidden the second publish notifies, with subagents
      shown it does not. */
  lemma PromotionDiffers(key: SessionKey)
    ensures var child := Session(key, "task", Done, None, None, None, None, true, "", None, true);
      var run := [[child], [child.(subagent := false)]];
      Stream([OnDone], true, map[], run) != Stream([OnDone], false, map[], run)
  {
    var child := Session(key, "task", Done, None, None, None, None, true, "", None, true);
    var parent := child.(subagent := false);
    var run := [[child], [parent]];
    assert run[1..] == [[parent]];
    assert run[0] == [child] && run[1] == [parent];
    assert Promoted(run[0], run[1][0]);
    assert !NoPromotion(run[0], run[1]);
    assert !NoPromotions(run[0], run[1..]);
    assert Shown(true, []) == [] && Shown(false, []) == [];
    StreamIgnoresSubagents([OnDone], [], run);
  }
}
