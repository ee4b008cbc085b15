/** From the text of a state file to the rows and the light: which entries show, what
    each row says, and when the file turns the light red. */
module FileRows {
  import opened Prelude
  import opened Text
  import opened Domain
  import opened StableSort
  import opened EngineModel
  import opened StateFile
  import CD = ClearDone
  import R = Rendered

  /** The entries of a document. */
  function Entries(file: Content): map<string, Entry> {
    if file.Json? && file.document.sessions.Some? then file.document.sessions.value else map[]
  }

  /** The status texts that are read; an entry with another, or none, is skipped. */
  predicate Readable(e: Entry) {
    e.status == Some("active") || e.status == Some("inactive") ||
    e.status == Some("needs_help") || e.status == Some("done")
  }

  /** A day has passed since the time the entry carries. */
  predicate DayOld(lib: Library, e: Entry, now: int) {
    e.lastUpdated.Some? && lib.parse(e.lastUpdated.value).Some? &&
    lib.parse(e.lastUpdated.value).value + 24 * 3_600_000_000_000 <= now
  }

  /** What the entry is shown as. */
  function ShownStatus(lib: Library, e: Entry, now: int): Status {
    if e.status == Some("done") || DayOld(lib, e, now) then Done
    else if e.status == Some("needs_help") then NeedsHelp
    else if e.status == Some("active") then Active
    else Inactive
  }

  /** A session that says what the entry says. */
  predicate Tells(lib: Library, source: string, id: string, e: Entry, now: int, s: Session) {
    && s.key == SessionKey(source, id) && s.status == ShownStatus(lib, e, now) && s.isDone == (s.status == Done)
    && s.name == (if e.name.Some? then e.name.value else "Session " + if |id| > 8 then id[..8] else id)
    && s.project == (if e.projectPath == Some("") then None else e.projectPath)
    && s.lastUpdated == (if e.lastUpdated.Some? then e.lastUpdated.value else "")
    && s.updatedAt == (if e.lastUpdated.Some? then lib.parse(e.lastUpdated.value) else None)
    && (s.harness.Some? ==> e.harness.Some? && s.harness.value == Trim(lib, e.harness.value) != "")
    && (s.harness.None? ==> e.harness.None? || Trim(lib, e.harness.value) == "")
    && s.badge == (if s.harness.Some? then Some(lib.lower(if |s.harness.value| > 2 then s.harness.value[..2]
                                                          else s.harness.value)) else None)
    && s.url == None && !s.subagent
  }

  lemma KeysReadable(file: Content)
    ensures Keys(file) == set id | id in Entries(file) && Readable(Entries(file)[id])
  {
  }

  lemma DayOldStale(lib: Library, e: Entry, status: Status, now: int)
    ensures var at := if e.lastUpdated.Some? then lib.parse(e.lastUpdated.value) else None;
            FileStale(status, at, now) <==> status != Done && DayOld(lib, e, now)
  {
    StalenessAgrees(status, if e.lastUpdated.Some? then lib.parse(e.lastUpdated.value) else None, now, now);
  }

  lemma EntrySession(lib: Library, source: string, file: Content, now: int, id: string)
    requires id in Entries(file) && Readable(Entries(file)[id])
    ensures LoadState(file).Loaded? && id in LoadState(file).state
    ensures Tells(lib, source, id, Entries(file)[id], now,
                  BuildSession(lib, source, id, Reap(lib, LoadState(file).state[id], now)))
  {
    var e, s := Entries(file)[id], LoadState(file).state[id];
    DayOldStale(lib, e, s.status, now);
    BadgeOf(lib, e.harness);
  }

  lemma BadgeOf(lib: Library, harness: Option<string>)
    ensures var h := Clean(lib, harness);
      h.Some? ==> HarnessBadge(lib, h.value) == lib.lower(if |h.value| > 2 then h.value[..2] else h.value)
  {
    if harness.Some? {
      var h := Trim(lib, harness.value);
      TrimCharacter(lib, harness.value);
      TrimCharacter(lib, h);
      assert |h| == 2 ==> h[..2] == h;
    }
  }

  ghost predicate EntryShown(lib: Library, source: string, id: string, e: Entry, now: int, sessions: seq<Session>) {
    exists s :: s in sessions && Tells(lib, source, id, e, now, s)
  }

  /** Each readable entry gives one session, which says what the entry says, and nothing
      else does. */
  lemma EntriesShown(lib: Library, source: string, path: string, file: Content, now: int, order: seq<string>)
    requires Enumerates(order, Keys(file))
    ensures var sessions := FileView(lib, source, path, file, now, order).sessions;
      && (forall id :: id in Entries(file) && Readable(Entries(file)[id]) ==>
            EntryShown(lib, source, id, Entries(file)[id], now, sessions))
      && (forall s :: s in sessions ==> FromEntry(lib, source, file, now, s))
      && NoDup(CD.SessionIds(sessions))
  {
    var sessions := FileView(lib, source, path, file, now, order).sessions;
    KeysReadable(file);
    if LoadState(file).Loaded? {
      var state := ReapStale(lib, LoadState(file).state, now);
      CD.FileSessions(lib, source, state, order);
      forall id | id in Entries(file) && Readable(Entries(file)[id])
        ensures EntryShown(lib, source, id, Entries(file)[id], now, sessions)
      {
        EntrySession(lib, source, file, now, id);
        assert BuildSession(lib, source, id, state[id]) in sessions;
      }
      forall s | s in sessions ensures FromEntry(lib, source, file, now, s) {
        assert s.key.sessionId in Keys(file);
        EntrySession(lib, source, file, now, s.key.sessionId);
      }
    }
  }

  ghost predicate FromEntry(lib: Library, source: string, file: Content, now: int, s: Session) {
    var id := s.key.sessionId;
    id in Entries(file) && Readable(Entries(file)[id]) && Tells(lib, source, id, Entries(file)[id], now, s)
  }

  /** The file alone decides the health: read, absent, or unreadable for a reason. */
  lemma FileHealth(lib: Library, source: string, path: string, file: Content, now: int, order: seq<string>)
    ensures var view := FileView(lib, source, path, file, now, order);
      && (view.health == Ready <==> file.Json?) && (view.health == Missing <==> file.Absent?)
      && (file.IoFailure? || file.NotJson? ==> view.health == Unreadable(file.reason))
      && (!file.Json? ==> view.sessions == [])
      && view.source == source && view.kind == FileKind && view.location == path
  {
  }

  ghost predicate CallsForHelp(lib: Library, file: Content, now: int, id: string) {
    id in Entries(file) && Entries(file)[id].status == Some("needs_help") && !DayOld(lib, Entries(file)[id], now)
  }

  lemma HelpShown(lib: Library, source: string, file: Content, now: int, sessions: seq<Session>, id: string)
    requires CallsForHelp(lib, file, now, id) && EntryShown(lib, source, id, Entries(file)[id], now, sessions)
    ensures exists s :: s in sessions && s.status == NeedsHelp
  {
    var s :| s in sessions && Tells(lib, source, id, Entries(file)[id], now, s);
    assert s.status == NeedsHelp;
  }

  lemma HelpFromEntry(lib: Library, source: string, file: Content, now: int, s: Session)
    requires FromEntry(lib, source, file, now, s) && s.status == NeedsHelp
    ensures CallsForHelp(lib, file, now, s.key.sessionId)
  {
  }

  /** A desktop over the file is red exactly when some entry says `needs_help` and is not
      a day old. */
  lemma FileRed(lib: Library, config: Config, source: string, path: string, file: Content, now: int, order: seq<string>)
    requires Enumerates(order, Keys(file))
    ensures Render(lib, config, [FileView(lib, source, path, file, now, order)], now).aggregate == "red" <==>
            exists id :: CallsForHelp(lib, file, now, id)
  {
    var view := FileView(lib, source, path, file, now, order);
    EntriesShown(lib, source, path, file, now, order);
    RedView(lib, config, view, now);
    if s :| s in view.sessions && s.status == NeedsHelp {
      HelpFromEntry(lib, source, file, now, s);
    }
    if id :| CallsForHelp(lib, file, now, id) {
      HelpShown(lib, source, file, now, view.sessions, id);
    }
  }

  lemma RedView(lib: Library, config: Config, view: SourceSnapshot, now: int)
    ensures Render(lib, config, [view], now).aggregate == "red" <==>
            exists s :: s in view.sessions && s.status == NeedsHelp
  {
    R.RedExactly(lib, config, [view], now);
    assert view in [view];
    if s :| s in view.sessions && s.status == NeedsHelp {
      assert R.AnySession([view], s);
    }
  }
}
