/** The durable store: what a restart restores, and exactly when it is lossless. */
module PushRestart {
  import opened Prelude
  import opened Text
  import opened Domain
  import opened PushModel
  import opened PushFacts

  function TrimName(lib: Library, s: Session): Session {
    s.(name := Trim(lib, s.name))
  }

  lemma TrimNameFacts(site: Site, id: string, s: Session)
    requires Normal(site, id, s)
    ensures Normal(site, id, TrimName(site.lib, s))
    ensures TrimName(site.lib, s) == s <==> Trimmed(site.lib, s.name)
  {
    TrimCharacter(site.lib, s.name);
    TrimCharacter(site.lib, Trim(site.lib, s.name));
  }

  lemma TrimNameTwice(lib: Library, s: Session)
    ensures TrimName(lib, TrimName(lib, s)) == TrimName(lib, s)
  {
    TrimCharacter(lib, Trim(lib, s.name));
    TrimCharacter(lib, s.name);
  }

  /** A hub state as it comes back from disk: names trimmed once more, and seen
      only when some session survived. */
  function Reloaded(site: Site, h: Hub): Hub {
    h.(sessions := map id | id in h.sessions :: TrimName(site.lib, h.sessions[id]),
       seen := h.sessions != map[])
  }

  /** `rows` is what each saved event normalizes to. */
  ghost predicate ReadBack(site: Site, h: Hub, rows: map<string, Session>) {
    rows.Keys == h.sessions.Keys &&
    forall id :: id in rows ==> Normalize(site, SavedRow(h)(id)) == rows[id] && SavedRow(h)(id).sessionId == id
  }

  lemma ReadBackNames(site: Site, h: Hub)
    requires Lawful(site.lib) && Inv(site, h)
    ensures ReadBack(site, h, Reloaded(site, h).sessions)
  {
    forall id | id in h.sessions
      ensures Normalize(site, SavedRow(h)(id)) == TrimName(site.lib, h.sessions[id]) && SavedRow(h)(id).sessionId == id
    {
      SaveAndReload(site, id, h.sessions[id], Owner(h, id));
    }
  }

  ghost predicate OwnersOf(r: Hub, h: Hub, ids: seq<string>) {
    forall id :: Owner(r, id) == if id in ids then Owner(h, id) else None
  }

  /** The loader has read the saved events of exactly these ids. */
  ghost predicate Loaded(r: Hub, h: Hub, rows: map<string, Session>, ids: seq<string>) {
    && (forall id :: id in r.sessions <==> id in ids)
    && (forall id :: id in r.sessions && id in rows ==> r.sessions[id] == rows[id])
    && OwnersOf(r, h, ids)
    && r == EMPTY.(sessions := r.sessions, owners := r.owners)
  }

  lemma {:induction false} LoadSaved(site: Site, h: Hub, rows: map<string, Session>, ids: seq<string>)
    requires ReadBack(site, h, rows) && NoDup(ids)
    requires forall id :: id in ids ==> id in rows
    ensures Loaded(LoadAll(site, MapSeq(ids, SavedRow(h))), h, rows, ids)
  {
    if ids != [] {
      var rest, id := ids[..|ids| - 1], ids[|ids| - 1];
      assert ids == rest + [id] && id !in rest;
      LoadSaved(site, h, rows, rest);
      LoadSnoc(site, ids, SavedRow(h));
      LoadOneSaved(site, h, rows, LoadAll(site, MapSeq(rest, SavedRow(h))), rest, id);
    }
  }

  lemma LoadSnoc(site: Site, ids: seq<string>, f: string -> Event)
    requires ids != []
    ensures var n := |ids| - 1;
            LoadAll(site, MapSeq(ids, f)) == LoadOne(site, LoadAll(site, MapSeq(ids[..n], f)), f(ids[n]))
  {
    MapPrefix(ids, f, |ids| - 1);
  }

  lemma LoadOneSaved(site: Site, h: Hub, rows: map<string, Session>, before: Hub, ids: seq<string>, id: string)
    requires ReadBack(site, h, rows) && id in rows && id !in ids
    requires Loaded(before, h, rows, ids)
    ensures Loaded(LoadOne(site, before, SavedRow(h)(id)), h, rows, ids + [id])
  {
    assert Owner(before, id).None?;
    LoadOneOwner(site, h, before, ids, id);
  }

  lemma LoadOneOwner(site: Site, h: Hub, before: Hub, ids: seq<string>, id: string)
    requires OwnersOf(before, h, ids) && id !in ids && SavedRow(h)(id).sessionId == id
    ensures OwnersOf(LoadOne(site, before, SavedRow(h)(id)), h, ids + [id])
  {
    assert Owner(before, id).None?;
  }

  /** Loading what was persisted restores every session (up to its name), every
      owner, the tombstones in order and the last ingest time. */
  lemma RestartRestores(site: Site, h: Hub)
    requires Lawful(site.lib) && Inv(site, h)
    ensures Load(site, Saved(StoreOf(site, h))) == Reloaded(site, h)
  {
    assert h.owners.Keys <= h.sessions.Keys && |h.removed| <= MAX_REMOVED;
    ReadBackNames(site, h);
    ReadBackLoads(site, h, Reloaded(site, h).sessions);
  }

  lemma ReadBackLoads(site: Site, h: Hub, rows: map<string, Session>)
    requires Lawful(site.lib) && h.owners.Keys <= h.sessions.Keys && |h.removed| <= MAX_REMOVED
    requires ReadBack(site, h, rows)
    ensures Load(site, Saved(StoreOf(site, h))) == h.(sessions := rows, seen := rows != map[])
  {
    ReadBackMaps(site, h, rows);
    if h.lastIngest.Some? {
      PrintedTime(site.lib, h.lastIngest.value);
    }
  }

  lemma ReadBackMaps(site: Site, h: Hub, rows: map<string, Session>)
    requires h.owners.Keys <= h.sessions.Keys && ReadBack(site, h, rows)
    ensures LoadAll(site, StoreOf(site, h).events) == EMPTY.(sessions := rows, owners := h.owners)
  {
    var ids := SortedIds(h.sessions.Keys);
    SortedIdsCharacter(h.sessions.Keys, Listing(h.sessions.Keys));
    LoadSaved(site, h, rows, ids);
    LoadedAll(LoadAll(site, StoreOf(site, h).events), h, rows, ids);
  }

  lemma LoadedAll(r: Hub, h: Hub, rows: map<string, Session>, ids: seq<string>)
    requires h.owners.Keys <= h.sessions.Keys == rows.Keys && Enumerates(ids, h.sessions.Keys)
    requires Loaded(r, h, rows, ids)
    ensures r == EMPTY.(sessions := rows, owners := h.owners)
  {
    assert r.sessions == rows;
    forall id ensures Owner(r, id) == Owner(h, id) {
      assert id in h.owners ==> id in ids;
    }
    SameOwners(r, h);
  }

  /** A restart is lossless exactly when every stored name is already trimmed:
      nothing else about a session, its owner, the tombstones or the ingest time
      can be lost. */
  lemma RestartTransparent(site: Site, h: Hub)
    requires Lawful(site.lib) && Inv(site, h)
    ensures var r := Load(site, Saved(StoreOf(site, h)));
      && r.owners == h.owners && r.removed == h.removed && r.lastIngest == h.lastIngest
      && (r.sessions == h.sessions <==> NamesTrimmed(site, h))
  {
    RestartRestores(site, h);
    NamesExactly(site, h);
  }

  ghost predicate NamesTrimmed(site: Site, h: Hub) {
    forall id :: id in h.sessions ==> Trimmed(site.lib, h.sessions[id].name)
  }

  lemma NamesExactly(site: Site, h: Hub)
    requires Inv(site, h)
    ensures Reloaded(site, h).sessions == h.sessions <==> NamesTrimmed(site, h)
  {
    forall id | id in h.sessions
      ensures Reloaded(site, h).sessions[id] == h.sessions[id] <==> Trimmed(site.lib, h.sessions[id].name)
    {
      TrimNameFacts(site, id, h.sessions[id]);
    }
  }

  /** In the producer's terms: the row an event is stored as survives a restart
      exactly when the event carried a usable name, or the first eight characters
      of its id are not empty and do not end in white space. */
  lemma EventSurvivesRestart(site: Site, e: Event)
    requires Lawful(site.lib)
    ensures Trimmed(site.lib, Normalize(site, e).name) <==>
            Clean(site.lib, e.name).Some? || FallbackKept(site.lib, e.sessionId)
  {
    NameKept(site, e);
  }

  /** A hub that received one event is restored by a restart exactly under that
      condition on the event. */
  lemma OneEventRestart(site: Site, e: Event, received: int)
    requires Lawful(site.lib)
    ensures var h := Apply(site, EMPTY, [e], received);
      Load(site, Saved(StoreOf(site, h))).sessions == h.sessions <==>
      Clean(site.lib, e.name).Some? || FallbackKept(site.lib, e.sessionId)
  {
    var h := Apply(site, EMPTY, [e], received);
    ApplyInv(site, EMPTY, [e], received);
    RestartTransparent(site, h);
    EventSurvivesRestart(site, e);
    OneEventNames(site, e, received);
  }

  lemma OneEventNames(site: Site, e: Event, received: int)
    ensures NamesTrimmed(site, Apply(site, EMPTY, [e], received)) <==> Trimmed(site.lib, Normalize(site, e).name)
  {
    OneEventHub(site, e, received);
    assert e.sessionId in Apply(site, EMPTY, [e], received).sessions;
  }

  /** An event that does not survive: no name, and an id whose first eight characters
      end in a blank. */
  lemma LossyEvent(site: Site, e: Event, received: int)
    requires Lawful(site.lib) && e.name.None? && e.sessionId == "build   main"
    ensures var h := Apply(site, EMPTY, [e], received); Load(site, Saved(StoreOf(site, h))).sessions != h.sessions
  {
    BlankEnd(site.lib, e.sessionId);
    OneEventRestart(site, e, received);
  }

  lemma BlankEnd(lib: Library, id: string)
    requires Lawful(lib) && id == "build   main"
    ensures !FallbackKept(lib, id)
  {
    assert CharPrefix(id, 8)[7] == ' ';
  }

  /** After one restart the store has settled: a second restart changes nothing. */
  lemma RestartSettles(site: Site, h: Hub)
    requires Lawful(site.lib) && Inv(site, h)
    ensures var r := Load(site, Saved(StoreOf(site, h)));
      Inv(site, r) && Load(site, Saved(StoreOf(site, r))) == r
  {
    RestartRestores(site, h);
    ReloadedInv(site, h);
    RestartRestores(site, Reloaded(site, h));
    ReloadedTwice(site, h);
  }

  lemma ReloadedTwice(site: Site, h: Hub)
    ensures Reloaded(site, Reloaded(site, h)) == Reloaded(site, h)
  {
    var r := Reloaded(site, h);
    forall id | id in h.sessions ensures Reloaded(site, r).sessions[id] == r.sessions[id] {
      TrimNameTwice(site.lib, h.sessions[id]);
    }
    assert Reloaded(site, r).sessions == r.sessions;
    assert r.sessions.Keys == h.sessions.Keys;
  }

  /** Persisting after a restart writes the very same store back exactly when the
      restart was lossless. */
  lemma PersistAfterRestart(site: Site, h: Hub)
    requires Lawful(site.lib) && Inv(site, h)
    ensures StoreOf(site, Load(site, Saved(StoreOf(site, h)))) == StoreOf(site, h) <==> NamesTrimmed(site, h)
  {
    RestartRestores(site, h);
    if NamesTrimmed(site, h) {
      NamesExactly(site, h);
      SavedRowsEqual(Reloaded(site, h), h, SortedIds(h.sessions.Keys));
    } else {
      var id :| id in h.sessions && !Trimmed(site.lib, h.sessions[id].name);
      StoreDiffers(site, h, id);
    }
  }

  lemma StoreDiffers(site: Site, h: Hub, id: string)
    requires id in h.sessions && !Trimmed(site.lib, h.sessions[id].name)
    ensures StoreOf(site, Reloaded(site, h)).events != StoreOf(site, h).events
  {
    assert Reloaded(site, h).sessions.Keys == h.sessions.Keys;
    SortedIdsCharacter(h.sessions.Keys, Listing(h.sessions.Keys));
    TrimCharacter(site.lib, h.sessions[id].name);
    SavedRowsDiffer(Reloaded(site, h), h, SortedIds(h.sessions.Keys), id);
  }

  lemma SavedRowsEqual(a: Hub, b: Hub, ids: seq<string>)
    requires a.sessions == b.sessions && a.owners == b.owners
    ensures MapSeq(ids, SavedRow(a)) == MapSeq(ids, SavedRow(b))
  {
  }

  lemma SavedRowsDiffer(a: Hub, b: Hub, ids: seq<string>, id: string)
    requires id in ids && id in a.sessions && id in b.sessions && a.sessions[id].name != b.sessions[id].name
    ensures MapSeq(ids, SavedRow(a)) != MapSeq(ids, SavedRow(b))
  {
    var i :| 0 <= i < |ids| && ids[i] == id;
    assert SavedRow(a)(id).name != SavedRow(b)(id).name;
    assert MapSeq(ids, SavedRow(a))[i] != MapSeq(ids, SavedRow(b))[i];
  }

  lemma ReloadedInv(site: Site, h: Hub)
    requires Inv(site, h)
    ensures Inv(site, Reloaded(site, h))
  {
    forall id | id in h.sessions ensures Normal(site, id, TrimName(site.lib, h.sessions[id])) {
      TrimNameFacts(site, id, h.sessions[id]);
    }
  }
}
