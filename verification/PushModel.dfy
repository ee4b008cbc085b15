/** The push store as a value: what each ingest mode, removal and restart does to
    the live sessions, their owners and the removal tombstones. The class in
    `PushStore` is proved to compute exactly these transitions. */
module PushModel {
  import opened Prelude
  import opened Text
  import opened Domain
  import opened StableSort

  const MAX_REMOVED: nat := 512

  /** Which library parses text, and the id sessions are keyed under. */
  datatype Site = Site(lib: Library, source: string)

  datatype Hub = Hub(
    sessions: map<string, Session>,
    owners: map<string, string>,   // session id -> producer
    removed: seq<string>,          // tombstones, oldest first
    lastIngest: Option<int>,
    seen: bool)

  const EMPTY: Hub := Hub(map[], map[], [], None, false)

  // ------------------------------------------------------- one event <-> row

  function FallbackName(id: string): string {
    "Session " + CharPrefix(id, 8)
  }

  function Normalize(site: Site, e: Event): Session {
    var harness := Clean(site.lib, e.harness);
    Session(
      SessionKey(site.source, e.sessionId),
      Clean(site.lib, e.name).GetOr(FallbackName(e.sessionId)),
      e.status,
      Clean(site.lib, e.projectPath),
      harness,
      if harness.Some? then Some(HarnessBadge(site.lib, harness.value)) else None,
      if e.lastUpdated.Some? then site.lib.parse(e.lastUpdated.value) else None,
      e.status == Done,
      e.lastUpdated.GetOr(""),
      if e.url.Some? && Trim(site.lib, e.url.value) != "" then e.url else None,
      e.subagent)
  }

  /** `session_to_event`: the wire event a stored session is saved as. */
  function ToEvent(s: Session, producer: Option<string>): Event {
    Event(s.key.sessionId, s.status, Some(s.name), s.project, s.harness,
          if s.lastUpdated != "" then Some(s.lastUpdated) else None, s.url, producer, s.subagent)
  }

  /** The shape `Normalize` gives every session it stores. */
  ghost predicate Normal(site: Site, id: string, s: Session) {
    && s.key == SessionKey(site.source, id)
    && Consistent(site.lib, s)
    && Trim(site.lib, s.name) != ""
    && Clean(site.lib, s.project) == s.project
    && Clean(site.lib, s.harness) == s.harness
    && s.badge == (if s.harness.Some? then Some(HarnessBadge(site.lib, s.harness.value)) else None)
    && (s.url.Some? ==> Trim(site.lib, s.url.value) != "")
  }

  predicate FallbackKept(lib: Library, id: string) {
    id != "" && !lib.isSpace(CharPrefix(id, 8)[|CharPrefix(id, 8)| - 1])
  }

  lemma FallbackTrim(lib: Library, id: string)
    requires Lawful(lib)
    ensures Trim(lib, FallbackName(id)) != ""
    ensures Trimmed(lib, FallbackName(id)) <==> FallbackKept(lib, id)
  {
    var name := FallbackName(id);
    assert name[0] == 'S' && TrimStart(lib, name) == name;
    if TrimEnd(lib, name) == "" {
      TrimEndEmpty(lib, name);
    }
    if id == "" {
      assert name[|name| - 1] == ' ';
    } else {
      assert name[|name| - 1] == CharPrefix(id, 8)[|CharPrefix(id, 8)| - 1];
    }
  }

  lemma {:induction false} TrimEndEmpty(lib: Library, s: string)
    requires TrimEnd(lib, s) == ""
    ensures forall i :: 0 <= i < |s| ==> lib.isSpace(s[i])
  {
    if s != [] {
      TrimEndEmpty(lib, s[..|s| - 1]);
    }
  }

  lemma NormalizeNormal(site: Site, e: Event)
    requires Lawful(site.lib)
    ensures Normal(site, e.sessionId, Normalize(site, e))
  {
    CleanTwice(site.lib, e.projectPath);
    CleanTwice(site.lib, e.harness);
    NameKept(site, e);
  }

  /** The stored name survives being trimmed again exactly when the producer sent
      one, or the first eight characters of the id do not end in white space. */
  lemma NameKept(site: Site, e: Event)
    requires Lawful(site.lib)
    ensures var name := Normalize(site, e).name;
      && Trim(site.lib, name) != ""
      && (Trimmed(site.lib, name) <==> Clean(site.lib, e.name).Some? || FallbackKept(site.lib, e.sessionId))
  {
    FallbackTrim(site.lib, e.sessionId);
    CleanTwice(site.lib, e.name);
    TrimCharacter(site.lib, Normalize(site, e).name);
  }

  /** Saving a session and reading it back changes nothing but a name with blank
      edges, which is trimmed. */
  lemma SaveAndReload(site: Site, id: string, s: Session, producer: Option<string>)
    requires Lawful(site.lib) && Normal(site, id, s)
    ensures Normalize(site, ToEvent(s, producer)) == s.(name := Trim(site.lib, s.name))
    ensures ToEvent(s, producer).sessionId == id && ToEvent(s, producer).producer == producer
  {
  }

  // ------------------------------------------------------------- tombstones

  /** `forget_removed`: drop the first occurrence. */
  function Forget(removed: seq<string>, id: string): seq<string> {
    if removed == [] then []
    else if removed[0] == id then removed[1..]
    else [removed[0]] + Forget(removed[1..], id)
  }

  function ForgetAll(removed: seq<string>, events: seq<Event>): seq<string> {
    if events == [] then removed
    else Forget(ForgetAll(removed, events[..|events| - 1]), events[|events| - 1].sessionId)
  }

  lemma ForgetNext(removed: seq<string>, events: seq<Event>, i: nat)
    requires i < |events|
    ensures ForgetAll(removed, events[..i + 1]) == Forget(ForgetAll(removed, events[..i]), events[i].sessionId)
  {
    assert events[..i + 1][..i] == events[..i];
  }

  /** Keep only the newest `MAX_REMOVED` tombstones. */
  function Bound(removed: seq<string>): seq<string> {
    if |removed| > MAX_REMOVED then removed[|removed| - MAX_REMOVED..] else removed
  }

  /** `remember_removed`: newest last, bounded, never twice. */
  function Remember(removed: seq<string>, id: string): seq<string> {
    if id in removed then removed else Bound(removed + [id])
  }

  function RememberAll(removed: seq<string>, ids: seq<string>): seq<string> {
    if ids == [] then removed
    else Remember(RememberAll(removed, ids[..|ids| - 1]), ids[|ids| - 1])
  }

  // ----------------------------------------------------------------- upserts

  function Owner(h: Hub, id: string): Option<string> {
    if id in h.owners then Some(h.owners[id]) else None
  }

  function UpsertOne(site: Site, h: Hub, e: Event): Hub {
    h.(sessions := h.sessions[e.sessionId := Normalize(site, e)],
       owners := if e.producer.Some? then h.owners[e.sessionId := e.producer.value]
                 else h.owners - {e.sessionId})
  }

  /** The stored row for this event is missing or different. */
  predicate Differs(site: Site, h: Hub, e: Event) {
    e.sessionId !in h.sessions || h.sessions[e.sessionId] != Normalize(site, e)
  }

  function UpsertAll(site: Site, h: Hub, events: seq<Event>): Hub {
    if events == [] then h
    else UpsertOne(site, UpsertAll(site, h, events[..|events| - 1]), events[|events| - 1])
  }

  /** Whether some event of the batch really inserted a different session. */
  predicate UpsertsChange(site: Site, h: Hub, events: seq<Event>) {
    events != [] &&
    (UpsertsChange(site, h, events[..|events| - 1]) ||
     Differs(site, UpsertAll(site, h, events[..|events| - 1]), events[|events| - 1]))
  }

  /** The batch one event longer: what one turn of the upsert loop adds. */
  lemma UpsertNext(site: Site, h: Hub, events: seq<Event>, i: nat)
    requires i < |events|
    ensures UpsertAll(site, h, events[..i + 1]) == UpsertOne(site, UpsertAll(site, h, events[..i]), events[i])
    ensures UpsertsChange(site, h, events[..i + 1]) ==
            (UpsertsChange(site, h, events[..i]) || Differs(site, UpsertAll(site, h, events[..i]), events[i]))
  {
    assert events[..i + 1][..i] == events[..i];
  }

  /** The last event of the batch that mentions `id`. */
  function LastFor(events: seq<Event>, id: string): (r: Option<Event>)
    ensures r.Some? <==> exists e :: e in events && e.sessionId == id
    ensures r.Some? ==> r.value in events && r.value.sessionId == id
  {
    if events == [] then None
    else
      assert events == events[..|events| - 1] + [events[|events| - 1]];
      if events[|events| - 1].sessionId == id then Some(events[|events| - 1])
      else LastFor(events[..|events| - 1], id)
  }

  function Ids(events: seq<Event>): set<string> {
    set e | e in events :: e.sessionId
  }

  // ------------------------------------------------------------ ingest modes

  /** An upsert batch as received at `now`: tombstones cleared, then the upserts. */
  function Ingest(site: Site, h: Hub, events: seq<Event>, now: int): Hub {
    UpsertAll(site, h.(lastIngest := Some(now), removed := ForgetAll(h.removed, events)), events)
  }

  function Apply(site: Site, h: Hub, events: seq<Event>, now: int): Hub {
    Ingest(site, h, events, now).(seen := h.seen || events != [])
  }

  /** The producer of a batch: the first one any event names. */
  function BatchProducer(events: seq<Event>): Option<string> {
    if events == [] then None
    else if events[0].producer.Some? then events[0].producer
    else BatchProducer(events[1..])
  }

  function NotIn(removed: seq<string>): Event -> bool {
    (e: Event) => e.sessionId !in removed
  }

  /** The events of a snapshot that survive the tombstone filter. */
  function Admitted(h: Hub, events: seq<Event>): seq<Event> {
    Filter(events, NotIn(h.removed))
  }

  predicate Survives(h: Hub, events: seq<Event>, id: string) {
    id in Ids(Admitted(h, events)) ||
    BatchProducer(events).None? ||
    Owner(h, id) != BatchProducer(events)
  }

  function Prune(h: Hub, events: seq<Event>): Hub {
    var sessions := map id | id in h.sessions && Survives(h, events, id) :: h.sessions[id];
    h.(sessions := sessions,
       owners := map id | id in h.owners && id in sessions :: h.owners[id])
  }

  /** A snapshot batch as received at `now`: the prune, then the upserts. */
  function Resync(site: Site, h: Hub, events: seq<Event>, now: int): Hub {
    UpsertAll(site, Prune(h.(lastIngest := Some(now)), events), Admitted(h, events))
  }

  function ApplySnapshot(site: Site, h: Hub, events: seq<Event>, now: int): Hub {
    Resync(site, h, events, now).(seen := h.seen || |events| > 0)
  }

  predicate SnapshotChanges(site: Site, h: Hub, events: seq<Event>, now: int) {
    var pruned := Prune(h.(lastIngest := Some(now)), events);
    |pruned.sessions| != |h.sessions| || UpsertsChange(site, pruned, Admitted(h, events))
  }

  // ---------------------------------------------------------------- removals

  function Remove(h: Hub, id: string): Hub {
    h.(sessions := h.sessions - {id},
       owners := h.owners - {id},
       removed := if id in h.sessions then Remember(h.removed, id) else h.removed)
  }

  function DoneIds(h: Hub): set<string> {
    set id | id in h.sessions && h.sessions[id].isDone
  }

  lemma RememberNext(removed: seq<string>, ids: seq<string>, i: nat)
    requires i < |ids|
    ensures RememberAll(removed, ids[..i + 1]) == Remember(RememberAll(removed, ids[..i]), ids[i])
  {
    assert ids[..i + 1][..i] == ids[..i];
  }

  /** `clear_done`, where `order` is the hash map's iteration order of the done
      ids it collected. */
  function ClearDone(h: Hub, order: seq<string>): Hub {
    var sessions := map id | id in h.sessions && !h.sessions[id].isDone :: h.sessions[id];
    h.(sessions := sessions,
       owners := map id | id in h.owners && id in sessions :: h.owners[id],
       removed := RememberAll(h.removed, order))
  }

  // ------------------------------------------------------------------- reads

  function Downgrade(s: Session, now: int): Session {
    if PushStale(s.isDone, s.updatedAt, now) then s.(status := Done, isDone := true) else s
  }

  predicate IdLe(a: string, b: string) { StringLe(a, b) }

  lemma IdOrder()
    ensures TotalPreorder(IdLe)
    ensures forall s: set<string> :: Antisymmetric(s, IdLe)
  {
    forall a, b ensures IdLe(a, b) || IdLe(b, a) ensures IdLe(a, b) && IdLe(b, a) ==> a == b {
      StringLeTotal(a, b);
    }
    forall a, b, c | IdLe(a, b) && IdLe(b, c) ensures IdLe(a, c) {
      StringLeTransitive(a, b, c);
    }
  }

  /** Some iteration order of a hash set. */
  ghost function Listing(s: set<string>): (order: seq<string>)
    ensures Enumerates(order, s)
  {
    if s == {} then []
    else
      var x :| x in s;
      [x] + Listing(s - {x})
  }

  ghost function SortedIds(s: set<string>): seq<string> {
    Sort(Listing(s), IdLe)
  }

  lemma SortedIdsCharacter(s: set<string>, order: seq<string>)
    requires Enumerates(order, s)
    ensures SortedIds(s) == Sort(order, IdLe)
    ensures Enumerates(SortedIds(s), s)
  {
    IdOrder();
    EnumerationsSameMultiset(order, Listing(s), s);
    SortCanonical(order, Listing(s), IdLe);
    SortElements(Listing(s), IdLe);
    SortNoDup(Listing(s), IdLe);
  }

  /** The stored row of a live id; ids outside the map are never asked for. */
  function RowOf(h: Hub, id: string): Session {
    if id in h.sessions then h.sessions[id]
    else Session(SessionKey("", id), "", Done, None, None, None, None, true, "", None, false)
  }

  function ViewRow(h: Hub, now: int): string -> Session {
    id => Downgrade(RowOf(h, id), now)
  }

  /** The sessions `snapshot` reports: sorted by id, stale ones shown as done. */
  ghost function View(h: Hub, now: int): seq<Session> {
    MapSeq(SortedIds(h.sessions.Keys), ViewRow(h, now))
  }

  // --------------------------------------------------------------- the store

  datatype Store = Store(lastIngest: Option<string>, events: seq<Event>, removed: seq<string>)

  /** The durable file: absent, not parseable, or the last store written. */
  datatype File = Missing | Garbled | Saved(store: Store)

  function SavedRow(h: Hub): string -> Event {
    id => ToEvent(RowOf(h, id), Owner(h, id))
  }

  /** What `persist` writes: every live session as an event, sorted by id, the
      tombstones, and the time of the last ingest. */
  ghost function StoreOf(site: Site, h: Hub): Store {
    Store(
      if h.lastIngest.Some? then Some(site.lib.render(h.lastIngest.value)) else None,
      MapSeq(SortedIds(h.sessions.Keys), SavedRow(h)),
      h.removed)
  }

  /** One iteration of `load_store`'s loop. Unlike an upsert, an event without a
      producer leaves an earlier owner of the same id in place. */
  function LoadOne(site: Site, h: Hub, e: Event): Hub {
    h.(sessions := h.sessions[e.sessionId := Normalize(site, e)],
       owners := if e.producer.Some? then h.owners[e.sessionId := e.producer.value] else h.owners)
  }

  function LoadAll(site: Site, events: seq<Event>): Hub {
    if events == [] then EMPTY
    else LoadOne(site, LoadAll(site, events[..|events| - 1]), events[|events| - 1])
  }

  lemma LoadNext(site: Site, events: seq<Event>, i: nat)
    requires i < |events|
    ensures LoadAll(site, events[..i + 1]) == LoadOne(site, LoadAll(site, events[..i]), events[i])
  {
    assert events[..i + 1][..i] == events[..i];
  }

  function Load(site: Site, file: File): Hub {
    match file
    case Missing => EMPTY
    case Garbled => EMPTY
    case Saved(store) =>
      var h := LoadAll(site, store.events);
      h.(removed := Bound(store.removed),
         lastIngest := if store.lastIngest.Some? then site.lib.parse(store.lastIngest.value) else None,
         seen := h.sessions != map[])
  }
}
