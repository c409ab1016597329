/** Importing a legacy inventory: planning over rows not yet written, applying the plan, undoing it. */
module V1Import {
  import opened Common
  import opened TorrentStates

  type UserId = nat
  type SourceId = nat
  type Username = string     // canonical, lower-case
  type InfoHash = string
  type Fingerprint = string

  /** Identifiers of imported rows are derived from the fingerprint, so they are injective in it
      and never collide with identifiers drawn elsewhere. */
  datatype TorrentId = ImportedTorrent(fingerprint: Fingerprint, hash: InfoHash) | OtherTorrent(id: nat)
  datatype RequestId = ImportedRequest(fingerprint: Fingerprint, source: SourceId) | OtherRequest(id: nat)

  predicate Terminal(s: TorrentState) { s == Purging || s == Purged }

  datatype User = User(id: UserId, active: bool, deleted: bool)
  datatype Torrent = Torrent(hash: InfoHash, name: string, size: nat, state: TorrentState, awaitsReconcile: bool,
                             created: int, updated: int)
  datatype Request = Request(user: UserId, torrent: TorrentId, state: RequestState, created: int, updated: int)

  datatype RunStatus = Applied | RolledBack
  datatype Run = Run(status: RunStatus, created: int)
  datatype Item = Item(run: Fingerprint, source: SourceId, user: UserId, torrent: TorrentId, request: RequestId,
                       torrentCreated: bool)

  /** The tables the import reads and writes. Usernames, infohashes and run fingerprints are unique
      keys; a run is identified by its fingerprint. `requestJobs` and `runtime` are the requests with
      jobs, and the torrents with files, jobs, leases or tracker activity. */
  datatype Db = Db(
    users: map<Username, User>,
    torrents: map<TorrentId, Torrent>,
    requests: map<RequestId, Request>,
    runs: map<Fingerprint, Run>,
    items: seq<Item>,
    requestJobs: set<RequestId>,
    runtime: set<TorrentId>
  )

  datatype Row = Row(source: SourceId, username: Username, hash: InfoHash, name: string, created: int)
  datatype Inventory = Inventory(fingerprint: Fingerprint, rows: seq<Row>)

  datatype Owner = Owner(user: UserId, torrent: TorrentId)

  function OwnerOf(r: Request): Owner { Owner(r.user, r.torrent) }

  // ----- Planning

  datatype Code =
    | TargetUserMissing | TargetUserInactive | CanonicalNameConflict | TargetTorrentTerminal | RequestHistoryConflict

  datatype Action =
    | Conflict(source: SourceId, code: Code)
    | Unchanged(source: SourceId, user: UserId, torrent: TorrentId, request: RequestId)
    | Create(source: SourceId, user: UserId, torrent: TorrentId, request: RequestId, newTorrent: bool,
             hash: InfoHash, name: string, created: int)

  datatype PlannedTorrent = PlannedTorrent(id: TorrentId, name: string, state: TorrentState)
  datatype PlannedRequest = PlannedRequest(id: RequestId, state: RequestState)

  /** What planning sees: stored rows overlaid with the rows it has planned but not written. */
  datatype Overlay = Overlay(torrents: map<InfoHash, PlannedTorrent>, requests: map<Owner, PlannedRequest>)

  function PlanRow(f: Fingerprint, users: map<Username, User>, o: Overlay, row: Row): (Overlay, Action) {
    if row.username !in users then (o, Conflict(row.source, TargetUserMissing))
    else if !users[row.username].active || users[row.username].deleted then
      (o, Conflict(row.source, TargetUserInactive))
    else if row.hash in o.torrents && o.torrents[row.hash].name != row.name then
      (o, Conflict(row.source, CanonicalNameConflict))
    else if row.hash in o.torrents && Terminal(o.torrents[row.hash].state) then
      (o, Conflict(row.source, TargetTorrentTerminal))
    else
      var user := users[row.username].id;
      var isNew := row.hash !in o.torrents;
      var torrent := if isNew then ImportedTorrent(f, row.hash) else o.torrents[row.hash].id;
      var o' := if isNew then o.(torrents := o.torrents[row.hash := PlannedTorrent(torrent, row.name, Error)]) else o;
      var owner := Owner(user, torrent);
      if owner in o'.requests then
        if !IsActive(o'.requests[owner].state) then (o', Conflict(row.source, RequestHistoryConflict))
        else (o', Unchanged(row.source, user, torrent, o'.requests[owner].id))
      else
        var request := ImportedRequest(f, row.source);
        (o'.(requests := o'.requests[owner := PlannedRequest(request, Requested)]),
         Create(row.source, user, torrent, request, isNew, row.hash, row.name, row.created))
  }

  /** Plans the rows in order, each against what the earlier ones will have written. */
  function PlanRows(f: Fingerprint, users: map<Username, User>, o: Overlay, rows: seq<Row>): (r: (Overlay, seq<Action>))
    ensures |r.1| == |rows|
  {
    if rows == [] then (o, [])
    else
      var (before, actions) := PlanRows(f, users, o, rows[..|rows| - 1]);
      var (after, action) := PlanRow(f, users, before, rows[|rows| - 1]);
      (after, actions + [action])
  }

  /** `pick` is the request row a lookup by owner ends up with: the last one the unordered query
      returned, so any of the owner's rows. */
  ghost predicate IsPick(requests: map<RequestId, Request>, pick: map<Owner, RequestId>) {
    && (forall r :: r in requests ==> OwnerOf(requests[r]) in pick)
    && (forall o :: o in pick ==> pick[o] in requests && OwnerOf(requests[pick[o]]) == o)
  }

  ghost predicate UniqueHashes(torrents: map<TorrentId, Torrent>) {
    forall s, t :: s in torrents && t in torrents && s != t ==> torrents[s].hash != torrents[t].hash
  }

  function StartTorrents(torrents: map<TorrentId, Torrent>): (m: map<InfoHash, PlannedTorrent>)
    requires UniqueHashes(torrents)
    ensures forall t :: t in torrents ==>
              torrents[t].hash in m && m[torrents[t].hash] == PlannedTorrent(t, torrents[t].name, torrents[t].state)
    ensures forall h :: h in m ==> m[h].id in torrents && torrents[m[h].id].hash == h
  {
    map t | t in torrents :: torrents[t].hash := PlannedTorrent(t, torrents[t].name, torrents[t].state)
  }

  function Start(db: Db, pick: map<Owner, RequestId>): Overlay
    requires UniqueHashes(db.torrents) && IsPick(db.requests, pick)
  {
    Overlay(StartTorrents(db.torrents), map o | o in pick :: PlannedRequest(pick[o], db.requests[pick[o]].state))
  }

  ghost function Plan(db: Db, pick: map<Owner, RequestId>, inv: Inventory): seq<Action>
    requires UniqueHashes(db.torrents) && IsPick(db.requests, pick)
  {
    PlanRows(inv.fingerprint, db.users, Start(db, pick), inv.rows).1
  }

  ghost predicate HasConflict(actions: seq<Action>) {
    exists i :: 0 <= i < |actions| && actions[i].Conflict?
  }

  ghost predicate HasCreation(actions: seq<Action>) {
    exists i :: 0 <= i < |actions| && actions[i].Create?
  }

  // ----- Applying

  function Placeholder(a: Action): Torrent
    requires a.Create?
  {
    Torrent(a.hash, a.name, 0, Error, true, a.created, a.created)
  }

  function Write(db: Db, f: Fingerprint, a: Action): Db {
    if !a.Create? then db
    else
      db.(torrents := if a.newTorrent then db.torrents[a.torrent := Placeholder(a)] else db.torrents,
          requests := db.requests[a.request := Request(a.user, a.torrent, Requested, a.created, a.created)],
          items := db.items + [Item(f, a.source, a.user, a.torrent, a.request, a.newTorrent)])
  }

  function WriteAll(db: Db, f: Fingerprint, actions: seq<Action>): Db {
    if actions == [] then db else Write(WriteAll(db, f, actions[..|actions| - 1]), f, actions[|actions| - 1])
  }

  datatype ApplyResult = Fresh | Replayed | Conflicts | WasRolledBack | NoLongerMatches

  /** All or nothing: a conflict anywhere writes no row. */
  ghost function ApplyPlan(db: Db, f: Fingerprint, actions: seq<Action>, now: int): (Db, ApplyResult) {
    if f in db.runs then
      if db.runs[f].status == RolledBack then (db, WasRolledBack)
      else if HasConflict(actions) || HasCreation(actions) then (db, NoLongerMatches)
      else (db, Replayed)
    else if HasConflict(actions) then (db, Conflicts)
    else (WriteAll(db.(runs := db.runs[f := Run(Applied, now)]), f, actions), Fresh)
  }

  ghost function Apply(db: Db, pick: map<Owner, RequestId>, inv: Inventory, now: int): (Db, ApplyResult)
    requires UniqueHashes(db.torrents) && IsPick(db.requests, pick)
  {
    ApplyPlan(db, inv.fingerprint, Plan(db, pick, inv), now)
  }

  // ----- Rolling back

  ghost function ItemsOf(items: seq<Item>, f: Fingerprint): set<Item> {
    set i | i in items && i.run == f
  }

  ghost function RequestsOf(items: set<Item>): set<RequestId> { set i | i in items :: i.request }

  ghost function PlaceholdersOf(items: set<Item>): set<TorrentId> {
    set i | i in items && i.torrentCreated :: i.torrent
  }

  ghost predicate RequestUntouched(db: Db, r: RequestId) {
    && r in db.requests && db.requests[r].state == Requested
    && db.requests[r].updated == db.requests[r].created && r !in db.requestJobs
  }

  ghost predicate PlaceholderUntouched(db: Db, t: TorrentId, own: set<RequestId>) {
    && t in db.torrents
    && db.torrents[t].state == Error && db.torrents[t].size == 0 && db.torrents[t].awaitsReconcile
    && db.torrents[t].updated == db.torrents[t].created
    && (forall r :: r in db.requests && db.requests[r].torrent == t ==> r in own)
    && t !in db.runtime
  }

  ghost predicate NewerRun(db: Db, f: Fingerprint)
    requires f in db.runs
  {
    exists g :: g in db.runs && db.runs[g].status == Applied && db.runs[g].created > db.runs[f].created
  }

  ghost predicate Untouched(db: Db, f: Fingerprint) {
    var items := ItemsOf(db.items, f);
    && (forall r :: r in RequestsOf(items) ==> RequestUntouched(db, r))
    && (forall t :: t in PlaceholdersOf(items) ==> PlaceholderUntouched(db, t, RequestsOf(items)))
  }

  datatype RollbackResult = Undone | AlreadyUndone | Blocked | NoSuchRun

  ghost function Rollback(db: Db, f: Fingerprint): (Db, RollbackResult) {
    if f !in db.runs then (db, NoSuchRun)
    else if db.runs[f].status == RolledBack then (db, AlreadyUndone)
    else if NewerRun(db, f) || !Untouched(db, f) then (db, Blocked)
    else
      var items := ItemsOf(db.items, f);
      (db.(requests := db.requests - RequestsOf(items), torrents := db.torrents - PlaceholdersOf(items),
           runs := db.runs[f := db.runs[f].(status := RolledBack)]), Undone)
  }

  // ----- Consistent databases

  /** Unique infohashes, foreign keys, and derived identifiers only for recorded runs. */
  ghost predicate Consistent(db: Db) {
    && UniqueHashes(db.torrents)
    && (forall r :: r in db.requests ==> db.requests[r].torrent in db.torrents)
    && db.requestJobs <= db.requests.Keys && db.runtime <= db.torrents.Keys
    && (forall t :: t in db.torrents && t.ImportedTorrent? ==> t.fingerprint in db.runs)
    && (forall r :: r in db.requests && r.ImportedRequest? ==> r.fingerprint in db.runs)
    && (forall i :: i in db.items ==> i.run in db.runs && OwnItem(i))
  }

  /** A recorded item names the request, and the placeholder if any, derived from its own run. */
  ghost predicate OwnItem(i: Item) {
    && i.request == ImportedRequest(i.run, i.source)
    && (i.torrentCreated ==> i.torrent.ImportedTorrent? && i.torrent.fingerprint == i.run)
  }

  ghost predicate DistinctSources(rows: seq<Row>) {
    forall i, j :: 0 <= i < j < |rows| ==> rows[i].source != rows[j].source
  }

  // ----- The plan mirrors what applying it writes

  ghost function Shown(t: TorrentId, row: Torrent): PlannedTorrent { PlannedTorrent(t, row.name, row.state) }

  /** The overlay shows exactly the stored torrents. */
  ghost predicate ShowsTorrents(torrents: map<TorrentId, Torrent>, shown: map<InfoHash, PlannedTorrent>) {
    && (forall t :: t in torrents ==> torrents[t].hash in shown && shown[torrents[t].hash] == Shown(t, torrents[t]))
    && (forall h :: h in shown ==> shown[h].id in torrents && torrents[shown[h].id].hash == h)
  }

  /** The overlay shows one request for each owner that has any. */
  ghost predicate ShowsRequests(requests: map<RequestId, Request>, shown: map<Owner, PlannedRequest>) {
    && (forall r :: r in requests ==> OwnerOf(requests[r]) in shown)
    && (forall w :: w in shown ==>
          shown[w].id in requests && OwnerOf(requests[shown[w].id]) == w &&
            shown[w].state == requests[shown[w].id].state)
  }

  ghost predicate ForeignKeys(requests: map<RequestId, Request>, torrents: map<TorrentId, Torrent>) {
    forall r :: r in requests ==> requests[r].torrent in torrents
  }

  /** Only untouched placeholders of run `f` were added. */
  ghost predicate GrownTorrents(base: map<TorrentId, Torrent>, torrents: map<TorrentId, Torrent>, f: Fingerprint) {
    && (forall t :: t in base ==> t in torrents && torrents[t] == base[t])
    && (forall t :: t in torrents && t !in base ==>
          && t == ImportedTorrent(f, torrents[t].hash) && torrents[t].state == Error && torrents[t].size == 0
          && torrents[t].awaitsReconcile && torrents[t].updated == torrents[t].created)
  }

  /** Only untouched requests of run `f`, for the given source records, were added. */
  ghost predicate GrownRequests(base: map<RequestId, Request>, requests: map<RequestId, Request>, f: Fingerprint,
                                sources: set<SourceId>) {
    && (forall r :: r in base ==> r in requests && requests[r] == base[r])
    && (forall r :: r in requests && r !in base ==>
          && r.ImportedRequest? && r.fingerprint == f && r.source in sources
          && requests[r].state == Requested && requests[r].updated == requests[r].created)
  }

  /** A new request is the only one of its owner. */
  ghost predicate SoleOwners(base: map<RequestId, Request>, requests: map<RequestId, Request>) {
    forall r, s :: r in requests && r !in base && s in requests && s != r ==>
        OwnerOf(requests[r]) != OwnerOf(requests[s])
  }

  /** The rows added are exactly the rows recorded for the run. */
  ghost predicate Recorded(base: Db, db: Db, f: Fingerprint) {
    && RequestsOf(ItemsOf(db.items, f)) == db.requests.Keys - base.requests.Keys
    && PlaceholdersOf(ItemsOf(db.items, f)) == db.torrents.Keys - base.torrents.Keys
  }

  /** No row of `base` carries an identifier derived from fingerprint `f`. */
  ghost predicate Unseen(base: Db, f: Fingerprint) {
    && (forall r :: r in base.requests ==> !(r.ImportedRequest? && r.fingerprint == f))
    && (forall t :: t in base.torrents ==> !(t.ImportedTorrent? && t.fingerprint == f))
  }

  ghost predicate Progress(base: Db, db: Db, o: Overlay, f: Fingerprint, sources: set<SourceId>) {
    && db.users == base.users && db.runs == base.runs && db.requestJobs == base.requestJobs &&
      db.runtime == base.runtime
    && ShowsTorrents(db.torrents, o.torrents) && ShowsRequests(db.requests, o.requests)
    && GrownTorrents(base.torrents, db.torrents, f) && GrownRequests(base.requests, db.requests, f, sources)
    && ForeignKeys(db.requests, db.torrents) && SoleOwners(base.requests, db.requests) && Recorded(base, db, f)
    && (forall i :: i in db.items ==> i in base.items || (i.run == f && OwnItem(i)))
  }

  /** Replaying this row would find its account, its torrent and an active request for them. */
  ghost predicate Settled(db: Db, row: Row) {
    && row.username in db.users && db.users[row.username].active && !db.users[row.username].deleted
    && exists t, r :: HasActive(db, row, t, r)
  }

  ghost predicate HasActive(db: Db, row: Row, t: TorrentId, r: RequestId) {
    && t in db.torrents && db.torrents[t].hash == row.hash && db.torrents[t].name == row.name &&
      !Terminal(db.torrents[t].state)
    && r in db.requests && row.username in db.users && OwnerOf(db.requests[r]) == Owner(db.users[row.username].id, t)
    && IsActive(db.requests[r].state)
  }

  lemma ShowTorrent(torrents: map<TorrentId, Torrent>, shown: map<InfoHash, PlannedTorrent>, t: TorrentId, row: Torrent)
    requires ShowsTorrents(torrents, shown) && t !in torrents && row.hash !in shown
    ensures ShowsTorrents(torrents[t := row], shown[row.hash := Shown(t, row)])
  {
  }

  lemma ShowRequest(requests: map<RequestId, Request>, shown: map<Owner, PlannedRequest>, r: RequestId, row: Request)
    requires ShowsRequests(requests, shown) && r !in requests && OwnerOf(row) !in shown
    ensures ShowsRequests(requests[r := row], shown[OwnerOf(row) := PlannedRequest(r, row.state)])
  {
  }

  lemma SoleGrows(base: map<RequestId, Request>, requests: map<RequestId, Request>, shown: map<Owner, PlannedRequest>,
                  r: RequestId, row: Request)
    requires SoleOwners(base, requests) && ShowsRequests(requests, shown) && r !in requests && OwnerOf(row) !in shown
    ensures SoleOwners(base, requests[r := row])
  {
    assert forall s :: s in requests ==> OwnerOf(requests[s]) != OwnerOf(row);
  }

  lemma RecordItem(base: Db, db: Db, f: Fingerprint, a: Action)
    requires Recorded(base, db, f) && a.Create? && a.request !in base.requests
    requires a.newTorrent ==> a.torrent !in base.torrents
    ensures Recorded(base, Write(db, f, a), f)
  {
    var items' := Write(db, f, a).items;
    var item := Item(f, a.source, a.user, a.torrent, a.request, a.newTorrent);
    assert ItemsOf(items', f) == ItemsOf(db.items, f) + {item};
    assert RequestsOf(ItemsOf(items', f)) == RequestsOf(ItemsOf(db.items, f)) + {a.request};
    assert PlaceholdersOf(ItemsOf(items', f)) ==
           PlaceholdersOf(ItemsOf(db.items, f)) + (if a.newTorrent then {a.torrent} else {});
  }

  /** What a creating action says, in terms of the overlay it was planned against. */
  lemma PlanCreate(f: Fingerprint, users: map<Username, User>, o: Overlay, row: Row)
    requires PlanRow(f, users, o, row).1.Create?
    ensures var (o', a) := PlanRow(f, users, o, row);
            && row.username in users && users[row.username].active && !users[row.username].deleted
            && a.newTorrent == (row.hash !in o.torrents)
            && a == Create(row.source, users[row.username].id, a.torrent, ImportedRequest(f, row.source), a.newTorrent,
                           row.hash, row.name, row.created)
            && (if a.newTorrent
                then a.torrent == ImportedTorrent(f, row.hash)
                     && o'.torrents == o.torrents[row.hash := Shown(a.torrent, Placeholder(a))]
                else o'.torrents == o.torrents && a.torrent == o.torrents[row.hash].id
                     && o.torrents[row.hash].name == row.name && !Terminal(o.torrents[row.hash].state))
            && Owner(a.user, a.torrent) !in o.requests
            && o'.requests == o.requests[Owner(a.user, a.torrent) := PlannedRequest(a.request, Requested)]
  {
  }

  /** The identifiers of a creating action are not taken. */
  lemma CreateIsFresh(base: Db, db: Db, o: Overlay, f: Fingerprint, sources: set<SourceId>, row: Row)
    requires Progress(base, db, o, f, sources) && Unseen(base, f) && row.source !in sources
    ensures ImportedRequest(f, row.source) !in db.requests
    ensures row.hash !in o.torrents ==> ImportedTorrent(f, row.hash) !in db.torrents
  {
  }

  lemma WriteCreate(base: Db, db: Db, o: Overlay, f: Fingerprint, sources: set<SourceId>, row: Row)
    requires Progress(base, db, o, f, sources) && Unseen(base, f) && row.source !in sources
    requires PlanRow(f, db.users, o, row).1.Create?
    ensures var (o', a) := PlanRow(f, db.users, o, row);
            Progress(base, Write(db, f, a), o', f, sources + {row.source}) && Settled(Write(db, f, a), row)
  {
    var (o', a) := PlanRow(f, db.users, o, row);
    PlanCreate(f, db.users, o, row);
    CreateIsFresh(base, db, o, f, sources, row);
    WriteShows(base, db, o, o', f, a);
    WriteGrows(base, db, f, sources, a);
    RecordItem(base, db, f, a);
    assert HasActive(Write(db, f, a), row, a.torrent, a.request);
  }

  lemma WriteShows(base: Db, db: Db, o: Overlay, o': Overlay, f: Fingerprint, a: Action)
    requires ShowsTorrents(db.torrents, o.torrents) && ShowsRequests(db.requests, o.requests) &&
             SoleOwners(base.requests, db.requests)
    requires a.Create? && a.request !in db.requests && Owner(a.user, a.torrent) !in o.requests
    requires a.newTorrent ==> a.torrent !in db.torrents && a.hash !in o.torrents
    requires o'.torrents == if a.newTorrent then o.torrents[a.hash := Shown(a.torrent, Placeholder(a))] else o.torrents
    requires o'.requests == o.requests[Owner(a.user, a.torrent) := PlannedRequest(a.request, Requested)]
    ensures var db' := Write(db, f, a);
            ShowsTorrents(db'.torrents, o'.torrents) && ShowsRequests(db'.requests, o'.requests)
            && SoleOwners(base.requests, db'.requests)
  {
    var request := Request(a.user, a.torrent, Requested, a.created, a.created);
    if a.newTorrent { ShowTorrent(db.torrents, o.torrents, a.torrent, Placeholder(a)); }
    ShowRequest(db.requests, o.requests, a.request, request);
    SoleGrows(base.requests, db.requests, o.requests, a.request, request);
  }

  lemma WriteGrows(base: Db, db: Db, f: Fingerprint, sources: set<SourceId>, a: Action)
    requires GrownTorrents(base.torrents, db.torrents, f) && GrownRequests(base.requests, db.requests, f, sources)
    requires ForeignKeys(db.requests, db.torrents)
    requires a.Create? && a.request == ImportedRequest(f, a.source) && a.request !in db.requests
    requires if a.newTorrent then a.torrent == ImportedTorrent(f, a.hash) &&
             a.torrent !in db.torrents else a.torrent in db.torrents
    ensures var db' := Write(db, f, a);
            && GrownTorrents(base.torrents, db'.torrents, f)
            && GrownRequests(base.requests, db'.requests, f, sources + {a.source})
            && ForeignKeys(db'.requests, db'.torrents)
  {
  }

  /** A row that is already mapped changes nothing and is settled. */
  lemma WriteUnchanged(base: Db, db: Db, o: Overlay, f: Fingerprint, sources: set<SourceId>, row: Row)
    requires Progress(base, db, o, f, sources) && Unseen(base, f) && PlanRow(f, db.users, o, row).1.Unchanged?
    ensures PlanRow(f, db.users, o, row).0 == o && Settled(db, row)
    ensures Progress(base, db, o, f, sources + {row.source})
  {
    var a := PlanRow(f, db.users, o, row).1;
    var w := Owner(a.user, a.torrent);
    assert w in o.requests && o.requests[w].id in db.requests && db.requests[o.requests[w].id].torrent == a.torrent;
    assert a.torrent in db.torrents;
    assert row.hash in o.torrents;
    assert HasActive(db, row, a.torrent, o.requests[w].id);
  }

  lemma SettledGrows(db: Db, f: Fingerprint, a: Action, row: Row)
    requires Settled(db, row)
    requires a.Create? ==> a.request !in db.requests && (a.newTorrent ==> a.torrent !in db.torrents)
    ensures Settled(Write(db, f, a), row)
  {
    var t, r :| HasActive(db, row, t, r);
    assert HasActive(Write(db, f, a), row, t, r);
  }

  ghost function Sources(rows: seq<Row>): set<SourceId> { set i | 0 <= i < |rows| :: rows[i].source }

  lemma WriteOneMore(base: Db, db: Db, o: Overlay, f: Fingerprint, prefix: seq<Row>, row: Row)
    requires Progress(base, db, o, f, Sources(prefix)) && Unseen(base, f) && row.source !in Sources(prefix)
    requires !PlanRow(f, db.users, o, row).1.Conflict?
    requires AllSettled(db, prefix)
    ensures var (o', a) := PlanRow(f, db.users, o, row);
            Progress(base, Write(db, f, a), o', f, Sources(prefix) + {row.source})
            && AllSettled(Write(db, f, a), prefix + [row])
  {
    var a := PlanRow(f, db.users, o, row).1;
    if a.Create? {
      WriteCreate(base, db, o, f, Sources(prefix), row);
      PlanCreate(f, db.users, o, row);
      CreateIsFresh(base, db, o, f, Sources(prefix), row);
    } else {
      WriteUnchanged(base, db, o, f, Sources(prefix), row);
    }
    AllSettledGrows(db, f, a, prefix, row);
  }

  ghost predicate AllSettled(db: Db, rows: seq<Row>) {
    forall i :: 0 <= i < |rows| ==> Settled(db, rows[i])
  }

  lemma AllSettledGrows(db: Db, f: Fingerprint, a: Action, prefix: seq<Row>, row: Row)
    requires AllSettled(db, prefix) && Settled(Write(db, f, a), row)
    requires a.Create? ==> a.request !in db.requests && (a.newTorrent ==> a.torrent !in db.torrents)
    ensures AllSettled(Write(db, f, a), prefix + [row])
  {
    forall i | 0 <= i < |prefix| ensures Settled(Write(db, f, a), prefix[i]) {
      SettledGrows(db, f, a, prefix[i]);
    }
  }

  lemma PlanSplit(f: Fingerprint, users: map<Username, User>, o: Overlay, base: Db, rows: seq<Row>)
    requires rows != []
    ensures var (before, actions) := PlanRows(f, users, o, rows[..|rows| - 1]);
            var (after, a) := PlanRow(f, users, before, rows[|rows| - 1]);
            && PlanRows(f, users, o, rows) == (after, actions + [a])
            && WriteAll(base, f, actions + [a]) == Write(WriteAll(base, f, actions), f, a)
            && (!HasConflict(actions + [a]) ==> !HasConflict(actions) && !a.Conflict?)
            && Sources(rows) == Sources(rows[..|rows| - 1]) + {rows[|rows| - 1].source}
  {
    var (before, actions) := PlanRows(f, users, o, rows[..|rows| - 1]);
    var a := PlanRow(f, users, before, rows[|rows| - 1]).1;
    var all := actions + [a];
    assert all[..|all| - 1] == actions && all[|actions|] == a;
    forall i | 0 <= i < |actions| ensures all[i] == actions[i] {}
    var prefix, row := rows[..|rows| - 1], rows[|rows| - 1];
    assert rows == prefix + [row];
    forall s | s in Sources(rows) ensures s in Sources(prefix) + {row.source} {
      var i :| 0 <= i < |rows| && rows[i].source == s;
      if i < |prefix| { assert prefix[i] == rows[i]; }
    }
    forall s | s in Sources(prefix) + {row.source} ensures s in Sources(rows) {
      if s != row.source {
        var i :| 0 <= i < |prefix| && prefix[i].source == s;
        assert rows[i].source == s;
      } else {
        assert rows[|rows| - 1].source == s;
      }
    }
  }

  /** After planning conflict-free rows and writing their actions, the overlay is exact and every row settled. */
  ghost predicate Landed(base: Db, o: Overlay, f: Fingerprint, rows: seq<Row>) {
    var (o', actions) := PlanRows(f, base.users, o, rows);
    var db := WriteAll(base, f, actions);
    Progress(base, db, o', f, Sources(rows)) && AllSettled(db, rows)
  }

  lemma {:induction false} PlanAndWrite(base: Db, o: Overlay, f: Fingerprint, rows: seq<Row>)
    requires Progress(base, base, o, f, {}) && Unseen(base, f) && DistinctSources(rows)
    requires !HasConflict(PlanRows(f, base.users, o, rows).1)
    ensures Landed(base, o, f, rows)
  {
    if rows == [] {
      assert Sources(rows) == {};
    } else {
      var prefix, row := rows[..|rows| - 1], rows[|rows| - 1];
      assert prefix + [row] == rows;
      assert !HasConflict(PlanRows(f, base.users, o, prefix).1)
          && !PlanRow(f, base.users, PlanRows(f, base.users, o, prefix).0, row).1.Conflict? by {
        PlanSplit(f, base.users, o, base, rows);
      }
      PlanAndWrite(base, o, f, prefix);
      LandOneMore(base, o, f, prefix, row);
    }
  }

  lemma FreshSource(prefix: seq<Row>, row: Row)
    requires DistinctSources(prefix + [row])
    ensures row.source !in Sources(prefix)
  {
    var rows := prefix + [row];
    forall i | 0 <= i < |prefix| ensures prefix[i].source != row.source { assert rows[i] == prefix[i] &&
      rows[|prefix|] == row; }
  }

  lemma LandOneMore(base: Db, o: Overlay, f: Fingerprint, prefix: seq<Row>, row: Row)
    requires Landed(base, o, f, prefix) && Unseen(base, f) && DistinctSources(prefix + [row])
    requires !PlanRow(f, base.users, PlanRows(f, base.users, o, prefix).0, row).1.Conflict?
    ensures Landed(base, o, f, prefix + [row])
  {
    var rows := prefix + [row];
    assert rows[..|rows| - 1] == prefix && rows[|rows| - 1] == row;
    var (o1, actions) := PlanRows(f, base.users, o, prefix);
    FreshSource(prefix, row);
    WriteOneMore(base, WriteAll(base, f, actions), o1, f, prefix, row);
    PlanSplit(f, base.users, o, base, rows);
  }

  // ----- Applying, then rolling back

  ghost function WithRun(db: Db, f: Fingerprint, now: int): Db { db.(runs := db.runs[f := Run(Applied, now)]) }

  lemma StartProgress(db: Db, pick: map<Owner, RequestId>, f: Fingerprint, now: int)
    requires Consistent(db) && IsPick(db.requests, pick) && f !in db.runs
    ensures Progress(WithRun(db, f, now), WithRun(db, f, now), Start(db, pick), f, {}) && Unseen(WithRun(db, f, now), f)
  {
    assert ItemsOf(db.items, f) == {};
  }

  lemma FreshPlan(db: Db, f: Fingerprint, actions: seq<Action>, now: int)
    requires ApplyPlan(db, f, actions, now).1 == Fresh
    ensures f !in db.runs && !HasConflict(actions) &&
            ApplyPlan(db, f, actions, now).0 == WriteAll(WithRun(db, f, now), f, actions)
  {
  }

  /** A fresh apply adds exactly the recorded rows, all untouched, and settles every inventory row. */
  lemma FreshApply(db: Db, pick: map<Owner, RequestId>, inv: Inventory, now: int)
    requires Consistent(db) && IsPick(db.requests, pick) && DistinctSources(inv.rows)
    requires Apply(db, pick, inv, now).1 == Fresh
    ensures var base, o := WithRun(db, inv.fingerprint, now), Start(db, pick);
            && inv.fingerprint !in db.runs && Landed(base, o, inv.fingerprint, inv.rows)
            && Apply(db, pick, inv, now).0 == WriteAll(base, inv.fingerprint,
              PlanRows(inv.fingerprint, db.users, o, inv.rows).1)
  {
    FreshPlan(db, inv.fingerprint, Plan(db, pick, inv), now);
    assert Landed(WithRun(db, inv.fingerprint, now), Start(db, pick), inv.fingerprint, inv.rows) by {
      StartProgress(db, pick, inv.fingerprint, now);
      PlanAndWrite(WithRun(db, inv.fingerprint, now), Start(db, pick), inv.fingerprint, inv.rows);
    }
  }

  /** Undoing a run whose rows are all still as written removes exactly what it added. */
  lemma UndoAdded(db: Db, base: Db, db1: Db, o: Overlay, f: Fingerprint, sources: set<SourceId>, now: int)
    requires Consistent(db) && base == WithRun(db, f, now) && Progress(base, db1, o, f, sources)
    requires forall g :: g in db.runs ==> db.runs[g].created <= now
    ensures var (db2, result) := Rollback(db1, f);
            && result == Undone && db2.torrents == db.torrents && db2.requests == db.requests
            && db2.users == db.users && db2.requestJobs == db.requestJobs && db2.runtime == db.runtime
  {
    StillUntouched(base, db1, o, f, sources);
    assert !NewerRun(db1, f);
    RemoveAdded(db.requests, db1.requests, RequestsOf(ItemsOf(db1.items, f)));
    RemoveAdded(db.torrents, db1.torrents, PlaceholdersOf(ItemsOf(db1.items, f)));
  }

  /** A fresh import can be undone at once, and undoing it restores the torrents and requests exactly. */
  lemma RollbackUndoesApply(db: Db, pick: map<Owner, RequestId>, inv: Inventory, now: int)
    requires Consistent(db) && IsPick(db.requests, pick) && DistinctSources(inv.rows)
    requires Apply(db, pick, inv, now).1 == Fresh
    requires forall g :: g in db.runs ==> db.runs[g].created <= now
    ensures var (db2, result) := Rollback(Apply(db, pick, inv, now).0, inv.fingerprint);
            && result == Undone && db2.torrents == db.torrents && db2.requests == db.requests
            && db2.users == db.users && db2.requestJobs == db.requestJobs && db2.runtime == db.runtime
  {
    FreshApply(db, pick, inv, now);
    var f, base := inv.fingerprint, WithRun(db, inv.fingerprint, now);
    var (o', actions) := PlanRows(f, base.users, Start(db, pick), inv.rows);
    UndoAdded(db, base, WriteAll(base, f, actions), o', f, Sources(inv.rows), now);
  }

  lemma RemoveAdded<K, V>(base: map<K, V>, grown: map<K, V>, added: set<K>)
    requires forall k :: k in base ==> k in grown && grown[k] == base[k]
    requires added == grown.Keys - base.Keys
    ensures grown - added == base
  {
  }

  lemma StillUntouched(base: Db, db: Db, o: Overlay, f: Fingerprint, sources: set<SourceId>)
    requires Progress(base, db, o, f, sources) && base.requestJobs <= base.requests.Keys &&
             base.runtime <= base.torrents.Keys
    requires ForeignKeys(base.requests, base.torrents)
    ensures Untouched(db, f)
  {
    var items := ItemsOf(db.items, f);
    forall r | r in RequestsOf(items) ensures RequestUntouched(db, r) {
      assert r in db.requests && r !in base.requests;
    }
    forall t | t in PlaceholdersOf(items) ensures PlaceholderUntouched(db, t, RequestsOf(items)) {
      assert t in db.torrents && t !in base.torrents;
      forall r | r in db.requests && db.requests[r].torrent == t ensures r in RequestsOf(items) {
        assert r !in base.requests;
      }
    }
  }

  // ----- Replaying

  /** An owner with both an active and a closed request: which one a lookup finds is not determined. */
  ghost predicate Mixed(requests: map<RequestId, Request>, w: Owner) {
    exists r, s :: r in requests && s in requests && OwnerOf(requests[r]) == w && OwnerOf(requests[s]) == w
                   && IsActive(requests[r].state) && !IsActive(requests[s].state)
  }

  /** The account and the stored torrent this row is about have a mixed request history. */
  ghost predicate MixedRow(db: Db, row: Row) {
    row.username in db.users &&
    exists t :: t in db.torrents && db.torrents[t].hash == row.hash &&
      Mixed(db.requests, Owner(db.users[row.username].id, t))
  }

  /** Planning a settled row against stored rows only: unchanged, or a history conflict if the
      lookup found a closed request. */
  lemma SettledRowPlan(db: Db, pick: map<Owner, RequestId>, f: Fingerprint, row: Row)
    requires UniqueHashes(db.torrents) && IsPick(db.requests, pick) && Settled(db, row)
    ensures var o := Start(db, pick);
            var (o', a) := PlanRow(f, db.users, o, row);
            && o' == o && row.hash in o.torrents
            && var w := Owner(db.users[row.username].id, o.torrents[row.hash].id);
               w in pick && (if IsActive(db.requests[pick[w]].state) then a.Unchanged? else a.Conflict?)
  {
    var o := Start(db, pick);
    var t, r :| HasActive(db, row, t, r);
    assert o.torrents[row.hash] == PlannedTorrent(t, db.torrents[t].name, db.torrents[t].state);
    assert OwnerOf(db.requests[r]) in pick;
  }

  /** Rows that leave an overlay alone can be planned one by one. */
  lemma {:induction false} QuietPlan(f: Fingerprint, users: map<Username, User>, o: Overlay, rows: seq<Row>)
    requires forall i :: 0 <= i < |rows| ==> PlanRow(f, users, o, rows[i]).0 == o
    ensures PlanRows(f, users, o, rows).0 == o
    ensures forall i :: 0 <= i < |rows| ==> PlanRows(f, users, o, rows).1[i] == PlanRow(f, users, o, rows[i]).1
  {
    if rows == [] {
    } else {
      QuietPlan(f, users, o, rows[..|rows| - 1]);
    }
  }

  lemma SettledPlan(db: Db, pick: map<Owner, RequestId>, f: Fingerprint, rows: seq<Row>)
    requires UniqueHashes(db.torrents) && IsPick(db.requests, pick)
    requires AllSettled(db, rows)
    ensures var (o', actions) := PlanRows(f, db.users, Start(db, pick), rows);
            && o' == Start(db, pick)
            && forall i :: 0 <= i < |rows| ==> actions[i] == PlanRow(f, db.users, Start(db, pick), rows[i]).1
  {
    forall i | 0 <= i < |rows| ensures PlanRow(f, db.users, Start(db, pick), rows[i]).0 == Start(db, pick) {
      SettledRowPlan(db, pick, f, rows[i]);
    }
    QuietPlan(f, db.users, Start(db, pick), rows);
  }

  ghost predicate Quiet(actions: seq<Action>) { !HasConflict(actions) && !HasCreation(actions) }

  lemma QuietUnlessMixed(db: Db, pick: map<Owner, RequestId>, f: Fingerprint, rows: seq<Row>)
    requires UniqueHashes(db.torrents) && IsPick(db.requests, pick)
    requires AllSettled(db, rows)
    requires forall i :: 0 <= i < |rows| ==> !MixedRow(db, rows[i])
    ensures Quiet(PlanRows(f, db.users, Start(db, pick), rows).1)
  {
    SettledPlan(db, pick, f, rows);
    forall i | 0 <= i < |rows| ensures PlanRow(f, db.users, Start(db, pick), rows[i]).1.Unchanged? {
      UnmixedUnchanged(db, pick, f, rows[i]);
    }
    UnchangedIsQuiet(PlanRows(f, db.users, Start(db, pick), rows).1);
  }

  lemma UnchangedIsQuiet(actions: seq<Action>)
    requires forall i :: 0 <= i < |actions| ==> actions[i].Unchanged?
    ensures Quiet(actions)
  {
  }

  lemma UnmixedUnchanged(db: Db, pick: map<Owner, RequestId>, f: Fingerprint, row: Row)
    requires UniqueHashes(db.torrents) && IsPick(db.requests, pick) && Settled(db, row) && !MixedRow(db, row)
    ensures PlanRow(f, db.users, Start(db, pick), row).1.Unchanged?
  {
    SettledRowPlan(db, pick, f, row);
    var t, r :| HasActive(db, row, t, r);
    assert !Mixed(db.requests, OwnerOf(db.requests[r]));
  }

  /** A lookup that finds a closed request of the owner. */
  lemma ClosedPick(requests: map<RequestId, Request>, pick: map<Owner, RequestId>, w: Owner)
    returns (pick': map<Owner, RequestId>)
    requires IsPick(requests, pick) && Mixed(requests, w)
    ensures IsPick(requests, pick') && w in pick' && !IsActive(requests[pick'[w]].state)
  {
    var s :| s in requests && OwnerOf(requests[s]) == w && !IsActive(requests[s].state);
    pick' := pick[w := s];
  }

  lemma ClosedConflicts(db: Db, pick: map<Owner, RequestId>, f: Fingerprint, row: Row, t: TorrentId)
    requires UniqueHashes(db.torrents) && IsPick(db.requests, pick) && Settled(db, row) && row.username in db.users
    requires t in db.torrents && db.torrents[t].hash == row.hash
    requires var w := Owner(db.users[row.username].id, t); w in pick && !IsActive(db.requests[pick[w]].state)
    ensures PlanRow(f, db.users, Start(db, pick), row).1.Conflict?
  {
    SettledRowPlan(db, pick, f, row);
    assert Start(db, pick).torrents[row.hash].id == t;
  }

  /** Some row order makes the lookup find a closed request, so replaying a mixed row conflicts. */
  lemma MixedCanConflict(db: Db, pick: map<Owner, RequestId>, f: Fingerprint, rows: seq<Row>, i: nat)
    returns (pick': map<Owner, RequestId>)
    requires UniqueHashes(db.torrents) && IsPick(db.requests, pick)
    requires AllSettled(db, rows)
    requires i < |rows| && MixedRow(db, rows[i])
    ensures IsPick(db.requests, pick') && HasConflict(PlanRows(f, db.users, Start(db, pick'), rows).1)
  {
    var row := rows[i];
    var t :| t in db.torrents && db.torrents[t].hash == row.hash &&
      Mixed(db.requests, Owner(db.users[row.username].id, t));
    pick' := ClosedPick(db.requests, pick, Owner(db.users[row.username].id, t));
    ClosedConflicts(db, pick', f, row, t);
    SettledPlan(db, pick', f, rows);
  }

  /** The new requests of an import leave every history as mixed, or not, as it was. */
  lemma MixedIsOld(db: Db, base: Db, db1: Db, o: Overlay, f: Fingerprint, sources: set<SourceId>, row: Row)
    requires Consistent(db) && base.requests == db.requests && base.torrents == db.torrents && base.users == db.users
    requires Progress(base, db1, o, f, sources)
    ensures MixedRow(db1, row) <==> MixedRow(db, row)
  {
    if MixedRow(db1, row) { MixedWasOld(db, base, db1, o, f, sources, row); }
    if MixedRow(db, row) {
      var t :| t in db.torrents && db.torrents[t].hash == row.hash &&
        Mixed(db.requests, Owner(db.users[row.username].id, t));
      MixedStays(base.requests, db1.requests, Owner(db.users[row.username].id, t));
    }
  }

  lemma MixedWasOld(db: Db, base: Db, db1: Db, o: Overlay, f: Fingerprint, sources: set<SourceId>, row: Row)
    requires Consistent(db) && base.requests == db.requests && base.torrents == db.torrents && base.users == db.users
    requires Progress(base, db1, o, f, sources) && MixedRow(db1, row)
    ensures MixedRow(db, row)
  {
    var t :| t in db1.torrents && db1.torrents[t].hash == row.hash &&
      Mixed(db1.requests, Owner(db1.users[row.username].id, t));
    MixedBoth(base.requests, db1.requests, Owner(db1.users[row.username].id, t));
    assert t in db.torrents;
  }

  lemma MixedStays(base: map<RequestId, Request>, requests: map<RequestId, Request>, w: Owner)
    requires Mixed(base, w) && forall r :: r in base ==> r in requests && requests[r] == base[r]
    ensures Mixed(requests, w)
  {
    var r, s :| r in base && s in base && OwnerOf(base[r]) == w && OwnerOf(base[s]) == w
                && IsActive(base[r].state) && !IsActive(base[s].state);
    assert r in requests && s in requests && OwnerOf(requests[r]) == w && OwnerOf(requests[s]) == w;
  }

  lemma MixedBoth(base: map<RequestId, Request>, requests: map<RequestId, Request>, w: Owner)
    requires SoleOwners(base, requests) && Mixed(requests, w)
    requires forall r :: r in base ==> r in requests && requests[r] == base[r]
    ensures Mixed(base, w) && exists r :: r in base && base[r].torrent == w.torrent
  {
    var r, s :| r in requests && s in requests && OwnerOf(requests[r]) == w && OwnerOf(requests[s]) == w
                && IsActive(requests[r].state) && !IsActive(requests[s].state);
    assert r in base && s in base;
  }

  /** Whatever order the database returns request rows in, replaying writes nothing. */
  ghost predicate AlwaysReplays(db: Db, inv: Inventory, now: int)
    requires UniqueHashes(db.torrents)
  {
    forall q :: IsPick(db.requests, q) ==> Apply(db, q, inv, now) == (db, Replayed)
  }

  ghost predicate NoMixedHistory(db: Db, rows: seq<Row>) {
    forall i :: 0 <= i < |rows| ==> !MixedRow(db, rows[i])
  }

  lemma NoMixedIsOld(db: Db, base: Db, db1: Db, o: Overlay, f: Fingerprint, sources: set<SourceId>, rows: seq<Row>)
    requires Consistent(db) && base.requests == db.requests && base.torrents == db.torrents && base.users == db.users
    requires Progress(base, db1, o, f, sources)
    ensures NoMixedHistory(db1, rows) <==> NoMixedHistory(db, rows)
  {
    forall i | 0 <= i < |rows| ensures MixedRow(db1, rows[i]) <==> MixedRow(db, rows[i]) {
      MixedIsOld(db, base, db1, o, f, sources, rows[i]);
    }
  }

  /** Replaying a successful import is the idempotent branch under every row order exactly when no
      inventory row concerns an owner with both active and closed requests. */
  lemma ReplayIffNoMixedHistory(db: Db, pick: map<Owner, RequestId>, inv: Inventory, now: int, later: int)
    requires Consistent(db) && IsPick(db.requests, pick) && DistinctSources(inv.rows)
    requires Apply(db, pick, inv, now).1 == Fresh
    ensures var db1 := Apply(db, pick, inv, now).0;
            UniqueHashes(db1.torrents) && (AlwaysReplays(db1, inv, later) <==> NoMixedHistory(db, inv.rows))
  {
    FreshApply(db, pick, inv, now);
    var f, base := inv.fingerprint, WithRun(db, inv.fingerprint, now);
    var (o', actions) := PlanRows(f, base.users, Start(db, pick), inv.rows);
    ReplayFromLanded(db, base, WriteAll(base, f, actions), o', f, inv, later);
  }

  lemma ReplayFromLanded(db: Db, base: Db, db1: Db, o: Overlay, f: Fingerprint, inv: Inventory, later: int)
    requires Consistent(db) && base.requests == db.requests && base.torrents == db.torrents && base.users == db.users
    requires Progress(base, db1, o, f, Sources(inv.rows)) && f == inv.fingerprint && f in base.runs &&
             base.runs[f].status == Applied
    requires AllSettled(db1, inv.rows)
    ensures UniqueHashes(db1.torrents) && (AlwaysReplays(db1, inv, later) <==> NoMixedHistory(db, inv.rows))
  {
    ShownUnique(db1.torrents, o.torrents);
    NoMixedIsOld(db, base, db1, o, f, Sources(inv.rows), inv.rows);
    ShownPick(db1.requests, o.requests);
    ReplayIff(db1, map w | w in o.requests :: o.requests[w].id, inv, later);
  }

  lemma ShownPick(requests: map<RequestId, Request>, shown: map<Owner, PlannedRequest>)
    requires ShowsRequests(requests, shown)
    ensures IsPick(requests, map w | w in shown :: shown[w].id)
  {
  }

  lemma ReplayIff(db: Db, any: map<Owner, RequestId>, inv: Inventory, later: int)
    requires UniqueHashes(db.torrents) && AllSettled(db, inv.rows) && IsPick(db.requests, any)
    requires inv.fingerprint in db.runs && db.runs[inv.fingerprint].status == Applied
    ensures AlwaysReplays(db, inv, later) <==> NoMixedHistory(db, inv.rows)
  {
    if i :| 0 <= i < |inv.rows| && MixedRow(db, inv.rows[i]) {
      var q := MixedCanConflict(db, any, inv.fingerprint, inv.rows, i);
      assert Apply(db, q, inv, later).1 == NoLongerMatches;
    } else {
      forall q | IsPick(db.requests, q) ensures Apply(db, q, inv, later) == (db, Replayed) {
        QuietUnlessMixed(db, q, inv.fingerprint, inv.rows);
      }
    }
  }

  lemma ShownUnique(torrents: map<TorrentId, Torrent>, shown: map<InfoHash, PlannedTorrent>)
    requires ShowsTorrents(torrents, shown)
    ensures UniqueHashes(torrents)
  {
    forall s, t | s in torrents && t in torrents && s != t ensures torrents[s].hash != torrents[t].hash {
      assert shown[torrents[s].hash].id == s && shown[torrents[t].hash].id == t;
    }
  }

  /** A consistent database whose only owner has one active and one cancelled request. */
  function MixedExample(): Db {
    var owned := (s: RequestState) => Request(1, OtherTorrent(0), s, 0, 0);
    Db(map["ann" := User(1, true, false)],
       map[OtherTorrent(0) := Torrent("h", "n", 5, TorrentState.Ready, false, 0, 0)],
       map[OtherRequest(0) := owned(Active), OtherRequest(1) := owned(Cancelled)],
       map[], [], {}, {})
  }

  function ExampleRow(): Row { Row(7, "ann", "h", "n", 0) }

  function ExamplePick(): map<Owner, RequestId> { map[Owner(1, OtherTorrent(0)) := OtherRequest(0)] }

  lemma ExampleFacts()
    ensures Consistent(MixedExample()) && IsPick(MixedExample().requests, ExamplePick())
    ensures Settled(MixedExample(), ExampleRow()) && MixedRow(MixedExample(), ExampleRow())
  {
    var db, w := MixedExample(), Owner(1, OtherTorrent(0));
    assert HasActive(db, ExampleRow(), OtherTorrent(0), OtherRequest(0));
    assert OtherRequest(1) in db.requests && !IsActive(db.requests[OtherRequest(1)].state);
    assert Mixed(db.requests, w);
    assert OtherTorrent(0) in db.torrents;
  }

  /** The mixed case is real: this import succeeds, and replaying it can fail. */
  lemma ReplayCanFail(now: int, later: int)
    ensures var db, inv, pick := MixedExample(), Inventory("f", [ExampleRow()]), ExamplePick();
            && Consistent(db) && IsPick(db.requests, pick) && DistinctSources(inv.rows)
            && Apply(db, pick, inv, now).1 == Fresh
            && var db1 := Apply(db, pick, inv, now).0; UniqueHashes(db1.torrents) && !AlwaysReplays(db1, inv, later)
  {
    var db, inv, pick := MixedExample(), Inventory("f", [ExampleRow()]), ExamplePick();
    ExampleFacts();
    assert inv.rows[0] == ExampleRow();
    QuietExample(db, pick, inv);
    assert "f" !in db.runs;
    ReplayIffNoMixedHistory(db, pick, inv, now, later);
  }

  lemma QuietExample(db: Db, pick: map<Owner, RequestId>, inv: Inventory)
    requires UniqueHashes(db.torrents) && IsPick(db.requests, pick) && Settled(db, ExampleRow()) &&
             inv.rows == [ExampleRow()]
    requires db == MixedExample() && pick == ExamplePick()
    ensures !HasConflict(Plan(db, pick, inv))
  {
    SettledRowPlan(db, pick, inv.fingerprint, ExampleRow());
    SettledPlan(db, pick, inv.fingerprint, inv.rows);
  }

  // ----- Each new infohash is created once, before anything attaches to it

  ghost predicate Creates(actions: seq<Action>, i: int, h: InfoHash) {
    0 <= i < |actions| && actions[i].Create? && actions[i].newTorrent && actions[i].hash == h
  }

  /** Beyond the known torrents, the overlay shows exactly what the actions create. */
  ghost predicate Covers(known: map<InfoHash, PlannedTorrent>, shown: map<InfoHash, PlannedTorrent>,
                         actions: seq<Action>) {
    && (forall h :: h in shown ==> h in known || exists i :: Creates(actions, i, h))
    && (forall i, h :: Creates(actions, i, h) ==> h !in known && h in shown && shown[h].id == actions[i].torrent)
    && (forall h :: h in known ==> h in shown && shown[h] == known[h])
  }

  /** Action `j`, about row `j`, uses the torrent of its hash: the known one, or the one created by then. */
  ghost predicate Attaches(known: map<InfoHash, PlannedTorrent>, rows: seq<Row>, actions: seq<Action>, j: nat)
    requires j < |actions| == |rows|
  {
    var h := rows[j].hash;
    && !actions[j].Conflict?
    && if h in known then actions[j].torrent == known[h].id
       else exists i :: i <= j && Creates(actions, i, h) && actions[i].torrent == actions[j].torrent
  }

  /** The creating action of each hash is unique and stands before every other action on its torrent. */
  ghost predicate CreatedOnce(known: map<InfoHash, PlannedTorrent>, shown: map<InfoHash, PlannedTorrent>,
                              rows: seq<Row>, actions: seq<Action>) {
    && |rows| == |actions|
    && Covers(known, shown, actions)
    && (forall i, j, h :: Creates(actions, i, h) && Creates(actions, j, h) ==> i == j)
    && (forall j :: 0 <= j < |actions| ==> Attaches(known, rows, actions, j))
  }

  lemma CreatesAppend(actions: seq<Action>, a: Action, i: int, h: InfoHash)
    ensures Creates(actions + [a], i, h) <==> Creates(actions, i, h) || (i == |actions| && Creates([a], 0, h))
    ensures Creates(actions, i, h) ==> (actions + [a])[i] == actions[i]
  {
  }

  lemma CoversGrows(known: map<InfoHash, PlannedTorrent>, shown: map<InfoHash, PlannedTorrent>,
                    shown': map<InfoHash, PlannedTorrent>,
                    actions: seq<Action>, a: Action, p: PlannedTorrent)
    requires Covers(known, shown, actions) && a.Create? && p.id == a.torrent
    requires if a.newTorrent then a.hash !in shown && shown' == shown[a.hash := p] else shown' == shown
    ensures Covers(known, shown', actions + [a])
  {
    var all := actions + [a];
    forall h | h in shown' && h !in known ensures exists i :: Creates(all, i, h) {
      if h in shown {
        var i :| Creates(actions, i, h);
        CreatesAppend(actions, a, i, h);
      } else {
        CreatesAppend(actions, a, |actions|, h);
      }
    }
    forall i, h | Creates(all, i, h) ensures h !in known && h in shown' && shown'[h].id == all[i].torrent {
      CreatesAppend(actions, a, i, h);
    }
  }

  lemma AttachesKeeps(known: map<InfoHash, PlannedTorrent>, rows: seq<Row>, actions: seq<Action>, row: Row, a: Action,
                      j: nat)
    requires j < |actions| == |rows| && Attaches(known, rows, actions, j)
    ensures Attaches(known, rows + [row], actions + [a], j)
  {
    var all, h := actions + [a], rows[j].hash;
    assert (rows + [row])[j].hash == h;
    if h !in known {
      var i :| i <= j && Creates(actions, i, h) && actions[i].torrent == actions[j].torrent;
      assert i <= j && Creates(all, i, h) && all[i].torrent == all[j].torrent;
    }
  }

  /** One more action, on the torrent that the overlay shows for its row, keeps all of this. */
  lemma CreatedOnceGrows(known: map<InfoHash, PlannedTorrent>, shown: map<InfoHash, PlannedTorrent>,
                         shown': map<InfoHash, PlannedTorrent>, rows: seq<Row>, actions: seq<Action>, row: Row,
                           a: Action)
    requires CreatedOnce(known, shown, rows, actions) && !a.Conflict? && Covers(known, shown', actions + [a])
    requires row.hash in shown' && shown'[row.hash].id == a.torrent
    requires Creates([a], 0, row.hash) ==> row.hash !in shown
    requires a.Create? ==> a.hash == row.hash
    ensures CreatedOnce(known, shown', rows + [row], actions + [a])
  {
    var all, more := actions + [a], rows + [row];
    forall i, j, h | Creates(all, i, h) && Creates(all, j, h) ensures i == j {
      CreatesAppend(actions, a, i, h);
      CreatesAppend(actions, a, j, h);
    }
    forall j | 0 <= j < |all| ensures Attaches(known, more, all, j) {
      if j < |actions| {
        AttachesKeeps(known, rows, actions, row, a, j);
      } else if row.hash !in known {
        var i :| Creates(all, i, row.hash);
        assert more[j].hash == row.hash && i <= j;
      }
    }
  }

  lemma CoversKeeps(known: map<InfoHash, PlannedTorrent>, shown: map<InfoHash, PlannedTorrent>, actions: seq<Action>,
                    a: Action)
    requires Covers(known, shown, actions) && !a.Create?
    ensures Covers(known, shown, actions + [a])
  {
    var all := actions + [a];
    forall i, h ensures Creates(actions, i, h) <==> Creates(all, i, h) { CreatesAppend(actions, a, i, h); }
    forall h | h in shown && h !in known ensures exists i :: Creates(all, i, h) {
      var i :| Creates(actions, i, h);
      assert Creates(all, i, h);
    }
  }

  /** An unchanged row uses the torrent that the overlay shows for its hash. */
  lemma UnchangedUses(f: Fingerprint, users: map<Username, User>, o: Overlay, row: Row)
    requires PlanRow(f, users, o, row).1.Unchanged? && PlanRow(f, users, o, row).0 == o
    ensures row.hash in o.torrents && o.torrents[row.hash].id == PlanRow(f, users, o, row).1.torrent
  {
  }

  lemma {:induction false} PlanCreatesOnce(base: Db, o: Overlay, f: Fingerprint, rows: seq<Row>)
    requires Progress(base, base, o, f, {}) && Unseen(base, f) && DistinctSources(rows)
    requires !HasConflict(PlanRows(f, base.users, o, rows).1)
    ensures var (o', actions) := PlanRows(f, base.users, o, rows); CreatedOnce(o.torrents, o'.torrents, rows, actions)
  {
    if rows == [] {
    } else {
      var prefix, row := rows[..|rows| - 1], rows[|rows| - 1];
      PlanSplit(f, base.users, o, base, rows);
      PlanCreatesOnce(base, o, f, prefix);
      UnchangedKeepsOverlay(base, o, f, prefix, row);
      var (o1, actions) := PlanRows(f, base.users, o, prefix);
      OneMoreOnce(f, base.users, o.torrents, o1, prefix, actions, row);
      assert prefix + [row] == rows;
    }
  }

  lemma UnchangedKeepsOverlay(base: Db, o: Overlay, f: Fingerprint, prefix: seq<Row>, row: Row)
    requires Progress(base, base, o, f, {}) && Unseen(base, f) && DistinctSources(prefix)
    requires !HasConflict(PlanRows(f, base.users, o, prefix).1)
    ensures var (o1, actions) := PlanRows(f, base.users, o, prefix);
            PlanRow(f, base.users, o1, row).1.Unchanged? ==> PlanRow(f, base.users, o1, row).0 == o1
  {
    var (o1, actions) := PlanRows(f, base.users, o, prefix);
    if PlanRow(f, base.users, o1, row).1.Unchanged? {
      PlanAndWrite(base, o, f, prefix);
      WriteUnchanged(base, WriteAll(base, f, actions), o1, f, Sources(prefix), row);
    }
  }

  lemma OneMoreOnce(f: Fingerprint, users: map<Username, User>, known: map<InfoHash, PlannedTorrent>, o: Overlay,
                    rows: seq<Row>, actions: seq<Action>, row: Row)
    requires CreatedOnce(known, o.torrents, rows, actions) && !PlanRow(f, users, o, row).1.Conflict?
    requires PlanRow(f, users, o, row).1.Unchanged? ==> PlanRow(f, users, o, row).0 == o
    ensures var (o', a) := PlanRow(f, users, o, row); CreatedOnce(known, o'.torrents, rows + [row], actions + [a])
  {
    if PlanRow(f, users, o, row).1.Create? {
      CreateOnce(f, users, known, o, rows, actions, row);
    } else {
      UnchangedOnce(f, users, known, o, rows, actions, row);
    }
  }

  lemma CreateOnce(f: Fingerprint, users: map<Username, User>, known: map<InfoHash, PlannedTorrent>, o: Overlay,
                   rows: seq<Row>, actions: seq<Action>, row: Row)
    requires CreatedOnce(known, o.torrents, rows, actions) && PlanRow(f, users, o, row).1.Create?
    ensures var (o', a) := PlanRow(f, users, o, row); CreatedOnce(known, o'.torrents, rows + [row], actions + [a])
  {
    var (o', a) := PlanRow(f, users, o, row);
    PlanCreate(f, users, o, row);
    CoversGrows(known, o.torrents, o'.torrents, actions, a, Shown(a.torrent, Placeholder(a)));
    CreatedOnceGrows(known, o.torrents, o'.torrents, rows, actions, row, a);
  }

  lemma UnchangedOnce(f: Fingerprint, users: map<Username, User>, known: map<InfoHash, PlannedTorrent>, o: Overlay,
                      rows: seq<Row>, actions: seq<Action>, row: Row)
    requires CreatedOnce(known, o.torrents, rows, actions)
    requires PlanRow(f, users, o, row).1.Unchanged? && PlanRow(f, users, o, row).0 == o
    ensures CreatedOnce(known, o.torrents, rows + [row], actions + [PlanRow(f, users, o, row).1])
  {
    var a := PlanRow(f, users, o, row).1;
    UnchangedUses(f, users, o, row);
    CoversKeeps(known, o.torrents, actions, a);
    CreatedOnceGrows(known, o.torrents, o.torrents, rows, actions, row, a);
  }

  /** No hash is created twice; an action on a hash not yet known, whether it creates a request or finds
      one unchanged, comes with or after the creation and uses the created torrent; one on a known hash
      uses the stored torrent. */
  ghost predicate OncePerHash(torrents: map<TorrentId, Torrent>, known: map<InfoHash, PlannedTorrent>,
                              rows: seq<Row>, actions: seq<Action>) {
    && |rows| == |actions|
    && (forall i, j, h :: Creates(actions, i, h) && Creates(actions, j, h) ==> i == j)
    && (forall i, h :: Creates(actions, i, h) ==> h !in known && rows[i].hash == h)
    && (forall j :: 0 <= j < |actions| ==> !actions[j].Conflict?)
    && (forall j :: 0 <= j < |actions| && rows[j].hash !in known ==>
          exists i :: i <= j && Creates(actions, i, rows[j].hash) && actions[i].torrent == actions[j].torrent)
    && (forall j :: 0 <= j < |actions| && rows[j].hash in known ==>
          actions[j].torrent == known[rows[j].hash].id && actions[j].torrent in torrents)
  }

  /** In a successful apply every infohash not yet stored has exactly one creating action, no earlier
      action concerns it, and every later one attaches to the torrent it created. */
  lemma EachHashCreatedOnce(db: Db, pick: map<Owner, RequestId>, inv: Inventory, now: int)
    requires Consistent(db) && IsPick(db.requests, pick) && DistinctSources(inv.rows)
    requires Apply(db, pick, inv, now).1 == Fresh
    ensures OncePerHash(db.torrents, Start(db, pick).torrents, inv.rows, Plan(db, pick, inv))
  {
    var o := Start(db, pick);
    PlanIsCreatedOnce(db, pick, inv, now);
    StartIds(db, pick);
    CreatesOwnHash(inv.fingerprint, db.users, o, inv.rows);
    Unpack(db.torrents, o.torrents, PlanRows(inv.fingerprint, db.users, o, inv.rows).0.torrents, inv.rows,
      Plan(db, pick, inv));
  }

  lemma {:induction false} CreatesOwnHash(f: Fingerprint, users: map<Username, User>, o: Overlay, rows: seq<Row>)
    ensures var actions := PlanRows(f, users, o, rows).1;
            forall i :: 0 <= i < |rows| && actions[i].Create? ==> actions[i].hash == rows[i].hash
  {
    if rows == [] {
    } else {
      CreatesOwnHash(f, users, o, rows[..|rows| - 1]);
    }
  }

  lemma PlanIsCreatedOnce(db: Db, pick: map<Owner, RequestId>, inv: Inventory, now: int)
    requires Consistent(db) && IsPick(db.requests, pick) && DistinctSources(inv.rows)
    requires Apply(db, pick, inv, now).1 == Fresh
    ensures var (o', actions) := PlanRows(inv.fingerprint, db.users, Start(db, pick), inv.rows);
            CreatedOnce(Start(db, pick).torrents, o'.torrents, inv.rows, actions)
  {
    FreshPlan(db, inv.fingerprint, Plan(db, pick, inv), now);
    StartProgress(db, pick, inv.fingerprint, now);
    PlanCreatesOnce(WithRun(db, inv.fingerprint, now), Start(db, pick), inv.fingerprint, inv.rows);
  }

  lemma StartIds(db: Db, pick: map<Owner, RequestId>)
    requires UniqueHashes(db.torrents) && IsPick(db.requests, pick)
    ensures forall h :: h in Start(db, pick).torrents ==> Start(db, pick).torrents[h].id in db.torrents
  {
  }

  lemma Unpack(torrents: map<TorrentId, Torrent>, known: map<InfoHash, PlannedTorrent>,
               shown: map<InfoHash, PlannedTorrent>, rows: seq<Row>, actions: seq<Action>)
    requires CreatedOnce(known, shown, rows, actions) && forall h :: h in known ==> known[h].id in torrents
    requires forall i :: 0 <= i < |rows| && actions[i].Create? ==> actions[i].hash == rows[i].hash
    ensures OncePerHash(torrents, known, rows, actions)
  {
    forall j | 0 <= j < |actions|
      ensures !actions[j].Conflict?
      ensures rows[j].hash in known ==> actions[j].torrent == known[rows[j].hash].id
      ensures rows[j].hash !in known ==>
                exists i :: i <= j && Creates(actions, i, rows[j].hash) && actions[i].torrent == actions[j].torrent
    {
      assert Attaches(known, rows, actions, j);
    }
  }

  // ----- Exactly when a plan has no conflict

  /** The torrents after planning `rows` without a conflict: those that were known, and every row's. */
  ghost predicate PlannedTorrents(f: Fingerprint, known: map<InfoHash, PlannedTorrent>,
                                  shown: map<InfoHash, PlannedTorrent>, rows: seq<Row>) {
    && (forall h :: h in known ==> h in shown && shown[h] == known[h])
    && (forall h :: h in shown && h !in known ==>
          && shown[h].id == ImportedTorrent(f, h) && shown[h].state == Error
          && exists j :: 0 <= j < |rows| && rows[j].hash == h)
    && (forall j :: 0 <= j < |rows| ==> rows[j].hash in shown && shown[rows[j].hash].name == rows[j].name)
  }

  /** The requests after it: those that were known, and active ones. */
  ghost predicate PlannedRequests(known: map<Owner, PlannedRequest>, shown: map<Owner, PlannedRequest>) {
    && (forall w :: w in known ==> w in shown && shown[w] == known[w])
    && (forall w :: w in shown && w !in known ==> IsActive(shown[w].state))
  }

  ghost predicate Planned(f: Fingerprint, o: Overlay, o1: Overlay, rows: seq<Row>) {
    PlannedTorrents(f, o.torrents, o1.torrents, rows) && PlannedRequests(o.requests, o1.requests)
  }

  /** What row `k` needs: a live account; a known torrent of the same name that is not being purged, or for
      a new one the name that earlier rows give it; and no closed request as the one found for its owner. */
  ghost predicate RowFits(f: Fingerprint, users: map<Username, User>, o: Overlay, rows: seq<Row>, k: nat)
    requires k < |rows|
  {
    var row := rows[k];
    && row.username in users && users[row.username].active && !users[row.username].deleted
    && var t := if row.hash in o.torrents then o.torrents[row.hash].id else ImportedTorrent(f, row.hash);
       var w := Owner(users[row.username].id, t);
       && (row.hash in o.torrents ==> o.torrents[row.hash].name == row.name && !Terminal(o.torrents[row.hash].state))
       && (row.hash !in o.torrents ==> forall j :: 0 <= j < k && rows[j].hash == row.hash ==> rows[j].name == row.name)
       && (w in o.requests ==> IsActive(o.requests[w].state))
  }

  lemma RowConflictIff(f: Fingerprint, users: map<Username, User>, o: Overlay, o1: Overlay, rows: seq<Row>)
    requires rows != [] && Planned(f, o, o1, rows[..|rows| - 1])
    ensures PlanRow(f, users, o1, rows[|rows| - 1]).1.Conflict? <==> !RowFits(f, users, o, rows, |rows| - 1)
  {
    var k := |rows| - 1;
    var row, prefix := rows[k], rows[..k];
    assert forall j :: 0 <= j < k ==> prefix[j] == rows[j];
    if row.hash in o1.torrents && row.hash !in o.torrents {
      var j :| 0 <= j < |prefix| && prefix[j].hash == row.hash;
      assert rows[j].hash == row.hash && o1.torrents[row.hash].name == rows[j].name;
    }
  }

  /** What planning a row without a conflict does to the overlay. */
  lemma PlanRowGrows(f: Fingerprint, users: map<Username, User>, o: Overlay, row: Row)
    requires !PlanRow(f, users, o, row).1.Conflict?
    ensures var o' := PlanRow(f, users, o, row).0;
            && (if row.hash in o.torrents then o'.torrents == o.torrents && o.torrents[row.hash].name == row.name
                else o'.torrents == o.torrents[row.hash := PlannedTorrent(ImportedTorrent(f, row.hash), row.name,
                  Error)])
            && (o'.requests == o.requests ||
                exists w, r :: w !in o.requests && o'.requests == o.requests[w := PlannedRequest(r, Requested)])
  {
  }

  lemma TorrentsGrow(f: Fingerprint, known: map<InfoHash, PlannedTorrent>, shown: map<InfoHash, PlannedTorrent>,
                     shown': map<InfoHash, PlannedTorrent>, prefix: seq<Row>, row: Row)
    requires PlannedTorrents(f, known, shown, prefix)
    requires if row.hash in shown then shown' == shown && shown[row.hash].name == row.name
             else shown' == shown[row.hash := PlannedTorrent(ImportedTorrent(f, row.hash), row.name, Error)]
    ensures PlannedTorrents(f, known, shown', prefix + [row])
  {
    var rows := prefix + [row];
    forall h | h in shown' && h !in known ensures exists j :: 0 <= j < |rows| && rows[j].hash == h {
      if h in shown {
        var j :| 0 <= j < |prefix| && prefix[j].hash == h;
        assert rows[j].hash == h;
      } else {
        assert rows[|prefix|].hash == h;
      }
    }
  }

  lemma PlannedGrows(f: Fingerprint, users: map<Username, User>, o: Overlay, o1: Overlay, prefix: seq<Row>, row: Row)
    requires Planned(f, o, o1, prefix) && !PlanRow(f, users, o1, row).1.Conflict?
    ensures Planned(f, o, PlanRow(f, users, o1, row).0, prefix + [row])
  {
    PlanRowGrows(f, users, o1, row);
    TorrentsGrow(f, o.torrents, o1.torrents, PlanRow(f, users, o1, row).0.torrents, prefix, row);
  }

  ghost predicate AllFit(f: Fingerprint, users: map<Username, User>, o: Overlay, rows: seq<Row>) {
    forall k :: 0 <= k < |rows| ==> RowFits(f, users, o, rows, k)
  }

  lemma AllFitSplit(f: Fingerprint, users: map<Username, User>, o: Overlay, rows: seq<Row>)
    requires rows != []
    ensures AllFit(f, users, o, rows)
            <==> AllFit(f, users, o, rows[..|rows| - 1]) && RowFits(f, users, o, rows, |rows| - 1)
  {
    var n := |rows| - 1;
    forall k | 0 <= k < n ensures RowFits(f, users, o, rows, k)
      <==> RowFits(f, users, o, rows[..n], k) { SameFit(f, users, o, rows, n, k); }
  }

  /** A plan has no conflict if and only if every row fits: in particular several owners of one new hash
      never conflict when they agree on its name. */
  lemma {:induction false} PlanFitsIff(f: Fingerprint, users: map<Username, User>, o: Overlay, rows: seq<Row>)
    ensures !HasConflict(PlanRows(f, users, o, rows).1) <==> AllFit(f, users, o, rows)
    ensures !HasConflict(PlanRows(f, users, o, rows).1) ==> Planned(f, o, PlanRows(f, users, o, rows).0, rows)
  {
    if rows == [] {
    } else {
      var n := |rows| - 1;
      var prefix := rows[..n];
      PlanFitsIff(f, users, o, prefix);
      var (o1, actions) := PlanRows(f, users, o, prefix);
      AllFitSplit(f, users, o, rows);
      ConflictAppend(actions, PlanRow(f, users, o1, rows[n]).1);
      if !HasConflict(actions) {
        RowConflictIff(f, users, o, o1, rows);
        if !PlanRow(f, users, o1, rows[n]).1.Conflict? { PlannedGrows(f, users, o, o1, prefix, rows[n]); }
        assert rows == prefix + [rows[n]];
      }
    }
  }

  lemma SameFit(f: Fingerprint, users: map<Username, User>, o: Overlay, rows: seq<Row>, n: nat, k: nat)
    requires k < n <= |rows|
    ensures RowFits(f, users, o, rows, k) <==> RowFits(f, users, o, rows[..n], k)
  {
  }

  lemma ConflictAppend(actions: seq<Action>, a: Action)
    ensures HasConflict(actions + [a]) <==> HasConflict(actions) || a.Conflict?
  {
    if HasConflict(actions) {
      var i :| 0 <= i < |actions| && actions[i].Conflict?;
      assert (actions + [a])[i].Conflict?;
    }
    if a.Conflict? { assert (actions + [a])[|actions|].Conflict?; }
  }

  /** An inventory never seen before is applied exactly when every row fits the stored rows. */
  lemma FreshIff(db: Db, pick: map<Owner, RequestId>, inv: Inventory, now: int)
    requires UniqueHashes(db.torrents) && IsPick(db.requests, pick) && inv.fingerprint !in db.runs
    ensures Apply(db, pick, inv, now).1 == Fresh <==> AllFit(inv.fingerprint, db.users, Start(db, pick), inv.rows)
    ensures Apply(db, pick, inv, now).1 != Fresh ==> Apply(db, pick, inv, now) == (db, Conflicts)
  {
    PlanFitsIff(inv.fingerprint, db.users, Start(db, pick), inv.rows);
  }

  // ----- What is written, and what a refusal means

  /** Every action is about its own row. */
  lemma {:induction false} ActionsMatchRows(f: Fingerprint, users: map<Username, User>, o: Overlay, rows: seq<Row>,
                                            k: nat)
    requires k < |rows|
    ensures var a, row := PlanRows(f, users, o, rows).1[k], rows[k];
            && a.source == row.source
            && (a.Create? ==>
                  && row.username in users && a.user == users[row.username].id
                  && a.request == ImportedRequest(f, row.source)
                  && a.hash == row.hash && a.name == row.name && a.created == row.created
                  && (a.newTorrent ==> a.torrent == ImportedTorrent(f, row.hash)))
  {
    var n := |rows| - 1;
    if k == n {
    } else {
      ActionsMatchRows(f, users, o, rows[..n], k);
    }
  }

  lemma {:induction false} RequestStaysWritten(db: Db, f: Fingerprint, actions: seq<Action>, i: nat)
    requires i < |actions| && actions[i].Create?
    requires forall j :: i < j < |actions| && actions[j].Create? ==> actions[j].request != actions[i].request
    ensures var after, a := WriteAll(db, f, actions), actions[i];
            && a.request in after.requests
            && after.requests[a.request] == Request(a.user, a.torrent, Requested, a.created, a.created)
            && Item(f, a.source, a.user, a.torrent, a.request, a.newTorrent) in after.items
  {
    var n := |actions| - 1;
    if i == n {
    } else {
      RequestStaysWritten(db, f, actions[..n], i);
    }
  }

  lemma {:induction false} TorrentStaysWritten(db: Db, f: Fingerprint, actions: seq<Action>, i: nat)
    requires i < |actions| && actions[i].Create? && actions[i].newTorrent
    requires forall j :: i < j < |actions| && actions[j].Create? && actions[j].newTorrent ==>
               actions[j].torrent != actions[i].torrent
    ensures var after, a := WriteAll(db, f, actions), actions[i];
            && a.torrent in after.torrents
            && after.torrents[a.torrent] == Torrent(a.hash, a.name, 0, Error, true, a.created, a.created)
  {
    var n := |actions| - 1;
    if i == n {
    } else {
      TorrentStaysWritten(db, f, actions[..n], i);
    }
  }

  /** What a fresh apply stores for a row that creates a request: a request of the row's account, dated as the
      row, and for a new hash a placeholder of the row's name, dated as the row. */
  lemma WrittenForRow(db: Db, pick: map<Owner, RequestId>, inv: Inventory, now: int, k: nat)
    requires Consistent(db) && IsPick(db.requests, pick) && DistinctSources(inv.rows)
    requires Apply(db, pick, inv, now).1 == Fresh && k < |inv.rows| && Plan(db, pick, inv)[k].Create?
    ensures var f, row, a, after := inv.fingerprint, inv.rows[k], Plan(db, pick, inv)[k], Apply(db, pick, inv, now).0;
            && row.username in db.users && ImportedRequest(f, row.source) in after.requests
            && after.requests[ImportedRequest(f, row.source)]
               == Request(db.users[row.username].id, a.torrent, Requested, row.created, row.created)
            && Item(f, row.source, db.users[row.username].id, a.torrent, ImportedRequest(f, row.source),
              a.newTorrent) in after.items
            && (a.newTorrent ==>
                  && a.torrent == ImportedTorrent(f, row.hash) && a.torrent in after.torrents
                  && after.torrents[a.torrent] == Torrent(row.hash, row.name, 0, Error, true, row.created, row.created))
  {
    var f, o, actions := inv.fingerprint, Start(db, pick), Plan(db, pick, inv);
    FreshPlan(db, f, actions, now);
    ActionsMatchRows(f, db.users, o, inv.rows, k);
    forall j | k < j < |actions| && actions[j].Create? ensures actions[j].request != actions[k].request {
      ActionsMatchRows(f, db.users, o, inv.rows, j);
    }
    RequestStaysWritten(WithRun(db, f, now), f, actions, k);
    if actions[k].newTorrent { PlaceholderStays(db, pick, inv, now, k); }
  }

  lemma PlaceholderStays(db: Db, pick: map<Owner, RequestId>, inv: Inventory, now: int, k: nat)
    requires Consistent(db) && IsPick(db.requests, pick) && DistinctSources(inv.rows)
    requires Apply(db, pick, inv, now).1 == Fresh && k < |inv.rows|
    requires Plan(db, pick, inv)[k].Create? && Plan(db, pick, inv)[k].newTorrent
    ensures var a, after := Plan(db, pick, inv)[k], Apply(db, pick, inv, now).0;
            a.torrent in after.torrents &&
              after.torrents[a.torrent] == Torrent(a.hash, a.name, 0, Error, true, a.created, a.created)
  {
    var f, o, actions := inv.fingerprint, Start(db, pick), Plan(db, pick, inv);
    FreshPlan(db, f, actions, now);
    EachHashCreatedOnce(db, pick, inv, now);
    ActionsMatchRows(f, db.users, o, inv.rows, k);
    forall j | k < j < |actions| && actions[j].Create? &&
      actions[j].newTorrent ensures actions[j].torrent != actions[k].torrent {
      ActionsMatchRows(f, db.users, o, inv.rows, j);
      assert Creates(actions, j, actions[j].hash) && Creates(actions, k, actions[k].hash);
    }
    TorrentStaysWritten(WithRun(db, f, now), f, actions, k);
  }

  /** The torrents that planning knows beyond the stored ones come from earlier rows. */
  ghost predicate TorrentsFrom(f: Fingerprint, known: map<InfoHash, PlannedTorrent>,
                               shown: map<InfoHash, PlannedTorrent>,
                               rows: seq<Row>) {
    && (forall h :: h in known ==> h in shown && shown[h] == known[h])
    && (forall h :: h in shown && h !in known ==>
          && shown[h].id == ImportedTorrent(f, h) && shown[h].state == Error
          && exists j :: 0 <= j < |rows| && rows[j].hash == h && rows[j].name == shown[h].name)
  }

  ghost predicate FromRows(f: Fingerprint, o: Overlay, o1: Overlay, rows: seq<Row>) {
    TorrentsFrom(f, o.torrents, o1.torrents, rows) && PlannedRequests(o.requests, o1.requests)
  }

  lemma {:induction false} OverlayFromRows(f: Fingerprint, users: map<Username, User>, o: Overlay, rows: seq<Row>)
    ensures FromRows(f, o, PlanRows(f, users, o, rows).0, rows)
  {
    if rows == [] {
    } else {
      var n := |rows| - 1;
      OverlayFromRows(f, users, o, rows[..n]);
      FromOneMoreRow(f, users, o, PlanRows(f, users, o, rows[..n]).0, rows[..n], rows[n]);
      assert rows == rows[..n] + [rows[n]];
    }
  }

  /** What planning any row does to the overlay. */
  lemma PlanRowShape(f: Fingerprint, users: map<Username, User>, o: Overlay, row: Row)
    ensures var o' := PlanRow(f, users, o, row).0;
            && (|| o'.torrents == o.torrents
                || (row.hash !in o.torrents &&
                    o'.torrents == o.torrents[row.hash := PlannedTorrent(ImportedTorrent(f, row.hash), row.name,
                      Error)]))
            && (|| o'.requests == o.requests
                || exists w, r :: w !in o.requests && o'.requests == o.requests[w := PlannedRequest(r, Requested)])
  {
  }

  lemma FromOneMoreRow(f: Fingerprint, users: map<Username, User>, o: Overlay, o1: Overlay, prefix: seq<Row>, row: Row)
    requires FromRows(f, o, o1, prefix)
    ensures FromRows(f, o, PlanRow(f, users, o1, row).0, prefix + [row])
  {
    PlanRowShape(f, users, o1, row);
    TorrentsFromMore(f, o.torrents, o1.torrents, PlanRow(f, users, o1, row).0.torrents, prefix, row);
  }

  lemma TorrentsFromMore(f: Fingerprint, known: map<InfoHash, PlannedTorrent>, shown: map<InfoHash, PlannedTorrent>,
                         shown': map<InfoHash, PlannedTorrent>, prefix: seq<Row>, row: Row)
    requires TorrentsFrom(f, known, shown, prefix)
    requires || shown' == shown
             || (row.hash !in shown &&
               shown' == shown[row.hash := PlannedTorrent(ImportedTorrent(f, row.hash), row.name, Error)])
    ensures TorrentsFrom(f, known, shown', prefix + [row])
  {
    var rows := prefix + [row];
    forall h | h in shown' && h !in known
      ensures exists j :: 0 <= j < |rows| && rows[j].hash == h && rows[j].name == shown'[h].name
    {
      if h in shown {
        var j :| 0 <= j < |prefix| && prefix[j].hash == h && prefix[j].name == shown[h].name;
        assert rows[j] == prefix[j];
      } else {
        assert rows[|prefix|] == row;
      }
    }
  }

  /** The owner that a row is looked up by. */
  ghost function OwnerFor(f: Fingerprint, users: map<Username, User>, o: Overlay, row: Row): Owner
    requires row.username in users
  {
    Owner(users[row.username].id, if row.hash in o.torrents then o.torrents[row.hash].id
      else ImportedTorrent(f, row.hash))
  }

  /** What the code of a conflict tells: about the account, the name, the stored torrent or the request found. */
  lemma ConflictMeans(f: Fingerprint, users: map<Username, User>, o: Overlay, rows: seq<Row>, k: nat)
    requires k < |rows| && PlanRows(f, users, o, rows).1[k].Conflict?
    ensures var row, code := rows[k], PlanRows(f, users, o, rows).1[k].code;
            && (code == TargetUserMissing <==> row.username !in users)
            && (code == TargetUserInactive <==>
                  row.username in users && (!users[row.username].active || users[row.username].deleted))
            && (code == CanonicalNameConflict ==>
                  || (row.hash in o.torrents && o.torrents[row.hash].name != row.name)
                  || (exists j :: 0 <= j < k && rows[j].hash == row.hash && rows[j].name != row.name))
            && (code == TargetTorrentTerminal ==>
                  row.hash in o.torrents &&
                    (o.torrents[row.hash].state == Purging || o.torrents[row.hash].state == Purged))
            && (code == RequestHistoryConflict ==>
                  && row.username in users && OwnerFor(f, users, o, row) in o.requests
                  && var state := o.requests[OwnerFor(f, users, o, row)].state; state == Cancelled || state == Expired)
  {
    RowActionOf(f, users, o, rows, k);
    var prefix := rows[..k];
    OverlayFromRows(f, users, o, prefix);
    RowConflictMeans(f, users, o, PlanRows(f, users, o, prefix).0, prefix, rows[k]);
    if PlanRows(f, users, o, rows).1[k].code == CanonicalNameConflict && rows[k].hash !in o.torrents {
      var j :| 0 <= j < |prefix| && prefix[j].hash == rows[k].hash && prefix[j].name != rows[k].name;
      assert rows[j] == prefix[j];
    }
  }

  lemma {:induction false} RowActionOf(f: Fingerprint, users: map<Username, User>, o: Overlay, rows: seq<Row>, k: nat)
    requires k < |rows|
    ensures PlanRows(f, users, o, rows).1[k] == PlanRow(f, users, PlanRows(f, users, o, rows[..k]).0, rows[k]).1
  {
    var n := |rows| - 1;
    if k == n {
    } else {
      RowActionOf(f, users, o, rows[..n], k);
      assert rows[..n][..k] == rows[..k];
    }
  }

  lemma RowConflictMeans(f: Fingerprint, users: map<Username, User>, o: Overlay, o1: Overlay, prefix: seq<Row>,
                         row: Row)
    requires FromRows(f, o, o1, prefix) && PlanRow(f, users, o1, row).1.Conflict?
    ensures var code := PlanRow(f, users, o1, row).1.code;
            && (code == TargetUserMissing <==> row.username !in users)
            && (code == TargetUserInactive <==>
                  row.username in users && (!users[row.username].active || users[row.username].deleted))
            && (code == CanonicalNameConflict ==>
                  if row.hash in o.torrents then o.torrents[row.hash].name != row.name
                  else exists j :: 0 <= j < |prefix| && prefix[j].hash == row.hash && prefix[j].name != row.name)
            && (code == TargetTorrentTerminal ==>
                  row.hash in o.torrents &&
                    (o.torrents[row.hash].state == Purging || o.torrents[row.hash].state == Purged))
            && (code == RequestHistoryConflict ==>
                  && row.username in users && OwnerFor(f, users, o, row) in o.requests
                  && var state := o.requests[OwnerFor(f, users, o, row)].state; state == Cancelled || state == Expired)
  {
    var code := PlanRow(f, users, o1, row).1.code;
    if code == CanonicalNameConflict && row.hash !in o.torrents {
      var j :| 0 <= j < |prefix| && prefix[j].hash == row.hash && prefix[j].name == o1.torrents[row.hash].name;
    }
    if code == RequestHistoryConflict {
      var w := OwnerFor(f, users, o, row);
      assert w in o1.requests && !IsActive(o1.requests[w].state);
    }
  }

  /** The answer of an apply, and that only a fresh one writes. */
  lemma ApplyAnswers(db: Db, pick: map<Owner, RequestId>, inv: Inventory, now: int)
    requires UniqueHashes(db.torrents) && IsPick(db.requests, pick)
    ensures var (after, r), f, actions := Apply(db, pick, inv, now), inv.fingerprint, Plan(db, pick, inv);
            && (r == WasRolledBack <==> f in db.runs && db.runs[f].status == RolledBack)
            && (r == Replayed <==>
                  && f in db.runs && db.runs[f].status == Applied
                  && forall i :: 0 <= i < |actions| ==> actions[i].Unchanged?)
            && (r == NoLongerMatches <==>
                  && f in db.runs && db.runs[f].status == Applied
                  && exists i :: 0 <= i < |actions| && !actions[i].Unchanged?)
            && (r == Conflicts <==> f !in db.runs && exists i :: 0 <= i < |actions| && actions[i].Conflict?)
            && (r != Fresh ==> after == db)
  {
    var actions := Plan(db, pick, inv);
    if exists i :: 0 <= i < |actions| && !actions[i].Unchanged? {
      var i :| 0 <= i < |actions| && !actions[i].Unchanged?;
      assert actions[i].Conflict? || actions[i].Create?;
    }
  }

  // ----- Histories of imports, rollbacks and other writes

  datatype Event =
    | DoApply(pick: map<Owner, RequestId>, inv: Inventory, now: int)
    | DoRollback(run: Fingerprint)
    | DoWrite(after: Db)

  /** Other writers may change accounts, torrents, requests and jobs, but not the import's own tables. */
  ghost predicate CanHappen(db: Db, e: Event) {
    match e
    case DoApply(pick, inv, now) =>
      && UniqueHashes(db.torrents) && IsPick(db.requests, pick) && DistinctSources(inv.rows)
      && forall g :: g in db.runs ==> db.runs[g].created < now
    case DoRollback(_) => true
    case DoWrite(after) => Consistent(after) && after.runs == db.runs && after.items == db.items
  }

  ghost function Next(db: Db, e: Event): Db
    requires CanHappen(db, e)
  {
    match e
    case DoApply(pick, inv, now) => Apply(db, pick, inv, now).0
    case DoRollback(f) => Rollback(db, f).0
    case DoWrite(after) => after
  }

  ghost predicate History(states: seq<Db>, events: seq<Event>) {
    && |states| == |events| + 1 && Consistent(states[0])
    && forall i {:trigger Steps(states, events, i)} :: 0 <= i < |events| ==> Steps(states, events, i)
  }

  ghost predicate Steps(states: seq<Db>, events: seq<Event>, i: nat)
    requires i < |events| < |states|
  {
    CanHappen(states[i], events[i]) && states[i + 1] == Next(states[i], events[i])
  }

  ghost predicate Imports(db: Db, e: Event, f: Fingerprint) {
    CanHappen(db, e) && e.DoApply? && e.inv.fingerprint == f && Apply(db, e.pick, e.inv, e.now).1 == Fresh
  }

  ghost predicate Undoes(db: Db, e: Event, f: Fingerprint) {
    e == DoRollback(f) && Rollback(db, f).1 == Undone
  }

  lemma LandedConsistent(base: Db, db: Db, o: Overlay, f: Fingerprint, sources: set<SourceId>)
    requires Consistent(base) && f in base.runs && Progress(base, db, o, f, sources)
    ensures Consistent(db)
  {
    ShownUnique(db.torrents, o.torrents);
  }

  lemma ApplyKeepsConsistent(db: Db, e: Event)
    requires Consistent(db) && CanHappen(db, e) && e.DoApply?
    ensures Consistent(Next(db, e))
  {
    if Apply(db, e.pick, e.inv, e.now).1 == Fresh {
      FreshApply(db, e.pick, e.inv, e.now);
      var f, base := e.inv.fingerprint, WithRun(db, e.inv.fingerprint, e.now);
      var (o', actions) := PlanRows(f, base.users, Start(db, e.pick), e.inv.rows);
      LandedConsistent(base, WriteAll(base, f, actions), o', f, Sources(e.inv.rows));
    } else {
      NothingWritten(db, e.inv.fingerprint, Plan(db, e.pick, e.inv), e.now);
    }
  }

  lemma NothingWritten(db: Db, f: Fingerprint, actions: seq<Action>, now: int)
    requires ApplyPlan(db, f, actions, now).1 != Fresh
    ensures ApplyPlan(db, f, actions, now).0 == db
  {
  }

  /** A successful rollback removes exactly rows derived from its own run, and no request is left
      pointing to a missing torrent. */
  lemma RollbackRemovesOwnRows(db: Db, f: Fingerprint)
    requires Consistent(db) && Rollback(db, f).1 == Undone
    ensures var after := Rollback(db, f).0;
            && Consistent(after)
            && (forall r :: r in db.requests && r !in after.requests ==>
                  r.ImportedRequest? && r.fingerprint == f && exists i :: i in db.items && i.run == f && i.request == r)
            && (forall t :: t in db.torrents && t !in after.torrents ==>
                  && t.ImportedTorrent? && t.fingerprint == f
                  && exists i :: i in db.items && i.run == f && i.torrentCreated && i.torrent == t)
            && (forall r :: r in after.requests ==> r in db.requests && after.requests[r] == db.requests[r])
            && (forall t :: t in after.torrents ==> t in db.torrents && after.torrents[t] == db.torrents[t])
            && (forall r :: r in after.requests ==> after.requests[r].torrent in after.torrents)
  {
    var items, after := ItemsOf(db.items, f), Rollback(db, f).0;
    forall r | r in after.requests ensures after.requests[r].torrent in after.torrents {
      assert after.requests[r].torrent !in PlaceholdersOf(items);
    }
    forall r | r in RequestsOf(items) ensures r !in db.requestJobs { assert RequestUntouched(db, r); }
    forall t | t in PlaceholdersOf(items) ensures t !in db.runtime { assert PlaceholderUntouched(db, t,
      RequestsOf(items)); }
  }

  lemma {:induction false} HistoryConsistent(states: seq<Db>, events: seq<Event>, i: nat)
    requires History(states, events) && i < |states|
    ensures Consistent(states[i])
  {
    if i == 0 {
    } else {
      HistoryConsistent(states, events, i - 1);
      var db, e := states[i - 1], events[i - 1];
      assert Steps(states, events, i - 1);
      if e.DoApply? {
        ApplyKeepsConsistent(db, e);
      } else if e.DoRollback? && Rollback(db, e.run).1 == Undone {
        RollbackRemovesOwnRows(db, e.run);
      }
    }
  }

  /** Runs are never forgotten or redated; only a rollback moves one out of the applied status. */
  lemma RunStep(db: Db, e: Event, f: Fingerprint)
    requires CanHappen(db, e) && f in db.runs
    ensures f in Next(db, e).runs && Next(db, e).runs[f].created == db.runs[f].created
    ensures Next(db, e).runs[f].status == db.runs[f].status || Undoes(db, e, f)
  {
    if e.DoApply? {
      ApplyKeepsRun(db, e.pick, e.inv, e.now, f);
    } else if e.DoRollback? {
      RollbackRuns(db, e.run, f);
    }
  }

  lemma ApplyKeepsRun(db: Db, pick: map<Owner, RequestId>, inv: Inventory, now: int, f: Fingerprint)
    requires UniqueHashes(db.torrents) && IsPick(db.requests, pick) && f in db.runs
    ensures f in Apply(db, pick, inv, now).0.runs && Apply(db, pick, inv, now).0.runs[f] == db.runs[f]
  {
    PlanKeepsRun(db, inv.fingerprint, Plan(db, pick, inv), now, f);
  }

  lemma PlanKeepsRun(db: Db, g: Fingerprint, actions: seq<Action>, now: int, f: Fingerprint)
    requires f in db.runs
    ensures f in ApplyPlan(db, g, actions, now).0.runs && ApplyPlan(db, g, actions, now).0.runs[f] == db.runs[f]
  {
    PlanRuns(db, g, actions, now);
  }

  lemma RollbackRuns(db: Db, run: Fingerprint, f: Fingerprint)
    requires f in db.runs
    ensures var (after, result) := Rollback(db, run);
            f in after.runs && after.runs[f].created == db.runs[f].created &&
            (after.runs[f].status == db.runs[f].status || (f == run && result == Undone))
  {
  }

  lemma {:induction false} WritesKeepRuns(db: Db, f: Fingerprint, actions: seq<Action>)
    ensures WriteAll(db, f, actions).runs == db.runs
  {
    if actions == [] {
    } else {
      WritesKeepRuns(db, f, actions[..|actions| - 1]);
    }
  }

  /** The runs after applying any plan: one more if the apply was fresh. */
  lemma PlanRuns(db: Db, g: Fingerprint, actions: seq<Action>, now: int)
    ensures var (after, result) := ApplyPlan(db, g, actions, now);
            && (result != Fresh ==> after.runs == db.runs)
            && (result == Fresh ==> g !in db.runs && after.runs == db.runs[g := Run(Applied, now)])
  {
    WritesKeepRuns(WithRun(db, g, now), g, actions);
  }

  lemma ApplyRuns(db: Db, e: Event)
    requires CanHappen(db, e) && e.DoApply?
    ensures var (after, result) := Apply(db, e.pick, e.inv, e.now);
            && (result != Fresh ==> after.runs == db.runs)
            && (result == Fresh ==>
                  e.inv.fingerprint !in db.runs && after.runs == db.runs[e.inv.fingerprint := Run(Applied, e.now)])
  {
    PlanRuns(db, e.inv.fingerprint, Plan(db, e.pick, e.inv), e.now);
  }

  lemma {:induction false} RunPersists(states: seq<Db>, events: seq<Event>, i: nat, k: nat, f: Fingerprint)
    requires History(states, events) && i <= k < |states| && f in states[i].runs
    ensures f in states[k].runs && states[k].runs[f].created == states[i].runs[f].created
  {
    if i == k {
    } else {
      RunPersists(states, events, i, k - 1, f);
      HistoryConsistent(states, events, k - 1);
      assert Steps(states, events, k - 1);
      RunStep(states[k - 1], events[k - 1], f);
    }
  }

  /** A run that is applied at one time and not at a later one was undone in between. */
  lemma {:induction false} RunWasUndone(states: seq<Db>, events: seq<Event>, i: nat, k: nat, f: Fingerprint)
    requires History(states, events) && i <= k < |states| && f in states[i].runs && states[i].runs[f].status == Applied
    requires f in states[k].runs && states[k].runs[f].status != Applied
    ensures exists m :: i <= m < k && Undoes(states[m], events[m], f)
  {
    RunPersists(states, events, i, k - 1, f);
    if states[k - 1].runs[f].status == Applied {
      HistoryConsistent(states, events, k - 1);
      assert Steps(states, events, k - 1);
      RunStep(states[k - 1], events[k - 1], f);
      assert Undoes(states[k - 1], events[k - 1], f);
    } else {
      RunWasUndone(states, events, i, k - 1, f);
    }
  }

  /** A run enters the record at step `j`. */
  ghost predicate Enters(states: seq<Db>, j: nat, g: Fingerprint)
    requires j + 1 < |states|
  {
    g !in states[j].runs && g in states[j + 1].runs
  }

  /** Runs enter the record by a fresh apply and by nothing else. */
  lemma EntersIffImports(states: seq<Db>, events: seq<Event>, j: nat, g: Fingerprint)
    requires History(states, events) && j < |events|
    ensures Enters(states, j, g) <==> Imports(states[j], events[j], g)
  {
    HistoryConsistent(states, events, j);
    assert Steps(states, events, j);
    if events[j].DoApply? { ApplyRuns(states[j], events[j]); }
  }

  /** The moment after an import: its run is applied, dated then, and newer than every run before. */
  lemma JustImported(states: seq<Db>, events: seq<Event>, j: nat, g: Fingerprint)
    requires History(states, events) && j < |events| && Enters(states, j, g)
    ensures states[j + 1].runs[g].status == Applied
    ensures forall f :: f in states[j].runs ==> states[j].runs[f].created < states[j + 1].runs[g].created
  {
    EntersIffImports(states, events, j, g);
    HistoryConsistent(states, events, j);
    assert Steps(states, events, j);
    ApplyRuns(states[j], events[j]);
  }

  /** A run that was there before another was imported stays the older one. */
  lemma LaterRunIsNewer(states: seq<Db>, events: seq<Event>, j: nat, k: nat, f: Fingerprint, g: Fingerprint)
    requires History(states, events) && j < k < |states|
    requires f in states[j].runs && g in states[j + 1].runs && states[j].runs[f].created < states[j + 1].runs[g].created
    ensures f in states[k].runs && g in states[k].runs && states[k].runs[f].created < states[k].runs[g].created
  {
    RunPersists(states, events, j, k, f);
    RunPersists(states, events, j + 1, k, g);
  }

  lemma NewerFirst(states: seq<Db>, events: seq<Event>, j: nat, k: nat, f: Fingerprint, g: Fingerprint)
    requires History(states, events) && j < k < |events| && Undoes(states[k], events[k], f)
    requires f in states[j].runs && g in states[j + 1].runs && states[j].runs[f].created < states[j + 1].runs[g].created
    requires states[j + 1].runs[g].status == Applied
    ensures exists m :: j < m < k && Undoes(states[m], events[m], g)
  {
    LaterRunIsNewer(states, events, j, k, f, g);
    NotNewer(states[k], f, g);
    RunWasUndone(states, events, j + 1, k, g);
  }

  /** Runs are undone last in, first out: an import undone after a later import was applied is undone
      only after that later import was undone too. */
  lemma RollbacksAreLastInFirstOut(states: seq<Db>, events: seq<Event>, i: nat, j: nat, k: nat, f: Fingerprint,
                                   g: Fingerprint)
    requires History(states, events) && i < j < k < |events|
    requires Enters(states, i, f) && Enters(states, j, g) && Undoes(states[k], events[k], f)
    ensures exists m :: j < m < k && Undoes(states[m], events[m], g)
  {
    JustImported(states, events, j, g);
    RunPersists(states, events, i + 1, j, f);
    NewerFirst(states, events, j, k, f, g);
  }

  lemma NotNewer(db: Db, f: Fingerprint, g: Fingerprint)
    requires Rollback(db, f).1 == Undone && f in db.runs && g in db.runs && db.runs[f].created < db.runs[g].created
    ensures db.runs[g].status != Applied
  {
  }

  /** A run can be undone if and only if it is applied, no newer run is, every request recorded for it is
      still Requested, never updated and without a job, and every placeholder is still an empty one in Error,
      awaiting reconciliation, never updated, unused, and with no request but the run's own. Otherwise nothing
      changes. */
  lemma UndoneIff(db: Db, f: Fingerprint)
    ensures Rollback(db, f).1 == Undone <==>
            && f in db.runs && db.runs[f].status == Applied
            && (forall g :: g in db.runs && db.runs[g].created > db.runs[f].created ==> db.runs[g].status == RolledBack)
            && (forall i :: i in db.items && i.run == f ==> AsImported(db, i))
    ensures Rollback(db, f).1 == NoSuchRun <==> f !in db.runs
    ensures Rollback(db, f).1 == AlreadyUndone <==> f in db.runs && db.runs[f].status == RolledBack
    ensures Rollback(db, f).1 != Undone ==> Rollback(db, f).0 == db
  {
    var items := ItemsOf(db.items, f);
    if forall i :: i in db.items && i.run == f ==> AsImported(db, i) {
      forall r | r in RequestsOf(items) ensures RequestUntouched(db, r) {
        var i :| i in items && i.request == r;
      }
      forall t | t in PlaceholdersOf(items) ensures PlaceholderUntouched(db, t, RequestsOf(items)) {
        var i :| i in items && i.torrentCreated && i.torrent == t;
        forall r | r in db.requests && db.requests[r].torrent == t ensures r in RequestsOf(items) {
          var k :| k in db.items && k.run == i.run && k.request == r;
          assert k in items;
        }
      }
    }
    if Untouched(db, f) {
      forall i | i in db.items && i.run == f ensures AsImported(db, i) { UntouchedAsImported(db, f, i); }
    }
  }

  lemma UntouchedAsImported(db: Db, f: Fingerprint, i: Item)
    requires Untouched(db, f) && i in db.items && i.run == f
    ensures AsImported(db, i)
  {
    var items := ItemsOf(db.items, f);
    assert i in items && i.request in RequestsOf(items);
    if i.torrentCreated {
      assert i.torrent in PlaceholdersOf(items);
      forall r | r in db.requests && db.requests[r].torrent == i.torrent
        ensures exists k :: k in db.items && k.run == i.run && k.request == r
      {
        var k :| k in items && k.request == r;
        assert k in db.items;
      }
    }
  }

  /** The rows of an item still look as an import leaves them. */
  ghost predicate AsImported(db: Db, i: Item) {
    && i.request in db.requests && i.request !in db.requestJobs
    && db.requests[i.request].state == Requested && db.requests[i.request].updated == db.requests[i.request].created
    && (i.torrentCreated ==>
          && i.torrent in db.torrents && i.torrent !in db.runtime
          && db.torrents[i.torrent].state == Error && db.torrents[i.torrent].size == 0
          && db.torrents[i.torrent].awaitsReconcile
          && db.torrents[i.torrent].updated == db.torrents[i.torrent].created
          && forall r :: r in db.requests && db.requests[r].torrent == i.torrent ==>
               exists k :: k in db.items && k.run == i.run && k.request == r)
  }

  /** A successful rollback removes exactly the requests and placeholders recorded for its run, and marks it. */
  lemma UndoneRemoves(db: Db, f: Fingerprint)
    requires Rollback(db, f).1 == Undone
    ensures var after := Rollback(db, f).0;
            && (forall r :: r in after.requests <==>
                  r in db.requests && !exists i :: i in db.items && i.run == f && i.request == r)
            && (forall t :: t in after.torrents <==>
                  t in db.torrents && !exists i :: i in db.items && i.run == f && i.torrentCreated && i.torrent == t)
            && f in after.runs && after.runs[f].status == RolledBack && after.items == db.items &&
              after.users == db.users
  {
    var items := ItemsOf(db.items, f);
    assert forall i :: i in items <==> i in db.items && i.run == f;
  }

  // ----- Rows that changed since their import are never removed

  lemma {:induction false} WritesKeepItems(db: Db, f: Fingerprint, actions: seq<Action>)
    ensures forall i :: i in db.items ==> i in WriteAll(db, f, actions).items
  {
    if actions == [] {
    } else {
      WritesKeepItems(db, f, actions[..|actions| - 1]);
    }
  }

  lemma ItemStep(db: Db, e: Event, i: Item)
    requires CanHappen(db, e) && i in db.items
    ensures i in Next(db, e).items
  {
    if e.DoApply? {
      ApplyKeepsItem(db, e.inv.fingerprint, Plan(db, e.pick, e.inv), e.now, i);
    }
  }

  lemma ApplyKeepsItem(db: Db, f: Fingerprint, actions: seq<Action>, now: int, i: Item)
    requires i in db.items
    ensures i in ApplyPlan(db, f, actions, now).0.items
  {
    WritesKeepItems(WithRun(db, f, now), f, actions);
  }

  lemma {:induction false} ItemsStay(states: seq<Db>, events: seq<Event>, j: nat, k: nat, i: Item)
    requires History(states, events) && j <= k < |states| && i in states[j].items
    ensures i in states[k].items
  {
    if j == k {
    } else {
      ItemsStay(states, events, j, k - 1, i);
      assert Steps(states, events, k - 1);
      ItemStep(states[k - 1], events[k - 1], i);
    }
  }

  /** What an import leaves: its requests Requested and never updated, its placeholders empty and in Error. */
  lemma JustWritten(states: seq<Db>, events: seq<Event>, j: nat, f: Fingerprint, i: Item)
    requires History(states, events) && j < |events| && Enters(states, j, f) && i in states[j + 1].items && i.run == f
    ensures var db := states[j + 1];
            && i.request in db.requests
            && db.requests[i.request].state == Requested &&
              db.requests[i.request].updated == db.requests[i.request].created
            && (i.torrentCreated ==>
                  && i.torrent in db.torrents && db.torrents[i.torrent].state == Error &&
                    db.torrents[i.torrent].size == 0
                  && db.torrents[i.torrent].awaitsReconcile &&
                    db.torrents[i.torrent].updated == db.torrents[i.torrent].created)
  {
    EntersIffImports(states, events, j, f);
    HistoryConsistent(states, events, j);
    assert Steps(states, events, j);
    var e := events[j];
    FreshApply(states[j], e.pick, e.inv, e.now);
    var base := WithRun(states[j], f, e.now);
    var (o', actions) := PlanRows(f, base.users, Start(states[j], e.pick), e.inv.rows);
    ProgressWritten(base, states[j + 1], o', f, Sources(e.inv.rows), i);
  }

  lemma ProgressWritten(base: Db, db: Db, o: Overlay, f: Fingerprint, sources: set<SourceId>, i: Item)
    requires Progress(base, db, o, f, sources) && i in db.items && i.run == f
    ensures && i.request in db.requests
            && db.requests[i.request].state == Requested &&
              db.requests[i.request].updated == db.requests[i.request].created
            && (i.torrentCreated ==>
                  && i.torrent in db.torrents && db.torrents[i.torrent].state == Error &&
                    db.torrents[i.torrent].size == 0
                  && db.torrents[i.torrent].awaitsReconcile &&
                    db.torrents[i.torrent].updated == db.torrents[i.torrent].created)
  {
    var items := ItemsOf(db.items, f);
    assert i in items && i.request in RequestsOf(items);
    if i.torrentCreated { assert i.torrent in PlaceholdersOf(items); }
  }

  /** The row of the item's request is gone, or, with the same owner, torrent and creation time, another one. */
  ghost predicate RequestChanged(past: Db, now: Db, i: Item)
    requires i.request in past.requests
  {
    i.request in now.requests ==>
      var x, y := past.requests[i.request], now.requests[i.request];
      y != x && y.user == x.user && y.torrent == x.torrent && y.created == x.created
  }

  /** Likewise for the placeholder, with the same hash, name and creation time. */
  ghost predicate PlaceholderChanged(past: Db, now: Db, i: Item)
    requires i.torrentCreated && i.torrent in past.torrents
  {
    i.torrent in now.torrents ==>
      var x, y := past.torrents[i.torrent], now.torrents[i.torrent];
      y != x && y.hash == x.hash && y.name == x.name && y.created == x.created
  }

  /** Over any history: once a request or placeholder that an import wrote is gone or differs from what the
      import wrote, rolling that import back is refused and changes nothing. */
  lemma ChangedRunStays(states: seq<Db>, events: seq<Event>, j: nat, k: nat, f: Fingerprint, i: Item)
    requires History(states, events) && j < k < |events| && Enters(states, j, f) && events[k] == DoRollback(f)
    requires i in states[j + 1].items && i.run == f && i.request in states[j + 1].requests
    requires i.torrentCreated ==> i.torrent in states[j + 1].torrents
    requires || RequestChanged(states[j + 1], states[k], i)
             || (i.torrentCreated && PlaceholderChanged(states[j + 1], states[k], i))
    ensures f in states[k].runs
    ensures Rollback(states[k], f).1 == if states[k].runs[f].status == Applied then Blocked else AlreadyUndone
    ensures states[k + 1] == states[k]
  {
    JustWritten(states, events, j, f, i);
    ItemsStay(states, events, j + 1, k, i);
    RunPersists(states, events, j + 1, k, f);
    UndoneIff(states[k], f);
    assert !AsImported(states[k], i);
    assert Steps(states, events, k);
  }

  /** And no rollback at all, of this run or of another, removes or alters a row that changed. */
  lemma ChangedRowStays(states: seq<Db>, events: seq<Event>, j: nat, k: nat, f: Fingerprint, i: Item)
    requires History(states, events) && j < k < |events| && Enters(states, j, f) && events[k].DoRollback?
    requires i in states[j + 1].items && i.run == f && i.request in states[j + 1].requests
    requires i.torrentCreated ==> i.torrent in states[j + 1].torrents
    ensures i.request in states[k].requests && RequestChanged(states[j + 1], states[k], i) ==>
              i.request in states[k + 1].requests && states[k + 1].requests[i.request] == states[k].requests[i.request]
    ensures i.torrentCreated && i.torrent in states[k].torrents && PlaceholderChanged(states[j + 1], states[k], i) ==>
              i.torrent in states[k + 1].torrents && states[k + 1].torrents[i.torrent] == states[k].torrents[i.torrent]
  {
    assert Steps(states, events, k);
    var g := events[k].run;
    UndoneIff(states[k], g);
    ItemsStay(states, events, j + 1, k, i);
    if g == f {
      RunPersists(states, events, j + 1, k, f);
      JustWritten(states, events, j, f, i);
    } else if Rollback(states[k], g).1 == Undone {
      HistoryConsistent(states, events, k);
      OthersStay(states[k], g, i);
    }
  }

  lemma OthersStay(db: Db, g: Fingerprint, i: Item)
    requires Consistent(db) && i in db.items && i.run != g && Rollback(db, g).1 == Undone
    ensures var after := Rollback(db, g).0;
            && (i.request in db.requests ==>
                i.request in after.requests && after.requests[i.request] == db.requests[i.request])
            && (i.torrentCreated && i.torrent in db.torrents ==>
                  i.torrent in after.torrents && after.torrents[i.torrent] == db.torrents[i.torrent])
  {
    RollbackRemovesOwnRows(db, g);
  }

  // ----- Loading: duplicates refused, canonical order

  /** Owner and hash of a row: an inventory may name each pair once. */
  function OwnerHash(r: Row): (Username, InfoHash) { (r.username, r.hash) }

  ghost predicate NoDuplicates(rows: seq<Row>) {
    forall i, j :: 0 <= i < j < |rows| ==> rows[i].source != rows[j].source && OwnerHash(rows[i]) != OwnerHash(rows[j])
  }

  ghost predicate Ascending(rows: seq<Row>) {
    forall i, j :: 0 <= i < j < |rows| ==> rows[i].source < rows[j].source
  }

  method Insert(rows: seq<Row>, row: Row) returns (r: seq<Row>)
    requires Ascending(rows) && forall i :: 0 <= i < |rows| ==> rows[i].source != row.source
    ensures Ascending(r) && multiset(r) == multiset(rows) + multiset{row}
  {
    var k := 0;
    while k < |rows| && rows[k].source < row.source
      invariant 0 <= k <= |rows|
      invariant forall i :: 0 <= i < k ==> rows[i].source < row.source
    {
      k := k + 1;
    }
    r := rows[..k] + [row] + rows[k..];
    Inserted(rows, row, k);
  }

  lemma Inserted(rows: seq<Row>, row: Row, k: nat)
    requires k <= |rows|
    ensures multiset(rows[..k] + [row] + rows[k..]) == multiset(rows) + multiset{row}
  {
    assert rows == rows[..k] + rows[k..];
  }

  const MAX_INVENTORY_ROWS := 100_000

  /** Rows are accepted exactly when there are not too many and no record and no ownership is repeated,
      and come back sorted. */
  method LoadRows(raw: seq<Row>) returns (rows: Option<seq<Row>>)
    ensures rows.Some? <==> |raw| <= 100_000 && NoDuplicates(raw)
    ensures rows.Some? ==> Ascending(rows.value) && multiset(rows.value) == multiset(raw)
  {
    if |raw| > MAX_INVENTORY_ROWS { return None; }
    var seenIds: set<SourceId> := {};
    var seenOwners: set<(Username, InfoHash)> := {};
    var sorted: seq<Row> := [];
    for k := 0 to |raw|
      invariant NoDuplicates(raw[..k])
      invariant seenIds == Sources(raw[..k]) && seenOwners == set i | 0 <= i < k :: OwnerHash(raw[i])
      invariant Ascending(sorted) && multiset(sorted) == multiset(raw[..k])
    {
      if raw[k].source in seenIds || OwnerHash(raw[k]) in seenOwners {
        Repeats(raw, k);
        return None;
      }
      assert raw[..k + 1] == raw[..k] + [raw[k]];
      forall i | 0 <= i < |sorted| ensures sorted[i].source != raw[k].source {
        assert sorted[i] in multiset(raw[..k]);
      }
      sorted := Insert(sorted, raw[k]);
      seenIds := seenIds + {raw[k].source};
      seenOwners := seenOwners + {OwnerHash(raw[k])};
    }
    assert raw[..|raw|] == raw;
    rows := Some(sorted);
  }

  lemma Repeats(raw: seq<Row>, k: nat)
    requires k < |raw|
    requires raw[k].source in Sources(raw[..k]) || OwnerHash(raw[k]) in (set i | 0 <= i < k :: OwnerHash(raw[i]))
    ensures !NoDuplicates(raw)
  {
  }

  lemma {:induction false} SameRowsSameOrder(a: seq<Row>, b: seq<Row>)
    requires Ascending(a) && Ascending(b) && forall r :: r in a <==> r in b
    ensures a == b
  {
    assert |a| > 0 ==> a[0] in b;
    assert |b| > 0 ==> b[0] in a;
    if a != [] {
      assert a[0] == b[0];
      var c, d := a[1..], b[1..];
      assert a == [a[0]] + c && b == [b[0]] + d;
      assert a[0] !in c && b[0] !in d;
      forall r ensures r in c <==> r in d {
        assert r in a <==> r == a[0] || r in c;
        assert r in b <==> r == b[0] || r in d;
      }
      SameRowsSameOrder(c, d);
    }
  }

  /** The loaded order does not depend on the order of the file: equal rows, equal inventory. */
  lemma OrderIsCanonical(a: seq<Row>, b: seq<Row>)
    requires Ascending(a) && Ascending(b) && multiset(a) == multiset(b)
    ensures a == b
  {
    forall r ensures r in a <==> r in b { assert r in a <==> r in multiset(a); assert r in b <==> r in multiset(b); }
    SameRowsSameOrder(a, b);
  }

  // ----- The planning, applying and undoing loops

  lemma PlanOneMore(f: Fingerprint, users: map<Username, User>, o: Overlay, rows: seq<Row>, k: nat)
    requires k < |rows|
    ensures var (before, actions) := PlanRows(f, users, o, rows[..k]);
            var (after, action) := PlanRow(f, users, before, rows[k]);
            PlanRows(f, users, o, rows[..k + 1]) == (after, actions + [action])
  {
    assert rows[..k + 1][..k] == rows[..k];
  }

  method PlanAll(f: Fingerprint, users: map<Username, User>, start: Overlay, rows: seq<Row>)
    returns (actions: seq<Action>)
    ensures actions == PlanRows(f, users, start, rows).1
  {
    var o := start;
    actions := [];
    for k := 0 to |rows|
      invariant (o, actions) == PlanRows(f, users, start, rows[..k])
    {
      PlanOneMore(f, users, start, rows, k);
      var (o', action) := PlanRow(f, users, o, rows[k]);
      o, actions := o', actions + [action];
    }
    assert rows[..|rows|] == rows;
  }

  method PlanV1Import(db: Db, pick: map<Owner, RequestId>, inv: Inventory) returns (actions: seq<Action>)
    requires UniqueHashes(db.torrents) && IsPick(db.requests, pick)
    ensures actions == Plan(db, pick, inv)
  {
    actions := PlanAll(inv.fingerprint, db.users, Start(db, pick), inv.rows);
  }

  class ImportStore {
    var users: map<Username, User>
    var torrents: map<TorrentId, Torrent>
    var requests: map<RequestId, Request>
    var runs: map<Fingerprint, Run>
    var items: seq<Item>
    var requestJobs: set<RequestId>
    var runtime: set<TorrentId>

    function View(): Db
      reads this
    {
      Db(users, torrents, requests, runs, items, requestJobs, runtime)
    }

    method ApplyV1Import(pick: map<Owner, RequestId>, inv: Inventory, now: int) returns (result: ApplyResult)
      requires UniqueHashes(torrents) && IsPick(requests, pick)
      modifies this
      ensures (View(), result) == Apply(old(View()), pick, inv, now)
    {
      var actions := PlanV1Import(View(), pick, inv);
      result := ApplyActions(inv.fingerprint, actions, now);
    }

    method ApplyActions(f: Fingerprint, actions: seq<Action>, now: int) returns (result: ApplyResult)
      modifies this
      ensures (View(), result) == ApplyPlan(old(View()), f, actions, now)
    {
      var conflict := exists i :: 0 <= i < |actions| && actions[i].Conflict?;
      assert conflict == HasConflict(actions);
      if f in runs {
        if runs[f].status == RolledBack { return WasRolledBack; }
        var creation := exists i :: 0 <= i < |actions| && actions[i].Create?;
        assert creation == HasCreation(actions);
        return if conflict || creation then NoLongerMatches else Replayed;
      }
      if conflict { return Conflicts; }
      runs := runs[f := Run(Applied, now)];
      WriteRows(f, actions);
      result := Fresh;
    }

    method WriteRows(f: Fingerprint, actions: seq<Action>)
      modifies this
      ensures View() == WriteAll(old(View()), f, actions)
    {
      for k := 0 to |actions|
        invariant View() == WriteAll(old(View()), f, actions[..k])
      {
        assert actions[..k + 1][..k] == actions[..k];
        var a := actions[k];
        if a.Create? {
          if a.newTorrent {
            torrents := torrents[a.torrent := Placeholder(a)];
          }
          requests := requests[a.request := Request(a.user, a.torrent, Requested, a.created, a.created)];
          items := items + [Item(f, a.source, a.user, a.torrent, a.request, a.newTorrent)];
        }
      }
      assert actions[..|actions|] == actions;
    }

    method RollbackV1Import(f: Fingerprint) returns (result: RollbackResult)
      modifies this
      ensures (View(), result) == Rollback(old(View()), f)
    {
      if f !in runs { return NoSuchRun; }
      if runs[f].status == RolledBack { return AlreadyUndone; }
      if exists g :: g in runs && runs[g].status == Applied && runs[g].created > runs[f].created { return Blocked; }
      var own := set i | i in items && i.run == f :: i.request;
      var placeholders := set i | i in items && i.run == f && i.torrentCreated :: i.torrent;
      assert own == RequestsOf(ItemsOf(items, f)) && placeholders == PlaceholdersOf(ItemsOf(items, f));
      var conflicts := 0;
      var k := 0;
      while k < |items|
        invariant 0 <= k <= |items| && conflicts >= 0
        invariant conflicts == 0 <==> forall j :: 0 <= j < k && items[j].run == f ==>
                    ItemUntouched(View(), items[j], own)
      {
        if items[k].run == f {
          var r := items[k].request;
          if r !in requests || requests[r].state != Requested || requests[r].updated != requests[r].created ||
            r in requestJobs {
            conflicts := conflicts + 1;
          }
          var t := items[k].torrent;
          if items[k].torrentCreated {
            var related := set q | q in requests && requests[q].torrent == t;
            if t !in torrents || torrents[t].state != Error || torrents[t].size != 0 || !torrents[t].awaitsReconcile
               || torrents[t].updated != torrents[t].created || !(related <= own) || t in runtime
            {
              conflicts := conflicts + 1;
            }
          }
        }
        k := k + 1;
      }
      ItemsUntouched(View(), f, own);
      if conflicts > 0 { return Blocked; }
      requests := requests - own;
      torrents := torrents - placeholders;
      runs := runs[f := runs[f].(status := RolledBack)];
      result := Undone;
    }
  }

  ghost predicate ItemUntouched(db: Db, i: Item, own: set<RequestId>) {
    RequestUntouched(db, i.request) && (i.torrentCreated ==> PlaceholderUntouched(db, i.torrent, own))
  }

  lemma ItemsUntouched(db: Db, f: Fingerprint, own: set<RequestId>)
    requires own == RequestsOf(ItemsOf(db.items, f))
    ensures Untouched(db, f) <==>
            forall j :: 0 <= j < |db.items| && db.items[j].run == f ==> ItemUntouched(db, db.items[j], own)
  {
    var items := ItemsOf(db.items, f);
    if forall j :: 0 <= j < |db.items| && db.items[j].run == f ==> ItemUntouched(db, db.items[j], own) {
      forall i | i in items ensures ItemUntouched(db, i, own) {
        var j :| 0 <= j < |db.items| && db.items[j] == i;
      }
    }
    if Untouched(db, f) {
      forall j | 0 <= j < |db.items| && db.items[j].run == f ensures ItemUntouched(db, db.items[j], own) {
        assert db.items[j] in items;
        assert db.items[j].request in RequestsOf(items);
        assert db.items[j].torrentCreated ==> db.items[j].torrent in PlaceholdersOf(items);
      }
    }
  }
}
