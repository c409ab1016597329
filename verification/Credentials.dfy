/** Logins, password changes, credential recovery and account suspension, each split at the wait for
    password hashing that runs with no row lock held. Any number of operations may interleave. */
module Credentials {
  import opened Common

  type UserId = nat
  type SessionId = nat
  type OpId = nat
  type Token = nat
  type ClientId = nat

  /** An encoded password hash. The salt makes every hashing result distinct from all others. */
  datatype Hash = Hash(password: string, salt: nat, weak: bool)

  predicate Verify(password: string, h: Hash) { h.password == password }

  /** `epoch` is a history variable: it counts password changes and is not moved by a rehash. */
  datatype User = User(username: string, hash: Hash, active: bool, deleted: bool, admin: bool,
                       mustChange: bool, loggedIn: bool, epoch: nat)

  predicate CanLogin(u: User) { u.active && !u.deleted }

  predicate Eligible(u: User) { u.active && !u.admin && !u.deleted }

  /** `password` and `epoch` are history variables: what the login proved, and when. */
  datatype Session = Session(user: UserId, expires: int, revoked: bool, password: string, epoch: nat)

  datatype Throttle = Throttle(failures: nat, windowStart: int, lockedUntil: Option<int>)

  datatype Grant = Grant(client: ClientId, token: Token, fingerprint: Hash, created: int, expires: int, consumed: bool)

  /** What an operation carries across its unlocked wait. */
  datatype Pending =
    | Login(key: string, username: string, found: Option<UserId>, seen: Hash, seenEpoch: nat,
            password: string, upgraded: Option<Hash>)
    | FirstFailure(key: string, at: int)
    | PasswordChange(user: UserId, seen: Hash, seenEpoch: nat, newHash: Hash)
    | CredentialChange(user: UserId, seen: Hash, seenEpoch: nat, newName: string, newHash: Hash)
    | ResetConfirm(token: Token, user: UserId, client: ClientId, newHash: Hash)
    | InitialRecovery(newHash: Hash)

  /** History of reset tokens: how each was issued, and every password change one performed. */
  datatype Issue = Issue(user: UserId, hash: Hash, epoch: nat, expires: int)
  datatype TokenUse = TokenUse(token: Token, user: UserId, at: int, hash: Hash, epoch: nat, latest: Token)

  datatype Policy = Policy(maxAttempts: nat, window: int, lock: int, sessionTtl: int)

  const RESET_TTL_SECONDS := 900
  const RESET_COOLDOWN_SECONDS := 60

  datatype Db = Db(
    users: map<UserId, User>,
    sessions: map<SessionId, Session>,
    throttles: map<string, Throttle>,
    grants: map<UserId, Grant>,
    pending: map<OpId, Pending>,
    nextSalt: nat,
    nextSession: SessionId,
    nextToken: Token,
    // history variables
    published: set<Hash>,
    issued: map<Token, Issue>,
    latest: map<UserId, Token>,
    uses: seq<TokenUse>
  )

  datatype Outcome =
    | Done
    | SessionIssued(id: SessionId)
    | Locked(retryAfter: int)
    | AuthenticationFailed
    | UsernameUnavailable
    | NotFound
    | Protected
    | ResetUnavailable
    | ResetThrottled
    | Unauthorized
    | TokenIssued(token: Token)
    | Unavailable

  // ----- Shared row updates

  /** Stores a freshly computed hash for a new password: a new epoch, every open session revoked. */
  function SetPassword(db: Db, id: UserId, u: User, h: Hash): (r: Db)
    requires id in db.users
    ensures r.throttles == db.throttles && r.pending == db.pending
  {
    db.(users := db.users[id := u.(hash := h, epoch := u.epoch + 1)],
        sessions := RevokeAll(db.sessions, id),
        published := db.published + {h})
  }

  function RevokeAll(sessions: map<SessionId, Session>, id: UserId): map<SessionId, Session> {
    map k | k in sessions :: if sessions[k].user == id then sessions[k].(revoked := true) else sessions[k]
  }

  function OpenSession(p: Policy, db: Db, id: UserId, password: string, epoch: nat, now: int): (r: Db)
    ensures r.throttles == db.throttles && r.pending == db.pending
  {
    db.(sessions := db.sessions[db.nextSession := Session(id, now + p.sessionTtl, false, password, epoch)],
        nextSession := db.nextSession + 1)
  }

  /** At most one operation starts waiting, and it is no first failure. */
  ghost predicate Starts(pending: map<OpId, Pending>, pending': map<OpId, Pending>, op: OpId) {
    pending' == pending || (op in pending' && !pending'[op].FirstFailure? && pending' == pending[op := pending'[op]])
  }

  function Drop(db: Db, op: OpId): Db { db.(pending := db.pending - {op}) }

  predicate NameTaken(users: map<UserId, User>, name: string, but: UserId) {
    exists id :: id in users && id != but && users[id].username == name
  }

  // ----- Login

  predicate IsLocked(throttles: map<string, Throttle>, key: string, now: int) {
    key in throttles && throttles[key].lockedUntil.Some? && throttles[key].lockedUntil.value > now
  }

  function Remaining(throttles: map<string, Throttle>, key: string, now: int): int
    requires IsLocked(throttles, key, now)
  {
    Max(1, throttles[key].lockedUntil.value - now)
  }

  /** `found` is the row the case-insensitive username lookup returned. */
  predicate IsLookup(users: map<UserId, User>, name: string, found: Option<UserId>) {
    match found
    case Some(id) => id in users && users[id].username == name
    case None => forall id :: id in users ==> users[id].username != name
  }

  function BeginLogin(db: Db, op: OpId, key: string, name: string, found: Option<UserId>, password: string,
                      now: int): (r: (Db, Outcome))
    requires op !in db.pending && IsLookup(db.users, name, found)
    ensures r.0.users == db.users && r.0.throttles == db.throttles && Starts(db.pending, r.0.pending, op)
  {
    if IsLocked(db.throttles, key, now) then (db, Locked(Remaining(db.throttles, key, now)))
    else if found.None? then
      (db.(pending := db.pending[op := Login(key, name, None, Hash("", 0, false), 0, password, None)]), Done)
    else
      var u := db.users[found.value];
      var upgraded :=
        if Verify(password, u.hash) && u.hash.weak then Some(Hash(password, db.nextSalt, false)) else None;
      (db.(pending := db.pending[op := Login(key, name, found, u.hash, u.epoch, password, upgraded)],
           nextSalt := db.nextSalt + 1), Done)
  }

  function Escalate(p: Policy, t: Throttle, now: int): Throttle {
    if t.failures >= p.maxAttempts then t.(lockedUntil := Some(now + p.lock)) else t
  }

  /** A failure on an existing row is counted under its lock; a first failure commits separately. */
  function RegisterFailure(p: Policy, db: Db, op: OpId, key: string, now: int): Db {
    if key !in db.throttles then db.(pending := db.pending[op := FirstFailure(key, now)])
    else
      var t := db.throttles[key];
      var counted := if now - t.windowStart >= p.window then Throttle(1, now, None) else t.(failures := t.failures + 1);
      Drop(db, op).(throttles := db.throttles[key := Escalate(p, counted, now)])
  }

  /** Committing a first failure: insert, or count on the row a concurrent failure inserted meanwhile. */
  function CommitFirstFailure(p: Policy, db: Db, op: OpId): Db
    requires op in db.pending && db.pending[op].FirstFailure?
  {
    var f := db.pending[op];
    var t := if f.key in db.throttles
             then db.throttles[f.key].(failures := db.throttles[f.key].failures + 1)
             else Throttle(1, f.at, None);
    Drop(db, op).(throttles := db.throttles[f.key := Escalate(p, t, f.at)])
  }

  predicate LoginHolds(db: Db, t: Pending)
    requires t.Login?
  {
    && t.found.Some? && Verify(t.password, t.seen) && t.found.value in db.users
    && var u := db.users[t.found.value]; u.hash == t.seen && u.username == t.username && CanLogin(u)
  }

  function FinishLogin(p: Policy, db: Db, op: OpId, now: int): (Db, Outcome)
    requires op in db.pending && db.pending[op].Login?
  {
    var t := db.pending[op];
    if IsLocked(db.throttles, t.key, now) then (Drop(db, op), Locked(Remaining(db.throttles, t.key, now)))
    else if !LoginHolds(db, t) then (RegisterFailure(p, db, op, t.key, now), AuthenticationFailed)
    else
      var id := t.found.value;
      var u := db.users[id].(hash := if t.upgraded.Some? then t.upgraded.value else t.seen, loggedIn := true);
      var cleared := Drop(db, op).(throttles := db.throttles - {t.key}, users := db.users[id := u],
                                   published := db.published + {u.hash});
      (OpenSession(p, cleared, id, t.password, t.seenEpoch, now), SessionIssued(db.nextSession))
  }

  // ----- Password and credential changes

  function BeginPasswordChange(db: Db, op: OpId, id: UserId, current: string, newPassword: string): (r: (Db, Outcome))
    requires op !in db.pending
    ensures r.0.users == db.users && r.0.throttles == db.throttles && Starts(db.pending, r.0.pending, op)
  {
    if id !in db.users || !Verify(current, db.users[id].hash) then (db, AuthenticationFailed)
    else
      var u := db.users[id];
      (db.(pending := db.pending[op := PasswordChange(id, u.hash, u.epoch, Hash(newPassword, db.nextSalt, false))],
           nextSalt := db.nextSalt + 1), Done)
  }

  predicate StillVerified(db: Db, id: UserId, seen: Hash) {
    id in db.users && db.users[id].hash == seen && CanLogin(db.users[id])
  }

  function FinishPasswordChange(db: Db, op: OpId): (r: (Db, Outcome))
    requires op in db.pending && db.pending[op].PasswordChange?
    ensures r.0.throttles == db.throttles && r.0.pending == db.pending - {op}
  {
    var t := db.pending[op];
    if !StillVerified(db, t.user, t.seen) then (Drop(db, op), AuthenticationFailed)
    else (SetPassword(Drop(db, op), t.user, db.users[t.user], t.newHash), Done)
  }

  function BeginCredentialChange(db: Db, op: OpId, id: UserId, current: string, name: string,
                                 newPassword: string): (r: (Db, Outcome))
    requires op !in db.pending
    ensures r.0.users == db.users && r.0.throttles == db.throttles && Starts(db.pending, r.0.pending, op)
  {
    if id !in db.users || !Verify(current, db.users[id].hash) then (db, AuthenticationFailed)
    else
      var u := db.users[id];
      (db.(pending := db.pending[op := CredentialChange(id, u.hash, u.epoch, name,
        Hash(newPassword, db.nextSalt, false))],
           nextSalt := db.nextSalt + 1), Done)
  }

  function FinishCredentialChange(p: Policy, db: Db, op: OpId, now: int): (r: (Db, Outcome))
    requires op in db.pending && db.pending[op].CredentialChange?
    ensures r.0.throttles == db.throttles && r.0.pending == db.pending - {op}
  {
    var t := db.pending[op];
    if !StillVerified(db, t.user, t.seen) then (Drop(db, op), AuthenticationFailed)
    else if NameTaken(db.users, t.newName, t.user) then (Drop(db, op), UsernameUnavailable)
    else
      var u := db.users[t.user].(username := t.newName, mustChange := false);
      var changed := SetPassword(Drop(db, op), t.user, u, t.newHash);
      (OpenSession(p, changed, t.user, t.newHash.password, u.epoch + 1, now), SessionIssued(db.nextSession))
  }

  function ChangeUsername(db: Db, id: UserId, name: string): (r: (Db, Outcome))
    ensures r.0.throttles == db.throttles && r.0.pending == db.pending
  {
    if id !in db.users then (db, AuthenticationFailed)
    else if NameTaken(db.users, name, id) then (db, UsernameUnavailable)
    else (db.(users := db.users[id := db.users[id].(username := name)]), Done)
  }

  // ----- Administration

  function SetActive(db: Db, id: UserId, active: bool): (r: (Db, Outcome))
    ensures r.0.throttles == db.throttles && r.0.pending == db.pending
  {
    if id !in db.users || db.users[id].deleted then (db, NotFound)
    else if db.users[id].admin then (db, Protected)
    else
      var db' := db.(users := db.users[id := db.users[id].(active := active)]);
      (if active then db' else db'.(grants := db'.grants - {id}, sessions := RevokeAll(db'.sessions, id)), Done)
  }

  function DeleteUser(db: Db, id: UserId): (r: (Db, Outcome))
    ensures r.0.throttles == db.throttles && r.0.pending == db.pending
  {
    if id !in db.users || db.users[id].deleted then (db, NotFound)
    else if db.users[id].admin then (db, Protected)
    else
      (db.(users := db.users[id := db.users[id].(active := false, deleted := true)],
           sessions := RevokeAll(db.sessions, id)), Done)
  }

  function CreateUser(db: Db, id: UserId, name: string, password: string, admin: bool): (r: (Db, Outcome))
    ensures r.0.throttles == db.throttles && r.0.pending == db.pending
  {
    if id in db.users || NameTaken(db.users, name, id) then (db, UsernameUnavailable)
    else
      var h := Hash(password, db.nextSalt, false);
      (db.(users := db.users[id := User(name, h, true, false, admin, true, false, 0)],
           nextSalt := db.nextSalt + 1, published := db.published + {h}), Done)
  }

  function RevokeSession(db: Db, s: SessionId): (r: (Db, Outcome))
    ensures r.0.users == db.users && r.0.throttles == db.throttles && r.0.pending == db.pending
  {
    if s !in db.sessions then (db, NotFound)
    else (db.(sessions := db.sessions[s := db.sessions[s].(revoked := true)]), Done)
  }

  function PurgeSessions(db: Db, now: int): (r: (Db, Outcome))
    ensures r.0.users == db.users && r.0.throttles == db.throttles && r.0.pending == db.pending
  {
    (db.(sessions := map s | s in db.sessions && db.sessions[s].expires > now :: db.sessions[s]), Done)
  }

  // ----- Reset grants and initial recovery

  /** `authorized` says whether the calling client still holds the scope, `link` whose account is linked. */
  function IssueReset(db: Db, authorized: bool, link: Option<UserId>, client: ClientId, now: int): (r: (Db, Outcome))
    ensures r.0.users == db.users && r.0.throttles == db.throttles && r.0.pending == db.pending
  {
    if !authorized then (db, Unauthorized)
    else if link.None? then (db, ResetUnavailable)
    else IssueTo(db, link.value, client, now)
  }

  function IssueTo(db: Db, id: UserId, client: ClientId, now: int): (r: (Db, Outcome))
    ensures r.0.users == db.users && r.0.throttles == db.throttles && r.0.pending == db.pending
  {
    if id !in db.users || !Eligible(db.users[id]) then (db, ResetUnavailable)
    else if id in db.grants && now < db.grants[id].created + RESET_COOLDOWN_SECONDS then (db, ResetThrottled)
    else
      var u, t := db.users[id], db.nextToken;
      (db.(grants := db.grants[id := Grant(client, t, u.hash, now, now + RESET_TTL_SECONDS, false)],
           nextToken := t + 1,
           issued := db.issued[t := Issue(id, u.hash, u.epoch, now + RESET_TTL_SECONDS)],
           latest := db.latest[id := t]), TokenIssued(t))
  }

  /** `found` is the account whose grant row carries the presented token, if any. */
  function BeginResetConfirm(db: Db, op: OpId, token: Token, found: Option<UserId>,
                             password: string): (r: (Db, Outcome))
    requires op !in db.pending
    requires found.Some? ==> found.value in db.grants && db.grants[found.value].token == token
    ensures r.0.users == db.users && r.0.throttles == db.throttles && Starts(db.pending, r.0.pending, op)
  {
    if found.None? then (db, ResetUnavailable)
    else
      var id := found.value;
      (db.(pending := db.pending[op := ResetConfirm(token, id, db.grants[id].client,
        Hash(password, db.nextSalt, false))],
           nextSalt := db.nextSalt + 1), Done)
  }

  predicate ResetHolds(db: Db, t: Pending, now: int)
    requires t.ResetConfirm?
  {
    && t.user in db.users && Eligible(db.users[t.user]) && t.user in db.grants
    && var g := db.grants[t.user];
       !g.consumed && g.expires > now && g.token == t.token && g.client == t.client
       && g.fingerprint == db.users[t.user].hash
  }

  function FinishResetConfirm(db: Db, op: OpId, authorized: bool, now: int): (r: (Db, Outcome))
    requires op in db.pending && db.pending[op].ResetConfirm?
    ensures r.0.throttles == db.throttles && r.0.pending == db.pending - {op}
  {
    var t := db.pending[op];
    if !authorized || !ResetHolds(db, t, now) then (Drop(db, op), ResetUnavailable)
    else
      var id := t.user;
      var u := db.users[id];
      var changed := SetPassword(Drop(db, op), id, u, t.newHash);
      (changed.(grants := db.grants[id := db.grants[id].(consumed := true)],
                uses := db.uses + [TokenUse(t.token, id, now, u.hash, u.epoch,
                                            if id in db.latest then db.latest[id] else t.token + 1)]), Done)
  }

  function BeginInitialRecovery(db: Db, op: OpId, password: string): (r: (Db, Outcome))
    requires op !in db.pending
    ensures r.0.users == db.users && r.0.throttles == db.throttles && Starts(db.pending, r.0.pending, op)
  {
    (db.(pending := db.pending[op := InitialRecovery(Hash(password, db.nextSalt, false))], nextSalt := db.nextSalt + 1),
      Done)
  }

  function FinishInitialRecovery(db: Db, op: OpId, id: UserId): (r: (Db, Outcome))
    requires op in db.pending && db.pending[op].InitialRecovery?
    ensures r.0.throttles == db.throttles && r.0.pending == db.pending - {op}
  {
    if id !in db.users || !Eligible(db.users[id]) || db.users[id].loggedIn || !db.users[id].mustChange
    then (Drop(db, op), Unavailable)
    else (SetPassword(Drop(db, op), id, db.users[id], db.pending[op].newHash), Done)
  }

  // ----- Interleavings

  datatype Step =
    | DoBeginLogin(op: OpId, key: string, name: string, found: Option<UserId>, password: string, now: int)
    | DoFinishLogin(op: OpId, now: int)
    | DoCommitFirstFailure(op: OpId)
    | DoBeginPasswordChange(op: OpId, id: UserId, current: string, newPassword: string)
    | DoFinishPasswordChange(op: OpId)
    | DoBeginCredentialChange(op: OpId, id: UserId, current: string, name: string, newPassword: string)
    | DoFinishCredentialChange(op: OpId, now: int)
    | DoChangeUsername(id: UserId, name: string)
    | DoSetActive(id: UserId, active: bool)
    | DoDeleteUser(id: UserId)
    | DoCreateUser(id: UserId, name: string, password: string, admin: bool)
    | DoRevokeSession(session: SessionId)
    | DoPurgeSessions(now: int)
    | DoIssueReset(authorized: bool, link: Option<UserId>, client: ClientId, now: int)
    | DoBeginResetConfirm(op: OpId, token: Token, found: Option<UserId>, password: string)
    | DoFinishResetConfirm(op: OpId, authorized: bool, now: int)
    | DoBeginInitialRecovery(op: OpId, password: string)
    | DoFinishInitialRecovery(op: OpId, id: UserId)

  /** A step can run when its operation is at the right half and its lookups are truthful. */
  ghost predicate Enabled(db: Db, s: Step) {
    match s
    case DoBeginLogin(op, _, name, found, _, _) => op !in db.pending && IsLookup(db.users, name, found)
    case DoFinishLogin(op, _) => op in db.pending && db.pending[op].Login?
    case DoCommitFirstFailure(op) => op in db.pending && db.pending[op].FirstFailure?
    case DoBeginPasswordChange(op, _, _, _) => op !in db.pending
    case DoFinishPasswordChange(op) => op in db.pending && db.pending[op].PasswordChange?
    case DoBeginCredentialChange(op, _, _, _, _) => op !in db.pending
    case DoFinishCredentialChange(op, _) => op in db.pending && db.pending[op].CredentialChange?
    case DoBeginResetConfirm(op, token, found, _) =>
      op !in db.pending && (found.Some? ==> found.value in db.grants && db.grants[found.value].token == token)
    case DoFinishResetConfirm(op, _, _) => op in db.pending && db.pending[op].ResetConfirm?
    case DoBeginInitialRecovery(op, _) => op !in db.pending
    case DoFinishInitialRecovery(op, _) => op in db.pending && db.pending[op].InitialRecovery?
    case _ => true
  }

  ghost function Apply(p: Policy, db: Db, s: Step): (Db, Outcome)
    requires Enabled(db, s)
  {
    match s
    case DoBeginLogin(op, key, name, found, password, now) => BeginLogin(db, op, key, name, found, password, now)
    case DoFinishLogin(op, now) => FinishLogin(p, db, op, now)
    case DoCommitFirstFailure(op) => (CommitFirstFailure(p, db, op), AuthenticationFailed)
    case DoBeginPasswordChange(op, id, current, newPassword) => BeginPasswordChange(db, op, id, current, newPassword)
    case DoFinishPasswordChange(op) => FinishPasswordChange(db, op)
    case DoBeginCredentialChange(op, id, current, name, newPassword) =>
      BeginCredentialChange(db, op, id, current, name, newPassword)
    case DoFinishCredentialChange(op, now) => FinishCredentialChange(p, db, op, now)
    case DoChangeUsername(id, name) => ChangeUsername(db, id, name)
    case DoSetActive(id, active) => SetActive(db, id, active)
    case DoDeleteUser(id) => DeleteUser(db, id)
    case DoCreateUser(id, name, password, admin) => CreateUser(db, id, name, password, admin)
    case DoRevokeSession(session) => RevokeSession(db, session)
    case DoPurgeSessions(now) => PurgeSessions(db, now)
    case DoIssueReset(authorized, link, client, now) => IssueReset(db, authorized, link, client, now)
    case DoBeginResetConfirm(op, token, found, password) => BeginResetConfirm(db, op, token, found, password)
    case DoFinishResetConfirm(op, authorized, now) => FinishResetConfirm(db, op, authorized, now)
    case DoBeginInitialRecovery(op, password) => BeginInitialRecovery(db, op, password)
    case DoFinishInitialRecovery(op, id) => FinishInitialRecovery(db, op, id)
  }

  /** The states reachable from `db` by any finite interleaving. */
  ghost predicate Execution(p: Policy, states: seq<Db>, steps: seq<Step>) {
    && |states| == |steps| + 1
    && forall i {:trigger Steps(p, states, steps, i)} :: 0 <= i < |steps| ==> Steps(p, states, steps, i)
  }

  ghost predicate Steps(p: Policy, states: seq<Db>, steps: seq<Step>, i: nat)
    requires i < |steps| < |states|
  {
    Enabled(states[i], steps[i]) && states[i + 1] == Apply(p, states[i], steps[i]).0
  }

  // ----- Invariant

  function NewHash(t: Pending): Option<Hash> {
    match t
    case Login(_, _, _, _, _, _, upgraded) => upgraded
    case FirstFailure(_, _) => None
    case PasswordChange(_, _, _, h) => Some(h)
    case CredentialChange(_, _, _, _, h) => Some(h)
    case ResetConfirm(_, _, _, h) => Some(h)
    case InitialRecovery(h) => Some(h)
  }

  datatype Snapshot = Snapshot(user: UserId, hash: Hash, epoch: nat)

  function Seen(t: Pending): Option<Snapshot> {
    match t
    case Login(_, _, found, seen, e, _, _) => if found.Some? then Some(Snapshot(found.value, seen, e)) else None
    case PasswordChange(id, seen, e, _) => Some(Snapshot(id, seen, e))
    case CredentialChange(id, seen, e, _, _) => Some(Snapshot(id, seen, e))
    case _ => None
  }

  /** A stored hash names one epoch: whoever still finds the hash it saw finds the epoch it saw. */
  ghost predicate Current(users: map<UserId, User>, published: set<Hash>, s: Snapshot) {
    s.user in users && s.hash in published && (users[s.user].hash == s.hash ==> users[s.user].epoch == s.epoch)
  }

  ghost predicate SnapshotsOk(users: map<UserId, User>, published: set<Hash>, pending: map<OpId, Pending>) {
    forall op :: op in pending && Seen(pending[op]).Some? ==> Current(users, published, Seen(pending[op]).value)
  }

  ghost predicate IssuesOk(users: map<UserId, User>, published: set<Hash>, issued: map<Token, Issue>) {
    forall t :: t in issued ==> Current(users, published, Snapshot(issued[t].user, issued[t].hash, issued[t].epoch))
  }

  ghost predicate PublishedOk(users: map<UserId, User>, published: set<Hash>, nextSalt: nat) {
    && (forall h :: h in published ==> h.salt < nextSalt)
    && (forall id :: id in users ==> users[id].hash in published)
  }

  /** Hashes under way are distinct, and none was ever stored. */
  ghost predicate FreshOk(published: set<Hash>, pending: map<OpId, Pending>, nextSalt: nat) {
    && (forall op :: op in pending && NewHash(pending[op]).Some? ==>
          NewHash(pending[op]).value.salt < nextSalt && NewHash(pending[op]).value !in published)
    && (forall op, op' :: op in pending && op' in pending && op != op' && NewHash(pending[op]).Some? ==>
          NewHash(pending[op]) != NewHash(pending[op']))
    // an upgrade keeps the password that was verified
    && (forall op :: op in pending && pending[op].Login? && pending[op].upgraded.Some? ==>
          pending[op].upgraded.value.password == pending[op].password == pending[op].seen.password)
  }

  /** An open session belongs to a live account and was opened with its current password. */
  ghost predicate SessionOk(users: map<UserId, User>, s: Session) {
    !s.revoked ==>
      && s.user in users && CanLogin(users[s.user])
      && s.epoch == users[s.user].epoch && s.password == users[s.user].hash.password
  }

  ghost predicate SessionsOk(users: map<UserId, User>, sessions: map<SessionId, Session>, nextSession: SessionId) {
    forall k :: k in sessions ==> k < nextSession && SessionOk(users, sessions[k])
  }

  ghost predicate NamesOk(users: map<UserId, User>) {
    forall a, b :: a in users && b in users && a != b ==> users[a].username != users[b].username
  }

  ghost predicate Used(uses: seq<TokenUse>, t: Token) {
    exists i :: 0 <= i < |uses| && uses[i].token == t
  }

  ghost predicate GrantsOk(grants: map<UserId, Grant>, issued: map<Token, Issue>, latest: map<UserId, Token>,
                           uses: seq<TokenUse>, nextToken: Token)
  {
    && (forall t :: t in issued ==> t < nextToken)
    && (forall id :: id in grants ==>
          var g := grants[id];
          && g.token in issued && id in latest && latest[id] == g.token
          && issued[g.token].user == id && issued[g.token].hash == g.fingerprint && issued[g.token].expires == g.expires
          && (Used(uses, g.token) ==> g.consumed))
  }

  /** A password change made by a token: the latest of its account, unexpired, and with the very
      hash and epoch that were in force when it was issued. */
  ghost predicate UseOk(issued: map<Token, Issue>, u: TokenUse) {
    && u.token in issued && u.latest == u.token
    && var i := issued[u.token]; i.user == u.user && u.at < i.expires && u.hash == i.hash && u.epoch == i.epoch
  }

  ghost predicate UsesOk(issued: map<Token, Issue>, uses: seq<TokenUse>) {
    && (forall i :: 0 <= i < |uses| ==> UseOk(issued, uses[i]))
    && (forall i, j :: 0 <= i < j < |uses| ==> uses[i].token != uses[j].token)
  }

  ghost predicate Inv(db: Db) {
    && SnapshotsOk(db.users, db.published, db.pending) && IssuesOk(db.users, db.published, db.issued)
    && PublishedOk(db.users, db.published, db.nextSalt) && FreshOk(db.published, db.pending, db.nextSalt)
    && SessionsOk(db.users, db.sessions, db.nextSession) && NamesOk(db.users)
    && GrantsOk(db.grants, db.issued, db.latest, db.uses, db.nextToken) && UsesOk(db.issued, db.uses)
    && LiveGrants(db.users, db.grants)
  }

  /** A grant belongs to an account that is active, unless it was deleted. */
  ghost predicate LiveGrants(users: map<UserId, User>, grants: map<UserId, Grant>) {
    forall id :: id in grants ==> id in users && (users[id].active || users[id].deleted)
  }

  /** An initial database: accounts with distinct names, nothing under way. */
  ghost predicate Initial(db: Db) {
    && db.sessions == map[] && db.grants == map[] && db.pending == map[] && db.issued == map[] && db.uses == []
    && NamesOk(db.users) && db.published == (set id | id in db.users :: db.users[id].hash)
    && forall id :: id in db.users ==> db.users[id].hash.salt < db.nextSalt
  }

  lemma InitialInv(db: Db)
    requires Initial(db)
    ensures Inv(db)
  {
  }

  // ----- Building blocks of preservation

  lemma DropKeeps(db: Db, op: OpId)
    requires Inv(db)
    ensures Inv(Drop(db, op))
  {
  }

  /** The hash an operation has prepared stays its own when the operation leaves the waiting set. */
  lemma TakeHash(db: Db, op: OpId, h: Hash)
    requires FreshOk(db.published, db.pending, db.nextSalt) && op in db.pending && NewHash(db.pending[op]) == Some(h)
    ensures h !in db.published && h.salt < db.nextSalt
    ensures forall o :: o in Drop(db, op).pending ==> NewHash(Drop(db, op).pending[o]) != Some(h)
  {
  }

  /** Taking up a new operation whose snapshot is current and whose hash uses a fresh salt. */
  lemma StartKeeps(db: Db, op: OpId, t: Pending, next: nat)
    requires Inv(db) && op !in db.pending && db.nextSalt <= next
    requires Seen(t).Some? ==> Current(db.users, db.published, Seen(t).value)
    requires NewHash(t).Some? ==> db.nextSalt <= NewHash(t).value.salt < next
    requires t.Login? && t.upgraded.Some? ==> t.upgraded.value.password == t.password == t.seen.password
    ensures Inv(db.(pending := db.pending[op := t], nextSalt := next))
  {
    StartFresh(db.published, db.pending, db.nextSalt, op, t, next);
  }

  lemma StartFresh(published: set<Hash>, pending: map<OpId, Pending>, salt: nat, op: OpId, t: Pending, next: nat)
    requires FreshOk(published, pending, salt) && op !in pending && salt <= next
    requires forall h :: h in published ==> h.salt < salt
    requires NewHash(t).Some? ==> salt <= NewHash(t).value.salt < next
    requires t.Login? && t.upgraded.Some? ==> t.upgraded.value.password == t.password == t.seen.password
    ensures FreshOk(published, pending[op := t], next)
  {
    var after := pending[op := t];
    forall a, b | a in after && b in after && a != b && NewHash(after[a]).Some?
      ensures NewHash(after[a]) != NewHash(after[b])
    {
      assert a != op ==> a in pending;
      assert b != op ==> b in pending;
    }
  }

  lemma NamesKeep(users: map<UserId, User>, id: UserId, u: User)
    requires NamesOk(users) && id in users && (u.username == users[id].username || !NameTaken(users, u.username, id))
    ensures NamesOk(users[id := u])
  {
  }

  lemma RevokedKeep(users: map<UserId, User>, sessions: map<SessionId, Session>, next: SessionId, id: UserId, u: User)
    requires SessionsOk(users, sessions, next)
    ensures SessionsOk(users[id := u], RevokeAll(sessions, id), next)
  {
  }

  /** Storing a hash that was never stored before: under a new epoch with every session revoked. */
  lemma SetPasswordKeeps(db: Db, id: UserId, u: User, h: Hash)
    requires Inv(db) && id in db.users && h !in db.published && h.salt < db.nextSalt
    requires u.hash == db.users[id].hash && u.epoch == db.users[id].epoch
    requires !NameTaken(db.users, u.username, id) && (id in db.grants ==> u.active || u.deleted)
    requires forall op :: op in db.pending ==> NewHash(db.pending[op]) != Some(h)
    ensures Inv(SetPassword(db, id, u, h))
  {
    var row := u.(hash := h, epoch := u.epoch + 1);
    NamesKeep(db.users, id, row);
    RevokedKeep(db.users, db.sessions, db.nextSession, id, row);
  }

  lemma SetPasswordRevokes(db: Db, id: UserId, u: User, h: Hash)
    requires id in db.users
    ensures var sessions := SetPassword(db, id, u, h).sessions;
            && sessions.Keys == db.sessions.Keys
            && (forall k :: k in sessions && sessions[k].user == id ==> sessions[k].revoked)
            && (forall k :: k in sessions && db.sessions[k].user != id ==> sessions[k] == db.sessions[k])
  {
  }

  lemma FinishLoginKeeps(p: Policy, db: Db, op: OpId, now: int)
    requires Inv(db) && op in db.pending && db.pending[op].Login?
    ensures Inv(FinishLogin(p, db, op, now).0)
  {
    var t := db.pending[op];
    DropKeeps(db, op);
    if IsLocked(db.throttles, t.key, now) {
    } else if !LoginHolds(db, t) {
      if t.key !in db.throttles { RestartKeeps(db, op, FirstFailure(t.key, now)); }
    } else {
      LoginRow(db, op);
      OpenKeeps(p, LoggedIn(db, op), t.found.value, t.password, t.seenEpoch, now);
    }
  }

  lemma RestartKeeps(db: Db, op: OpId, t: Pending)
    requires Inv(db) && op in db.pending && t.FirstFailure?
    ensures Inv(db.(pending := db.pending[op := t]))
  {
    DropKeeps(db, op);
    StartKeeps(Drop(db, op), op, t, db.nextSalt);
    assert (db.pending - {op})[op := t] == db.pending[op := t];
  }

  /** The account row after a successful login, before the session is opened. */
  ghost function LoggedIn(db: Db, op: OpId): Db
    requires op in db.pending && db.pending[op].Login? && LoginHolds(db, db.pending[op])
  {
    var t := db.pending[op];
    var u := db.users[t.found.value].(hash := if t.upgraded.Some? then t.upgraded.value else t.seen, loggedIn := true);
    Drop(db, op).(throttles := db.throttles - {t.key}, users := db.users[t.found.value := u],
                  published := db.published + {u.hash})
  }

  /** A row that carries a never stored hash cannot make any older snapshot current. */
  lemma StoreKeeps(db: Db, id: UserId, u: User, next: nat)
    requires SnapshotsOk(db.users, db.published, db.pending) && IssuesOk(db.users, db.published, db.issued)
    requires PublishedOk(db.users, db.published, db.nextSalt) && FreshOk(db.published, db.pending, db.nextSalt)
    requires u.hash !in db.published && u.hash.salt < next && db.nextSalt <= next
    requires forall op :: op in db.pending ==> NewHash(db.pending[op]) != Some(u.hash)
    ensures var users, published := db.users[id := u], db.published + {u.hash};
            && SnapshotsOk(users, published, db.pending) && IssuesOk(users, published, db.issued)
            && PublishedOk(users, published, next) && FreshOk(published, db.pending, next)
  {
  }

  /** A rehash stores a new hash of the same password: no epoch moves and no session is lost. */
  lemma RehashKeeps(db: Db, id: UserId, u: User)
    requires Inv(db) && id in db.users && u.hash !in db.published && u.hash.salt < db.nextSalt
    requires u == db.users[id].(hash := u.hash, loggedIn := u.loggedIn)
    requires u.hash.password == db.users[id].hash.password
    requires forall op :: op in db.pending ==> NewHash(db.pending[op]) != Some(u.hash)
    ensures Inv(db.(users := db.users[id := u], published := db.published + {u.hash}))
  {
    StoreKeeps(db, id, u, db.nextSalt);
  }

  lemma LoginRow(db: Db, op: OpId)
    requires Inv(db) && op in db.pending && db.pending[op].Login? && LoginHolds(db, db.pending[op])
    ensures Inv(LoggedIn(db, op))
  {
    var db', t, id := LoggedIn(db, op), db.pending[op], db.pending[op].found.value;
    var dropped := Drop(db, op).(throttles := db'.throttles);
    assert Inv(dropped) by { DropKeeps(db, op); }
    if t.upgraded.Some? {
      RehashKeeps(dropped, id, db'.users[id]);
    } else {
      AccountKeeps(dropped, id, db'.users[id], db.sessions, db.grants);
      assert db'.published == db.published;
    }
  }

  lemma OpenKeeps(p: Policy, db: Db, id: UserId, password: string, epoch: nat, now: int)
    requires Inv(db) && id in db.users && CanLogin(db.users[id])
    requires epoch == db.users[id].epoch && password == db.users[id].hash.password
    ensures Inv(OpenSession(p, db, id, password, epoch, now))
  {
  }

  lemma FinishPasswordChangeKeeps(db: Db, op: OpId)
    requires Inv(db) && op in db.pending && db.pending[op].PasswordChange?
    ensures Inv(FinishPasswordChange(db, op).0)
  {
    var t := db.pending[op];
    DropKeeps(db, op);
    TakeHash(db, op, t.newHash);
    if StillVerified(db, t.user, t.seen) {
      SetPasswordKeeps(Drop(db, op), t.user, db.users[t.user], t.newHash);
    }
  }

  lemma ChangedRow(db: Db, id: UserId, u: User, h: Hash)
    requires Inv(db) && id in db.users && h !in db.published && h.salt < db.nextSalt
    requires u.hash == db.users[id].hash && u.epoch == db.users[id].epoch
    requires !NameTaken(db.users, u.username, id) && CanLogin(u)
    requires forall op :: op in db.pending ==> NewHash(db.pending[op]) != Some(h)
    ensures var changed := SetPassword(db, id, u, h);
            Inv(changed) && changed.users[id] == u.(hash := h, epoch := u.epoch + 1) && CanLogin(changed.users[id])
  {
    SetPasswordKeeps(db, id, u, h);
  }

  lemma FinishCredentialChangeKeeps(p: Policy, db: Db, op: OpId, now: int)
    requires Inv(db) && op in db.pending && db.pending[op].CredentialChange?
    ensures Inv(FinishCredentialChange(p, db, op, now).0)
  {
    var t := db.pending[op];
    if !StillVerified(db, t.user, t.seen) || NameTaken(db.users, t.newName, t.user) {
      DropKeeps(db, op);
    } else {
      CredentialRow(p, db, op, now);
    }
  }

  lemma CredentialRow(p: Policy, db: Db, op: OpId, now: int)
    requires Inv(db) && op in db.pending && db.pending[op].CredentialChange?
    requires StillVerified(db, db.pending[op].user, db.pending[op].seen)
    requires !NameTaken(db.users, db.pending[op].newName, db.pending[op].user)
    ensures Inv(FinishCredentialChange(p, db, op, now).0)
  {
    var t, dropped := db.pending[op], Drop(db, op);
    DropKeeps(db, op);
    TakeHash(db, op, t.newHash);
    RenamedKeeps(p, dropped, t.user, db.users[t.user].(username := t.newName, mustChange := false), t.newHash, now);
  }

  lemma RenamedKeeps(p: Policy, db: Db, id: UserId, u: User, h: Hash, now: int)
    requires Inv(db) && id in db.users && h !in db.published && h.salt < db.nextSalt
    requires u.hash == db.users[id].hash && u.epoch == db.users[id].epoch
    requires !NameTaken(db.users, u.username, id) && CanLogin(u)
    requires forall op :: op in db.pending ==> NewHash(db.pending[op]) != Some(h)
    ensures Inv(OpenSession(p, SetPassword(db, id, u, h), id, h.password, u.epoch + 1, now))
  {
    ChangedRow(db, id, u, h);
    OpenKeeps(p, SetPassword(db, id, u, h), id, h.password, u.epoch + 1, now);
  }

  lemma FinishInitialRecoveryKeeps(db: Db, op: OpId, id: UserId)
    requires Inv(db) && op in db.pending && db.pending[op].InitialRecovery?
    ensures Inv(FinishInitialRecovery(db, op, id).0)
  {
    DropKeeps(db, op);
    TakeHash(db, op, db.pending[op].newHash);
    if id in db.users && Eligible(db.users[id]) && !db.users[id].loggedIn && db.users[id].mustChange {
      SetPasswordKeeps(Drop(db, op), id, db.users[id], db.pending[op].newHash);
    }
  }

  lemma FinishResetConfirmKeeps(db: Db, op: OpId, authorized: bool, now: int)
    requires Inv(db) && op in db.pending && db.pending[op].ResetConfirm?
    ensures Inv(FinishResetConfirm(db, op, authorized, now).0)
  {
    var t := db.pending[op];
    DropKeeps(db, op);
    TakeHash(db, op, t.newHash);
    if authorized && ResetHolds(db, t, now) {
      var id := t.user;
      SetPasswordKeeps(Drop(db, op), id, db.users[id], t.newHash);
      var changed := SetPassword(Drop(db, op), id, db.users[id], t.newHash);
      RedeemKeeps(changed, id, TokenUse(t.token, id, now, db.users[id].hash, db.users[id].epoch, db.latest[id]));
    }
  }

  /** Recording the use of an unconsumed grant's token, which cannot have been used before. */
  lemma RedeemKeeps(db: Db, id: UserId, use: TokenUse)
    requires Inv(db) && id in db.grants && !db.grants[id].consumed && use.token == db.grants[id].token
    requires UseOk(db.issued, use)
    ensures Inv(db.(grants := db.grants[id := db.grants[id].(consumed := true)], uses := db.uses + [use]))
  {
    assert !Used(db.uses, use.token);
    RedeemGrants(db.grants, db.issued, db.latest, db.uses, db.nextToken, id, use);
    RedeemUses(db.issued, db.uses, use);
  }

  lemma RedeemUses(issued: map<Token, Issue>, uses: seq<TokenUse>, use: TokenUse)
    requires UsesOk(issued, uses) && UseOk(issued, use) && !Used(uses, use.token)
    ensures UsesOk(issued, uses + [use])
  {
  }

  lemma RedeemGrants(grants: map<UserId, Grant>, issued: map<Token, Issue>, latest: map<UserId, Token>,
                     uses: seq<TokenUse>, nextToken: Token, id: UserId, use: TokenUse)
    requires GrantsOk(grants, issued, latest, uses, nextToken) && id in grants && use.token == grants[id].token
    ensures GrantsOk(grants[id := grants[id].(consumed := true)], issued, latest, uses + [use], nextToken)
  {
    var more := uses + [use];
    forall k | k in grants && k != id && Used(more, grants[k].token) ensures grants[k].consumed {
      assert issued[grants[k].token].user == k;
      var i :| 0 <= i < |more| && more[i].token == grants[k].token;
      assert i < |uses| && uses[i].token == grants[k].token;
    }
  }

  lemma IssueGrant(grants: map<UserId, Grant>, issued: map<Token, Issue>, latest: map<UserId, Token>,
                   uses: seq<TokenUse>, token: Token, id: UserId, g: Grant, i: Issue)
    requires GrantsOk(grants, issued, latest, uses, token) && UsesOk(issued, uses)
    requires g.token == token && i.user == id && i.hash == g.fingerprint && i.expires == g.expires
    ensures GrantsOk(grants[id := g], issued[token := i], latest[id := token], uses, token + 1)
    ensures UsesOk(issued[token := i], uses)
  {
    forall k | 0 <= k < |uses| ensures uses[k].token != token && UseOk(issued[token := i], uses[k]) {
      assert UseOk(issued, uses[k]);
    }
  }

  lemma IssueResetKeeps(db: Db, authorized: bool, link: Option<UserId>, client: ClientId, now: int)
    requires Inv(db)
    ensures Inv(IssueReset(db, authorized, link, client, now).0)
  {
    if authorized && link.Some? { IssueToKeeps(db, link.value, client, now); }
  }

  lemma IssueToKeeps(db: Db, id: UserId, client: ClientId, now: int)
    requires Inv(db)
    ensures Inv(IssueTo(db, id, client, now).0)
  {
    var (db', o) := IssueTo(db, id, client, now);
    if o.TokenIssued? {
      IssueGrant(db.grants, db.issued, db.latest, db.uses, db.nextToken, id, db'.grants[id], db'.issued[db.nextToken]);
      assert IssuesOk(db'.users, db'.published, db'.issued);
    }
  }

  lemma SameHashKeeps(db: Db, id: UserId, u: User)
    requires Inv(db) && id in db.users && u.hash == db.users[id].hash && u.epoch == db.users[id].epoch
    ensures var users := db.users[id := u];
            && SnapshotsOk(users, db.published, db.pending) && IssuesOk(users, db.published, db.issued)
            && PublishedOk(users, db.published, db.nextSalt)
  {
  }

  lemma OpenKept(users: map<UserId, User>, sessions: map<SessionId, Session>, next: SessionId, id: UserId, u: User)
    requires SessionsOk(users, sessions, next) && id in users && (CanLogin(users[id]) ==> CanLogin(u))
    requires u.hash == users[id].hash && u.epoch == users[id].epoch
    ensures SessionsOk(users[id := u], sessions, next)
  {
  }

  /** A change of an account that keeps its hash: open sessions stay only if the account stays live, and a
      suspended account loses its grant. */
  lemma AccountKeeps(db: Db, id: UserId, u: User, sessions: map<SessionId, Session>, grants: map<UserId, Grant>)
    requires Inv(db) && id in db.users && u.hash == db.users[id].hash && u.epoch == db.users[id].epoch
    requires u.username == db.users[id].username || !NameTaken(db.users, u.username, id)
    requires || sessions == RevokeAll(db.sessions, id)
             || (sessions == db.sessions && (CanLogin(db.users[id]) ==> CanLogin(u)))
    requires grants == db.grants - {id} || (grants == db.grants && (id in grants ==> u.active || u.deleted))
    ensures Inv(db.(users := db.users[id := u], sessions := sessions, grants := grants))
  {
    SameHashKeeps(db, id, u);
    NamesKeep(db.users, id, u);
    if sessions == RevokeAll(db.sessions, id) {
      RevokedKeep(db.users, db.sessions, db.nextSession, id, u);
    } else {
      OpenKept(db.users, db.sessions, db.nextSession, id, u);
    }
  }

  lemma AddUserKeeps(db: Db, id: UserId, u: User, next: nat)
    requires Inv(db) && id !in db.users && !NameTaken(db.users, u.username, id) && db.nextSalt <= u.hash.salt < next
    ensures Inv(db.(users := db.users[id := u], nextSalt := next, published := db.published + {u.hash}))
  {
    StoreKeeps(db, id, u, next);
  }

  lemma CreateUserKeeps(db: Db, id: UserId, name: string, password: string, admin: bool)
    requires Inv(db)
    ensures Inv(CreateUser(db, id, name, password, admin).0)
  {
    if id !in db.users && !NameTaken(db.users, name, id) {
      AddUserKeeps(db, id, User(name, Hash(password, db.nextSalt, false), true, false, admin, true, false, 0),
        db.nextSalt + 1);
    }
  }

  // ----- Every interleaving

  lemma BeginLoginKeeps(db: Db, op: OpId, key: string, name: string, found: Option<UserId>, password: string, now: int)
    requires Inv(db) && op !in db.pending && IsLookup(db.users, name, found)
    ensures Inv(BeginLogin(db, op, key, name, found, password, now).0)
  {
    if !IsLocked(db.throttles, key, now) {
      var db' := BeginLogin(db, op, key, name, found, password, now).0;
      StartKeeps(db, op, db'.pending[op], db'.nextSalt);
    }
  }

  lemma BeginPasswordChangeKeeps(db: Db, op: OpId, id: UserId, current: string, newPassword: string)
    requires Inv(db) && op !in db.pending
    ensures Inv(BeginPasswordChange(db, op, id, current, newPassword).0)
  {
    var db' := BeginPasswordChange(db, op, id, current, newPassword).0;
    if op in db'.pending {
      StartKeeps(db, op, db'.pending[op], db'.nextSalt);
    }
  }

  lemma BeginCredentialChangeKeeps(db: Db, op: OpId, id: UserId, current: string, name: string, newPassword: string)
    requires Inv(db) && op !in db.pending
    ensures Inv(BeginCredentialChange(db, op, id, current, name, newPassword).0)
  {
    var db' := BeginCredentialChange(db, op, id, current, name, newPassword).0;
    if op in db'.pending {
      StartKeeps(db, op, db'.pending[op], db'.nextSalt);
    }
  }

  lemma BeginResetConfirmKeeps(db: Db, op: OpId, token: Token, found: Option<UserId>, password: string)
    requires Inv(db) && op !in db.pending
    requires found.Some? ==> found.value in db.grants && db.grants[found.value].token == token
    ensures Inv(BeginResetConfirm(db, op, token, found, password).0)
  {
    if found.Some? {
      var db' := BeginResetConfirm(db, op, token, found, password).0;
      StartKeeps(db, op, db'.pending[op], db'.nextSalt);
    }
  }

  lemma BeginInitialRecoveryKeeps(db: Db, op: OpId, password: string)
    requires Inv(db) && op !in db.pending
    ensures Inv(BeginInitialRecovery(db, op, password).0)
  {
    var db' := BeginInitialRecovery(db, op, password).0;
    StartKeeps(db, op, db'.pending[op], db'.nextSalt);
  }

  lemma ChangeUsernameKeeps(db: Db, id: UserId, name: string)
    requires Inv(db)
    ensures Inv(ChangeUsername(db, id, name).0)
  {
    if id in db.users && !NameTaken(db.users, name, id) {
      AccountKeeps(db, id, db.users[id].(username := name), db.sessions, db.grants);
    }
  }

  lemma SetActiveKeeps(db: Db, id: UserId, active: bool)
    requires Inv(db)
    ensures Inv(SetActive(db, id, active).0)
  {
    if id in db.users && !db.users[id].deleted && !db.users[id].admin {
      AccountKeeps(db, id, db.users[id].(active := active), if active then db.sessions else RevokeAll(db.sessions, id),
                   if active then db.grants else db.grants - {id});
    }
  }

  lemma DeleteUserKeeps(db: Db, id: UserId)
    requires Inv(db)
    ensures Inv(DeleteUser(db, id).0)
  {
    if id in db.users && !db.users[id].deleted && !db.users[id].admin {
      AccountKeeps(db, id, db.users[id].(active := false, deleted := true), RevokeAll(db.sessions, id), db.grants);
    }
  }

  lemma SessionStepKeeps(p: Policy, db: Db, s: Step)
    requires Inv(db) && (s.DoRevokeSession? || s.DoPurgeSessions?)
    ensures Inv(Apply(p, db, s).0)
  {
  }

  lemma CommitFirstFailureKeeps(p: Policy, db: Db, op: OpId)
    requires Inv(db) && op in db.pending && db.pending[op].FirstFailure?
    ensures Inv(CommitFirstFailure(p, db, op))
  {
    DropKeeps(db, op);
  }

  predicate IsCommit(s: Step) {
    s.DoFinishLogin? || s.DoCommitFirstFailure? || s.DoFinishPasswordChange? || s.DoFinishCredentialChange?
    || s.DoFinishResetConfirm? || s.DoFinishInitialRecovery? || s.DoCreateUser? || s.DoIssueReset?
  }

  lemma CommitKeeps(p: Policy, db: Db, s: Step)
    requires Inv(db) && Enabled(db, s) && IsCommit(s)
    ensures Inv(Apply(p, db, s).0)
  {
    match s
    case DoFinishLogin(op, now) => FinishLoginKeeps(p, db, op, now);
    case DoCommitFirstFailure(op) => CommitFirstFailureKeeps(p, db, op);
    case DoFinishPasswordChange(op) => FinishPasswordChangeKeeps(db, op);
    case DoFinishCredentialChange(op, now) => FinishCredentialChangeKeeps(p, db, op, now);
    case DoFinishResetConfirm(op, authorized, now) => FinishResetConfirmKeeps(db, op, authorized, now);
    case DoFinishInitialRecovery(op, id) => FinishInitialRecoveryKeeps(db, op, id);
    case DoCreateUser(id, name, password, admin) => CreateUserKeeps(db, id, name, password, admin);
    case DoIssueReset(authorized, link, client, now) => IssueResetKeeps(db, authorized, link, client, now);
  }

  lemma StepKeeps(p: Policy, db: Db, s: Step)
    requires Inv(db) && Enabled(db, s)
    ensures Inv(Apply(p, db, s).0)
  {
    if IsCommit(s) {
      CommitKeeps(p, db, s);
    } else {
      match s
      case DoChangeUsername(id, name) => ChangeUsernameKeeps(db, id, name);
      case DoSetActive(id, active) => SetActiveKeeps(db, id, active);
      case DoDeleteUser(id) => DeleteUserKeeps(db, id);
      case DoRevokeSession(_) => SessionStepKeeps(p, db, s);
      case DoPurgeSessions(_) => SessionStepKeeps(p, db, s);
      case DoBeginResetConfirm(op, token, found, password) => BeginResetConfirmKeeps(db, op, token, found, password);
      case DoBeginInitialRecovery(op, password) => BeginInitialRecoveryKeeps(db, op, password);
      case DoBeginLogin(op, key, name, found, password, now) => BeginLoginKeeps(db, op, key, name, found, password,
        now);
      case DoBeginPasswordChange(op, id, current, newPassword) => BeginPasswordChangeKeeps(db, op, id, current,
        newPassword);
      case DoBeginCredentialChange(op, id, current, name, newPassword) =>
        BeginCredentialChangeKeeps(db, op, id, current, name, newPassword);
    }
  }

  lemma {:induction false} ExecutionKeeps(p: Policy, states: seq<Db>, steps: seq<Step>, i: nat)
    requires Execution(p, states, steps) && Initial(states[0]) && i < |states|
    ensures Inv(states[i])
  {
    if i == 0 {
      InitialInv(states[0]);
    } else {
      ExecutionKeeps(p, states, steps, i - 1);
      assert Steps(p, states, steps, i - 1);
      StepKeeps(p, states[i - 1], steps[i - 1]);
    }
  }

  /** In every reachable state an open session belongs to an active, undeleted account, and was
      opened by presenting the account's current password in its current epoch. */
  lemma OpenSessionsAreCurrent(p: Policy, states: seq<Db>, steps: seq<Step>, i: nat, k: SessionId)
    requires Execution(p, states, steps) && Initial(states[0]) && i < |states|
    requires k in states[i].sessions && !states[i].sessions[k].revoked
    ensures var db, s := states[i], states[i].sessions[k];
            && s.user in db.users && db.users[s.user].active && !db.users[s.user].deleted
            && s.epoch == db.users[s.user].epoch && s.password == db.users[s.user].hash.password
  {
    ExecutionKeeps(p, states, steps, i);
  }

  /** In every reachable state a suspended account has neither an open session nor a grant, and a deleted
      one no open session. */
  lemma SuspendedHoldsNothing(p: Policy, states: seq<Db>, steps: seq<Step>, i: nat, id: UserId)
    requires Execution(p, states, steps) && Initial(states[0]) && i < |states| && id in states[i].users
    ensures var db, u := states[i], states[i].users[id];
            && (!u.active || u.deleted ==> forall k :: k in db.sessions && db.sessions[k].user == id ==>
                db.sessions[k].revoked)
            && (!u.active && !u.deleted ==> id !in db.grants)
  {
    ExecutionKeeps(p, states, steps, i);
  }

  /** Each token changes a password at most once, and only as the latest unexpired token of its
      account, against the very hash and epoch in force when it was issued. */
  lemma TokensAreSingleUse(p: Policy, states: seq<Db>, steps: seq<Step>, i: nat)
    requires Execution(p, states, steps) && Initial(states[0]) && i < |states|
    ensures forall a, b :: 0 <= a < b < |states[i].uses| ==> states[i].uses[a].token != states[i].uses[b].token
    ensures forall a :: 0 <= a < |states[i].uses| ==>
              var u := states[i].uses[a];
              && u.latest == u.token && u.token in states[i].issued
              && var issue := states[i].issued[u.token];
                 issue.user == u.user && u.at < issue.expires && u.hash == issue.hash && u.epoch == issue.epoch
  {
    ExecutionKeeps(p, states, steps, i);
  }

  // ----- Failed logins

  function Failures(throttles: map<string, Throttle>, key: string): nat {
    if key in throttles then throttles[key].failures else 0
  }

  /** First failures of a key whose row has not been committed yet. */
  ghost function Uncommitted(pending: map<OpId, Pending>, key: string): set<OpId> {
    set op | op in pending && pending[op].FirstFailure? && pending[op].key == key
  }

  /** Failures on record for a key: counted in its row, or about to be. */
  ghost function OnRecord(db: Db, key: string): nat { Failures(db.throttles, key) + |Uncommitted(db.pending, key)| }

  ghost predicate Finishes(db: Db, s: Step, key: string) {
    s.DoFinishLogin? && s.op in db.pending && db.pending[s.op].Login? && db.pending[s.op].key == key
    && !IsLocked(db.throttles, key, s.now)
  }

  /** The step answers a login for this key with a failure. */
  ghost predicate Fails(db: Db, s: Step, key: string) { Finishes(db, s, key) && !LoginHolds(db, db.pending[s.op]) }

  /** The step forgets earlier failures: a success, or a failure after the window has passed. */
  ghost predicate Forgets(p: Policy, db: Db, s: Step, key: string) {
    Finishes(db, s, key) &&
    (LoginHolds(db, db.pending[s.op]) || (key in db.throttles && s.now - db.throttles[key].windowStart >= p.window))
  }

  lemma SameUncommitted(pending: map<OpId, Pending>, pending': map<OpId, Pending>, op: OpId, key: string)
    requires pending' - {op} == pending - {op}
    requires op in pending ==> !pending[op].FirstFailure? || pending[op].key != key
    requires op in pending' ==> !pending'[op].FirstFailure? || pending'[op].key != key
    ensures Uncommitted(pending', key) == Uncommitted(pending, key)
  {
    forall o | o != op ensures o in Uncommitted(pending', key) <==> o in Uncommitted(pending, key) {
      assert o in pending' <==> o in pending' - {op};
      assert o in pending <==> o in pending - {op};
    }
  }

  lemma FailureIsRecorded(p: Policy, db: Db, op: OpId, key: string, now: int)
    requires op in db.pending && db.pending[op].Login?
    requires key in db.throttles ==> now - db.throttles[key].windowStart < p.window
    ensures OnRecord(RegisterFailure(p, db, op, key, now), key) == OnRecord(db, key) + 1
  {
    var db' := RegisterFailure(p, db, op, key, now);
    if key in db.throttles {
      assert db'.pending - {op} == db.pending - {op};
      SameUncommitted(db.pending, db'.pending, op, key);
    } else {
      assert op !in Uncommitted(db.pending, key);
      assert Uncommitted(db'.pending, key) == Uncommitted(db.pending, key) + {op};
    }
  }

  lemma FailureFrame(p: Policy, db: Db, op: OpId, used: string, now: int, key: string)
    requires used != key
    ensures var db' := RegisterFailure(p, db, op, used, now);
            && Failures(db'.throttles, key) == Failures(db.throttles, key)
            && db'.pending - {op} == db.pending - {op}
            && (op in db'.pending ==> db'.pending[op].FirstFailure? && db'.pending[op].key == used)
  {
    if used in db.throttles { assert (db.pending - {op}) - {op} == db.pending - {op}; }
  }

  lemma OtherKeyUntouched(p: Policy, db: Db, op: OpId, used: string, now: int, key: string)
    requires op in db.pending && db.pending[op].Login? && used != key
    ensures OnRecord(RegisterFailure(p, db, op, used, now), key) == OnRecord(db, key)
  {
    FailureFrame(p, db, op, used, now, key);
    SameUncommitted(db.pending, RegisterFailure(p, db, op, used, now).pending, op, key);
  }

  lemma FinishLoginRecords(p: Policy, db: Db, s: Step, key: string)
    requires s.DoFinishLogin? && s.op in db.pending && db.pending[s.op].Login? && !Forgets(p, db, s, key)
    ensures OnRecord(FinishLogin(p, db, s.op, s.now).0, key) == OnRecord(db, key) + (if Fails(db, s, key) then 1 else 0)
  {
    var t, db' := db.pending[s.op], FinishLogin(p, db, s.op, s.now).0;
    if IsLocked(db.throttles, t.key, s.now) || LoginHolds(db, t) {
      assert db'.pending - {s.op} == db.pending - {s.op};
      SameUncommitted(db.pending, db'.pending, s.op, key);
    } else if t.key == key {
      FailureIsRecorded(p, db, s.op, key, s.now);
    } else {
      OtherKeyUntouched(p, db, s.op, t.key, s.now, key);
    }
  }

  /** Committing a first failure moves it from the waiting set to the row, also when a row appeared. */
  lemma CommitRecords(p: Policy, db: Db, op: OpId, key: string)
    requires op in db.pending && db.pending[op].FirstFailure?
    ensures OnRecord(CommitFirstFailure(p, db, op), key) == OnRecord(db, key)
  {
    var db' := CommitFirstFailure(p, db, op);
    if db.pending[op].key == key {
      assert op in Uncommitted(db.pending, key);
      assert Uncommitted(db'.pending, key) == Uncommitted(db.pending, key) - {op};
    } else {
      assert db'.pending - {op} == db.pending - {op};
      SameUncommitted(db.pending, db'.pending, op, key);
    }
  }

  /** The operation that a step begins or ends. */
  function OpOf(s: Step): OpId {
    match s
    case DoBeginLogin(op, _, _, _, _, _) => op
    case DoFinishLogin(op, _) => op
    case DoCommitFirstFailure(op) => op
    case DoBeginPasswordChange(op, _, _, _) => op
    case DoFinishPasswordChange(op) => op
    case DoBeginCredentialChange(op, _, _, _, _) => op
    case DoFinishCredentialChange(op, _) => op
    case DoBeginResetConfirm(op, _, _, _) => op
    case DoFinishResetConfirm(op, _, _) => op
    case DoBeginInitialRecovery(op, _) => op
    case DoFinishInitialRecovery(op, _) => op
    case _ => 0
  }

  /** Throttles stay, and no waiting first failure comes or goes. */
  ghost predicate RecordsNothing(db: Db, db': Db, op: OpId) {
    && db'.throttles == db.throttles
    && (db'.pending == db.pending ||
        (&& db'.pending - {op} == db.pending - {op}
         && (op in db.pending ==> !db.pending[op].FirstFailure?)
         && (op in db'.pending ==> !db'.pending[op].FirstFailure?)))
  }

  lemma BeginRecordsNothing(p: Policy, db: Db, s: Step)
    requires Enabled(db, s) && (s.DoBeginLogin? || s.DoBeginPasswordChange? || s.DoBeginCredentialChange?)
    ensures RecordsNothing(db, Apply(p, db, s).0, OpOf(s))
  {
    StartRecordsNothing(db, Apply(p, db, s).0, OpOf(s));
  }

  lemma BeginRecoveryRecordsNothing(p: Policy, db: Db, s: Step)
    requires Enabled(db, s) && (s.DoBeginResetConfirm? || s.DoBeginInitialRecovery?)
    ensures RecordsNothing(db, Apply(p, db, s).0, OpOf(s))
  {
    StartRecordsNothing(db, Apply(p, db, s).0, OpOf(s));
  }

  lemma StartRecordsNothing(db: Db, db': Db, op: OpId)
    requires op !in db.pending && db'.throttles == db.throttles && Starts(db.pending, db'.pending, op)
    ensures RecordsNothing(db, db', op)
  {
    assert op in db'.pending ==> db.pending[op := db'.pending[op]] - {op} == db.pending - {op};
  }

  lemma DropRecordsNothing(db: Db, db': Db, op: OpId)
    requires op in db.pending && !db.pending[op].FirstFailure? && db'.throttles == db.throttles &&
             db'.pending == db.pending - {op}
    ensures RecordsNothing(db, db', op)
  {
    assert (db.pending - {op}) - {op} == db.pending - {op};
  }

  lemma FinishRecordsNothing(p: Policy, db: Db, s: Step)
    requires Enabled(db, s) && (s.DoFinishPasswordChange? || s.DoFinishCredentialChange?)
    ensures RecordsNothing(db, Apply(p, db, s).0, OpOf(s))
  {
    DropRecordsNothing(db, Apply(p, db, s).0, OpOf(s));
  }

  lemma FinishRecoveryRecordsNothing(p: Policy, db: Db, s: Step)
    requires Enabled(db, s) && (s.DoFinishResetConfirm? || s.DoFinishInitialRecovery?)
    ensures RecordsNothing(db, Apply(p, db, s).0, OpOf(s))
  {
    DropRecordsNothing(db, Apply(p, db, s).0, OpOf(s));
  }

  predicate Manages(s: Step) {
    s.DoChangeUsername? || s.DoSetActive? || s.DoDeleteUser? || s.DoCreateUser? || s.DoRevokeSession? ||
      s.DoPurgeSessions? || s.DoIssueReset?
  }

  lemma ManageRecordsNothing(p: Policy, db: Db, s: Step)
    requires Enabled(db, s) && Manages(s)
    ensures Apply(p, db, s).0.throttles == db.throttles && Apply(p, db, s).0.pending == db.pending
  {
  }

  /** All steps but finished logins and first failures leave throttles alone and touch no waiting first failure. */
  lemma OthersRecordNothing(p: Policy, db: Db, s: Step)
    requires Enabled(db, s) && !s.DoFinishLogin? && !s.DoCommitFirstFailure?
    ensures RecordsNothing(db, Apply(p, db, s).0, OpOf(s))
  {
    if Manages(s) {
      ManageRecordsNothing(p, db, s);
    } else if s.DoBeginResetConfirm? || s.DoBeginInitialRecovery? {
      BeginRecoveryRecordsNothing(p, db, s);
    } else if s.DoFinishResetConfirm? || s.DoFinishInitialRecovery? {
      FinishRecoveryRecordsNothing(p, db, s);
    } else if s.DoFinishPasswordChange? || s.DoFinishCredentialChange? {
      FinishRecordsNothing(p, db, s);
    } else {
      BeginRecordsNothing(p, db, s);
    }
  }

  lemma RecordStep(p: Policy, db: Db, s: Step, key: string)
    requires Enabled(db, s) && !Forgets(p, db, s, key)
    ensures OnRecord(Apply(p, db, s).0, key) == OnRecord(db, key) + (if Fails(db, s, key) then 1 else 0)
  {
    if s.DoFinishLogin? {
      FinishLoginRecords(p, db, s, key);
    } else if s.DoCommitFirstFailure? {
      CommitRecords(p, db, s.op, key);
    } else {
      OthersRecordNothing(p, db, s);
      var db' := Apply(p, db, s).0;
      if db'.pending != db.pending { SameUncommitted(db.pending, db'.pending, OpOf(s), key); }
    }
  }

  /** The failed answers for a key between two states. */
  ghost function FailedAnswers(states: seq<Db>, steps: seq<Step>, i: nat, j: nat, key: string): nat
    requires i <= j <= |steps| < |states|
  {
    if i == j then 0
      else FailedAnswers(states, steps, i, j - 1, key) + (if Fails(states[j - 1], steps[j - 1], key) then 1 else 0)
  }

  /** No failed login is lost, however first failures race: until a success or the end of the window, what
      is on record for a key grows by exactly the failed answers. */
  lemma {:induction false} FailuresAreNotLost(p: Policy, states: seq<Db>, steps: seq<Step>, i: nat, j: nat, key: string)
    requires Execution(p, states, steps) && i <= j <= |steps|
    requires forall k :: i <= k < j ==> !Forgets(p, states[k], steps[k], key)
    ensures OnRecord(states[j], key) == OnRecord(states[i], key) + FailedAnswers(states, steps, i, j, key)
  {
    if i == j {
    } else {
      FailuresAreNotLost(p, states, steps, i, j - 1, key);
      RecordOneMore(p, states, steps, j - 1, key);
    }
  }

  lemma RecordOneMore(p: Policy, states: seq<Db>, steps: seq<Step>, k: nat, key: string)
    requires Execution(p, states, steps) && k < |steps| && !Forgets(p, states[k], steps[k], key)
    ensures OnRecord(states[k + 1], key)
            == OnRecord(states[k], key) + (if Fails(states[k], steps[k], key) then 1 else 0)
  {
    assert Steps(p, states, steps, k);
    RecordStep(p, states[k], steps[k], key);
  }

  /** What a failure that was counted at time `at` leaves in the row of its key. */
  ghost predicate LockedAtLimit(p: Policy, throttles: map<string, Throttle>, key: string, at: int) {
    key in throttles && (throttles[key].failures >= p.maxAttempts ==> throttles[key].lockedUntil == Some(at + p.lock))
  }

  /** Wherever a failure is counted, the count that reaches the limit locks the key for the whole lock time:
      on an existing row, on a first row, and on a row that a concurrent first failure inserted meanwhile. */
  lemma LimitLocks(p: Policy, db: Db, s: Step, key: string)
    requires Enabled(db, s)
    ensures Fails(db, s, key) && key in db.throttles ==> LockedAtLimit(p, Apply(p, db, s).0.throttles, key, s.now)
    ensures s.DoCommitFirstFailure? && db.pending[s.op].key == key ==>
              LockedAtLimit(p, Apply(p, db, s).0.throttles, key, db.pending[s.op].at)
  {
  }

  /** The other steps leave the row of a key alone, or delete it after a success. */
  lemma RowsChangeByFailures(p: Policy, db: Db, s: Step, key: string)
    requires Enabled(db, s) && key in Apply(p, db, s).0.throttles
    requires !Fails(db, s, key) && !(s.DoCommitFirstFailure? && db.pending[s.op].key == key)
    ensures key in db.throttles && Apply(p, db, s).0.throttles[key] == db.throttles[key]
  {
    if s.DoFinishLogin? {
      LoginRowsChange(p, db, s, key);
    } else if !s.DoCommitFirstFailure? {
      OthersRecordNothing(p, db, s);
    }
  }

  lemma LoginRowsChange(p: Policy, db: Db, s: Step, key: string)
    requires s.DoFinishLogin? && s.op in db.pending && db.pending[s.op].Login? && !Fails(db, s, key)
    ensures var throttles := FinishLogin(p, db, s.op, s.now).0.throttles;
            key in throttles ==> key in db.throttles && throttles[key] == db.throttles[key]
  {
  }

  /** A locked key admits no login: nothing changes, and the wait it announces ends with the lock. */
  lemma LockedAdmitsNobody(p: Policy, db: Db, op: OpId, now: int)
    requires op in db.pending && db.pending[op].Login? && IsLocked(db.throttles, db.pending[op].key, now)
    ensures var (db', o) := FinishLogin(p, db, op, now);
            o.Locked? && now + o.retryAfter == db.throttles[db.pending[op].key].lockedUntil.value &&
            db'.sessions == db.sessions && db'.users == db.users && db'.throttles == db.throttles
  {
  }

  // ----- Undisturbed operations succeed, raced ones have one winner

  /** The right password opens a session when nothing interferes between the halves. */
  lemma LoginWorks(p: Policy, db: Db, op: OpId, key: string, id: UserId, password: string, now: int, later: int)
    requires op !in db.pending && id in db.users && CanLogin(db.users[id]) && Verify(password, db.users[id].hash)
    requires !IsLocked(db.throttles, key, now) && !IsLocked(db.throttles, key, later)
    ensures var db1 := BeginLogin(db, op, key, db.users[id].username, Some(id), password, now).0;
            && op in db1.pending && db1.pending[op].Login?
            && var (db2, o) := FinishLogin(p, db1, op, later);
               && o == SessionIssued(db.nextSession) && db2.pending == db.pending
               && db.nextSession in db2.sessions && db2.sessions[db.nextSession].user == id &&
                 !db2.sessions[db.nextSession].revoked
               && Verify(password, db2.users[id].hash) && !db2.users[id].hash.weak
               && Failures(db2.throttles, key) == 0
  {
    var db1 := BeginLogin(db, op, key, db.users[id].username, Some(id), password, now).0;
    assert db1.pending - {op} == db.pending;
  }

  /** A wrong password, or any interference that changed the stored hash, never opens one. */
  lemma WrongPasswordFails(p: Policy, db: Db, op: OpId, now: int)
    requires op in db.pending && db.pending[op].Login?
    requires var t := db.pending[op];
             t.found.None? || t.found.value !in db.users || !Verify(t.password, db.users[t.found.value].hash)
    ensures !FinishLogin(p, db, op, now).1.SessionIssued? && FinishLogin(p, db, op, now).0.sessions == db.sessions
  {
  }

  /** After an undisturbed change the new password verifies, the epoch has moved and no session is open. */
  lemma ChangeWorks(db: Db, op: OpId, id: UserId, current: string, password: string)
    requires op !in db.pending && id in db.users && CanLogin(db.users[id]) && Verify(current, db.users[id].hash)
    ensures var db1 := BeginPasswordChange(db, op, id, current, password).0;
            && op in db1.pending && db1.pending[op].PasswordChange?
            && var (db2, o) := FinishPasswordChange(db1, op);
               && o == Done && id in db2.users && Verify(password, db2.users[id].hash) &&
                 db2.users[id].epoch == db.users[id].epoch + 1
               && forall k :: k in db2.sessions && db2.sessions[k].user == id ==> db2.sessions[k].revoked
  {
  }

  /** A token redeemed in time and undisturbed sets the new password and is spent. */
  lemma ResetWorks(db: Db, op: OpId, id: UserId, client: ClientId, password: string, now: int, later: int)
    requires op !in db.pending && id in db.users && Eligible(db.users[id])
    requires id in db.grants ==> now >= db.grants[id].created + RESET_COOLDOWN_SECONDS
    requires later < now + RESET_TTL_SECONDS
    ensures var (db1, o1) := IssueReset(db, true, Some(id), client, now);
            && o1 == TokenIssued(db.nextToken) && id in db1.grants && db1.grants[id].token == db.nextToken
            && var db2 := BeginResetConfirm(db1, op, db.nextToken, Some(id), password).0;
            && op in db2.pending && db2.pending[op].ResetConfirm?
            && var (db3, o3) := FinishResetConfirm(db2, op, true, later);
               && o3 == Done && id in db3.users && Verify(password, db3.users[id].hash)
               && id in db3.grants && db3.grants[id].consumed
  {
  }

  /** Of two changes prepared against the same stored hash only the first to commit succeeds. */
  lemma RaceHasOneWinner(db: Db, a: OpId, b: OpId)
    requires Inv(db) && a in db.pending && b in db.pending && a != b
    requires db.pending[a].PasswordChange? && db.pending[b].PasswordChange? && db.pending[a].user == db.pending[b].user
    ensures var (db1, first) := FinishPasswordChange(db, a);
            b in db1.pending && (first == Done ==> FinishPasswordChange(db1, b).1 == AuthenticationFailed)
  {
    assert Current(db.users, db.published, Seen(db.pending[b]).value);
    TakeHash(db, a, db.pending[a].newHash);
  }

  // ----- Who may change a password

  /** At step k operation `op` began the change `t`, and its caller presented the password then in force. */
  ghost predicate Proved(states: seq<Db>, steps: seq<Step>, k: nat, op: OpId, t: Pending)
    requires k < |steps| < |states|
  {
    && (t.PasswordChange? || t.CredentialChange?)
    && t.user in states[k].users && states[k].users[t.user].hash == t.seen
    && steps[k] == if t.PasswordChange?
                   then DoBeginPasswordChange(op, t.user, t.seen.password, t.newHash.password)
                   else DoBeginCredentialChange(op, t.user, t.seen.password, t.newName, t.newHash.password)
  }

  ghost predicate ProvedBefore(states: seq<Db>, steps: seq<Step>, i: nat, op: OpId, t: Pending)
    requires i <= |steps| < |states|
  {
    exists k: nat :: k < i && Proved(states, steps, k, op, t)
  }

  /** A missing account or a wrong current password is refused and leaves no trace. */
  lemma WrongCurrentIsRefused(db: Db, op: OpId, id: UserId, current: string, name: string, password: string)
    requires op !in db.pending
    ensures if id in db.users && db.users[id].hash.password == current
            then && BeginPasswordChange(db, op, id, current, password).1 == Done
                 && BeginCredentialChange(db, op, id, current, name, password).1 == Done
            else && BeginPasswordChange(db, op, id, current, password) == (db, AuthenticationFailed)
                 && BeginCredentialChange(db, op, id, current, name, password) == (db, AuthenticationFailed)
  {
  }

  /** A change waits that was not waiting before. */
  ghost predicate NewChange(pending: map<OpId, Pending>, pending': map<OpId, Pending>, op: OpId) {
    && op in pending' && (pending'[op].PasswordChange? || pending'[op].CredentialChange?)
    && (op in pending ==> pending[op] != pending'[op])
  }

  lemma FinishStartsNoChange(p: Policy, db: Db, s: Step, op: OpId)
    requires Enabled(db, s)
    requires || s.DoFinishPasswordChange? || s.DoFinishCredentialChange?
             || s.DoFinishResetConfirm? || s.DoFinishInitialRecovery?
    ensures !NewChange(db.pending, Apply(p, db, s).0.pending, op)
  {
    assert Apply(p, db, s).0.pending == db.pending - {s.op};
  }

  lemma LoginLeaves(p: Policy, db: Db, op: OpId, now: int)
    requires op in db.pending && db.pending[op].Login?
    ensures var left := FinishLogin(p, db, op, now).0.pending;
            left == db.pending - {op} || left == db.pending[op := FirstFailure(db.pending[op].key, now)]
  {
  }

  lemma LoginStartsNoChange(p: Policy, db: Db, op': OpId, now: int, op: OpId)
    requires op' in db.pending && db.pending[op'].Login?
    ensures !NewChange(db.pending, FinishLogin(p, db, op', now).0.pending, op)
  {
    LoginLeaves(p, db, op', now);
  }

  lemma CommitStartsNoChange(p: Policy, db: Db, op': OpId, op: OpId)
    requires op' in db.pending && db.pending[op'].FirstFailure?
    ensures !NewChange(db.pending, CommitFirstFailure(p, db, op').pending, op)
  {
  }

  lemma BeginLoginStartsNoChange(p: Policy, db: Db, s: Step, op: OpId)
    requires Enabled(db, s) && s.DoBeginLogin?
    ensures !NewChange(db.pending, Apply(p, db, s).0.pending, op)
  {
  }

  lemma BeginRecoveryStartsNoChange(p: Policy, db: Db, s: Step, op: OpId)
    requires Enabled(db, s) && (s.DoBeginResetConfirm? || s.DoBeginInitialRecovery?)
    ensures !NewChange(db.pending, Apply(p, db, s).0.pending, op)
  {
  }

  /** A change that starts waiting was begun by this very step, with the password in force. */
  lemma ChangeStarts(p: Policy, db: Db, s: Step, op: OpId)
    requires Enabled(db, s) && NewChange(db.pending, Apply(p, db, s).0.pending, op)
    ensures Proved([db, db], [s], 0, op, Apply(p, db, s).0.pending[op])
  {
    if Manages(s) {
      ManageRecordsNothing(p, db, s);
    } else if s.DoBeginPasswordChange? || s.DoBeginCredentialChange? {
      ChangeBegins(p, db, s, op);
    } else if s.DoBeginLogin? {
      BeginLoginStartsNoChange(p, db, s, op);
    } else if s.DoBeginResetConfirm? || s.DoBeginInitialRecovery? {
      BeginRecoveryStartsNoChange(p, db, s, op);
    } else if s.DoFinishLogin? {
      LoginStartsNoChange(p, db, s.op, s.now, op);
    } else if s.DoCommitFirstFailure? {
      CommitStartsNoChange(p, db, s.op, op);
    } else {
      FinishStartsNoChange(p, db, s, op);
    }
  }

  lemma ChangeBegins(p: Policy, db: Db, s: Step, op: OpId)
    requires Enabled(db, s) && NewChange(db.pending, Apply(p, db, s).0.pending, op)
    requires s.DoBeginPasswordChange? || s.DoBeginCredentialChange?
    ensures Proved([db, db], [s], 0, op, Apply(p, db, s).0.pending[op])
  {
  }

  /** Over any execution: an operation that waits to change a password or credentials was begun by a caller who
      presented the password that was in force when its snapshot was taken. */
  lemma {:induction false} WaitingChangeIsProved(p: Policy, states: seq<Db>, steps: seq<Step>, i: nat, op: OpId)
    requires Execution(p, states, steps) && Initial(states[0]) && i < |states| && op in states[i].pending
    requires states[i].pending[op].PasswordChange? || states[i].pending[op].CredentialChange?
    ensures ProvedBefore(states, steps, i, op, states[i].pending[op])
  {
    var t := states[i].pending[op];
    if i == 0 {
    } else {
      assert Steps(p, states, steps, i - 1);
      if op in states[i - 1].pending && states[i - 1].pending[op] == t {
        WaitingChangeIsProved(p, states, steps, i - 1, op);
        var k: nat :| k < i - 1 && Proved(states, steps, k, op, t);
      } else {
        assert NewChange(states[i - 1].pending, states[i].pending, op);
        ChangeStarts(p, states[i - 1], steps[i - 1], op);
        assert Proved(states, steps, i - 1, op, t);
      }
    }
  }

  /** Why an account's stored password may be replaced by `password` at step i. */
  ghost predicate MayReplace(states: seq<Db>, steps: seq<Step>, i: nat, id: UserId, password: string)
    requires i < |steps| < |states|
  {
    || ByOwner(states, steps, i, id, password)
    || ByToken(states[i], steps[i], id, password)
    || ByRecovery(states[i], steps[i], id, password)
  }

  /** A change completes whose caller had presented the very password that is being replaced. */
  ghost predicate ByOwner(states: seq<Db>, steps: seq<Step>, i: nat, id: UserId, password: string)
    requires i < |steps| < |states|
  {
    id in states[i].users &&
    exists k: nat ::
      k < i && Begun(steps[k], id, states[i].users[id].hash.password, password)
      && (steps[i] == DoFinishPasswordChange(steps[k].op)
          || (steps[i].DoFinishCredentialChange? && steps[i].op == steps[k].op))
  }

  ghost predicate Begun(s: Step, id: UserId, current: string, password: string) {
    || (s.DoBeginPasswordChange? && s.id == id && s.current == current && s.newPassword == password)
    || (s.DoBeginCredentialChange? && s.id == id && s.current == current && s.newPassword == password)
  }

  /** A reset completes for an eligible account with its unspent, unexpired token, issued for the stored hash. */
  ghost predicate ByToken(db: Db, s: Step, id: UserId, password: string) {
    && s.DoFinishResetConfirm? && s.authorized && s.op in db.pending && db.pending[s.op].ResetConfirm?
    && db.pending[s.op].user == id && db.pending[s.op].newHash.password == password
    && id in db.users && db.users[id].active && !db.users[id].deleted && !db.users[id].admin
    && id in db.grants && !db.grants[id].consumed && s.now < db.grants[id].expires
    && db.grants[id].token == db.pending[s.op].token && db.grants[id].fingerprint == db.users[id].hash
  }

  /** An initial recovery completes for an eligible account that never logged in and must change its password. */
  ghost predicate ByRecovery(db: Db, s: Step, id: UserId, password: string) {
    && s.DoFinishInitialRecovery? && s.id == id && s.op in db.pending && db.pending[s.op].InitialRecovery?
    && db.pending[s.op].newHash.password == password
    && id in db.users && db.users[id].active && !db.users[id].deleted && !db.users[id].admin
    && !db.users[id].loggedIn && db.users[id].mustChange
  }

  lemma AccountStepKeepsHash(p: Policy, db: Db, s: Step, id: UserId)
    requires Enabled(db, s) && (s.DoChangeUsername? || s.DoSetActive? || s.DoDeleteUser? || s.DoCreateUser?)
    requires id in db.users
    ensures id in Apply(p, db, s).0.users && Apply(p, db, s).0.users[id].hash == db.users[id].hash
  {
    if s.DoChangeUsername? {
      RenameKeepsHash(db, s.id, s.name, id);
    } else if s.DoSetActive? {
      StatusKeepsHash(db, s.id, s.active, id);
    } else if s.DoDeleteUser? {
      DeleteKeepsHash(db, s.id, id);
    } else {
      CreateKeepsHash(db, s.id, s.name, s.password, s.admin, id);
    }
  }

  lemma RenameKeepsHash(db: Db, who: UserId, name: string, id: UserId)
    requires id in db.users
    ensures var users := ChangeUsername(db, who, name).0.users; id in users && users[id].hash == db.users[id].hash
  {
  }

  lemma StatusKeepsHash(db: Db, who: UserId, active: bool, id: UserId)
    requires id in db.users
    ensures var users := SetActive(db, who, active).0.users; id in users && users[id].hash == db.users[id].hash
  {
  }

  lemma DeleteKeepsHash(db: Db, who: UserId, id: UserId)
    requires id in db.users
    ensures var users := DeleteUser(db, who).0.users; id in users && users[id].hash == db.users[id].hash
  {
  }

  lemma CreateKeepsHash(db: Db, who: UserId, name: string, password: string, admin: bool, id: UserId)
    requires id in db.users
    ensures var users := CreateUser(db, who, name, password, admin).0.users;
            id in users && users[id].hash == db.users[id].hash
  {
  }

  lemma ManageKeepsUsers(p: Policy, db: Db, s: Step)
    requires Enabled(db, s) && (s.DoRevokeSession? || s.DoPurgeSessions? || s.DoIssueReset?)
    ensures Apply(p, db, s).0.users == db.users
  {
  }

  lemma BeginKeepsUsers(p: Policy, db: Db, s: Step)
    requires Enabled(db, s)
    requires || s.DoBeginLogin? || s.DoBeginPasswordChange? || s.DoBeginCredentialChange? || s.DoBeginResetConfirm?
             || s.DoBeginInitialRecovery? || s.DoCommitFirstFailure?
    ensures Apply(p, db, s).0.users == db.users
  {
  }

  /** The waiting change replaces the very hash it started from. */
  ghost predicate OwnChange(db: Db, s: Step, id: UserId, password: string) {
    && (s.DoFinishPasswordChange? || s.DoFinishCredentialChange?) && s.op in db.pending
    && var t := db.pending[s.op];
       && (t.PasswordChange? || t.CredentialChange?)
       && t.user == id && id in db.users && t.seen == db.users[id].hash && t.newHash.password == password
  }

  lemma ChangeReplaces(p: Policy, db: Db, s: Step, id: UserId)
    requires Enabled(db, s) && (s.DoFinishPasswordChange? || s.DoFinishCredentialChange?) && id in db.users
    ensures id in Apply(p, db, s).0.users
    ensures var h := Apply(p, db, s).0.users[id].hash; h != db.users[id].hash ==> OwnChange(db, s, id, h.password)
  {
    if s.DoFinishPasswordChange? {
      PasswordChangeIff(db, s.op);
    } else {
      CredentialChangeReplaces(p, db, s.op, s.now, id);
    }
  }

  lemma CredentialUsers(p: Policy, db: Db, op: OpId, now: int)
    requires op in db.pending && db.pending[op].CredentialChange?
    ensures var t, users := db.pending[op], FinishCredentialChange(p, db, op, now).0.users;
            || users == db.users
            || (&& t.user in db.users && db.users[t.user].hash == t.seen
                && t.user in users && users[t.user].hash == t.newHash && users == db.users[t.user := users[t.user]])
  {
  }

  lemma CredentialChangeReplaces(p: Policy, db: Db, op: OpId, now: int, id: UserId)
    requires op in db.pending && db.pending[op].CredentialChange? && id in db.users
    ensures var after := FinishCredentialChange(p, db, op, now).0;
            && id in after.users
            && (after.users[id].hash != db.users[id].hash ==>
                  OwnChange(db, DoFinishCredentialChange(op, now), id, after.users[id].hash.password))
  {
    CredentialUsers(p, db, op, now);
  }

  lemma ResetReplaces(db: Db, op: OpId, authorized: bool, now: int, id: UserId)
    requires op in db.pending && db.pending[op].ResetConfirm? && id in db.users
    ensures var users := FinishResetConfirm(db, op, authorized, now).0.users;
            && id in users
            && (users[id].hash != db.users[id].hash ==>
                  ByToken(db, DoFinishResetConfirm(op, authorized, now), id, users[id].hash.password))
  {
    ResetIff(db, op, authorized, now);
  }

  lemma InitialReplaces(db: Db, op: OpId, who: UserId, id: UserId)
    requires op in db.pending && db.pending[op].InitialRecovery? && id in db.users
    ensures var users := FinishInitialRecovery(db, op, who).0.users;
            && id in users
            && (users[id].hash != db.users[id].hash ==>
                  ByRecovery(db, DoFinishInitialRecovery(op, who), id, users[id].hash.password))
  {
    InitialRecoveryIff(db, op, who);
  }

  lemma RecoveryReplaces(p: Policy, db: Db, s: Step, id: UserId)
    requires Enabled(db, s) && (s.DoFinishResetConfirm? || s.DoFinishInitialRecovery?) && id in db.users
    ensures id in Apply(p, db, s).0.users
    ensures var h := Apply(p, db, s).0.users[id].hash;
            h != db.users[id].hash ==> ByToken(db, s, id, h.password) || ByRecovery(db, s, id, h.password)
  {
    if s.DoFinishResetConfirm? {
      ResetReplaces(db, s.op, s.authorized, s.now, id);
    } else {
      InitialReplaces(db, s.op, s.id, id);
    }
  }

  /** Only these completions replace the password of an account: a login may store another hash, of the same one. */
  lemma PasswordReplaced(p: Policy, db: Db, s: Step, id: UserId)
    requires Enabled(db, s) && Inv(db) && id in db.users
    ensures id in Apply(p, db, s).0.users
    ensures var password := Apply(p, db, s).0.users[id].hash.password;
            password != db.users[id].hash.password ==>
              ByToken(db, s, id, password) || ByRecovery(db, s, id, password) || OwnChange(db, s, id, password)
  {
    if s.DoChangeUsername? || s.DoSetActive? || s.DoDeleteUser? || s.DoCreateUser? {
      AccountStepKeepsHash(p, db, s, id);
    } else if Manages(s) {
      ManageKeepsUsers(p, db, s);
    } else if s.DoFinishPasswordChange? || s.DoFinishCredentialChange? {
      ChangeReplaces(p, db, s, id);
    } else if s.DoFinishResetConfirm? || s.DoFinishInitialRecovery? {
      RecoveryReplaces(p, db, s, id);
    } else if s.DoFinishLogin? {
      LoginKeepsPassword(p, db, s.op, s.now, id);
    } else {
      BeginKeepsUsers(p, db, s);
    }
  }

  lemma LoginKeepsPassword(p: Policy, db: Db, op: OpId, now: int, id: UserId)
    requires op in db.pending && db.pending[op].Login? && id in db.users
    requires db.pending[op].upgraded.Some? ==> db.pending[op].upgraded.value.password == db.pending[op].seen.password
    ensures var users := FinishLogin(p, db, op, now).0.users;
            id in users && users[id].hash.password == db.users[id].hash.password
  {
    LoginIff(p, db, op, now);
  }

  /** Over any execution: a stored password is replaced only at the end of a change whose caller presented that
      password, by the account's own live reset token, or by the recovery of an account never used. */
  lemma PasswordsChangeByRight(p: Policy, states: seq<Db>, steps: seq<Step>, i: nat, id: UserId)
    requires Execution(p, states, steps) && Initial(states[0]) && i < |steps|
    requires id in states[i].users
    ensures id in states[i + 1].users
    ensures var password := states[i + 1].users[id].hash.password;
            password != states[i].users[id].hash.password ==> MayReplace(states, steps, i, id, password)
  {
    assert Steps(p, states, steps, i);
    ExecutionKeeps(p, states, steps, i);
    PasswordReplaced(p, states[i], steps[i], id);
    if OwnChange(states[i], steps[i], id, states[i + 1].users[id].hash.password) {
      var op := steps[i].op;
      var t := states[i].pending[op];
      WaitingChangeIsProved(p, states, steps, i, op);
      var k: nat :| k < i && Proved(states, steps, k, op, t);
      assert Begun(steps[k], id, states[i].users[id].hash.password, t.newHash.password);
    }
  }

  // ----- What each operation accepts, and what it leaves

  /** A login opens a session exactly when its key is free and the account found still has the hash and name
      that were looked up, its password is the one presented, and it is active and not deleted. */
  lemma LoginIff(p: Policy, db: Db, op: OpId, now: int)
    requires op in db.pending && db.pending[op].Login?
    ensures var t, o := db.pending[op], FinishLogin(p, db, op, now).1;
            var locked :=
              t.key in db.throttles && db.throttles[t.key].lockedUntil.Some? &&
                now < db.throttles[t.key].lockedUntil.value;
            && (o.Locked? <==> locked)
            && (o.SessionIssued? <==>
                  && !locked && t.found.Some? && t.found.value in db.users
                  && var u := db.users[t.found.value];
                     && u.hash == t.seen && u.hash.password == t.password && u.username == t.username
                     && u.active && !u.deleted)
            && (o.Locked? || o.SessionIssued? || o == AuthenticationFailed)
  {
  }

  /** The first half of a login is refused exactly while its key is locked, until the lock ends. Otherwise it waits
      with the account found, the hash it has now and the password presented; a right password whose hash is
      weak is hashed anew. */
  lemma BeginLoginIff(db: Db, op: OpId, key: string, name: string, found: Option<UserId>, password: string, now: int)
    requires op !in db.pending && IsLookup(db.users, name, found)
    ensures var r := BeginLogin(db, op, key, name, found, password, now);
            var locked := key in db.throttles && db.throttles[key].lockedUntil.Some? &&
              now < db.throttles[key].lockedUntil.value;
            && (locked ==> r == (db, Locked(db.throttles[key].lockedUntil.value - now)))
            && (!locked ==> r.1 == Done && op in r.0.pending && r.0.pending - {op} == db.pending)
            && (!locked ==> WaitsToLogin(db, r.0.pending[op], key, name, found, password))
  {
    var r := BeginLogin(db, op, key, name, found, password, now);
    assert op in r.0.pending ==> r.0.pending - {op} == db.pending;
  }

  ghost predicate WaitsToLogin(db: Db, t: Pending, key: string, name: string, found: Option<UserId>, password: string) {
    && t.Login? && t.key == key && t.username == name && t.found == found && t.password == password
    && (found.Some? ==> found.value in db.users && t.seen == db.users[found.value].hash)
    && (t.upgraded.Some? <==> found.Some? && t.seen.password == password && t.seen.weak)
    && (t.upgraded.Some? ==> t.upgraded.value.password == password && !t.upgraded.value.weak)
  }

  /** It lives for the session lifetime, and every other account and session is left alone. */
  lemma LoginEffect(p: Policy, db: Db, op: OpId, now: int)
    requires op in db.pending && db.pending[op].Login? && FinishLogin(p, db, op, now).1.SessionIssued?
    ensures var t, r := db.pending[op], FinishLogin(p, db, op, now);
            var id, k := t.found.value, r.1.id;
            && k in r.0.sessions && r.0.sessions - {k} == db.sessions - {k} && r.0.users - {id} == db.users - {id}
            && r.0.sessions[k].user == id && r.0.sessions[k].expires == now + p.sessionTtl && !r.0.sessions[k].revoked
            && id in r.0.users && r.0.users[id].loggedIn
            && r.0.users[id].(hash := db.users[id].hash, loggedIn := db.users[id].loggedIn) == db.users[id]
            && t.key !in r.0.throttles && op !in r.0.pending && r.0.grants == db.grants
  {
  }

  /** A failure inside the window adds one; once the window has passed the count starts again, unlocked. */
  lemma WindowRestarts(p: Policy, db: Db, op: OpId, key: string, now: int)
    requires key in db.throttles
    ensures var before, after := db.throttles[key], RegisterFailure(p, db, op, key, now).throttles;
            && key in after && after - {key} == db.throttles - {key}
            && (if now < before.windowStart + p.window
                then after[key].failures == before.failures + 1 && after[key].windowStart == before.windowStart
                else after[key].failures == 1 && after[key].windowStart == now)
            && after[key].lockedUntil ==
               if after[key].failures >= p.maxAttempts then Some(now + p.lock)
               else if now < before.windowStart + p.window then before.lockedUntil else None
  {
  }

  /** A first failure that commits starts a window at the time it happened, or adds one to the row that a
      concurrent failure inserted, whose window it leaves. */
  lemma FirstFailureCounts(p: Policy, db: Db, op: OpId)
    requires op in db.pending && db.pending[op].FirstFailure?
    ensures var f, after := db.pending[op], CommitFirstFailure(p, db, op);
            && f.key in after.throttles && after.throttles - {f.key} == db.throttles - {f.key}
            && op !in after.pending && after.users == db.users && after.sessions == db.sessions
            && var row := after.throttles[f.key];
               && (f.key !in db.throttles ==> row.failures == 1 && row.windowStart == f.at)
               && (f.key in db.throttles ==>
                     row.failures == db.throttles[f.key].failures + 1 &&
                     row.windowStart == db.throttles[f.key].windowStart)
               && row.lockedUntil == if row.failures >= p.maxAttempts then Some(f.at + p.lock)
                                     else if f.key in db.throttles then db.throttles[f.key].lockedUntil else None
  {
  }

  /** A password change completes exactly when its account is live and still has the hash it started from. */
  lemma PasswordChangeIff(db: Db, op: OpId)
    requires op in db.pending && db.pending[op].PasswordChange?
    ensures var t, r := db.pending[op], FinishPasswordChange(db, op);
            && (r.1 == Done <==>
                  && t.user in db.users && db.users[t.user].hash == t.seen
                  && db.users[t.user].active && !db.users[t.user].deleted)
            && (r.1 != Done ==> r == (db.(pending := db.pending - {op}), AuthenticationFailed))
            && (r.1 == Done ==> ChangedOnly(db, r.0, t.user, t.newHash))
            && (r.1 == Done ==> r.0.users[t.user].(hash := t.seen, epoch := 0) == db.users[t.user].(epoch := 0))
  {
  }

  /** The account has the new hash and only revoked sessions; other accounts, their sessions and all grants stay. */
  ghost predicate ChangedOnly(db: Db, after: Db, id: UserId, h: Hash) {
    && id in after.users && after.users[id].hash == h && after.users - {id} == db.users - {id}
    && after.grants == db.grants && db.sessions.Keys <= after.sessions.Keys
    && forall k :: k in db.sessions ==>
         if db.sessions[k].user == id then after.sessions[k].user == id && after.sessions[k].revoked
         else after.sessions[k] == db.sessions[k]
  }

  /** A credential change completes exactly when, besides, no other account has the new name. It stores the name
      and the password, lifts the duty to change them, and opens the only live session of the account. */
  lemma CredentialChangeIff(p: Policy, db: Db, op: OpId, now: int)
    requires op in db.pending && db.pending[op].CredentialChange?
    ensures var t, r := db.pending[op], FinishCredentialChange(p, db, op, now);
            var live := t.user in db.users && db.users[t.user].hash == t.seen
                        && db.users[t.user].active && !db.users[t.user].deleted;
            var taken := exists id :: id in db.users && id != t.user && db.users[id].username == t.newName;
            && (r.1.SessionIssued? <==> live && !taken)
            && (r.1 == UsernameUnavailable <==> live && taken)
            && (!r.1.SessionIssued? ==> r.0 == db.(pending := db.pending - {op}))
            && (!r.1.SessionIssued? ==> r.1 == UsernameUnavailable || r.1 == AuthenticationFailed)
            && (r.1.SessionIssued? && db.nextSession !in db.sessions ==>
                  CredentialsChanged(p, db, r.0, t.user, t.newName, t.newHash, r.1.id, now))
  {
  }

  ghost predicate CredentialsChanged(p: Policy, db: Db, after: Db, id: UserId, name: string, h: Hash, k: SessionId,
                                     now: int)
  {
    && ChangedOnly(db, after, id, h) && after.users[id].username == name && !after.users[id].mustChange
    && k !in db.sessions && k in after.sessions && after.sessions.Keys == db.sessions.Keys + {k}
    && after.sessions[k].user == id && !after.sessions[k].revoked && after.sessions[k].expires == now + p.sessionTtl
  }

  /** Both halves of an undisturbed credential change. */
  lemma CredentialChangeWorks(p: Policy, db: Db, op: OpId, id: UserId, current: string, name: string, password: string,
                              now: int)
    requires op !in db.pending && db.nextSession !in db.sessions
    requires id in db.users && db.users[id].active && !db.users[id].deleted && db.users[id].hash.password == current
    requires forall other :: other in db.users && other != id ==> db.users[other].username != name
    ensures var db1 := BeginCredentialChange(db, op, id, current, name, password).0;
            && op in db1.pending && db1.pending[op].CredentialChange?
            && var (db2, o) := FinishCredentialChange(p, db1, op, now);
               && o == SessionIssued(db.nextSession) && db2.pending == db.pending
               && CredentialsChanged(p, db, db2, id, name, Hash(password, db.nextSalt, false), db.nextSession, now)
  {
    var db1 := BeginCredentialChange(db, op, id, current, name, password).0;
    CredentialChangeIff(p, db1, op, now);
    assert db1.pending - {op} == db.pending;
  }

  /** A name is changed exactly when the account exists and nobody else has the name. */
  lemma RenameIff(db: Db, id: UserId, name: string)
    ensures var r := ChangeUsername(db, id, name);
            var taken := exists other :: other in db.users && other != id && db.users[other].username == name;
            && (r.1 == Done <==> id in db.users && !taken)
            && (r.1 == UsernameUnavailable <==> id in db.users && taken)
            && (r.1 == Done || r.1 == UsernameUnavailable || r.1 == AuthenticationFailed)
            && (r.1 != Done ==> r.0 == db)
            && (r.1 == Done ==>
                  && id in r.0.users && r.0.users[id].username == name && r.0.users - {id} == db.users - {id}
                  && r.0.users[id].(username := "") == db.users[id].(username := "") && r.0.(users := db.users) == db)
  {
  }

  /** A managed account gets the requested status exactly when it exists, is not deleted and is no administrator.
      Suspending it takes its reset grant and every session. */
  lemma SetActiveIff(db: Db, id: UserId, active: bool)
    ensures var r := SetActive(db, id, active);
            && (r.1 == Done <==> Manageable(db, id))
            && (r.1 == NotFound <==> id !in db.users || db.users[id].deleted)
            && (r.1 == Done || r.1 == NotFound || r.1 == Protected)
            && (r.1 != Done ==> r.0 == db)
            && (r.1 == Done ==>
                  && id in r.0.users && r.0.users[id].active == active && r.0.users - {id} == db.users - {id}
                  && r.0.users[id].(active := true) == db.users[id].(active := true)
                  && (if active then r.0.grants == db.grants && r.0.sessions == db.sessions
                      else id !in r.0.grants && r.0.grants == db.grants - {id} && SignedOut(db, r.0, id)))
  {
  }

  ghost predicate Manageable(db: Db, id: UserId) { id in db.users && !db.users[id].deleted && !db.users[id].admin }

  /** Every session of the account is revoked, and no other session is touched. */
  ghost predicate SignedOut(db: Db, after: Db, id: UserId) {
    after.sessions.Keys == db.sessions.Keys &&
    forall k :: k in db.sessions ==>
      after.sessions[k] == if db.sessions[k].user == id then db.sessions[k].(revoked := true) else db.sessions[k]
  }

  /** A deletion under the same conditions deactivates the account, marks it and revokes every session. */
  lemma DeleteUserIff(db: Db, id: UserId)
    ensures var r := DeleteUser(db, id);
            && (r.1 == Done <==> Manageable(db, id))
            && (r.1 == NotFound <==> id !in db.users || db.users[id].deleted)
            && (r.1 == Done || r.1 == NotFound || r.1 == Protected)
            && (r.1 != Done ==> r.0 == db)
            && (r.1 == Done ==>
                  && id in r.0.users && !r.0.users[id].active && r.0.users[id].deleted && !CanLogin(r.0.users[id])
                  && r.0.users - {id} == db.users - {id} && SignedOut(db, r.0, id) && r.0.grants == db.grants
                  && r.0.users[id].(active := true, deleted := false) == db.users[id].(active := true))
  {
  }

  /** A new account needs a free identifier and name. It is active and must change its first password. */
  lemma CreateUserIff(db: Db, id: UserId, name: string, password: string, admin: bool)
    ensures var r := CreateUser(db, id, name, password, admin);
            && (r.1 == Done <==> id !in db.users && forall other :: other in db.users ==>
                db.users[other].username != name)
            && (r.1 != Done ==> r == (db, UsernameUnavailable))
            && (r.1 == Done ==>
                  && id in r.0.users && r.0.users - {id} == db.users && r.0.sessions == db.sessions
                  && var u := r.0.users[id];
                     && u.username == name && u.hash.password == password && u.admin == admin
                     && u.active && !u.deleted && u.mustChange && !u.loggedIn)
  {
  }

  /** A token is issued exactly to an authorised client for a linked account that is active, not deleted and no
      administrator, and that was given none within the last minute. It lives for a quarter of an hour. */
  lemma TokenIssuedIff(db: Db, authorized: bool, link: Option<UserId>, client: ClientId, now: int)
    ensures var r := IssueReset(db, authorized, link, client, now);
            var eligible := link.Some? && link.value in db.users && db.users[link.value].active
                            && !db.users[link.value].deleted && !db.users[link.value].admin;
            var recent := link.Some? && link.value in db.grants && now - db.grants[link.value].created < 60;
            && (r.1.TokenIssued? <==> authorized && eligible && !recent)
            && (r.1 == ResetThrottled <==> authorized && eligible && recent)
            && (r.1 == Unauthorized <==> !authorized)
            && (r.1 == ResetUnavailable <==> authorized && !eligible)
            && (!r.1.TokenIssued? ==> r.0 == db)
            && (r.1.TokenIssued? ==>
                  && link.value in r.0.grants && r.0.grants - {link.value} == db.grants - {link.value}
                  && r.0.users == db.users && r.0.sessions == db.sessions
                  && var g := r.0.grants[link.value];
                     && g.token == r.1.token == db.nextToken && g.client == client && !g.consumed
                     && g.created == now && g.expires == now + 900 && g.fingerprint == db.users[link.value].hash)
  {
  }

  /** A token that no account holds is refused; any other starts a confirmation for the account that holds it. */
  lemma TokenPresentedIff(db: Db, op: OpId, token: Token, found: Option<UserId>, password: string)
    requires op !in db.pending
    requires found.Some? ==> found.value in db.grants && db.grants[found.value].token == token
    ensures var r := BeginResetConfirm(db, op, token, found, password);
            && (found.None? ==> r == (db, ResetUnavailable))
            && (found.Some? ==>
                  && r.1 == Done && op in r.0.pending && r.0.pending - {op} == db.pending && r.0.grants == db.grants
                  && var t := r.0.pending[op];
                     && t.ResetConfirm? && t.token == token && t.user == found.value
                     && t.client == db.grants[found.value].client && t.newHash.password == password && !t.newHash.weak)
  {
    var r := BeginResetConfirm(db, op, token, found, password);
    assert op in r.0.pending ==> r.0.pending - {op} == db.pending;
  }

  /** A reset completes exactly for an authorised client, an eligible account and its unspent, unexpired grant
      of the presented token and client, issued for the hash that is still stored. */
  lemma ResetIff(db: Db, op: OpId, authorized: bool, now: int)
    requires op in db.pending && db.pending[op].ResetConfirm?
    ensures var t, r := db.pending[op], FinishResetConfirm(db, op, authorized, now);
            && (r.1 == Done <==>
                  && ByToken(db, DoFinishResetConfirm(op, authorized, now), t.user, t.newHash.password)
                  && db.grants[t.user].client == t.client)
            && (r.1 != Done ==> r == (db.(pending := db.pending - {op}), ResetUnavailable))
            && (r.1 == Done ==>
                  && ChangedOnly(db, r.0.(grants := db.grants), t.user, t.newHash)
                  && t.user in r.0.grants && r.0.grants[t.user].consumed
                  && r.0.grants - {t.user} == db.grants - {t.user}
                  && forall k :: k in r.0.sessions && r.0.sessions[k].user == t.user ==> r.0.sessions[k].revoked)
  {
  }

  /** Initial credentials are replaced exactly for an eligible account that never logged in and must change them. */
  lemma InitialRecoveryIff(db: Db, op: OpId, id: UserId)
    requires op in db.pending && db.pending[op].InitialRecovery?
    ensures var t, r := db.pending[op], FinishInitialRecovery(db, op, id);
            && (r.1 == Done <==> ByRecovery(db, DoFinishInitialRecovery(op, id), id, t.newHash.password))
            && (r.1 != Done ==> r == (db.(pending := db.pending - {op}), Unavailable))
            && (r.1 == Done ==> ChangedOnly(db, r.0, id, t.newHash))
            && (r.1 == Done ==> r.0.users[id].mustChange && !r.0.users[id].loggedIn)
  {
  }

  /** Revoking a session ends it and no other, and is refused where there is none. */
  lemma RevokedIff(db: Db, k: SessionId)
    ensures var r := RevokeSession(db, k);
            && (k !in db.sessions ==> r == (db, NotFound))
            && (k in db.sessions ==>
                  && r.1 == Done && k in r.0.sessions && r.0.sessions[k].revoked
                  && r.0.sessions[k].(revoked := false) == db.sessions[k].(revoked := false)
                  && r.0.sessions - {k} == db.sessions - {k} && r.0.(sessions := db.sessions) == db)
  {
  }

  /** Purging deletes exactly the sessions whose time has come. */
  lemma PurgedSessions(db: Db, now: int, k: SessionId)
    ensures k in PurgeSessions(db, now).0.sessions <==> k in db.sessions && now < db.sessions[k].expires
    ensures k in PurgeSessions(db, now).0.sessions ==> PurgeSessions(db, now).0.sessions[k] == db.sessions[k]
  {
  }

  // ----- The service object

  class AuthService {
    const policy: Policy
    var users: map<UserId, User>
    var sessions: map<SessionId, Session>
    var throttles: map<string, Throttle>
    var grants: map<UserId, Grant>
    var pending: map<OpId, Pending>
    var nextSalt: nat
    var nextSession: SessionId
    var nextToken: Token
    ghost var published: set<Hash>
    ghost var issued: map<Token, Issue>
    ghost var latest: map<UserId, Token>
    ghost var uses: seq<TokenUse>

    ghost function View(): Db
      reads this
    {
      Db(users, sessions, throttles, grants, pending, nextSalt, nextSession, nextToken, published, issued, latest, uses)
    }

    constructor (policy: Policy)
      ensures this.policy == policy && Initial(View()) && users == map[] && throttles == map[]
    {
      this.policy := policy;
      users, sessions, throttles, grants, pending := map[], map[], map[], map[], map[];
      nextSalt, nextSession, nextToken := 0, 0, 0;
      published, issued, latest, uses := {}, map[], map[], [];
    }

    /** Replaces the stored hash for a new password and revokes every open session. */
    method StorePassword(id: UserId, h: Hash)
      requires id in users
      modifies `users, `sessions, `published
      ensures View() == SetPassword(old(View()), id, old(users)[id], h)
    {
      var u := users[id];
      users := users[id := u.(hash := h, epoch := u.epoch + 1)];
      sessions := map k | k in sessions ::
          if sessions[k].user == id then sessions[k].(revoked := true) else sessions[k];
      published := published + {h};
    }

    method IssueSession(id: UserId, password: string, epoch: nat, now: int) returns (k: SessionId)
      modifies `sessions, `nextSession
      ensures View() == OpenSession(policy, old(View()), id, password, epoch, now) && k == old(nextSession)
    {
      k := nextSession;
      sessions := sessions[k := Session(id, now + policy.sessionTtl, false, password, epoch)];
      nextSession := nextSession + 1;
    }

    method CountFailure(op: OpId, key: string, now: int)
      modifies `pending, `throttles
      ensures View() == RegisterFailure(policy, old(View()), op, key, now)
    {
      if key !in throttles {
        pending := pending[op := FirstFailure(key, now)];
        return;
      }
      var t := throttles[key];
      if now - t.windowStart >= policy.window {
        t := Throttle(1, now, None);
      } else {
        t := t.(failures := t.failures + 1);
      }
      if t.failures >= policy.maxAttempts {
        t := t.(lockedUntil := Some(now + policy.lock));
      }
      pending := pending - {op};
      throttles := throttles[key := t];
    }

    /** Commits a first failure: inserts its row, or counts on the row that made the insert fail. */
    method CommitFailure(op: OpId)
      requires op in pending && pending[op].FirstFailure?
      modifies `pending, `throttles
      ensures View() == CommitFirstFailure(policy, old(View()), op)
    {
      var f := pending[op];
      var t := Throttle(1, f.at, None);
      if f.key in throttles {
        t := throttles[f.key];
        t := t.(failures := t.failures + 1);
      }
      if t.failures >= policy.maxAttempts {
        t := t.(lockedUntil := Some(f.at + policy.lock));
      }
      pending := pending - {op};
      throttles := throttles[f.key := t];
    }

    method Authenticate(op: OpId, now: int) returns (o: Outcome)
      requires op in pending && pending[op].Login?
      modifies this
      ensures (View(), o) == FinishLogin(policy, old(View()), op, now)
    {
      var t := pending[op];
      if IsLocked(throttles, t.key, now) {
        o := Locked(Remaining(throttles, t.key, now));
        pending := pending - {op};
        return;
      }
      var holds := t.found.Some? && Verify(t.password, t.seen) && t.found.value in users;
      if holds {
        var u := users[t.found.value];
        holds := u.hash == t.seen && u.username == t.username && CanLogin(u);
      }
      if !holds {
        CountFailure(op, t.key, now);
        return AuthenticationFailed;
      }
      AcceptLogin(op);
      var k := IssueSession(t.found.value, t.password, t.seenEpoch, now);
      o := SessionIssued(k);
    }

    /** Clears the throttle, stores an upgraded hash and notes the login. */
    method AcceptLogin(op: OpId)
      requires op in pending && pending[op].Login? && LoginHolds(View(), pending[op])
      modifies `users, `throttles, `pending, `published
      ensures View() == LoggedIn(old(View()), op)
    {
      var t := pending[op];
      pending := pending - {op};
      throttles := throttles - {t.key};
      var id := t.found.value;
      if t.upgraded.Some? {
        users := users[id := users[id].(hash := t.upgraded.value)];
      }
      users := users[id := users[id].(loggedIn := true)];
      assert users == old(users)[id := users[id]];
      published := published + {users[id].hash};
    }

    method ChangePassword(op: OpId) returns (o: Outcome)
      requires op in pending && pending[op].PasswordChange?
      modifies this
      ensures (View(), o) == FinishPasswordChange(old(View()), op)
    {
      var t := pending[op];
      pending := pending - {op};
      if t.user !in users || users[t.user].hash != t.seen || !CanLogin(users[t.user]) {
        return AuthenticationFailed;
      }
      StorePassword(t.user, t.newHash);
      o := Done;
    }

    method ChangeCredentials(op: OpId, now: int) returns (o: Outcome)
      requires op in pending && pending[op].CredentialChange?
      modifies this
      ensures (View(), o) == FinishCredentialChange(policy, old(View()), op, now)
    {
      var t := pending[op];
      pending := pending - {op};
      if t.user !in users || users[t.user].hash != t.seen || !CanLogin(users[t.user]) {
        return AuthenticationFailed;
      }
      if NameTaken(users, t.newName, t.user) {
        return UsernameUnavailable;
      }
      users := users[t.user := users[t.user].(username := t.newName, mustChange := false)];
      StorePassword(t.user, t.newHash);
      assert users == old(users)[t.user := users[t.user]];
      var k := IssueSession(t.user, t.newHash.password, users[t.user].epoch, now);
      o := SessionIssued(k);
    }

    method SetManagedUserActive(id: UserId, active: bool) returns (o: Outcome)
      modifies this
      ensures (View(), o) == SetActive(old(View()), id, active)
    {
      if id !in users || users[id].deleted { return NotFound; }
      if users[id].admin { return Protected; }
      users := users[id := users[id].(active := active)];
      if !active {
        grants := grants - {id};
        sessions := RevokeAll(sessions, id);
      }
      o := Done;
    }

    method DeleteManagedUser(id: UserId) returns (o: Outcome)
      modifies this
      ensures (View(), o) == DeleteUser(old(View()), id)
    {
      if id !in users || users[id].deleted { return NotFound; }
      if users[id].admin { return Protected; }
      users := users[id := users[id].(active := false, deleted := true)];
      sessions := RevokeAll(sessions, id);
      o := Done;
    }

    method IssuePasswordReset(authorized: bool, link: Option<UserId>, client: ClientId, now: int) returns (o: Outcome)
      modifies this
      ensures (View(), o) == IssueReset(old(View()), authorized, link, client, now)
    {
      if !authorized { return Unauthorized; }
      if link.None? { return ResetUnavailable; }
      var id := link.value;
      if id !in users || !Eligible(users[id]) { return ResetUnavailable; }
      if id in grants && now < grants[id].created + RESET_COOLDOWN_SECONDS { return ResetThrottled; }
      var token := nextToken;
      nextToken := nextToken + 1;
      grants := grants[id := Grant(client, token, users[id].hash, now, now + RESET_TTL_SECONDS, false)];
      issued := issued[token := Issue(id, users[id].hash, users[id].epoch, now + RESET_TTL_SECONDS)];
      latest := latest[id := token];
      o := TokenIssued(token);
    }

    method ConfirmPasswordReset(op: OpId, authorized: bool, now: int) returns (o: Outcome)
      requires op in pending && pending[op].ResetConfirm?
      modifies this
      ensures (View(), o) == FinishResetConfirm(old(View()), op, authorized, now)
    {
      var t := pending[op];
      pending := pending - {op};
      if !authorized || t.user !in users || !Eligible(users[t.user]) || t.user !in grants { return ResetUnavailable; }
      var g := grants[t.user];
      if g.consumed || g.expires <= now || g.token != t.token || g.client != t.client
         || g.fingerprint != users[t.user].hash
      {
        return ResetUnavailable;
      }
      uses := uses + [TokenUse(t.token, t.user, now, users[t.user].hash, users[t.user].epoch,
                               if t.user in latest then latest[t.user] else t.token + 1)];
      StorePassword(t.user, t.newHash);
      grants := grants[t.user := g.(consumed := true)];
      o := Done;
    }
  }
}
