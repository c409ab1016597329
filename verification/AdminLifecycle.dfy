/** Administrative purge, forced resume and orphan recovery of shared torrents: requests, jobs,
    lifecycle generations and byte accounting. */
module AdminLifecycle {
  import opened Common
  import opened TorrentStates

  type TorrentId = nat
  type RequestId = nat
  type UserId = nat
  type JobId = nat

  datatype JobState = Queued | Running | Completed | Failed | Aborted
  datatype JobKind = Purge | RecoverCancel | RecoverPurge | OtherKind

  /** Idempotency keys: the two administrative families carry the torrent and its generation. */
  datatype Key =
    | AdminPurge(torrent: TorrentId, generation: nat)
    | AdminResume(torrent: TorrentId, generation: nat)
    | OtherKey(n: nat)

  datatype Torrent = Torrent(state: TorrentState, size: nat, generation: nat, forcedActive: bool, stopPending: bool,
                             purgeAfter: Option<int>, account: Option<nat>, hasMetadata: bool)
  datatype Request = Request(user: UserId, torrent: TorrentId, state: RequestState)
  datatype Job = Job(torrent: TorrentId, kind: JobKind, key: Key, state: JobState, availableAt: int,
    cancelRequested: bool)

  /** Jobs are numbered in creation order. Only some users have a usage row; the ledger may be absent. */
  datatype Store = Store(
    torrents: map<TorrentId, Torrent>,
    requests: map<RequestId, Request>,
    jobs: map<JobId, Job>,
    nextJob: JobId,
    usages: map<UserId, int>,
    ledger: Option<int>
  )

  const MAX_RECOVERY_REQUESTS := 1000

  predicate IsOpen(s: JobState) { s == Queued || s == Running }

  function ActiveOn(requests: map<RequestId, Request>, t: TorrentId): set<RequestId> {
    set r | r in requests && requests[r].torrent == t && IsActive(requests[r].state)
  }

  function ActiveOf(requests: map<RequestId, Request>, t: TorrentId, u: UserId): set<RequestId> {
    set r | r in requests && requests[r].torrent == t && requests[r].user == u && IsActive(requests[r].state)
  }

  function OpenPurgeJobs(jobs: map<JobId, Job>, t: TorrentId): set<JobId> {
    set j | j in jobs && jobs[j].torrent == t && jobs[j].kind == Purge && IsOpen(jobs[j].state)
  }

  function OpenWork(jobs: map<JobId, Job>, t: TorrentId): set<JobId> {
    set j | j in jobs && jobs[j].torrent == t && IsOpen(jobs[j].state) && jobs[j].kind != RecoverCancel &&
      jobs[j].kind != RecoverPurge
  }

  // ----- Cancelling every request of a torrent

  /** `n` refunds of `size` bytes, each clamped at zero. */
  function Refunds(usage: int, n: nat, size: nat): int {
    if n == 0 then usage else Max(0, Refunds(usage, n - 1, size) - size)
  }

  function Refund(usages: map<UserId, int>, requests: map<RequestId, Request>, t: TorrentId,
                  size: nat): map<UserId, int> {
    map u | u in usages :: Refunds(usages[u], |ActiveOf(requests, t, u)|, size)
  }

  function CancelAll(s: Store, t: TorrentId): Store
    requires t in s.torrents
  {
    s.(requests := map r | r in s.requests ::
         if r in ActiveOn(s.requests, t) then s.requests[r].(state := Cancelled) else s.requests[r],
       usages := Refund(s.usages, s.requests, t, s.torrents[t].size))
  }

  // ----- Purge

  function QueuePurge(s: Store, t: TorrentId, key: Key, at: int): Store {
    s.(jobs := s.jobs[s.nextJob := Job(t, Purge, key, Queued, at, false)], nextJob := s.nextJob + 1)
  }

  function PurgeOne(s: Store, t: TorrentId, now: int): Store
    requires t in s.torrents
  {
    var s1 := CancelAll(s, t);
    var row := s.torrents[t].(generation := s.torrents[t].generation + 1, forcedActive := false,
      purgeAfter := Some(now));
    var s2 := s1.(torrents := s1.torrents[t := row]);
    var open := OpenPurgeJobs(s.jobs, t);
    if open == {} then QueuePurge(s2, t, AdminPurge(t, row.generation), now)
    else
      var j := Least(open);
      s2.(jobs := s.jobs[j := s.jobs[j].(availableAt := if s.jobs[j].state == Queued then now
        else s.jobs[j].availableAt,
                                         cancelRequested := false)])
  }

  predicate Purgeable(s: Store, t: TorrentId, eligible: set<TorrentState>, expected: map<TorrentId, nat>) {
    t in s.torrents && s.torrents[t].state in eligible && (t in expected ==> expected[t] == |ActiveOn(s.requests, t)|)
  }

  datatype PurgeResult = PurgeResult(scheduled: seq<TorrentId>, skipped: seq<TorrentId>)

  function Unique(ids: seq<TorrentId>): (u: seq<TorrentId>)
    ensures forall t :: t in u <==> t in ids
    ensures forall i, j :: 0 <= i < j < |u| ==> u[i] != u[j]
  {
    if ids == [] then []
    else
      var rest := Unique(ids[..|ids| - 1]);
      var t := ids[|ids| - 1];
      assert ids == ids[..|ids| - 1] + [t];
      if t in rest then rest else rest + [t]
  }

  function PurgeEach(s: Store, ids: seq<TorrentId>, now: int, eligible: set<TorrentState>,
                     expected: map<TorrentId, nat>): (Store, PurgeResult) {
    if ids == [] then (s, PurgeResult([], []))
    else
      var (s1, r) := PurgeEach(s, ids[..|ids| - 1], now, eligible, expected);
      var t := ids[|ids| - 1];
      if Purgeable(s1, t, eligible, expected)
      then (PurgeOne(s1, t, now), r.(scheduled := r.scheduled + [t]))
      else (s1, r.(skipped := r.skipped + [t]))
  }

  function SchedulePurge(s: Store, ids: seq<TorrentId>, now: int, eligible: set<TorrentState>,
                         expected: map<TorrentId, nat>): (Store, PurgeResult) {
    PurgeEach(s, Unique(ids), now, eligible, expected)
  }

  // ----- Forced resume

  datatype ResumeResult = Resumed | InvalidRetention | TorrentNotFound | ResumeNotAllowed

  function Deadline(t: Torrent, now: int, hours: int): int {
    var deadline := now + hours * 3600;
    if t.purgeAfter.Some? && t.purgeAfter.value >= deadline then t.purgeAfter.value else deadline
  }

  function ForceResume(s: Store, t: TorrentId, hours: int, now: int): (Store, ResumeResult) {
    if !(1 <= hours <= 2160) then (s, InvalidRetention)
    else if t !in s.torrents then (s, TorrentNotFound)
    else if (s.torrents[t].state != Downloading && s.torrents[t].state != Paused) || s.torrents[t].account.None? then
      (s, ResumeNotAllowed)
    else
      var row := s.torrents[t].(forcedActive := true, stopPending := false);
      if ActiveOn(s.requests, t) != {} then (s.(torrents := s.torrents[t := row]), Resumed)
      else
        var at := Deadline(row, now, hours);
        var dated := row.(purgeAfter := Some(at));
        var open := OpenPurgeJobs(s.jobs, t);
        if open == {} then
          var next := dated.(generation := dated.generation + 1);
          (QueuePurge(s.(torrents := s.torrents[t := next]), t, AdminResume(t, next.generation), at), Resumed)
        else
          var j := Least(open);
          var job := if s.jobs[j].state == Queued then s.jobs[j].(availableAt := at, cancelRequested := false)
            else s.jobs[j];
          (s.(torrents := s.torrents[t := dated], jobs := s.jobs[j := job]), Resumed)
  }

  // ----- Orphan recovery

  datatype Recovery = CancelRequests | PurgeMetadata

  /** What a recovery must still find: the generation, the active requests and the open jobs. */
  datatype Snapshot = Snapshot(torrent: TorrentId, generation: nat, requests: set<RequestId>, jobs: set<JobId>)

  datatype RecoverResult =
    | Recovered(cancelled: nat, purged: bool)
    | AlreadyPurged
    | NotFound | StateChanged | NotOrphaned | ManualReview | JobsActive | LimitExceeded

  function TakeSnapshot(s: Store, t: TorrentId): Option<Snapshot> {
    if t !in s.torrents then None
    else if |ActiveOn(s.requests, t)| > MAX_RECOVERY_REQUESTS || |OpenWork(s.jobs, t)| > MAX_RECOVERY_REQUESTS then None
    else Some(Snapshot(t, s.torrents[t].generation, ActiveOn(s.requests, t), OpenWork(s.jobs, t)))
  }

  function AbortWork(jobs: map<JobId, Job>, t: TorrentId): map<JobId, Job> {
    map j | j in jobs ::
      if j !in OpenWork(jobs, t) then jobs[j]
      else jobs[j].(cancelRequested := true, state := if jobs[j].state == Queued then Aborted else jobs[j].state)
  }

  predicate Matches(s: Store, t: TorrentId, expected: Snapshot)
    requires t in s.torrents
  {
    expected == Snapshot(t, s.torrents[t].generation, ActiveOn(s.requests, t), OpenWork(s.jobs, t))
  }

  function Settle(s: Store, t: TorrentId, action: Recovery): Store
    requires t in s.torrents
  {
    var s1 := CancelAll(s, t);
    var row := s.torrents[t].(generation := s.torrents[t].generation + 1, purgeAfter := None);
    if action == PurgeMetadata then
      s1.(jobs := AbortWork(s.jobs, t),
          torrents := s.torrents[t := row.(state := Purged, hasMetadata := false)],
          ledger := if s.ledger.Some? then Some(Max(0, s.ledger.value - row.size)) else None)
    else
      s1.(jobs := AbortWork(s.jobs, t), torrents := s.torrents[t := row.(state := Error)])
  }

  function Recover(s: Store, t: TorrentId, action: Recovery, qbPresent: bool, storagePresent: bool,
                   expected: Snapshot): (Store, RecoverResult) {
    if t !in s.torrents then (s, NotFound)
    else if !Matches(s, t, expected) then (s, StateChanged)
    else if s.torrents[t].state == Purged then (s, AlreadyPurged)
    else if qbPresent && storagePresent then (s, NotOrphaned)
    else if action == PurgeMetadata && (qbPresent || storagePresent) then (s, ManualReview)
    else if action == PurgeMetadata && OpenWork(s.jobs, t) != {} then (s, JobsActive)
    else if |ActiveOn(s.requests, t)| > MAX_RECOVERY_REQUESTS then (s, LimitExceeded)
    else (Settle(s, t, action), Recovered(|ActiveOn(s.requests, t)|, action == PurgeMetadata))
  }

  // ----- Byte accounting

  /** What each active request of `u` charges: the size of its torrent. */
  ghost function Charges(s: Store, u: UserId): map<nat, nat>
    requires ForeignKeys(s)
  {
    map r | r in s.requests && s.requests[r].user == u && IsActive(s.requests[r].state) ::
        s.torrents[s.requests[r].torrent].size
  }

  ghost function Occupied(torrents: map<TorrentId, Torrent>): map<nat, nat> {
    map t | t in torrents && torrents[t].state != Purged :: torrents[t].size
  }

  ghost predicate ForeignKeys(s: Store) {
    forall r :: r in s.requests ==> s.requests[r].torrent in s.torrents
  }

  /** Every usage row is the total its user's active requests charge, and the ledger the total of all
      torrents not yet purged. */
  ghost predicate Balanced(s: Store) {
    && ForeignKeys(s)
    && (forall u :: u in s.usages ==> s.usages[u] == Total(Charges(s, u)))
    && (s.ledger.Some? ==> s.ledger.value == Total(Occupied(s.torrents)))
  }

  lemma ChargesLeft(s: Store, t: TorrentId, u: UserId)
    requires ForeignKeys(s) && t in s.torrents
    ensures Charges(CancelAll(s, t), u) == Charges(s, u) - ActiveOf(s.requests, t, u)
  {
    var after := CancelAll(s, t).requests;
    forall r | r in s.requests
      ensures r in after && after[r].user == s.requests[r].user && after[r].torrent == s.requests[r].torrent
      ensures IsActive(after[r].state) <==> IsActive(s.requests[r].state) && s.requests[r].torrent != t
    {
    }
  }

  lemma ChargesOn(s: Store, t: TorrentId, u: UserId)
    requires ForeignKeys(s) && t in s.torrents
    ensures Total(Charges(s, u))
            == Total(Charges(s, u) - ActiveOf(s.requests, t, u)) + |ActiveOf(s.requests, t, u)| * s.torrents[t].size
  {
    var all, mine := Charges(s, u), ActiveOf(s.requests, t, u);
    TotalSplit(all, mine);
    var part := all - (all.Keys - mine);
    assert part.Keys == mine;
    TotalConstant(part, s.torrents[t].size);
  }

  /** Cancelling a torrent's requests never refunds more than is charged. */
  lemma RefundFits(s: Store, t: TorrentId, u: UserId)
    requires Balanced(s) && t in s.torrents && u in s.usages
    ensures s.usages[u] >= |ActiveOf(s.requests, t, u)| * s.torrents[t].size
    ensures Total(Charges(CancelAll(s, t), u)) == s.usages[u] - |ActiveOf(s.requests, t, u)| * s.torrents[t].size
  {
    ChargesLeft(s, t, u);
    ChargesOn(s, t, u);
  }

  /** While enough is charged, no clamp binds: `n` refunds take off exactly `n * size`. */
  lemma {:induction false} ClampsDoNotBind(usage: int, n: nat, size: nat)
    requires usage >= n * size
    ensures Refunds(usage, n, size) == usage - n * size
    ensures n > 0 ==> Refunds(usage, n - 1, size) - size >= 0
  {
    if n == 0 {
    } else {
      assert n * size == (n - 1) * size + size;
      ClampsDoNotBind(usage, n - 1, size);
    }
  }

  lemma CancelKeepsBalance(s: Store, t: TorrentId)
    requires Balanced(s) && t in s.torrents
    ensures Balanced(CancelAll(s, t))
    ensures forall u :: u in s.usages ==>
              CancelAll(s, t).usages[u] == s.usages[u] - |ActiveOf(s.requests, t, u)| * s.torrents[t].size
  {
    var s' := CancelAll(s, t);
    forall u | u in s.usages
      ensures s'.usages[u] == Total(Charges(s', u)) == s.usages[u] - |ActiveOf(s.requests, t, u)| * s.torrents[t].size
    {
      RefundFits(s, t, u);
      ClampsDoNotBind(s.usages[u], |ActiveOf(s.requests, t, u)|, s.torrents[t].size);
    }
  }

  /** A torrent row may change in anything but its size and whether it is purged. */
  lemma RowKeepsBalance(s: Store, t: TorrentId, row: Torrent, jobs: map<JobId, Job>, next: JobId)
    requires Balanced(s) && t in s.torrents && row.size == s.torrents[t].size
    requires (row.state == Purged) == (s.torrents[t].state == Purged)
    ensures Balanced(s.(torrents := s.torrents[t := row], jobs := jobs, nextJob := next))
  {
    var s' := s.(torrents := s.torrents[t := row], jobs := jobs, nextJob := next);
    assert Occupied(s'.torrents) == Occupied(s.torrents);
    forall u | u in s.usages ensures Charges(s', u) == Charges(s, u) {
    }
  }

  lemma PurgeKeepsBalance(s: Store, t: TorrentId, now: int)
    requires Balanced(s) && t in s.torrents
    ensures Balanced(PurgeOne(s, t, now))
  {
    CancelKeepsBalance(s, t);
    var s' := PurgeOne(s, t, now);
    RowKeepsBalance(CancelAll(s, t), t, s'.torrents[t], s'.jobs, s'.nextJob);
  }

  lemma {:induction false} PurgeEachKeepsBalance(s: Store, ids: seq<TorrentId>, now: int, eligible: set<TorrentState>,
                                                 expected: map<TorrentId, nat>)
    requires Balanced(s)
    ensures Balanced(PurgeEach(s, ids, now, eligible, expected).0)
  {
    if ids == [] {
    } else {
      var before, t := ids[..|ids| - 1], ids[|ids| - 1];
      PurgeEachKeepsBalance(s, before, now, eligible, expected);
      var s1 := PurgeEach(s, before, now, eligible, expected).0;
      if Purgeable(s1, t, eligible, expected) {
        PurgeKeepsBalance(s1, t, now);
      }
    }
  }

  lemma ResumeKeepsBalance(s: Store, t: TorrentId, hours: int, now: int)
    requires Balanced(s)
    ensures Balanced(ForceResume(s, t, hours, now).0)
  {
    var (s', r) := ForceResume(s, t, hours, now);
    if r == Resumed {
      RowKeepsBalance(s, t, s'.torrents[t], s'.jobs, s'.nextJob);
    }
  }

  lemma PurgedLeavesLedger(torrents: map<TorrentId, Torrent>, t: TorrentId, row: Torrent)
    requires t in torrents && torrents[t].state != Purged && row.state == Purged
    ensures Total(Occupied(torrents)) == torrents[t].size + Total(Occupied(torrents[t := row]))
  {
    TotalRemove(Occupied(torrents), t);
    assert Occupied(torrents) - {t} == Occupied(torrents[t := row]);
  }

  /** Charges depend on requests and torrent sizes alone. */
  lemma SameSizesSameCharges(s: Store, s': Store)
    requires ForeignKeys(s) && ForeignKeys(s') && s.requests == s'.requests
    requires forall t :: t in s.torrents && t in s'.torrents ==> s.torrents[t].size == s'.torrents[t].size
    ensures forall u :: Charges(s', u) == Charges(s, u)
  {
  }

  /** Purging a torrent's metadata takes its size off the ledger, which holds at least that much. */
  lemma PurgeRowKeepsBalance(s: Store, t: TorrentId, row: Torrent, jobs: map<JobId, Job>)
    requires Balanced(s) && t in s.torrents && s.torrents[t].state != Purged
    requires row.state == Purged && row.size == s.torrents[t].size && ActiveOn(s.requests, t) == {}
    ensures s.ledger.Some? ==> s.ledger.value >= row.size
    ensures Balanced(s.(jobs := jobs, torrents := s.torrents[t := row],
                        ledger := if s.ledger.Some? then Some(Max(0, s.ledger.value - row.size)) else None))
  {
    PurgedLeavesLedger(s.torrents, t, row);
    var s' := s.(jobs := jobs, torrents := s.torrents[t := row],
                 ledger := if s.ledger.Some? then Some(Max(0, s.ledger.value - row.size)) else None);
    SameSizesSameCharges(s, s');
  }

  lemma CancelledLeavesNone(s: Store, t: TorrentId)
    requires t in s.torrents
    ensures ActiveOn(CancelAll(s, t).requests, t) == {}
  {
  }

  lemma SettleKeepsBalance(s: Store, t: TorrentId, action: Recovery)
    requires Balanced(s) && t in s.torrents && s.torrents[t].state != Purged
    ensures Balanced(Settle(s, t, action))
    ensures action == PurgeMetadata && s.ledger.Some? ==> s.ledger.value >= s.torrents[t].size
  {
    CancelKeepsBalance(s, t);
    CancelledLeavesNone(s, t);
    var c, s' := CancelAll(s, t), Settle(s, t, action);
    if action == PurgeMetadata {
      PurgeRowKeepsBalance(c, t, s'.torrents[t], s'.jobs);
    } else {
      RowKeepsBalance(c, t, s'.torrents[t], s'.jobs, s'.nextJob);
    }
  }

  // ----- Jobs, keys and generations

  /** At most one open purge job per torrent; administrative keys are unique and never ahead of the
      generation of their torrent. */
  ghost predicate JobsOk(s: Store) {
    Numbered(s.jobs, s.nextJob) && KeysUnique(s.jobs) && KeysIssued(s.jobs, s.torrents) && OneOpenEach(s.jobs)
  }

  ghost predicate Numbered(jobs: map<JobId, Job>, next: JobId) { forall j :: j in jobs ==> j < next }

  ghost predicate KeysUnique(jobs: map<JobId, Job>) {
    forall i, j :: i in jobs && j in jobs && i != j && jobs[i].key == jobs[j].key ==> jobs[i].key.OtherKey?
  }

  /** Administrative keys carry a generation that their torrent has reached. */
  ghost predicate KeysIssued(jobs: map<JobId, Job>, torrents: map<TorrentId, Torrent>) {
    forall j :: j in jobs && !jobs[j].key.OtherKey? ==>
      && jobs[j].key.torrent in torrents
      && jobs[j].key.generation <= torrents[jobs[j].key.torrent].generation
  }

  ghost predicate OneOpenEach(jobs: map<JobId, Job>) { forall t :: AtMostOne(OpenPurgeJobs(jobs, t)) }

  ghost predicate AtMostOne(s: set<JobId>) { forall i, j :: i in s && j in s ==> i == j }

  /** Later rows: no torrent lost, no generation decreased. */
  ghost predicate Older(s: Store, s': Store) {
    forall t :: t in s.torrents ==> t in s'.torrents && s.torrents[t].generation <= s'.torrents[t].generation
  }

  /** A purge job queued under the torrent's next generation, when none was open. */
  lemma QueueKeepsJobs(s: Store, t: TorrentId, row: Torrent, key: Key, at: int)
    requires JobsOk(s) && t in s.torrents && OpenPurgeJobs(s.jobs, t) == {} &&
             row.generation == s.torrents[t].generation + 1
    requires key == AdminPurge(t, row.generation) || key == AdminResume(t, row.generation)
    ensures JobsOk(QueuePurge(s.(torrents := s.torrents[t := row]), t, key, at))
  {
    var s' := QueuePurge(s.(torrents := s.torrents[t := row]), t, key, at);
    forall u, i, j | i in OpenPurgeJobs(s'.jobs, u) && j in OpenPurgeJobs(s'.jobs, u) ensures i == j {
      assert i != s.nextJob ==> i in OpenPurgeJobs(s.jobs, u);
      assert j != s.nextJob ==> j in OpenPurgeJobs(s.jobs, u);
    }
  }

  /** Jobs that keep their torrent, kind and key and open none that was closed. */
  ghost predicate JobsMove(jobs: map<JobId, Job>, jobs': map<JobId, Job>) {
    && jobs'.Keys == jobs.Keys
    && forall j :: j in jobs ==>
         && jobs'[j].torrent == jobs[j].torrent && jobs'[j].kind == jobs[j].kind && jobs'[j].key == jobs[j].key
         && (IsOpen(jobs'[j].state) ==> IsOpen(jobs[j].state))
  }

  lemma MoveKeepsJobs(s: Store, s': Store)
    requires JobsOk(s) && JobsMove(s.jobs, s'.jobs) && Older(s, s') && s'.nextJob == s.nextJob
    ensures JobsOk(s')
  {
    MoveKeepsOpen(s.jobs, s'.jobs);
    assert forall j :: j in s'.jobs ==> j in s.jobs && s'.jobs[j].key == s.jobs[j].key;
  }

  lemma MoveKeepsOpen(jobs: map<JobId, Job>, jobs': map<JobId, Job>)
    requires JobsMove(jobs, jobs')
    ensures forall t :: OpenPurgeJobs(jobs', t) <= OpenPurgeJobs(jobs, t)
  {
  }

  lemma PurgeKeepsJobs(s: Store, t: TorrentId, now: int)
    requires JobsOk(s) && t in s.torrents
    ensures JobsOk(PurgeOne(s, t, now))
  {
    var s' := PurgeOne(s, t, now);
    if OpenPurgeJobs(s.jobs, t) == {} {
      QueueKeepsJobs(s, t, s'.torrents[t], AdminPurge(t, s'.torrents[t].generation), now);
    } else {
      MoveKeepsJobs(s, s');
    }
  }

  lemma {:induction false} PurgeEachKeepsJobs(s: Store, ids: seq<TorrentId>, now: int, eligible: set<TorrentState>,
                                              expected: map<TorrentId, nat>)
    requires JobsOk(s)
    ensures JobsOk(PurgeEach(s, ids, now, eligible, expected).0)
  {
    if ids == [] {
    } else {
      var before, t := ids[..|ids| - 1], ids[|ids| - 1];
      PurgeEachKeepsJobs(s, before, now, eligible, expected);
      var s1 := PurgeEach(s, before, now, eligible, expected).0;
      if Purgeable(s1, t, eligible, expected) {
        PurgeKeepsJobs(s1, t, now);
      }
    }
  }

  lemma ResumeKeepsJobs(s: Store, t: TorrentId, hours: int, now: int)
    requires JobsOk(s)
    ensures JobsOk(ForceResume(s, t, hours, now).0)
  {
    var (s', r) := ForceResume(s, t, hours, now);
    if r == Resumed {
      if ActiveOn(s.requests, t) == {} && OpenPurgeJobs(s.jobs, t) == {} {
        QueueKeepsJobs(s, t, s'.torrents[t], AdminResume(t, s'.torrents[t].generation),
          s'.torrents[t].purgeAfter.value);
      } else {
        MoveKeepsJobs(s, s');
      }
    }
  }

  lemma SettleKeepsJobs(s: Store, t: TorrentId, action: Recovery)
    requires JobsOk(s) && t in s.torrents
    ensures JobsOk(Settle(s, t, action))
  {
    MoveKeepsJobs(s, Settle(s, t, action));
  }

  // ----- Whole runs

  datatype Event =
    | DoPurge(ids: seq<TorrentId>, now: int, eligible: set<TorrentState>, expected: map<TorrentId, nat>)
    | DoResume(torrent: TorrentId, hours: int, now: int)
    | DoRecover(torrent: TorrentId, action: Recovery, qbPresent: bool, storagePresent: bool, snapshot: Snapshot)
    | DoWork(job: JobId, state: JobState)

  /** A worker may move an open job to any state; a finished job stays finished. */
  function Work(s: Store, j: JobId, state: JobState): Store {
    if j in s.jobs && IsOpen(s.jobs[j].state) then s.(jobs := s.jobs[j := s.jobs[j].(state := state)]) else s
  }

  function Next(s: Store, e: Event): Store {
    match e
    case DoPurge(ids, now, eligible, expected) => SchedulePurge(s, ids, now, eligible, expected).0
    case DoResume(t, hours, now) => ForceResume(s, t, hours, now).0
    case DoRecover(t, action, qb, storage, snapshot) => Recover(s, t, action, qb, storage, snapshot).0
    case DoWork(j, state) => Work(s, j, state)
  }

  ghost predicate Run(states: seq<Store>, events: seq<Event>) {
    |states| == |events| + 1 && forall i {:trigger Follows(states, events, i)} :: 0 <= i < |events| ==>
        Follows(states, events, i)
  }

  ghost predicate Follows(states: seq<Store>, events: seq<Event>, i: nat)
    requires i < |events| < |states|
  {
    states[i + 1] == Next(states[i], events[i])
  }

  lemma StepKeepsBalance(s: Store, e: Event)
    requires Balanced(s)
    ensures Balanced(Next(s, e))
  {
    match e
    case DoPurge(ids, now, eligible, expected) => PurgeEachKeepsBalance(s, Unique(ids), now, eligible, expected);
    case DoResume(t, hours, now) => ResumeKeepsBalance(s, t, hours, now);
    case DoRecover(t, action, qb, storage, snapshot) =>
      if Recover(s, t, action, qb, storage, snapshot).1.Recovered? { SettleKeepsBalance(s, t, action); }
    case DoWork(j, state) =>
      assert forall u :: u in s.usages ==> Charges(Work(s, j, state), u) == Charges(s, u);
  }

  lemma RecoverKeepsJobs(s: Store, t: TorrentId, action: Recovery, qb: bool, storage: bool, snapshot: Snapshot)
    requires JobsOk(s)
    ensures JobsOk(Recover(s, t, action, qb, storage, snapshot).0)
  {
    if Recover(s, t, action, qb, storage, snapshot).1.Recovered? { SettleKeepsJobs(s, t, action); }
  }

  lemma WorkKeepsJobs(s: Store, j: JobId, state: JobState)
    requires JobsOk(s)
    ensures JobsOk(Work(s, j, state))
  {
    if j in s.jobs && IsOpen(s.jobs[j].state) {
      assert JobsMove(s.jobs, s.jobs[j := s.jobs[j].(state := state)]);
      MoveKeepsJobs(s, s.(jobs := s.jobs[j := s.jobs[j].(state := state)]));
    }
  }

  lemma ScheduleKeepsJobs(s: Store, e: Event)
    requires JobsOk(s) && e.DoPurge?
    ensures JobsOk(SchedulePurge(s, e.ids, e.now, e.eligible, e.expected).0)
  {
    PurgeEachKeepsJobs(s, Unique(e.ids), e.now, e.eligible, e.expected);
  }

  lemma StepKeepsJobs(s: Store, e: Event)
    requires JobsOk(s)
    ensures JobsOk(Next(s, e))
  {
    if e.DoPurge? {
      ScheduleKeepsJobs(s, e);
    } else if e.DoResume? {
      ResumeKeepsJobs(s, e.torrent, e.hours, e.now);
    } else if e.DoRecover? {
      RecoverKeepsJobs(s, e.torrent, e.action, e.qbPresent, e.storagePresent, e.snapshot);
    } else {
      WorkKeepsJobs(s, e.job, e.state);
    }
  }

  /** Any run of purges, resumes, recoveries and worker steps keeps the accounts balanced. */
  lemma {:induction false} AccountsStayBalanced(states: seq<Store>, events: seq<Event>, i: nat)
    requires Run(states, events) && Balanced(states[0]) && i < |states|
    ensures Balanced(states[i])
  {
    if i == 0 {
    } else {
      AccountsStayBalanced(states, events, i - 1);
      NextKeepsBalance(states, events, i);
    }
  }

  lemma NextKeepsBalance(states: seq<Store>, events: seq<Event>, i: nat)
    requires Run(states, events) && 0 < i < |states| && Balanced(states[i - 1])
    ensures Balanced(states[i])
  {
    assert Follows(states, events, i - 1);
    StepKeepsBalance(states[i - 1], events[i - 1]);
  }

  /** No refund of a torrent's requests, one after the other, would go below zero. */
  ghost predicate RefundsExact(s: Store, t: TorrentId)
    requires t in s.torrents
  {
    forall u, m: nat :: u in s.usages && m <= |ActiveOf(s.requests, t, u)| ==>
      Refunds(s.usages[u], m, s.torrents[t].size) == s.usages[u] - m * s.torrents[t].size >= 0
  }

  /** No clamp binds in the step: in no refund of any torrent of a purge, whatever the torrents before it
      changed, and in no refund and no ledger update of a recovery. */
  ghost predicate ClampsIdle(s: Store, e: Event) {
    match e
    case DoPurge(ids, now, eligible, expected) =>
      forall k {:trigger Unique(ids)[..k]} :: 0 <= k < |Unique(ids)| ==>
        PurgesExactly(PurgeEach(s, Unique(ids)[..k], now, eligible, expected).0, Unique(ids)[k], eligible, expected)
    case DoRecover(t, action, qb, storage, snapshot) =>
      Recover(s, t, action, qb, storage, snapshot).1.Recovered? ==>
        && RefundsExact(s, t)
        && (action == PurgeMetadata && s.ledger.Some? ==> s.ledger.value >= s.torrents[t].size)
    case _ => true
  }

  ghost predicate PurgesExactly(s: Store, t: TorrentId, eligible: set<TorrentState>, expected: map<TorrentId, nat>) {
    Purgeable(s, t, eligible, expected) ==> RefundsExact(s, t)
  }

  lemma BalancedRefundsExactly(s: Store, t: TorrentId)
    requires Balanced(s) && t in s.torrents
    ensures RefundsExact(s, t)
  {
    var size := s.torrents[t].size;
    forall u, m: nat | u in s.usages && m <= |ActiveOf(s.requests, t, u)|
      ensures Refunds(s.usages[u], m, size) == s.usages[u] - m * size >= 0
    {
      RefundFits(s, t, u);
      FewerCostLess(m, |ActiveOf(s.requests, t, u)|, size);
      ClampsDoNotBind(s.usages[u], m, size);
    }
  }

  lemma FewerCostLess(m: nat, n: nat, size: nat)
    requires m <= n
    ensures m * size <= n * size
  {
  }

  lemma StepClampsIdle(s: Store, e: Event)
    requires Balanced(s)
    ensures ClampsIdle(s, e)
  {
    match e
    case DoPurge(ids, now, eligible, expected) =>
      forall k {:trigger Unique(ids)[..k]} | 0 <= k < |Unique(ids)|
        ensures PurgesExactly(PurgeEach(s, Unique(ids)[..k], now, eligible, expected).0, Unique(ids)[k], eligible,
                expected)
      {
        PurgeEachKeepsBalance(s, Unique(ids)[..k], now, eligible, expected);
        var s1 := PurgeEach(s, Unique(ids)[..k], now, eligible, expected).0;
        if Unique(ids)[k] in s1.torrents { BalancedRefundsExactly(s1, Unique(ids)[k]); }
      }
    case DoRecover(t, action, qb, storage, snapshot) =>
      if Recover(s, t, action, qb, storage, snapshot).1.Recovered? {
        BalancedRefundsExactly(s, t);
        SettleKeepsBalance(s, t, action);
      }
    case _ =>
  }

  /** Over any run from balanced accounts no clamp ever binds, in no step and in no torrent within a step. */
  lemma ClampsNeverBind(states: seq<Store>, events: seq<Event>, i: nat)
    requires Run(states, events) && Balanced(states[0]) && i < |events|
    ensures ClampsIdle(states[i], events[i])
  {
    AccountsStayBalanced(states, events, i);
    StepClampsIdle(states[i], events[i]);
  }

  lemma OlderTrans(a: Store, b: Store, c: Store)
    requires Older(a, b) && Older(b, c)
    ensures Older(a, c)
  {
  }

  lemma {:induction false} PurgeEachGrows(s: Store, ids: seq<TorrentId>, now: int, eligible: set<TorrentState>,
                                          expected: map<TorrentId, nat>)
    ensures Older(s, PurgeEach(s, ids, now, eligible, expected).0)
  {
    if ids == [] {
    } else {
      var before := ids[..|ids| - 1];
      PurgeEachGrows(s, before, now, eligible, expected);
      OlderTrans(s, PurgeEach(s, before, now, eligible, expected).0, PurgeEach(s, ids, now, eligible, expected).0);
    }
  }

  lemma StepGrows(s: Store, e: Event)
    ensures Older(s, Next(s, e))
  {
    match e
    case DoPurge(ids, now, eligible, expected) => PurgeEachGrows(s, Unique(ids), now, eligible, expected);
    case DoResume(t, hours, now) => ResumeGrows(s, t, hours, now);
    case DoRecover(t, action, qb, storage, snapshot) => RecoverGrows(s, t, action, qb, storage, snapshot);
    case DoWork(_, _) =>
  }

  lemma ResumeGrows(s: Store, t: TorrentId, hours: int, now: int)
    ensures Older(s, ForceResume(s, t, hours, now).0)
  {
  }

  lemma RecoverGrows(s: Store, t: TorrentId, action: Recovery, qb: bool, storage: bool, snapshot: Snapshot)
    ensures Older(s, Recover(s, t, action, qb, storage, snapshot).0)
  {
  }

  /** Any run keeps at most one open purge job per torrent and administrative keys unique. */
  lemma {:induction false} JobsStayUnique(states: seq<Store>, events: seq<Event>, i: nat)
    requires Run(states, events) && JobsOk(states[0]) && i < |states|
    ensures JobsOk(states[i])
  {
    if i == 0 {
    } else {
      JobsStayUnique(states, events, i - 1);
      NextKeepsJobs(states, events, i);
    }
  }

  lemma NextKeepsJobs(states: seq<Store>, events: seq<Event>, i: nat)
    requires Run(states, events) && 0 < i < |states| && JobsOk(states[i - 1])
    ensures JobsOk(states[i])
  {
    assert Follows(states, events, i - 1);
    StepKeepsJobs(states[i - 1], events[i - 1]);
  }

  /** No run ever decreases a generation. */
  lemma {:induction false} GenerationsGrow(states: seq<Store>, events: seq<Event>, i: nat, k: nat)
    requires Run(states, events) && i <= k < |states|
    ensures Older(states[i], states[k])
  {
    if i == k {
    } else {
      GenerationsGrow(states, events, i, k - 1);
      NextGrows(states, events, k - 1);
      OlderTrans(states[i], states[k - 1], states[k]);
    }
  }

  lemma NextGrows(states: seq<Store>, events: seq<Event>, k: nat)
    requires Run(states, events) && k < |events|
    ensures Older(states[k], states[k + 1])
  {
    assert Follows(states, events, k);
    StepGrows(states[k], events[k]);
  }

  ghost predicate Recovers(s: Store, e: Event, snapshot: Snapshot) {
    e.DoRecover? && e.snapshot == snapshot
    && Recover(s, e.torrent, e.action, e.qbPresent, e.storagePresent, snapshot).1.Recovered?
  }

  /** A recovery happens at the generation its snapshot names, and leaves it behind. */
  lemma RecoveryConsumesSnapshot(s: Store, e: Event, snapshot: Snapshot)
    requires Recovers(s, e, snapshot)
    ensures snapshot.torrent in s.torrents && s.torrents[snapshot.torrent].generation == snapshot.generation
    ensures snapshot.torrent in Next(s, e).torrents &&
            Next(s, e).torrents[snapshot.torrent].generation == snapshot.generation + 1
  {
  }

  /** One recovery snapshot authorises at most one recovery that changes anything. */
  lemma SnapshotRecoversOnce(states: seq<Store>, events: seq<Event>, i: nat, k: nat, snapshot: Snapshot)
    requires Run(states, events) && i < k < |events|
    requires Recovers(states[i], events[i], snapshot)
    ensures !Recovers(states[k], events[k], snapshot)
  {
    assert Follows(states, events, i);
    RecoveryConsumesSnapshot(states[i], events[i], snapshot);
    GenerationsGrow(states, events, i + 1, k);
    if Recovers(states[k], events[k], snapshot) {
      RecoveryConsumesSnapshot(states[k], events[k], snapshot);
    }
  }

  // ----- What a purge and a resume achieve

  /** The row of `t` and all requests on it are the same. */
  ghost predicate SameTorrent(s: Store, s': Store, t: TorrentId) {
    && (t in s.torrents <==> t in s'.torrents) && (t in s.torrents ==> s'.torrents[t] == s.torrents[t])
    && s'.requests.Keys == s.requests.Keys
    && forall r :: r in s.requests && s.requests[r].torrent == t ==> s'.requests[r] == s.requests[r]
  }

  /** Requests never move to another torrent. */
  ghost predicate SameRequests(s: Store, s': Store) {
    s'.requests.Keys == s.requests.Keys && forall r :: r in s.requests ==>
        s'.requests[r].torrent == s.requests[r].torrent
  }

  /** A purge closes every active request of its torrent, raises its generation, leaves exactly one open
      purge job, due now unless it already runs, and touches no other torrent. */
  lemma PurgeEffect(s: Store, t: TorrentId, now: int)
    requires JobsOk(s) && t in s.torrents
    ensures var s' := PurgeOne(s, t, now);
            && ActiveOn(s'.requests, t) == {} && s'.torrents[t].generation == s.torrents[t].generation + 1
            && !s'.torrents[t].forcedActive && s'.torrents[t].purgeAfter == Some(now)
            && s'.torrents[t].(generation := 0, forcedActive := false, purgeAfter := None)
               == s.torrents[t].(generation := 0, forcedActive := false, purgeAfter := None)
            && exists j :: OpenPurgeJobs(s'.jobs, t) == {j} && !s'.jobs[j].cancelRequested &&
                           (s'.jobs[j].state == Queued ==> s'.jobs[j].availableAt == now) &&
                           s'.jobs - {j} == s.jobs - {j}
  {
    var s' := PurgeOne(s, t, now);
    CancelledLeavesNone(s, t);
    PurgeKeepsJobs(s, t, now);
    var j := if OpenPurgeJobs(s.jobs, t) == {} then s.nextJob else Least(OpenPurgeJobs(s.jobs, t));
    assert j in OpenPurgeJobs(s'.jobs, t);
    assert OpenPurgeJobs(s'.jobs, t) == {j};
  }

  lemma PurgeLeavesOthers(s: Store, t: TorrentId, now: int, other: TorrentId)
    requires t in s.torrents && other != t
    ensures SameTorrent(s, PurgeOne(s, t, now), other) && SameRequests(s, PurgeOne(s, t, now))
  {
  }

  lemma SameActive(s: Store, s': Store, t: TorrentId)
    requires SameTorrent(s, s', t) && SameRequests(s, s')
    ensures ActiveOn(s'.requests, t) == ActiveOn(s.requests, t)
  {
  }

  lemma {:induction false} PurgeEachLeavesOthers(s: Store, ids: seq<TorrentId>, now: int, eligible: set<TorrentState>,
                                                 expected: map<TorrentId, nat>, other: TorrentId)
    requires other !in ids
    ensures SameTorrent(s, PurgeEach(s, ids, now, eligible, expected).0, other)
    ensures SameRequests(s, PurgeEach(s, ids, now, eligible, expected).0)
  {
    if ids == [] {
    } else {
      var before, t := ids[..|ids| - 1], ids[|ids| - 1];
      PurgeEachLeavesOthers(s, before, now, eligible, expected, other);
      var s1 := PurgeEach(s, before, now, eligible, expected).0;
      if Purgeable(s1, t, eligible, expected) { PurgeLeavesOthers(s1, t, now, other); }
    }
  }

  /** A torrent is reported as scheduled exactly when it could be purged in the state the call started
      from, and as skipped otherwise; a skipped one is left alone, a scheduled one has no active request. */
  lemma {:induction false} PurgeReports(s: Store, ids: seq<TorrentId>, now: int, eligible: set<TorrentState>,
                                        expected: map<TorrentId, nat>, t: TorrentId)
    requires t in ids && forall i, j :: 0 <= i < j < |ids| ==> ids[i] != ids[j]
    ensures var (s', r) := PurgeEach(s, ids, now, eligible, expected);
            && (t in r.scheduled <==>
                  && t in s.torrents && s.torrents[t].state in eligible
                  && (t in expected ==> expected[t] == |LiveRequests(s, t)|))
            && (t in r.skipped <==> t !in r.scheduled)
            && (t in r.skipped ==> SameTorrent(s, s', t))
            && (t in r.scheduled ==>
                ActiveOn(s'.requests, t) == {} && t in s'.torrents &&
                  s'.torrents[t].generation == s.torrents[t].generation + 1)
  {
    var n := |ids| - 1;
    var before, last := ids[..n], ids[n];
    var (s1, r1) := PurgeEach(s, before, now, eligible, expected);
    ReportedAreAsked(s, before, now, eligible, expected);
    LiveIsActive(s, t);
    if t == last {
      PurgeEachLeavesOthers(s, before, now, eligible, expected, t);
      SameActive(s, s1, t);
      if Purgeable(s1, t, eligible, expected) { CancelledLeavesNone(s1, t); }
    } else {
      assert t in before;
      PurgeReports(s, before, now, eligible, expected, t);
      if Purgeable(s1, last, eligible, expected) {
        PurgeLeavesOthers(s1, last, now, t);
        SameActive(s1, PurgeOne(s1, last, now), t);
      }
    }
  }

  lemma {:induction false} ReportedAreAsked(s: Store, ids: seq<TorrentId>, now: int, eligible: set<TorrentState>,
                                            expected: map<TorrentId, nat>)
    ensures var r := PurgeEach(s, ids, now, eligible, expected).1;
            forall t :: t in r.scheduled || t in r.skipped ==> t in ids
  {
    if ids == [] {
    } else {
      ReportedAreAsked(s, ids[..|ids| - 1], now, eligible, expected);
      assert ids == ids[..|ids| - 1] + [ids[|ids| - 1]];
    }
  }

  /** Torrents are taken in the order in which the call first names them. */
  lemma {:induction false} FirstsInOrder(ids: seq<TorrentId>, k: nat)
    requires k <= |ids|
    ensures Unique(ids[..k]) <= Unique(ids)
  {
    if k == |ids| {
      assert ids[..k] == ids;
    } else {
      var most := ids[..|ids| - 1];
      FirstsInOrder(most, k);
      assert most[..k] == ids[..k];
    }
  }

  /** And reported in that order. */
  lemma {:induction false} ReportsInOrder(s: Store, ids: seq<TorrentId>, now: int, eligible: set<TorrentState>,
                                          expected: map<TorrentId, nat>, k: nat)
    requires k <= |ids|
    ensures var part, all := PurgeEach(s, ids[..k], now, eligible, expected).1,
            PurgeEach(s, ids, now, eligible, expected).1;
            part.scheduled <= all.scheduled && part.skipped <= all.skipped
  {
    if k == |ids| {
      assert ids[..k] == ids;
    } else {
      var most := ids[..|ids| - 1];
      ReportsInOrder(s, most, now, eligible, expected, k);
      assert most[..k] == ids[..k];
    }
  }

  /** A resumed torrent without requests gets at least the retention time before its purge, and exactly one
      open purge job. */
  lemma ResumeEffect(s: Store, t: TorrentId, hours: int, now: int)
    requires JobsOk(s) && ForceResume(s, t, hours, now).1 == Resumed
    ensures var s' := ForceResume(s, t, hours, now).0;
            && t in s'.torrents && s'.torrents[t].forcedActive && !s'.torrents[t].stopPending &&
              s'.requests == s.requests
            && (ActiveOn(s.requests, t) == {} ==>
                  && s'.torrents[t].purgeAfter.Some? && s'.torrents[t].purgeAfter.value >= now + hours * 3600
                  && exists j :: OpenPurgeJobs(s'.jobs, t) == {j} &&
                                 s'.jobs - {j} == s.jobs - {j} &&
                                 (s'.jobs[j].state == Queued ==>
                                    && Some(s'.jobs[j].availableAt) == s'.torrents[t].purgeAfter
                                    && !s'.jobs[j].cancelRequested))
  {
    var s' := ForceResume(s, t, hours, now).0;
    ResumeKeepsJobs(s, t, hours, now);
    if ActiveOn(s.requests, t) == {} {
      var j := if OpenPurgeJobs(s.jobs, t) == {} then s.nextJob else Least(OpenPurgeJobs(s.jobs, t));
      assert j in OpenPurgeJobs(s'.jobs, t);
      assert OpenPurgeJobs(s'.jobs, t) == {j};
    }
  }

  /** An orphan whose snapshot was just taken can be recovered by cancelling its requests, and by purging its
      metadata too if nothing of it is present and no job is open; it then has no active request and no
      queued work, and the snapshot no longer matches. */
  lemma RecoveryWorks(s: Store, t: TorrentId, action: Recovery, qbPresent: bool, storagePresent: bool)
    requires TakeSnapshot(s, t).Some? && s.torrents[t].state != Purged && !(qbPresent && storagePresent)
    requires action == PurgeMetadata ==> !qbPresent && !storagePresent && OpenWork(s.jobs, t) == {}
    ensures var snapshot := TakeSnapshot(s, t).value;
            var (s', r) := Recover(s, t, action, qbPresent, storagePresent, snapshot);
            && r == Recovered(|ActiveOn(s.requests, t)|, action == PurgeMetadata)
            && t in s'.torrents && s'.torrents[t].state == (if action == PurgeMetadata then Purged else Error)
            && ActiveOn(s'.requests, t) == {} && !Matches(s', t, snapshot)
            && forall j :: j in OpenWork(s'.jobs, t) ==> s'.jobs[j].state == Running && s'.jobs[j].cancelRequested
  {
    CancelledLeavesNone(s, t);
  }

  // ----- Which recoveries and resumes are accepted

  /** The requests on a torrent that are neither cancelled nor expired. */
  ghost function LiveRequests(s: Store, t: TorrentId): set<RequestId> {
    set r | r in s.requests && s.requests[r].torrent == t && s.requests[r].state != Cancelled &&
      s.requests[r].state != Expired
  }

  /** Its queued and running jobs that are not themselves recoveries. */
  ghost function LiveWork(s: Store, t: TorrentId): set<JobId> {
    set j | j in s.jobs && s.jobs[j].torrent == t && s.jobs[j].state in {Queued, Running} &&
      s.jobs[j].kind in {Purge, OtherKind}
  }

  lemma LiveIsActive(s: Store, t: TorrentId)
    ensures LiveRequests(s, t) == ActiveOn(s.requests, t) && LiveWork(s, t) == OpenWork(s.jobs, t)
  {
  }

  /** The snapshot names this torrent, its generation and exactly its live requests and work. */
  ghost predicate Seen(s: Store, t: TorrentId, expected: Snapshot) {
    && t in s.torrents && expected.torrent == t && expected.generation == s.torrents[t].generation
    && expected.requests == LiveRequests(s, t) && expected.jobs == LiveWork(s, t)
  }

  /** A snapshot is taken exactly of a torrent with at most a thousand live requests and a thousand open jobs,
      and shows what is there. */
  lemma SnapshotIff(s: Store, t: TorrentId)
    ensures TakeSnapshot(s, t).Some? <==> t in s.torrents && |LiveRequests(s, t)| <= 1000 && |LiveWork(s, t)| <= 1000
    ensures TakeSnapshot(s, t).Some? ==> Seen(s, t, TakeSnapshot(s, t).value)
  {
    LiveIsActive(s, t);
  }

  /** The torrent is seen as in the snapshot and not purged yet. */
  ghost predicate Unpurged(s: Store, t: TorrentId, expected: Snapshot) {
    Seen(s, t, expected) && s.torrents[t].state != Purged
  }

  /** A recovery is accepted if and only if the torrent is as its snapshot says, not purged and not wholly
      present, it has at most a thousand live requests, and, to purge its metadata, nothing of it is present
      and no work is open. Each refusal has its own cause, and changes nothing. */
  lemma RecoveredIff(s: Store, t: TorrentId, action: Recovery, qbPresent: bool, storagePresent: bool,
                     expected: Snapshot)
    ensures var (s', r) := Recover(s, t, action, qbPresent, storagePresent, expected);
            var purge := action == PurgeMetadata;
            && (r.Recovered? <==>
                  && Unpurged(s, t, expected) && !(qbPresent && storagePresent)
                  && (purge ==> !qbPresent && !storagePresent && LiveWork(s, t) == {}) && |LiveRequests(s, t)| <= 1000)
            && (r == NotFound <==> t !in s.torrents)
            && (r == StateChanged <==> t in s.torrents && !Seen(s, t, expected))
            && (r == AlreadyPurged <==> Seen(s, t, expected) && s.torrents[t].state == Purged)
            && (r == NotOrphaned <==> Unpurged(s, t, expected) && qbPresent && storagePresent)
            && (r == ManualReview <==> Unpurged(s, t, expected) && purge && qbPresent != storagePresent)
            && (r == JobsActive <==>
                  Unpurged(s, t, expected) && purge && !qbPresent && !storagePresent && LiveWork(s, t) != {})
            && (!r.Recovered? ==> s' == s)
  {
    LiveIsActive(s, t);
  }

  /** An accepted recovery cancels exactly the live requests of its torrent and stops exactly its open work:
      queued jobs are aborted and running ones asked to stop. The torrent is purged or set to Error under a new
      generation, without a purge time. Nothing else moves but the usages, and the ledger when it is purged. */
  lemma RecoveredEffect(s: Store, t: TorrentId, action: Recovery, qbPresent: bool, storagePresent: bool,
                        expected: Snapshot)
    requires Recover(s, t, action, qbPresent, storagePresent, expected).1.Recovered?
    ensures var (s', r) := Recover(s, t, action, qbPresent, storagePresent, expected);
            && r == Recovered(|LiveRequests(s, t)|, action == PurgeMetadata)
            && RecoveredRow(s, s', t, action) && RequestsCancelled(s, s', t) && WorkStopped(s, s', t)
            && s'.usages.Keys == s.usages.Keys && s'.nextJob == s.nextJob
            && (forall u :: u in s.usages && (forall q :: q in LiveRequests(s, t) ==> s.requests[q].user != u) ==>
                  s'.usages[u] == s.usages[u])
            && (action == CancelRequests || s.ledger.None? ==> s'.ledger == s.ledger)
            && (action == PurgeMetadata && s.ledger.Some? ==>
                  s'.ledger == Some(Max(0, s.ledger.value - s.torrents[t].size)))
  {
    LiveIsActive(s, t);
    forall u | u in s.usages && (forall q :: q in LiveRequests(s, t) ==> s.requests[q].user != u)
      ensures ActiveOf(s.requests, t, u) == {}
    {
      assert forall q :: q in ActiveOf(s.requests, t, u) ==> q in LiveRequests(s, t);
    }
  }

  ghost predicate RecoveredRow(s: Store, s': Store, t: TorrentId, action: Recovery) {
    && t in s.torrents && t in s'.torrents && s'.torrents - {t} == s.torrents - {t}
    && var row, row' := s.torrents[t], s'.torrents[t];
       && row'.generation == row.generation + 1 && row'.purgeAfter == None && row'.size == row.size
       && row'.account == row.account && row'.forcedActive == row.forcedActive && row'.stopPending == row.stopPending
       && (if action == PurgeMetadata then row'.state == Purged && !row'.hasMetadata
           else row'.state == Error && row'.hasMetadata == row.hasMetadata)
  }

  ghost predicate RequestsCancelled(s: Store, s': Store, t: TorrentId) {
    && s'.requests.Keys == s.requests.Keys
    && forall r :: r in s.requests ==>
         s'.requests[r] == if r in LiveRequests(s, t) then s.requests[r].(state := Cancelled) else s.requests[r]
  }

  ghost predicate WorkStopped(s: Store, s': Store, t: TorrentId) {
    && s'.jobs.Keys == s.jobs.Keys
    && (forall j :: j in s.jobs && j !in LiveWork(s, t) ==> s'.jobs[j] == s.jobs[j])
    && (forall j :: j in LiveWork(s, t) ==> Stopped(s.jobs[j], s'.jobs[j]))
  }

  ghost predicate Stopped(job: Job, job': Job) {
    && job'.cancelRequested && job'.state == (if job.state == Queued then Aborted else Running)
    && job'.torrent == job.torrent && job'.kind == job.kind && job'.key == job.key
    && job'.availableAt == job.availableAt
  }

  /** Over any run: a recovery is accepted on a snapshot only if, since it was taken, the torrent kept its
      generation in every state, and it finds the very requests and work that were seen. */
  lemma RecoveryFindsWhatWasSeen(states: seq<Store>, events: seq<Event>, i: nat, k: nat, t: TorrentId)
    requires Run(states, events) && i <= k < |events| && TakeSnapshot(states[i], t).Some?
    requires Recovers(states[k], events[k], TakeSnapshot(states[i], t).value)
    ensures LiveRequests(states[k], t) == LiveRequests(states[i], t) && LiveWork(states[k], t) == LiveWork(states[i], t)
    ensures forall m :: i <= m <= k ==>
              t in states[m].torrents && states[m].torrents[t].generation == states[i].torrents[t].generation
    ensures t in states[k + 1].torrents && states[k + 1].torrents[t].generation > states[i].torrents[t].generation
  {
    var snapshot := TakeSnapshot(states[i], t).value;
    var e := events[k];
    LiveIsActive(states[i], t);
    RecoveredIff(states[k], e.torrent, e.action, e.qbPresent, e.storagePresent, snapshot);
    RecoveredEffect(states[k], e.torrent, e.action, e.qbPresent, e.storagePresent, snapshot);
    assert Follows(states, events, k);
    forall m | i <= m <= k
      ensures t in states[m].torrents && states[m].torrents[t].generation == states[i].torrents[t].generation
    {
      GenerationsGrow(states, events, i, m);
      GenerationsGrow(states, events, m, k);
    }
  }

  /** A torrent is resumed if and only if one to 2160 hours are asked for and it is downloading or paused on some
      account. A refusal changes nothing. */
  lemma ResumedIff(s: Store, t: TorrentId, hours: int, now: int)
    ensures var (s', r) := ForceResume(s, t, hours, now);
            var valid := 1 <= hours && hours <= 2160;
            var resumable := t in s.torrents && s.torrents[t].state in {Downloading, Paused}
                             && s.torrents[t].account != None;
            && (r == Resumed <==> valid && resumable)
            && (r == InvalidRetention <==> !valid)
            && (r == TorrentNotFound <==> valid && t !in s.torrents)
            && (r == ResumeNotAllowed <==> valid && t in s.torrents && !resumable)
            && (r != Resumed ==> s' == s)
  {
  }

  /** A resume moves no other torrent, no request and no balance. While requests are live it leaves the purge
      time, the generation and the jobs alone; otherwise the purge time is the later of the one it had and the end of
      the hours asked for. */
  lemma ResumedRow(s: Store, t: TorrentId, hours: int, now: int)
    requires ForceResume(s, t, hours, now).1 == Resumed
    ensures var s' := ForceResume(s, t, hours, now).0;
            && t in s'.torrents && s'.torrents - {t} == s.torrents - {t}
            && s'.requests == s.requests && s'.usages == s.usages && s'.ledger == s.ledger
            && var row, row' := s.torrents[t], s'.torrents[t];
               && row'.forcedActive && !row'.stopPending && row'.state == row.state && row'.size == row.size
               && row'.account == row.account && row'.hasMetadata == row.hasMetadata
               && (if LiveRequests(s, t) != {}
                   then row'.purgeAfter == row.purgeAfter && row'.generation == row.generation && s'.jobs == s.jobs
                   else row'.purgeAfter == Some(Max(now + hours * 3600,
                     if row.purgeAfter.Some? then row.purgeAfter.value else now)))
  {
    LiveIsActive(s, t);
  }

  // ----- The service object

  ghost predicate RequestsClosed(start: map<RequestId, Request>, requests: map<RequestId, Request>,
                                 done: set<RequestId>) {
    && requests.Keys == start.Keys
    && forall r :: r in requests ==> requests[r] == if r in done then start[r].(state := Cancelled) else start[r]
  }

  /** Each user has been refunded once for each of their requests in `done`. */
  ghost predicate UsagesRefunded(start: Store, t: TorrentId, usages: map<UserId, int>, done: set<RequestId>)
    requires t in start.torrents
  {
    && usages.Keys == start.usages.Keys
    && forall u :: u in usages ==>
        usages[u] == Refunds(start.usages[u], |ActiveOf(start.requests, t, u) * done|, start.torrents[t].size)
  }

  lemma MineGrows(requests: map<RequestId, Request>, t: TorrentId, u: UserId, done: set<RequestId>, r: RequestId)
    requires r in ActiveOn(requests, t)
    ensures var mine := ActiveOf(requests, t, u);
            r !in done ==> |mine * (done + {r})| == |mine * done| + (if u == requests[r].user then 1 else 0)
  {
    assert ActiveOf(requests, t, u) * (done + {r})
           == ActiveOf(requests, t, u) * done + (if u == requests[r].user then {r} else {});
  }

  lemma UsagesStep(start: Store, t: TorrentId, usages: map<UserId, int>, usages': map<UserId, int>,
                   done: set<RequestId>, r: RequestId)
    requires t in start.torrents && UsagesRefunded(start, t, usages, done) && r in ActiveOn(start.requests, t) &&
             r !in done
    requires var user := start.requests[r].user;
             usages' == if user in usages then usages[user := Max(0, usages[user] - start.torrents[t].size)] else usages
    ensures UsagesRefunded(start, t, usages', done + {r})
  {
    var user, size := start.requests[r].user, start.torrents[t].size;
    forall u | u in usages'
      ensures usages'[u] == Refunds(start.usages[u], |ActiveOf(start.requests, t, u) * (done + {r})|, size)
    {
      UsageStep(start, t, usages, usages', done, r, u);
    }
  }

  lemma UsageStep(start: Store, t: TorrentId, usages: map<UserId, int>, usages': map<UserId, int>,
                  done: set<RequestId>, r: RequestId, u: UserId)
    requires t in start.torrents && r in ActiveOn(start.requests, t) && r !in done
    requires u in start.usages && u in usages && u in usages'
    requires var n := |ActiveOf(start.requests, t, u) * done|;
             usages[u] == Refunds(start.usages[u], n, start.torrents[t].size)
    requires usages'[u] == if u == start.requests[r].user then Max(0, usages[u] - start.torrents[t].size) else usages[u]
    ensures var n := |ActiveOf(start.requests, t, u) * (done + {r})|;
            usages'[u] == Refunds(start.usages[u], n, start.torrents[t].size)
  {
    MineGrows(start.requests, t, u, done, r);
  }

  lemma RequestsStep(start: map<RequestId, Request>, requests: map<RequestId, Request>, done: set<RequestId>,
                     r: RequestId)
    requires RequestsClosed(start, requests, done) && r in start && r !in done
    ensures requests[r] == start[r] && RequestsClosed(start, requests[r := start[r].(state := Cancelled)], done + {r})
  {
  }

  lemma AllMine(requests: map<RequestId, Request>, t: TorrentId, u: UserId)
    ensures ActiveOf(requests, t, u) * ActiveOn(requests, t) == ActiveOf(requests, t, u)
  {
  }

  lemma AllCancelled(start: Store, t: TorrentId, requests: map<RequestId, Request>, usages: map<UserId, int>)
    requires t in start.torrents && RequestsClosed(start.requests, requests, ActiveOn(start.requests, t))
    requires UsagesRefunded(start, t, usages, ActiveOn(start.requests, t))
    ensures requests == CancelAll(start, t).requests && usages == CancelAll(start, t).usages
  {
    AllRefunded(start, t, usages);
    AllClosed(start, t, requests);
  }

  lemma AllRefunded(start: Store, t: TorrentId, usages: map<UserId, int>)
    requires t in start.torrents && UsagesRefunded(start, t, usages, ActiveOn(start.requests, t))
    ensures usages == Refund(start.usages, start.requests, t, start.torrents[t].size)
  {
    forall u | u in usages
      ensures usages[u] == Refunds(start.usages[u], |ActiveOf(start.requests, t, u)|, start.torrents[t].size)
    {
      AllMine(start.requests, t, u);
    }
  }

  lemma AllClosed(start: Store, t: TorrentId, requests: map<RequestId, Request>)
    requires t in start.torrents && RequestsClosed(start.requests, requests, ActiveOn(start.requests, t))
    ensures requests == CancelAll(start, t).requests
  {
  }

  lemma NothingRefunded(start: Store, t: TorrentId)
    requires t in start.torrents
    ensures RequestsClosed(start.requests, start.requests, {}) && UsagesRefunded(start, t, start.usages, {})
  {
    forall u | u in start.usages ensures ActiveOf(start.requests, t, u) * {} == {} {}
  }

  class AdminService {
    var torrents: map<TorrentId, Torrent>
    var requests: map<RequestId, Request>
    var jobs: map<JobId, Job>
    var nextJob: JobId
    var usages: map<UserId, int>
    var ledger: Option<int>

    function View(): Store
      reads this
    {
      Store(torrents, requests, jobs, nextJob, usages, ledger)
    }

    /** Closes one active request and refunds it to its user's usage row, if there is one. */
    method CloseRequest(t: TorrentId, r: RequestId, ghost start: Store, ghost done: set<RequestId>)
      requires t in torrents && start.torrents == torrents && r in ActiveOn(start.requests, t) && r !in done
      requires RequestsClosed(start.requests, requests, done) && UsagesRefunded(start, t, usages, done)
      modifies `requests, `usages
      ensures RequestsClosed(start.requests, requests, done + {r}) && UsagesRefunded(start, t, usages, done + {r})
    {
      RequestsStep(start.requests, requests, done, r);
      ghost var before := usages;
      var user := requests[r].user;
      requests := requests[r := requests[r].(state := Cancelled)];
      if user in usages {
        usages := usages[user := Max(0, usages[user] - torrents[t].size)];
      }
      UsagesStep(start, t, before, usages, done, r);
    }

    /** Closes all active requests of a torrent, one by one. */
    method CancelRequests(t: TorrentId) returns (count: nat)
      requires t in torrents
      modifies `requests, `usages
      ensures View() == CancelAll(old(View()), t) && count == |ActiveOn(old(requests), t)|
    {
      ghost var start := View();
      ghost var all := ActiveOn(requests, t);
      var todo := ActiveOn(requests, t);
      count := |todo|;
      NothingRefunded(start, t);
      assert all - todo == {};
      while todo != {}
        invariant todo <= all && torrents == start.torrents
        invariant RequestsClosed(start.requests, requests, all - todo) && UsagesRefunded(start, t, usages, all - todo)
        decreases todo
      {
        var r := Least(todo);
        CloseRequest(t, r, start, all - todo);
        assert (all - todo) + {r} == all - (todo - {r});
        todo := todo - {r};
      }
      assert all - todo == all;
      AllCancelled(start, t, requests, usages);
    }

    method PurgeTorrent(t: TorrentId, now: int)
      requires t in torrents
      modifies this
      ensures View() == PurgeOne(old(View()), t, now)
    {
      var count := CancelRequests(t);
      var row := torrents[t];
      row := row.(generation := row.generation + 1, forcedActive := false, purgeAfter := Some(now));
      torrents := torrents[t := row];
      var open := OpenPurgeJobs(jobs, t);
      if open == {} {
        jobs := jobs[nextJob := Job(t, Purge, AdminPurge(t, row.generation), Queued, now, false)];
        nextJob := nextJob + 1;
      } else {
        var j := Least(open);
        var job := jobs[j];
        if job.state == Queued {
          job := job.(availableAt := now);
        }
        jobs := jobs[j := job.(cancelRequested := false)];
      }
    }

    method ScheduleAdminPurge(ids: seq<TorrentId>, now: int, eligible: set<TorrentState>, expected: map<TorrentId, nat>)
      returns (scheduled: seq<TorrentId>, skipped: seq<TorrentId>)
      modifies this
      ensures (View(), PurgeResult(scheduled, skipped)) == SchedulePurge(old(View()), ids, now, eligible, expected)
    {
      var unique := Unique(ids);
      scheduled, skipped := [], [];
      for k := 0 to |unique|
        invariant (View(), PurgeResult(scheduled, skipped))
                  == PurgeEach(old(View()), unique[..k], now, eligible, expected)
      {
        assert unique[..k + 1][..k] == unique[..k];
        var t := unique[k];
        if t !in torrents || torrents[t].state !in eligible {
          skipped := skipped + [t];
        } else if t in expected && expected[t] != |ActiveOn(requests, t)| {
          skipped := skipped + [t];
        } else {
          PurgeTorrent(t, now);
          scheduled := scheduled + [t];
        }
      }
      assert unique[..|unique|] == unique;
    }

    method ForceResumeAdminTorrent(t: TorrentId, hours: int, now: int) returns (result: ResumeResult)
      modifies this
      ensures (View(), result) == ForceResume(old(View()), t, hours, now)
    {
      if !(1 <= hours <= 2160) { return InvalidRetention; }
      if t !in torrents { return TorrentNotFound; }
      if (torrents[t].state != Downloading && torrents[t].state != Paused) || torrents[t].account.None? {
        return ResumeNotAllowed;
      }
      var row := torrents[t];
      if ActiveOn(requests, t) == {} {
        var deadline := now + hours * 3600;
        if row.purgeAfter.None? || row.purgeAfter.value < deadline {
          row := row.(purgeAfter := Some(deadline));
        }
        var open := OpenPurgeJobs(jobs, t);
        if open == {} {
          row := row.(generation := row.generation + 1);
          jobs := jobs[nextJob := Job(t, Purge, AdminResume(t, row.generation), Queued, row.purgeAfter.value, false)];
          nextJob := nextJob + 1;
        } else {
          var j := Least(open);
          if jobs[j].state == Queued {
            jobs := jobs[j := jobs[j].(availableAt := row.purgeAfter.value, cancelRequested := false)];
          } else {
            assert jobs[j := jobs[j]] == jobs;
          }
        }
      }
      torrents := torrents[t := row.(forcedActive := true, stopPending := false)];
      result := Resumed;
    }

    method RecoverOrphanedTorrent(t: TorrentId, action: Recovery, qbPresent: bool, storagePresent: bool,
                                  expected: Snapshot)
      returns (result: RecoverResult)
      modifies this
      ensures (View(), result) == Recover(old(View()), t, action, qbPresent, storagePresent, expected)
    {
      if t !in torrents { return NotFound; }
      var current := ActiveOn(requests, t);
      var work := OpenWork(jobs, t);
      if expected.torrent != t || expected.generation != torrents[t].generation
         || expected.requests != current || expected.jobs != work
      {
        return StateChanged;
      }
      if torrents[t].state == Purged { return AlreadyPurged; }
      if qbPresent && storagePresent { return NotOrphaned; }
      if action == PurgeMetadata && (qbPresent || storagePresent) { return ManualReview; }
      if action == PurgeMetadata && work != {} { return JobsActive; }
      if |current| > MAX_RECOVERY_REQUESTS { return LimitExceeded; }
      var count := CancelRequests(t);
      jobs := AbortWork(jobs, t);
      var row := torrents[t];
      row := row.(generation := row.generation + 1, purgeAfter := None);
      if action == PurgeMetadata {
        row := row.(state := Purged, hasMetadata := false);
        if ledger.Some? {
          ledger := Some(Max(0, ledger.value - row.size));
        }
      } else {
        row := row.(state := Error);
      }
      torrents := torrents[t := row];
      result := Recovered(count, action == PurgeMetadata);
    }
  }
}
