/** The login budget limiter: a bounded table of per-network windows, sticky sharded
    overflow windows, per-identity fallback windows and one global window. */
module RateLimit {
  import opened Common

  type Network = string
  type Identity = string

  datatype BucketKind = IpBucket | IdentityBucket

  /** `digest` stands for the salted hash: any function, so buckets may collide at will. */
  datatype Limits = Limits(
    maximum: nat,
    windowSeconds: nat,
    maxKeys: nat,
    globalMaximum: nat,
    fallbackMaximum: nat,
    buckets: nat,
    digest: (BucketKind, string) -> nat
  ) {
    ghost predicate Valid() {
      maximum >= 1 && windowSeconds >= 1 && maxKeys >= 1 && globalMaximum >= 1 && fallbackMaximum >= 1 && buckets >= 1
    }

    function Span(): real { windowSeconds as real }

    function Index(kind: BucketKind, name: string): (i: nat)
      requires Valid()
      ensures i < buckets
    {
      digest(kind, name) % buckets
    }
  }

  datatype Window = Window(started: real, count: nat)
  datatype Entry = Entry(network: Network, window: Window)

  /** `table` lists the primary windows in creation order. */
  datatype State = State(
    table: seq<Entry>,
    overflowIps: seq<Option<Window>>,
    overflowIdentities: seq<Option<Window>>,
    global: Option<Window>
  )

  ghost predicate Shape(c: Limits, s: State) {
    c.Valid() && |s.overflowIps| == c.buckets && |s.overflowIdentities| == c.buckets
  }

  ghost function Empty(c: Limits): (s: State)
    requires c.Valid()
    ensures Shape(c, s)
  {
    State([], seq(c.buckets, _ => None), seq(c.buckets, _ => None), None)
  }

  predicate IsLive(c: Limits, w: Window, now: real) {
    w.started + c.Span() > now
  }

  function Live(c: Limits, w: Option<Window>, now: real): Option<Window> {
    if w.Some? && IsLive(c, w.value, now) then w else None
  }

  function Ceil(x: real): int { -((-x).Floor) }

  function Retry(c: Limits, w: Window, now: real): (r: int)
    ensures r >= 1 && now + r as real >= w.started + c.Span()
    ensures r == 1 || now + (r - 1) as real < w.started + c.Span()
  {
    Max(1, Ceil(w.started + c.Span() - now))
  }

  function Evict(c: Limits, table: seq<Entry>, now: real): seq<Entry> {
    if table == [] || IsLive(c, table[0].window, now) then table else Evict(c, table[1..], now)
  }

  function Lookup(table: seq<Entry>, n: Network): Option<Window> {
    if table == [] then None
    else if table[0].network == n then Some(table[0].window)
    else Lookup(table[1..], n)
  }

  /** Assignment into an insertion-ordered dictionary: an existing key keeps its place. */
  function Put(table: seq<Entry>, n: Network, w: Window): (r: seq<Entry>) {
    if table == [] then [Entry(n, w)]
    else if table[0].network == n then [Entry(n, w)] + table[1..]
    else [table[0]] + Put(table[1..], n, w)
  }

  datatype Call = Call(now: real, network: Network, identity: Option<Identity>)

  /** Which per-network window a granted call was charged to. */
  datatype Slot = Primary(network: Network) | Overflow(bucket: nat)

  /** A granted call, with the windows it was charged to (as they were before the charge). */
  datatype Decision =
    | Refused(retryAfter: int)
    | Granted(slot: Slot, window: Window, account: Option<Window>, global: Window)

  function OrFresh(w: Option<Window>, now: real): Window {
    if w.Some? then w.value else Window(now, 0)
  }

  function Decide(c: Limits, s: State, call: Call): (d: Decision)
    requires Shape(c, s)
    ensures d.Refused? ==> d.retryAfter >= 1
    ensures d.Granted? && d.account.Some? ==> call.identity.Some?
    ensures d.Granted? && d.slot.Overflow? ==> d.slot.bucket < c.buckets
  {
    var now := call.now;
    var globalWindow := Live(c, s.global, now);
    var retry0 := if globalWindow.Some? && globalWindow.value.count >= c.globalMaximum
                  then Retry(c, globalWindow.value, now) else 0;
    var ip := c.Index(IpBucket, call.network);
    var entry := Lookup(s.table, call.network);
    var overflow := if entry.None? then Live(c, s.overflowIps[ip], now) else None;
    var useOverflow := entry.None? && (overflow.Some? || |s.table| >= c.maxKeys);
    if useOverflow && call.identity.None? then
      var oldest := if overflow.Some? then overflow.value else s.table[0].window;
      Refused(Max(retry0, Retry(c, oldest, now)))
    else
      var known := if call.identity.None? then None
                   else Live(c, s.overflowIdentities[c.Index(IdentityBucket, call.identity.value)], now);
      var window := OrFresh(if useOverflow then overflow else entry, now);
      var account := if useOverflow then Some(OrFresh(known, now)) else known;
      var retry1 := if window.count >= c.maximum then Max(retry0, Retry(c, window, now)) else retry0;
      var retry2 := if account.Some? && account.value.count >= c.fallbackMaximum
                    then Max(retry1, Retry(c, account.value, now)) else retry1;
      if retry2 != 0 then Refused(retry2)
      else Granted(if useOverflow then Overflow(ip) else Primary(call.network),
                   window, account, OrFresh(globalWindow, now))
  }

  function Spend(w: Window): Window { w.(count := w.count + 1) }

  function Charge(c: Limits, s: State, call: Call, d: Decision): (r: State)
    requires Shape(c, s) && d.Granted?
    requires d.slot.Overflow? ==> d.slot.bucket < c.buckets
    requires d.account.Some? ==> call.identity.Some?
    ensures Shape(c, r)
  {
    State(
      if d.slot.Primary? then Put(s.table, d.slot.network, Spend(d.window)) else s.table,
      if d.slot.Overflow? then s.overflowIps[d.slot.bucket := Some(Spend(d.window))] else s.overflowIps,
      if d.account.Some?
      then s.overflowIdentities[c.Index(IdentityBucket, call.identity.value) := Some(Spend(d.account.value))]
      else s.overflowIdentities,
      Some(Spend(d.global)))
  }

  function Step(c: Limits, s: State, call: Call): (r: (State, Decision))
    requires Shape(c, s)
    ensures Shape(c, r.0)
    ensures r.1.Granted? && r.1.account.Some? ==> call.identity.Some?
  {
    var s1 := s.(table := Evict(c, s.table, call.now));
    var d := Decide(c, s1, call);
    if d.Refused? then (s1, d) else (Charge(c, s1, call, d), d)
  }

  // ----- Table facts

  /** Creation order: networks are distinct, starts never decrease and none lies in the future. */
  ghost predicate Ordered(table: seq<Entry>, now: real) {
    && (forall i, j :: 0 <= i < j < |table| ==> table[i].network != table[j].network)
    && (forall i, j :: 0 <= i < j < |table| ==> table[i].window.started <= table[j].window.started)
    && (forall i :: 0 <= i < |table| ==> table[i].window.started <= now)
  }

  lemma {:induction false} LookupAt(table: seq<Entry>, n: Network)
    ensures Lookup(table, n).Some? ==>
              exists i :: 0 <= i < |table| && table[i] == Entry(n, Lookup(table, n).value)
    ensures Lookup(table, n).None? ==> forall i :: 0 <= i < |table| ==> table[i].network != n
  {
    if table != [] && table[0].network != n {
      LookupAt(table[1..], n);
      if Lookup(table, n).Some? {
        var i :| 0 <= i < |table[1..]| && table[1..][i] == Entry(n, Lookup(table, n).value);
        assert table[i + 1] == Entry(n, Lookup(table, n).value);
      } else {
        forall i | 0 <= i < |table| ensures table[i].network != n {
          if i > 0 { assert table[i] == table[1..][i - 1]; }
        }
      }
    } else if table != [] {
      assert table[0] == Entry(n, Lookup(table, n).value);
    }
  }

  lemma {:induction false} EvictFacts(c: Limits, table: seq<Entry>, now: real, n: Network)
    requires Ordered(table, now)
    ensures Ordered(Evict(c, table, now), now)
    ensures forall i :: 0 <= i < |Evict(c, table, now)| ==> IsLive(c, Evict(c, table, now)[i].window, now)
    ensures Lookup(Evict(c, table, now), n) == Live(c, Lookup(table, n), now)
  {
    if table == [] {
    } else if IsLive(c, table[0].window, now) {
      LookupAt(table, n);
    } else {
      var rest := table[1..];
      assert Ordered(rest, now);
      EvictFacts(c, rest, now, n);
      if table[0].network == n {
        LookupAt(rest, n);
        assert Lookup(rest, n).None?;
      }
    }
  }

  lemma {:induction false} PutFacts(table: seq<Entry>, n: Network, w: Window, m: Network)
    ensures Lookup(Put(table, n, w), m) == if m == n then Some(w) else Lookup(table, m)
  {
    if table != [] && table[0].network != n {
      PutFacts(table[1..], n, w, m);
    }
  }

  lemma {:induction false} PutAbsent(table: seq<Entry>, n: Network, w: Window)
    requires Lookup(table, n).None?
    ensures Put(table, n, w) == table + [Entry(n, w)]
  {
    if table == [] {
    } else {
      PutAbsent(table[1..], n, w);
      assert table == [table[0]] + table[1..];
    }
  }

  lemma {:induction false} PutPresent(table: seq<Entry>, n: Network, w: Window) returns (i: nat)
    requires Lookup(table, n).Some?
    ensures i < |table| && table[i] == Entry(n, Lookup(table, n).value)
    ensures Put(table, n, w) == table[i := Entry(n, w)]
  {
    if table[0].network == n {
      i := 0;
    } else {
      var k := PutPresent(table[1..], n, w);
      i := k + 1;
    }
  }

  lemma PutOrdered(table: seq<Entry>, n: Network, w: Window, now: real)
    requires Ordered(table, now)
    requires w.started == if Lookup(table, n).Some? then Lookup(table, n).value.started else now
    ensures Ordered(Put(table, n, w), now)
  {
    LookupAt(table, n);
    if Lookup(table, n).Some? {
      var i := PutPresent(table, n, w);
    } else {
      PutAbsent(table, n, w);
    }
  }

  // ----- What every granted call is charged to

  /** One grant of the history: when, for whom, and the start of each window it was charged to. */
  datatype Grant = Grant(
    time: real, network: Network, slot: Slot, start: real,
    account: Option<(nat, real)>, globalStart: real)

  /** A budget: one per-network slot, one identity bucket, or the global window. */
  datatype Meter = Ip(slot: Slot) | Account(bucket: nat) | Global

  ghost predicate ValidMeter(c: Limits, m: Meter) {
    (m.Account? ==> m.bucket < c.buckets) && (m.Ip? && m.slot.Overflow? ==> m.slot.bucket < c.buckets)
  }

  ghost function Cap(c: Limits, m: Meter): nat {
    match m case Ip(_) => c.maximum case Account(_) => c.fallbackMaximum case Global => c.globalMaximum
  }

  ghost function Current(c: Limits, s: State, m: Meter): Option<Window>
    requires Shape(c, s) && ValidMeter(c, m)
  {
    match m
    case Ip(Primary(n)) => Lookup(s.table, n)
    case Ip(Overflow(b)) => s.overflowIps[b]
    case Account(b) => s.overflowIdentities[b]
    case Global => s.global
  }

  /** The start of the window of budget `m` that grant `g` was charged to, if it was charged at all. */
  ghost function Stamp(g: Grant, m: Meter): Option<real> {
    match m
    case Ip(slot) => if g.slot == slot then Some(g.start) else None
    case Account(b) => if g.account.Some? && g.account.value.0 == b then Some(g.account.value.1) else None
    case Global => Some(g.globalStart)
  }

  ghost function GrantOf(c: Limits, call: Call, d: Decision): Grant
    requires c.Valid() && d.Granted?
    requires d.account.Some? ==> call.identity.Some?
  {
    Grant(call.now, call.network, d.slot, d.window.started,
          if d.account.Some? then Some((c.Index(IdentityBucket, call.identity.value), d.account.value.started))
            else None,
          d.global.started)
  }

  lemma DecideShape(c: Limits, s: State, call: Call)
    requires Shape(c, s)
    ensures var d := Decide(c, s, call);
            d.Granted? ==>
              && (d.slot == Primary(call.network) || d.slot == Overflow(c.Index(IpBucket, call.network)))
              && (d.slot.Overflow? ==> d.account.Some? && Lookup(s.table, call.network).None?)
              && (d.account.Some? ==> call.identity.Some?)
              && d.window.count < c.maximum
              && (d.account.Some? ==> d.account.value.count < c.fallbackMaximum)
              && d.global.count < c.globalMaximum
  {
  }

  /** One call changes each budget in exactly one of two ways: it is charged one unit in its live
      window (a fresh one if none was live), or it is left alone (an expired window may be dropped). */
  lemma MeterStep(c: Limits, s: State, call: Call, m: Meter)
    requires Shape(c, s) && ValidMeter(c, m) && Ordered(s.table, call.now)
    ensures var (s', d) := Step(c, s, call);
            var cur, cur' := Current(c, s, m), Current(c, s', m);
            && (if d.Granted? && Stamp(GrantOf(c, call, d), m).Some? then
                  var w := OrFresh(Live(c, cur, call.now), call.now);
                  && Stamp(GrantOf(c, call, d), m) == Some(w.started)
                  && w.count < Cap(c, m)
                  && cur' == Some(Spend(w))
                else
                  cur' == cur || (cur' == None && Live(c, cur, call.now) == None))
  {
    var s1 := s.(table := Evict(c, s.table, call.now));
    EvictFacts(c, s.table, call.now, call.network);
    DecideShape(c, s1, call);
    var d := Decide(c, s1, call);
    if m.Ip? && m.slot.Primary? {
      EvictFacts(c, s.table, call.now, m.slot.network);
      if d.Granted? && d.slot.Primary? {
        PutFacts(s1.table, call.network, Spend(d.window), m.slot.network);
      }
    }
  }

  // ----- Histories

  ghost predicate Charged(log: seq<Grant>, i: int, m: Meter) {
    0 <= i < |log| && Stamp(log[i], m).Some?
  }

  /** The grants charged to the window of `m` that started at `x`. */
  ghost function Uses(log: seq<Grant>, m: Meter, x: real): set<nat> {
    set i: nat | i < |log| && Stamp(log[i], m) == Some(x)
  }

  /** Some grant opened the window: it happened exactly when the window started. */
  ghost predicate Opened(log: seq<Grant>, m: Meter, x: real) {
    exists k :: k in Uses(log, m, x) && log[k].time == x
  }

  /** The windows of one budget are opened by a grant, disjoint, and never overspent. */
  ghost predicate Sound(c: Limits, log: seq<Grant>, m: Meter) {
    && (forall i :: Charged(log, i, m) ==>
          var x := Stamp(log[i], m).value;
          x <= log[i].time < x + c.Span() && |Uses(log, m, x)| <= Cap(c, m) && Opened(log, m, x))
    && (forall i, j :: Charged(log, i, m) && Charged(log, j, m) && i < j ==>
          Stamp(log[i], m) == Stamp(log[j], m) || Stamp(log[i], m).value + c.Span() <= Stamp(log[j], m).value)
  }

  /** The stored window `cur` counts its grants exactly; every other window of the budget is over. */
  ghost predicate Tracks(c: Limits, log: seq<Grant>, now: real, m: Meter, cur: Option<Window>) {
    match cur
    case None => forall i :: Charged(log, i, m) ==> Stamp(log[i], m).value + c.Span() <= now
    case Some(w) =>
      && w.started <= now
      && 1 <= |Uses(log, m, w.started)| == w.count <= Cap(c, m)
      && forall i :: Charged(log, i, m) ==>
           Stamp(log[i], m).value == w.started || Stamp(log[i], m).value + c.Span() <= w.started
  }

  lemma UsesAppend(log: seq<Grant>, g: Grant, m: Meter, x: real)
    ensures Uses(log + [g], m, x) == Uses(log, m, x) + (if Stamp(g, m) == Some(x) then {|log|} else {})
    ensures |Uses(log + [g], m, x)| == |Uses(log, m, x)| + (if Stamp(g, m) == Some(x) then 1 else 0)
  {
    var log' := log + [g];
    forall i: nat
      ensures i in Uses(log', m, x) <==> i in Uses(log, m, x) || (i == |log| && Stamp(g, m) == Some(x))
    {
      if i < |log| { assert log'[i] == log[i]; }
    }
    assert |log| !in Uses(log, m, x);
  }

  lemma OpenedAppend(log: seq<Grant>, g: Grant, m: Meter, x: real)
    requires Opened(log, m, x) || (Stamp(g, m) == Some(x) && g.time == x)
    ensures Opened(log + [g], m, x)
  {
    var log' := log + [g];
    UsesAppend(log, g, m, x);
    if Opened(log, m, x) {
      var k :| k in Uses(log, m, x) && log[k].time == x;
      assert k in Uses(log', m, x) && log'[k].time == x;
    } else {
      assert |log| in Uses(log', m, x) && log'[|log|].time == x;
    }
  }

  lemma NoUses(c: Limits, log: seq<Grant>, m: Meter, x: real)
    requires c.Valid()
    requires forall i :: Charged(log, i, m) ==> Stamp(log[i], m).value + c.Span() <= x
    ensures Uses(log, m, x) == {}
  {
    assert forall i :: Charged(log, i, m) ==> Stamp(log[i], m) != Some(x);
  }

  lemma SoundAppend(c: Limits, log: seq<Grant>, m: Meter, g: Grant, x: real)
    requires Sound(c, log, m) && Stamp(g, m) == Some(x) && x <= g.time < x + c.Span()
    requires |Uses(log, m, x)| < Cap(c, m)
    requires Opened(log, m, x) || g.time == x
    requires forall i :: Charged(log, i, m) ==> Stamp(log[i], m).value == x || Stamp(log[i], m).value + c.Span() <= x
    ensures Sound(c, log + [g], m)
  {
    var log' := log + [g];
    forall i | Charged(log', i, m)
      ensures var y := Stamp(log'[i], m).value;
              y <= log'[i].time < y + c.Span() && |Uses(log', m, y)| <= Cap(c, m) && Opened(log', m, y)
    {
      UsesAppend(log, g, m, Stamp(log'[i], m).value);
      if i < |log| { assert Charged(log, i, m); }
      OpenedAppend(log, g, m, Stamp(log'[i], m).value);
    }
    forall i, j | Charged(log', i, m) && Charged(log', j, m) && i < j
      ensures Stamp(log'[i], m) == Stamp(log'[j], m) || Stamp(log'[i], m).value + c.Span() <= Stamp(log'[j], m).value
    {
      assert Charged(log, i, m);
      if j < |log| { assert Charged(log, j, m); }
    }
  }

  /** The window to charge next is the latest one: every other window of the budget ended before it. */
  lemma LatestWindow(c: Limits, log: seq<Grant>, now: real, m: Meter, cur: Option<Window>, later: real)
    requires c.Valid() && now <= later
    requires Sound(c, log, m) && Tracks(c, log, now, m, cur)
    ensures var w := OrFresh(Live(c, cur, later), later);
            && w.started <= later < w.started + c.Span()
            && |Uses(log, m, w.started)| == w.count
            && (Opened(log, m, w.started) || w.started == later)
            && forall i :: Charged(log, i, m) ==>
                 Stamp(log[i], m).value == w.started || Stamp(log[i], m).value + c.Span() <= w.started
  {
    var live := Live(c, cur, later);
    if live.None? {
      NoUses(c, log, m, later);
    } else {
      var k :| k in Uses(log, m, live.value.started);
      assert Charged(log, k, m);
    }
  }

  /** A grant charged to budget `m` when its stored window was `cur`. */
  lemma ChargeKeeps(c: Limits, log: seq<Grant>, now: real, m: Meter, cur: Option<Window>, g: Grant)
    requires c.Valid() && now <= g.time
    requires Sound(c, log, m) && Tracks(c, log, now, m, cur)
    requires var w := OrFresh(Live(c, cur, g.time), g.time);
             Stamp(g, m) == Some(w.started) && w.count < Cap(c, m)
    ensures Sound(c, log + [g], m)
    ensures Tracks(c, log + [g], g.time, m, Some(Spend(OrFresh(Live(c, cur, g.time), g.time))))
  {
    LatestWindow(c, log, now, m, cur, g.time);
    var w := OrFresh(Live(c, cur, g.time), g.time);
    ChargeTracks(c, log, m, w, g);
    SoundAppend(c, log, m, g, w.started);
  }

  lemma ChargeTracks(c: Limits, log: seq<Grant>, m: Meter, w: Window, g: Grant)
    requires Stamp(g, m) == Some(w.started) && w.started <= g.time
    requires |Uses(log, m, w.started)| == w.count < Cap(c, m)
    requires forall i :: Charged(log, i, m) ==>
               Stamp(log[i], m).value == w.started || Stamp(log[i], m).value + c.Span() <= w.started
    ensures Tracks(c, log + [g], g.time, m, Some(Spend(w)))
  {
    UsesAppend(log, g, m, w.started);
    forall i | Charged(log + [g], i, m) && i < |log| ensures Charged(log, i, m) && (log + [g])[i] == log[i] {
    }
  }

  /** A grant not charged to budget `m`. */
  lemma SkipKeeps(c: Limits, log: seq<Grant>, now: real, m: Meter, cur: Option<Window>, g: Grant)
    requires now <= g.time && Stamp(g, m).None?
    requires Sound(c, log, m) && Tracks(c, log, now, m, cur)
    ensures Sound(c, log + [g], m) && Tracks(c, log + [g], g.time, m, cur)
  {
    var log' := log + [g];
    forall i | Charged(log', i, m)
      ensures Charged(log, i, m) && log'[i] == log[i]
      ensures |Uses(log', m, Stamp(log[i], m).value)| == |Uses(log, m, Stamp(log[i], m).value)|
      ensures Opened(log', m, Stamp(log[i], m).value)
    {
      assert Charged(log, i, m);
      UsesAppend(log, g, m, Stamp(log[i], m).value);
      OpenedAppend(log, g, m, Stamp(log[i], m).value);
    }
    if cur.Some? { UsesAppend(log, g, m, cur.value.started); }
  }

  /** Time passing, and an expired window being dropped. */
  lemma LaterKeeps(c: Limits, log: seq<Grant>, now: real, later: real, m: Meter, cur: Option<Window>,
                   cur': Option<Window>)
    requires now <= later && Tracks(c, log, now, m, cur)
    requires cur' == cur || (cur' == None && Live(c, cur, later) == None)
    ensures Tracks(c, log, later, m, cur')
  {
  }

  ghost function Extend(c: Limits, s: State, log: seq<Grant>, call: Call): seq<Grant>
    requires Shape(c, s)
  {
    var d := Step(c, s, call).1;
    if d.Granted? then log + [GrantOf(c, call, d)] else log
  }

  lemma MeterKeeps(c: Limits, s: State, log: seq<Grant>, now: real, call: Call, m: Meter)
    requires Shape(c, s) && ValidMeter(c, m) && Ordered(s.table, call.now) && now <= call.now
    requires Sound(c, log, m) && Tracks(c, log, now, m, Current(c, s, m))
    ensures var s' := Step(c, s, call).0;
            Sound(c, Extend(c, s, log, call), m)
            && Tracks(c, Extend(c, s, log, call), call.now, m, Current(c, s', m))
  {
    MeterStep(c, s, call, m);
    var (s', d) := Step(c, s, call);
    var cur, cur' := Current(c, s, m), Current(c, s', m);
    if d.Granted? && Stamp(GrantOf(c, call, d), m).Some? {
      ChargeKeeps(c, log, now, m, cur, GrantOf(c, call, d));
    } else {
      LaterKeeps(c, log, now, call.now, m, cur, cur');
      if d.Granted? {
        SkipKeeps(c, log, call.now, m, cur', GrantOf(c, call, d));
      }
    }
  }

  // ----- Sliding-interval bounds from sound histories

  ghost predicate Within(c: Limits, g: Grant, t: real) {
    t <= g.time < t + c.Span()
  }

  /** The grants charged to budget `m` in the half-open interval of one window length from `t`. */
  ghost function MeterGrants(c: Limits, log: seq<Grant>, m: Meter, t: real): set<nat> {
    set i: nat | i < |log| && Charged(log, i, m) && Within(c, log[i], t)
  }

  /** A window that started before the interval gives it at most `Cap - 1` grants: its opener lies outside. */
  lemma EarlierWindow(c: Limits, log: seq<Grant>, m: Meter, i: nat, t: real, a: set<nat>)
    requires Sound(c, log, m) && Charged(log, i, m) && Stamp(log[i], m).value < t
    requires forall k :: k in a ==> k < |log| && Within(c, log[k], t)
    ensures |a * Uses(log, m, Stamp(log[i], m).value)| <= Cap(c, m) - 1
  {
    var x := Stamp(log[i], m).value;
    var k :| k in Uses(log, m, x) && log[k].time == x;
    assert k !in a;
    SubsetSize(a * Uses(log, m, x), Uses(log, m, x) - {k});
  }

  lemma SecondWindow(c: Limits, log: seq<Grant>, m: Meter, t: real, i: nat, j: nat, k: nat)
    requires Sound(c, log, m) && {i, j, k} <= MeterGrants(c, log, m, t) && i < j <= k
    requires Stamp(log[i], m) != Stamp(log[j], m) && Stamp(log[i], m) != Stamp(log[k], m)
    ensures Stamp(log[i], m).value < t && Stamp(log[k], m) == Stamp(log[j], m)
  {
    assert Charged(log, i, m) && Charged(log, j, m) && Charged(log, k, m);
  }

  lemma SecondWindowBound(c: Limits, log: seq<Grant>, m: Meter, t: real, i: nat, rest: set<nat>)
    requires Sound(c, log, m) && i in MeterGrants(c, log, m, t) && rest != {} && rest <= MeterGrants(c, log, m, t)
    requires forall k :: k in rest ==> i < k && Stamp(log[k], m) != Stamp(log[i], m)
    ensures Stamp(log[i], m).value < t && |rest| <= Cap(c, m)
  {
    var j := Least(rest);
    assert Charged(log, j, m);
    var v := Uses(log, m, Stamp(log[j], m).value);
    forall k | k in rest ensures k in v && Stamp(log[i], m).value < t { SecondWindow(c, log, m, t, i, j, k); }
    SubsetSize(rest, v);
  }

  lemma MeterBound(c: Limits, log: seq<Grant>, m: Meter, t: real)
    requires c.Valid() && Sound(c, log, m) && Cap(c, m) >= 1
    ensures |MeterGrants(c, log, m, t)| <= 2 * Cap(c, m) - 1
  {
    var a := MeterGrants(c, log, m, t);
    if a != {} {
      var i := Least(a);
      assert Charged(log, i, m);
      var u := Uses(log, m, Stamp(log[i], m).value);
      SplitSize(a, u);
      if a - u == {} {
        SubsetSize(a * u, u);
      } else {
        LaterUses(c, log, m, t, i, a);
        SecondWindowBound(c, log, m, t, i, a - u);
        EarlierWindow(c, log, m, i, t, a);
      }
    }
  }

  lemma LaterUses(c: Limits, log: seq<Grant>, m: Meter, t: real, i: nat, a: set<nat>)
    requires a == MeterGrants(c, log, m, t) && i in a && forall k :: k in a ==> i <= k
    ensures forall k :: k in a - Uses(log, m, Stamp(log[i], m).value) ==> i < k && Stamp(log[k], m) != Stamp(log[i], m)
  {
    assert i in Uses(log, m, Stamp(log[i], m).value);
  }

  // ----- One network over time

  ghost predicate SameWindow(g: Grant, h: Grant) {
    g.slot == h.slot && g.start == h.start
  }

  ghost predicate ValidSlots(c: Limits, log: seq<Grant>)
    requires c.Valid()
  {
    forall i :: 0 <= i < |log| ==>
      log[i].slot == Primary(log[i].network) || log[i].slot == Overflow(c.Index(IpBucket, log[i].network))
  }

  ghost predicate OwnBucket(calls: seq<Call>, c: Limits, n: Network)
    requires c.Valid()
  {
    forall i :: 0 <= i < |calls| && c.Index(IpBucket, calls[i].network) == c.Index(IpBucket, n) ==>
        calls[i].network == n
  }

  /** A network moves to another window only after the previous one expired; a primary window
      (and an overflow window nobody else uses) starts after all its earlier grants elsewhere. */
  ghost predicate Succession(c: Limits, log: seq<Grant>, n: Network, alone: bool) {
    forall i, j :: 0 <= i < j < |log| && log[i].network == n && log[j].network == n && !SameWindow(log[i], log[j]) ==>
      log[i].start + c.Span() <= log[j].time && (alone || log[j].slot.Primary? ==> log[i].time <= log[j].start)
  }

  ghost function NetworkGrants(c: Limits, log: seq<Grant>, n: Network, t: real): set<nat> {
    set i: nat | i < |log| && log[i].network == n && Within(c, log[i], t)
  }

  ghost function WindowUses(log: seq<Grant>, g: Grant): set<nat> {
    Uses(log, Ip(g.slot), g.start)
  }

  lemma AtMostThreeWindows(c: Limits, log: seq<Grant>, n: Network, alone: bool, t: real, i: nat, j: nat, k: nat)
    requires c.Valid() && ValidSlots(c, log) && Succession(c, log, n, alone)
    requires forall m :: ValidMeter(c, m) ==> Sound(c, log, m)
    requires {i, j, k} <= NetworkGrants(c, log, n, t) && i < j < k
    requires !SameWindow(log[i], log[j]) && !SameWindow(log[i], log[k]) && !SameWindow(log[j], log[k])
    ensures !alone && log[j].start < t <= log[k].start
  {
    assert log[j].start + c.Span() <= log[k].time;
    assert log[j].start < t;
    assert log[j].slot.Overflow? && !alone;
    if log[k].slot.Primary? {
      assert log[j].time <= log[k].start;
    } else {
      var m := Ip(log[j].slot);
      assert ValidMeter(c, m) && Sound(c, log, m);
      assert Charged(log, j, m) && Charged(log, k, m);
    }
  }

  lemma WindowSize(c: Limits, log: seq<Grant>, n: Network, i: nat, a: set<nat>, t: real)
    requires c.Valid() && ValidSlots(c, log)
    requires forall m :: ValidMeter(c, m) ==> Sound(c, log, m)
    requires i in a && a <= NetworkGrants(c, log, n, t)
    ensures |a * WindowUses(log, log[i])| <= c.maximum - (if log[i].start < t then 1 else 0)
  {
    var m := Ip(log[i].slot);
    assert ValidMeter(c, m) && Sound(c, log, m) && Charged(log, i, m);
    if log[i].start < t {
      EarlierWindow(c, log, m, i, t, a);
    } else {
      SubsetSize(a * WindowUses(log, log[i]), WindowUses(log, log[i]));
    }
  }

  lemma ThirdWindow(c: Limits, log: seq<Grant>, n: Network, alone: bool, t: real, i: nat, j: nat, k: nat, l: nat)
    requires c.Valid() && ValidSlots(c, log) && Succession(c, log, n, alone)
    requires forall m :: ValidMeter(c, m) ==> Sound(c, log, m)
    requires {i, j, k, l} <= NetworkGrants(c, log, n, t) && i < j < k <= l
    requires !SameWindow(log[i], log[j]) && !SameWindow(log[i], log[k]) && !SameWindow(log[j], log[k])
    requires !SameWindow(log[i], log[l]) && !SameWindow(log[j], log[l])
    ensures SameWindow(log[k], log[l])
  {
    AtMostThreeWindows(c, log, n, alone, t, i, j, k);
    if !SameWindow(log[k], log[l]) {
      AtMostThreeWindows(c, log, n, alone, t, j, k, l);
    }
  }

  /** After the first window `log[i]` of the interval, at most two more windows (none shared: one more). */
  lemma RestBound(c: Limits, log: seq<Grant>, n: Network, alone: bool, t: real, i: nat, rest: set<nat>)
    requires c.Valid() && ValidSlots(c, log) && Succession(c, log, n, alone)
    requires forall m :: ValidMeter(c, m) ==> Sound(c, log, m)
    requires i in NetworkGrants(c, log, n, t) && rest != {} && rest <= NetworkGrants(c, log, n, t)
    requires forall k :: k in rest ==> i < k && !SameWindow(log[i], log[k])
    ensures |rest| <= (if alone then c.maximum else 2 * c.maximum - 1)
  {
    var j := Least(rest);
    var u := WindowUses(log, log[j]);
    SplitSize(rest, u);
    WindowSize(c, log, n, j, rest, t);
    if rest - u != {} {
      LastBound(c, log, n, alone, t, i, j, rest - u);
    }
  }

  lemma LastBound(c: Limits, log: seq<Grant>, n: Network, alone: bool, t: real, i: nat, j: nat, last: set<nat>)
    requires c.Valid() && ValidSlots(c, log) && Succession(c, log, n, alone)
    requires forall m :: ValidMeter(c, m) ==> Sound(c, log, m)
    requires {i, j} <= NetworkGrants(c, log, n, t) && last != {} && last <= NetworkGrants(c, log, n, t)
    requires i < j && !SameWindow(log[i], log[j])
    requires forall k :: k in last ==> j < k && !SameWindow(log[i], log[k]) && !SameWindow(log[j], log[k])
    ensures !alone && log[j].start < t && |last| <= c.maximum
  {
    var k := Least(last);
    AtMostThreeWindows(c, log, n, alone, t, i, j, k);
    forall l | l in last ensures l in WindowUses(log, log[k]) {
      ThirdWindow(c, log, n, alone, t, i, j, k, l);
    }
    WindowSize(c, log, n, k, last, t);
    assert last * WindowUses(log, log[k]) == last;
  }

  /** Bound for one network: `3 * maximum - 2`, or `2 * maximum - 1` alone in its overflow bucket. */
  lemma NetworkBoundFromHistory(c: Limits, log: seq<Grant>, n: Network, alone: bool, t: real)
    requires c.Valid() && ValidSlots(c, log) && Succession(c, log, n, alone)
    requires forall m :: ValidMeter(c, m) ==> Sound(c, log, m)
    ensures |NetworkGrants(c, log, n, t)| <= (if alone then 2 * c.maximum - 1 else 3 * c.maximum - 2)
  {
    var a := NetworkGrants(c, log, n, t);
    if a != {} {
      var i := Least(a);
      var u := WindowUses(log, log[i]);
      SplitSize(a, u);
      WindowSize(c, log, n, i, a, t);
      if a - u != {} {
        Elsewhere(c, log, n, alone, t, i, a);
        RestBound(c, log, n, alone, t, i, a - u);
      }
    }
  }

  /** What the first window of an interval leaves over was granted later, elsewhere, and so that window
      started before the interval. */
  lemma Elsewhere(c: Limits, log: seq<Grant>, n: Network, alone: bool, t: real, i: nat, a: set<nat>)
    requires Succession(c, log, n, alone) && a == NetworkGrants(c, log, n, t) && i in a && forall k :: k in a ==> i <= k
    requires a - WindowUses(log, log[i]) != {}
    ensures log[i].start < t
    ensures forall k :: k in a - WindowUses(log, log[i]) ==> i < k && !SameWindow(log[i], log[k])
  {
    forall k | k in a - WindowUses(log, log[i]) ensures i < k && !SameWindow(log[i], log[k]) {
      assert i in WindowUses(log, log[i]);
    }
    var j :| j in a - WindowUses(log, log[i]);
    assert log[i].start + c.Span() <= log[j].time;
  }

  // ----- Every step keeps the history sound

  /** When the current primary window of `n` was opened, every other window it had used was over. */
  ghost predicate NetworkTracks(c: Limits, s: State, log: seq<Grant>, n: Network) {
    Lookup(s.table, n).Some? ==>
      var p := Lookup(s.table, n).value;
      forall i :: 0 <= i < |log| && log[i].network == n && !(log[i].slot == Primary(n) && log[i].start == p.started) ==>
        log[i].time <= p.started && log[i].start + c.Span() <= p.started
  }

  /** With a bucket of its own, `n` uses no other window while its overflow window is live. */
  ghost predicate AloneTracks(c: Limits, s: State, log: seq<Grant>, n: Network)
    requires Shape(c, s)
  {
    var b := c.Index(IpBucket, n);
    s.overflowIps[b].Some? ==>
      var w := s.overflowIps[b].value;
      && (Lookup(s.table, n).Some? ==> w.started + c.Span() <= Lookup(s.table, n).value.started)
      && forall i ::
           0 <= i < |log| && log[i].network == n && !(log[i].slot == Overflow(b) && log[i].start == w.started) ==>
             log[i].time <= w.started || w.started + c.Span() <= log[i].time
  }

  ghost predicate Inv(c: Limits, s: State, log: seq<Grant>, now: real) {
    && Shape(c, s) && Ordered(s.table, now) && ValidSlots(c, log)
    && (forall i :: 0 <= i < |log| ==> log[i].time <= now)
    && (forall m :: ValidMeter(c, m) ==> Sound(c, log, m) && Tracks(c, log, now, m, Current(c, s, m)))
    && (forall n :: NetworkTracks(c, s, log, n) && Succession(c, log, n, false))
  }

  /** What one call reads and writes of the two windows a network can use. */
  lemma ConsumeNetwork(c: Limits, s: State, call: Call)
    requires Shape(c, s) && Ordered(s.table, call.now)
    ensures var (s', d) := Step(c, s, call);
            var n := call.network;
            var b := c.Index(IpBucket, n);
            var entry := Live(c, Lookup(s.table, n), call.now);
            var overflow := Live(c, s.overflowIps[b], call.now);
            && Ordered(s'.table, call.now)
            && (d.Refused? ==> s'.overflowIps == s.overflowIps && Lookup(s'.table, n) == entry)
            && (d.Granted? && d.slot.Primary? ==>
                  && d.slot.network == n && d.window == OrFresh(entry, call.now) && (entry.None? ==> overflow.None?)
                  && s'.overflowIps == s.overflowIps && Lookup(s'.table, n) == Some(Spend(d.window)))
            && (d.Granted? && d.slot.Overflow? ==>
                  && d.slot.bucket == b && d.account.Some? && entry.None? && d.window == OrFresh(overflow, call.now)
                  && s'.overflowIps == s.overflowIps[b := Some(Spend(d.window))] && Lookup(s'.table, n).None?)
  {
    var s1 := s.(table := Evict(c, s.table, call.now));
    EvictFacts(c, s.table, call.now, call.network);
    DecideShape(c, s1, call);
    var d := Decide(c, s1, call);
    if d.Granted? && d.slot.Primary? {
      PutFacts(s1.table, call.network, Spend(d.window), call.network);
      PutOrdered(s1.table, call.network, Spend(d.window), call.now);
    }
  }

  lemma ConsumeOther(c: Limits, s: State, call: Call, n: Network)
    requires Shape(c, s) && Ordered(s.table, call.now) && n != call.network
    ensures Lookup(Step(c, s, call).0.table, n) == Live(c, Lookup(s.table, n), call.now)
  {
    var s1 := s.(table := Evict(c, s.table, call.now));
    EvictFacts(c, s.table, call.now, n);
    var d := Decide(c, s1, call);
    DecideShape(c, s1, call);
    if d.Granted? && d.slot.Primary? {
      PutFacts(s1.table, call.network, Spend(d.window), n);
    }
  }

  /** No window of `n` other than the one to be charged is still open. */
  lemma OthersAreOver(c: Limits, s: State, log: seq<Grant>, now: real, call: Call)
    requires Inv(c, s, log, now) && now <= call.now && Ordered(s.table, call.now)
    requires Step(c, s, call).1.Granted?
    ensures var d := Step(c, s, call).1;
            forall i ::
              0 <= i < |log| && log[i].network == call.network &&
              !(log[i].slot == d.slot && log[i].start == d.window.started) ==>
              && log[i].start + c.Span() <= call.now
              && (d.slot.Primary? ==> log[i].time <= d.window.started && log[i].start + c.Span() <= d.window.started)
  {
    ConsumeNetwork(c, s, call);
    var n, d := call.network, Step(c, s, call).1;
    var m := Ip(Primary(n));
    assert NetworkTracks(c, s, log, n) && Tracks(c, log, now, m, Current(c, s, m));
    forall i | 0 <= i < |log| && log[i].network == n && !(log[i].slot == d.slot && log[i].start == d.window.started)
      ensures log[i].start + c.Span() <= call.now
      ensures d.slot.Primary? ==> log[i].time <= d.window.started && log[i].start + c.Span() <= d.window.started
    {
      if d.slot.Primary? && Live(c, Lookup(s.table, n), call.now).Some? {
      } else {
        OverflowOrExpired(c, s, log, now, call, i);
      }
    }
  }

  lemma OverflowOrExpired(c: Limits, s: State, log: seq<Grant>, now: real, call: Call, i: nat)
    requires Inv(c, s, log, now) && now <= call.now && i < |log| && log[i].network == call.network
    requires Live(c, Lookup(s.table, call.network), call.now).None?
    ensures var overflow := Live(c, s.overflowIps[c.Index(IpBucket, call.network)], call.now);
            log[i].start + c.Span() <= call.now ||
            (overflow.Some? && log[i].slot.Overflow? && log[i].start == overflow.value.started)
  {
    var m := Ip(log[i].slot);
    assert ValidMeter(c, m) && Tracks(c, log, now, m, Current(c, s, m)) && Charged(log, i, m);
  }

  lemma NetworkKeeps(c: Limits, s: State, log: seq<Grant>, now: real, call: Call, n: Network)
    requires Inv(c, s, log, now) && now <= call.now && Ordered(s.table, call.now)
    ensures var s', log' := Step(c, s, call).0, Extend(c, s, log, call);
            NetworkTracks(c, s', log', n) && Succession(c, log', n, false)
  {
    var (s', d) := Step(c, s, call);
    var log' := Extend(c, s, log, call);
    assert NetworkTracks(c, s, log, n) && Succession(c, log, n, false);
    if n == call.network {
      ConsumeNetwork(c, s, call);
      if d.Granted? {
        OthersAreOver(c, s, log, now, call);
      }
    } else {
      ConsumeOther(c, s, call, n);
    }
  }

  lemma AloneSuccession(c: Limits, s: State, log: seq<Grant>, now: real, call: Call)
    requires Inv(c, s, log, now) && now <= call.now && Ordered(s.table, call.now)
    requires AloneTracks(c, s, log, call.network) && Succession(c, log, call.network, true)
    ensures Succession(c, Extend(c, s, log, call), call.network, true)
  {
    var d := Step(c, s, call).1;
    if d.Granted? {
      ConsumeNetwork(c, s, call);
      OthersAreOver(c, s, log, now, call);
      forall i | 0 <= i < |log| && log[i].network == call.network &&
        !(log[i].slot == d.slot && log[i].start == d.window.started)
        ensures log[i].time <= d.window.started
      {
      }
    }
  }

  lemma AloneOwn(c: Limits, s: State, log: seq<Grant>, now: real, call: Call)
    requires Inv(c, s, log, now) && now <= call.now && Ordered(s.table, call.now)
    requires AloneTracks(c, s, log, call.network)
    ensures AloneTracks(c, Step(c, s, call).0, Extend(c, s, log, call), call.network)
  {
    ConsumeNetwork(c, s, call);
    var m := Ip(Primary(call.network));
    assert Tracks(c, log, now, m, Current(c, s, m));
  }

  lemma AloneOther(c: Limits, s: State, log: seq<Grant>, call: Call, n: Network)
    requires Shape(c, s) && Ordered(s.table, call.now) && AloneTracks(c, s, log, n) && Succession(c, log, n, true)
    requires c.Index(IpBucket, call.network) != c.Index(IpBucket, n)
    ensures var s', log' := Step(c, s, call).0, Extend(c, s, log, call);
            AloneTracks(c, s', log', n) && Succession(c, log', n, true)
  {
    ConsumeNetwork(c, s, call);
    ConsumeOther(c, s, call, n);
  }

  lemma AloneKeeps(c: Limits, s: State, log: seq<Grant>, now: real, call: Call, n: Network)
    requires Inv(c, s, log, now) && now <= call.now && Ordered(s.table, call.now)
    requires AloneTracks(c, s, log, n) && Succession(c, log, n, true)
    requires c.Index(IpBucket, call.network) == c.Index(IpBucket, n) ==> call.network == n
    ensures var s', log' := Step(c, s, call).0, Extend(c, s, log, call);
            AloneTracks(c, s', log', n) && Succession(c, log', n, true)
  {
    if n == call.network {
      AloneSuccession(c, s, log, now, call);
      AloneOwn(c, s, log, now, call);
    } else {
      AloneOther(c, s, log, call, n);
    }
  }

  lemma InvKeeps(c: Limits, s: State, log: seq<Grant>, now: real, call: Call)
    requires Inv(c, s, log, now) && now <= call.now
    ensures Inv(c, Step(c, s, call).0, Extend(c, s, log, call), call.now)
  {
    assert Ordered(s.table, call.now);
    ConsumeNetwork(c, s, call);
    forall m | ValidMeter(c, m)
      ensures var s', log' := Step(c, s, call).0, Extend(c, s, log, call);
              Sound(c, log', m) && Tracks(c, log', call.now, m, Current(c, s', m))
    {
      MeterKeeps(c, s, log, now, call, m);
    }
    forall n
      ensures var s', log' := Step(c, s, call).0, Extend(c, s, log, call);
              NetworkTracks(c, s', log', n) && Succession(c, log', n, false)
    {
      NetworkKeeps(c, s, log, now, call, n);
    }
  }

  // ----- Whole runs

  ghost predicate Chronological(calls: seq<Call>) {
    forall i, j :: 0 <= i < j < |calls| ==> calls[i].now <= calls[j].now
  }

  /** The limiter's state and the history of its grants after `calls`, from an empty limiter. */
  ghost function Run(c: Limits, calls: seq<Call>): (r: (State, seq<Grant>))
    requires c.Valid()
    ensures Shape(c, r.0)
  {
    if calls == [] then (Empty(c), [])
    else
      var (s, log) := Run(c, calls[..|calls| - 1]);
      var call := calls[|calls| - 1];
      (Step(c, s, call).0, Extend(c, s, log, call))
  }

  lemma {:induction false} RunKeeps(c: Limits, calls: seq<Call>, now: real)
    requires c.Valid() && Chronological(calls) && (calls != [] ==> now == calls[|calls| - 1].now)
    ensures var (s, log) := Run(c, calls); Inv(c, s, log, now)
  {
    if calls != [] {
      var before := calls[..|calls| - 1];
      var past := if before == [] then now else before[|before| - 1].now;
      RunKeeps(c, before, past);
      var (s, log) := Run(c, before);
      InvKeeps(c, s, log, past, calls[|calls| - 1]);
    } else {
      assert forall m :: ValidMeter(c, m) ==> Current(c, Empty(c), m) == None;
    }
  }

  lemma {:induction false} RunKeepsAlone(c: Limits, calls: seq<Call>, n: Network)
    requires c.Valid() && Chronological(calls) && OwnBucket(calls, c, n)
    ensures var (s, log) := Run(c, calls); AloneTracks(c, s, log, n) && Succession(c, log, n, true)
  {
    if calls == [] {
    } else {
      var before, call := calls[..|calls| - 1], calls[|calls| - 1];
      var past := if before == [] then call.now else before[|before| - 1].now;
      RunKeeps(c, before, past);
      RunKeepsAlone(c, before, n);
      var (s, log) := Run(c, before);
      assert Ordered(s.table, call.now);
      AloneKeeps(c, s, log, past, call, n);
    }
  }

  /** Any interval of one window length admits at most `2 * globalMaximum - 1` calls. */
  lemma GlobalBound(c: Limits, calls: seq<Call>, t: real)
    requires c.Valid() && Chronological(calls)
    ensures var log := Run(c, calls).1;
            |set i: nat | i < |log| && Within(c, log[i], t)| <= 2 * c.globalMaximum - 1
  {
    RunKeeps(c, calls, if calls == [] then 0.0 else calls[|calls| - 1].now);
    var log := Run(c, calls).1;
    assert ValidMeter(c, Global);
    MeterBound(c, log, Global, t);
    assert (set i: nat | i < |log| && Within(c, log[i], t)) == MeterGrants(c, log, Global, t);
  }

  /** Any interval of one window length admits at most `3 * maximum - 2` calls of one network,
      and at most `2 * maximum - 1` if no other calling network shares its overflow bucket. */
  lemma NetworkBound(c: Limits, calls: seq<Call>, n: Network, t: real)
    requires c.Valid() && Chronological(calls)
    ensures |NetworkGrants(c, Run(c, calls).1, n, t)| <= 3 * c.maximum - 2
    ensures OwnBucket(calls, c, n) ==> |NetworkGrants(c, Run(c, calls).1, n, t)| <= 2 * c.maximum - 1
  {
    var log := Run(c, calls).1;
    RunKeeps(c, calls, if calls == [] then 0.0 else calls[|calls| - 1].now);
    NetworkBoundFromHistory(c, log, n, false, t);
    if OwnBucket(calls, c, n) {
      RunKeepsAlone(c, calls, n);
      NetworkBoundFromHistory(c, log, n, true, t);
    }
  }

  /** Any interval of one window length admits at most `2 * fallbackMaximum - 1` overflow calls
      per identity bucket, whatever networks they come from. */
  lemma IdentityBound(c: Limits, calls: seq<Call>, bucket: nat, t: real)
    requires c.Valid() && Chronological(calls) && bucket < c.buckets
    ensures |MeterGrants(c, Run(c, calls).1, Account(bucket), t)| <= 2 * c.fallbackMaximum - 1
  {
    RunKeeps(c, calls, if calls == [] then 0.0 else calls[|calls| - 1].now);
    MeterBound(c, Run(c, calls).1, Account(bucket), t);
  }

  // ----- Refusals

  /** A refusal charges nothing: every live window keeps its start and its count. */
  lemma RefusalSpendsNothing(c: Limits, s: State, call: Call, m: Meter)
    requires Shape(c, s) && ValidMeter(c, m) && Ordered(s.table, call.now)
    requires Step(c, s, call).1.Refused?
    ensures Live(c, Current(c, Step(c, s, call).0, m), call.now) == Live(c, Current(c, s, m), call.now)
  {
    MeterStep(c, s, call, m);
  }

  /** The budget slots a call must pay from: the global one, its network's slot, and its identity's
      bucket when it overflows or that bucket is already open. */
  ghost predicate MustPay(c: Limits, s: State, call: Call, m: Meter)
    requires Shape(c, s)
  {
    var b := c.Index(IpBucket, call.network);
    var entry, overflow := Live(c, Lookup(s.table, call.network), call.now), Live(c, s.overflowIps[b], call.now);
    match m
    case Global => true
    case Ip(Primary(n)) => n == call.network && entry.Some?
    case Ip(Overflow(i)) => i == b && entry.None? && overflow.Some?
    case Account(i) => call.identity.Some? && i == c.Index(IdentityBucket, call.identity.value)
  }

  /** A call is granted only if none of its budgets is exhausted, and a refused call is told to wait until
      every exhausted one has expired. */
  lemma ExhaustedBudgetsRefuse(c: Limits, s: State, call: Call, m: Meter)
    requires Shape(c, s) && ValidMeter(c, m) && Ordered(s.table, call.now) && MustPay(c, s, call, m)
    requires var w := Live(c, Current(c, s, m), call.now); w.Some? && w.value.count >= Cap(c, m)
    ensures var d := Step(c, s, call).1;
            d.Refused? && call.now + d.retryAfter as real >= Current(c, s, m).value.started + c.Span()
  {
    EvictFacts(c, s.table, call.now, call.network);
  }

  ghost predicate Exhausted(c: Limits, s: State, call: Call, m: Meter)
    requires Shape(c, s)
  {
    ValidMeter(c, m) && MustPay(c, s, call, m) &&
    var w := Live(c, Current(c, s, m), call.now); w.Some? && w.value.count >= Cap(c, m)
  }

  /** The call has no window in the table and cannot open one: its bucket is open, or the table full. */
  ghost predicate Overflows(c: Limits, s: State, call: Call)
    requires Shape(c, s)
  {
    && Live(c, Lookup(s.table, call.network), call.now).None?
    && (Live(c, s.overflowIps[c.Index(IpBucket, call.network)], call.now).Some? ||
      |Evict(c, s.table, call.now)| >= c.maxKeys)
  }

  /** A call is granted exactly when none of its budgets is exhausted and, if it overflows, it has an
      identity: nothing is refused without cause. */
  lemma GrantedIff(c: Limits, s: State, call: Call)
    requires c.Valid() && Shape(c, s) && Ordered(s.table, call.now)
    ensures Step(c, s, call).1.Granted? <==>
            (forall m :: !Exhausted(c, s, call, m)) && (Overflows(c, s, call) ==> call.identity.Some?)
  {
    if Step(c, s, call).1.Granted? {
      forall m ensures !Exhausted(c, s, call, m) {
        if Exhausted(c, s, call, m) { ExhaustedBudgetsRefuse(c, s, call, m); }
      }
      EvictFacts(c, s.table, call.now, call.network);
    } else if Overflows(c, s, call) ==> call.identity.Some? {
      RefusedHasCause(c, s, call);
    }
  }

  lemma RefusedHasCause(c: Limits, s: State, call: Call)
    requires c.Valid() && Shape(c, s) && Ordered(s.table, call.now) && Step(c, s, call).1.Refused?
    requires Overflows(c, s, call) ==> call.identity.Some?
    ensures exists m :: Exhausted(c, s, call, m)
  {
    EvictFacts(c, s.table, call.now, call.network);
    var b := c.Index(IpBucket, call.network);
    var slot := if Live(c, Lookup(s.table, call.network), call.now).Some? then Primary(call.network) else Overflow(b);
    var account := if call.identity.Some? then Account(c.Index(IdentityBucket, call.identity.value)) else Global;
    assert Exhausted(c, s, call, Global) || Exhausted(c, s, call, Ip(slot)) || Exhausted(c, s, call, account);
  }

  // ----- How long a refused call must wait

  /** The oldest live window of the table. */
  ghost predicate OldestLive(c: Limits, table: seq<Entry>, now: real, w: Window) {
    && (exists i :: 0 <= i < |table| && table[i].window == w) && IsLive(c, w, now)
    && forall i :: 0 <= i < |table| && IsLive(c, table[i].window, now) ==> w.started <= table[i].window.started
  }

  lemma {:induction false} EvictOldest(c: Limits, table: seq<Entry>, now: real)
    requires Ordered(table, now)
    ensures var left := Evict(c, table, now); left != [] ==> OldestLive(c, table, now, left[0].window)
  {
    if table == [] || IsLive(c, table[0].window, now) {
    } else {
      var rest, left := table[1..], Evict(c, table, now);
      assert Ordered(rest, now);
      EvictOldest(c, rest, now);
      if left != [] {
        var i :| 0 <= i < |rest| && rest[i].window == left[0].window;
        assert table[i + 1] == rest[i];
        forall j | 0 <= j < |table| && IsLive(c, table[j].window, now)
          ensures left[0].window.started <= table[j].window.started
        {
          assert j > 0 && table[j] == rest[j - 1];
        }
      }
    }
  }

  /** What stands in the way of a call: the window of an exhausted budget, and, for a call without identity that
      overflows, the window of its bucket or, where that is closed, the oldest of the full table. */
  ghost predicate Blocks(c: Limits, s: State, call: Call, w: Window)
    requires Shape(c, s)
  {
    || (exists m :: Exhausted(c, s, call, m) && Current(c, s, m) == Some(w))
    || (Overflows(c, s, call) && call.identity.None? &&
        match Live(c, s.overflowIps[c.Index(IpBucket, call.network)], call.now)
        case Some(open) => w == open
        case None => OldestLive(c, s.table, call.now, w))
  }

  /** The window has expired once the wait is over. */
  ghost predicate Covers(c: Limits, w: Window, now: real, wait: int) { now + wait as real >= w.started + c.Span() }

  /** The wait is the least one for window w alone. */
  ghost predicate LeastFor(c: Limits, w: Window, now: real, wait: int) {
    Covers(c, w, now, wait) && (wait == 1 || !Covers(c, w, now, wait - 1))
  }

  /** The wait of a refused call that does not overflow, or has an identity, is that of an exhausted budget. */
  lemma SomeBudgetDecides(c: Limits, s: State, call: Call)
    requires c.Valid() && Shape(c, s) && Ordered(s.table, call.now) && Step(c, s, call).1.Refused?
    requires Overflows(c, s, call) ==> call.identity.Some?
    ensures exists m :: Exhausted(c, s, call, m) &&
                        LeastFor(c, Current(c, s, m).value, call.now, Step(c, s, call).1.retryAfter)
  {
    EvictFacts(c, s.table, call.now, call.network);
    var wait := Step(c, s, call).1.retryAfter;
    var b := c.Index(IpBucket, call.network);
    var slot := if Live(c, Lookup(s.table, call.network), call.now).Some? then Primary(call.network) else Overflow(b);
    var account := if call.identity.Some? then Account(c.Index(IdentityBucket, call.identity.value)) else Global;
    assert || (Exhausted(c, s, call, Global) && wait == Retry(c, s.global.value, call.now))
           || (Exhausted(c, s, call, Ip(slot)) && wait == Retry(c, Current(c, s, Ip(slot)).value, call.now))
           || (Exhausted(c, s, call, account) && wait == Retry(c, Current(c, s, account).value, call.now));
  }

  /** Without identity an overflowing call waits for its bucket or the oldest window, or for the global budget. */
  lemma AnonymousWait(c: Limits, s: State, call: Call)
    requires c.Valid() && Shape(c, s) && Ordered(s.table, call.now)
    requires Overflows(c, s, call) && call.identity.None?
    ensures Step(c, s, call).1.Refused?
    ensures var wait := Step(c, s, call).1.retryAfter;
            var open := Live(c, s.overflowIps[c.Index(IpBucket, call.network)], call.now);
            && (open.None? ==> Evict(c, s.table, call.now) != [])
            && var w := if open.Some? then open.value else Evict(c, s.table, call.now)[0].window;
               && Covers(c, w, call.now, wait)
               && (|| LeastFor(c, w, call.now, wait)
                   || (Exhausted(c, s, call, Global) && LeastFor(c, s.global.value, call.now, wait)))
  {
    EvictFacts(c, s.table, call.now, call.network);
  }

  lemma AnonymousLeast(c: Limits, s: State, call: Call)
    requires c.Valid() && Shape(c, s) && Ordered(s.table, call.now)
    requires Overflows(c, s, call) && call.identity.None?
    ensures Step(c, s, call).1.Refused?
    ensures var wait := Step(c, s, call).1.retryAfter;
            && (forall w :: Blocks(c, s, call, w) ==> Covers(c, w, call.now, wait))
            && (exists w :: Blocks(c, s, call, w) && LeastFor(c, w, call.now, wait))
  {
    AnonymousWait(c, s, call);
    EvictOldest(c, s.table, call.now);
    var wait := Step(c, s, call).1.retryAfter;
    var open := Live(c, s.overflowIps[c.Index(IpBucket, call.network)], call.now);
    var oldest := if open.Some? then open.value else Evict(c, s.table, call.now)[0].window;
    assert Blocks(c, s, call, oldest);
    forall w | Blocks(c, s, call, w) ensures Covers(c, w, call.now, wait) {
      if m :| Exhausted(c, s, call, m) && Current(c, s, m) == Some(w) { ExhaustedBudgetsRefuse(c, s, call, m); }
    }
    if !LeastFor(c, oldest, call.now, wait) { assert Blocks(c, s, call, s.global.value); }
  }

  /** A refused call is told the least whole number of seconds, at least one, after which nothing that stands in
      its way now is left: every blocking window has expired by then, and one has not a second earlier. */
  lemma WaitIsLeast(c: Limits, s: State, call: Call)
    requires c.Valid() && Shape(c, s) && Ordered(s.table, call.now) && Step(c, s, call).1.Refused?
    ensures var wait := Step(c, s, call).1.retryAfter;
            && wait >= 1 && (forall w :: Blocks(c, s, call, w) ==> Covers(c, w, call.now, wait))
            && (exists w :: Blocks(c, s, call, w) && (wait == 1 || !Covers(c, w, call.now, wait - 1)))
  {
    var wait := Step(c, s, call).1.retryAfter;
    if Overflows(c, s, call) && call.identity.None? {
      AnonymousLeast(c, s, call);
    } else {
      forall w | Blocks(c, s, call, w) ensures Covers(c, w, call.now, wait) {
        var m :| Exhausted(c, s, call, m) && Current(c, s, m) == Some(w);
        ExhaustedBudgetsRefuse(c, s, call, m);
      }
      SomeBudgetDecides(c, s, call);
      var m :| Exhausted(c, s, call, m) && LeastFor(c, Current(c, s, m).value, call.now, wait);
      assert Blocks(c, s, call, Current(c, s, m).value);
    }
  }

  /** The primary table never outgrows its limit. */
  lemma {:induction false} TableIsBounded(c: Limits, calls: seq<Call>)
    requires c.Valid()
    ensures |Run(c, calls).0.table| <= c.maxKeys
  {
    if calls == [] {
    } else {
      var before, call := calls[..|calls| - 1], calls[|calls| - 1];
      TableIsBounded(c, before);
      var s := Run(c, before).0;
      var s1 := s.(table := Evict(c, s.table, call.now));
      EvictShrinks(c, s.table, call.now);
      var d := Decide(c, s1, call);
      if d.Granted? && d.slot.Primary? {
        DecideShape(c, s1, call);
        if Lookup(s1.table, call.network).Some? {
          var i := PutPresent(s1.table, call.network, Spend(d.window));
        } else {
          PutAbsent(s1.table, call.network, Spend(d.window));
        }
      }
    }
  }

  lemma {:induction false} EvictShrinks(c: Limits, table: seq<Entry>, now: real)
    ensures |Evict(c, table, now)| <= |table|
  {
    if table == [] {
    } else {
      EvictShrinks(c, table[1..], now);
    }
  }

  // ----- Runs piece by piece

  /** A granted call takes the limiter from one state to the next. */
  ghost predicate Moves(c: Limits, s: State, call: Call, s': State, g: Grant) {
    && Shape(c, s)
    && var (t, d) := Step(c, s, call);
       d.Granted? && t == s' && GrantOf(c, call, d) == g
  }

  /** Granted calls in a row, with the states between them. */
  datatype Path = Path(calls: seq<Call>, states: seq<State>, log: seq<Grant>)

  ghost predicate Walk(c: Limits, p: Path) {
    && |p.states| == |p.calls| + 1 && |p.log| == |p.calls|
    && forall i {:trigger MovesAt(c, p, i)} :: 0 <= i < |p.calls| ==> MovesAt(c, p, i)
  }

  ghost predicate MovesAt(c: Limits, p: Path, i: nat)
    requires i < |p.calls| == |p.log| < |p.states|
  {
    Moves(c, p.states[i], p.calls[i], p.states[i + 1], p.log[i])
  }

  ghost predicate Between(p: Path, s: State, s': State) {
    |p.states| > 0 && p.states[0] == s && p.states[|p.states| - 1] == s'
  }

  lemma RunMore(c: Limits, calls: seq<Call>, s: State, log: seq<Grant>, call: Call, s': State, g: Grant)
    requires c.Valid() && Run(c, calls) == (s, log) && Moves(c, s, call, s', g)
    ensures Run(c, calls + [call]) == (s', log + [g])
  {
    assert (calls + [call])[..|calls|] == calls;
  }

  lemma RunMoreAt(c: Limits, p: Path, n: nat)
    requires c.Valid() && n < |p.calls| == |p.log| < |p.states| && MovesAt(c, p, n)
    requires Run(c, p.calls[..n]) == (p.states[n], p.log[..n])
    ensures Run(c, p.calls[..n + 1]) == (p.states[n + 1], p.log[..n + 1])
  {
    RunMore(c, p.calls[..n], p.states[n], p.log[..n], p.calls[n], p.states[n + 1], p.log[n]);
    assert p.calls[..n + 1] == p.calls[..n] + [p.calls[n]] && p.log[..n + 1] == p.log[..n] + [p.log[n]];
  }

  lemma {:induction false} WalkIsRunTo(c: Limits, p: Path, n: nat)
    requires c.Valid() && Walk(c, p) && p.states[0] == Empty(c) && n <= |p.calls|
    ensures Run(c, p.calls[..n]) == (p.states[n], p.log[..n])
  {
    if n == 0 {
    } else {
      WalkIsRunTo(c, p, n - 1);
      assert MovesAt(c, p, n - 1);
      RunMoreAt(c, p, n - 1);
    }
  }

  lemma WalkIsRun(c: Limits, p: Path)
    requires c.Valid() && Walk(c, p) && p.states[0] == Empty(c)
    ensures Run(c, p.calls) == (p.states[|p.calls|], p.log)
  {
    WalkIsRunTo(c, p, |p.calls|);
    assert p.calls[..|p.calls|] == p.calls && p.log[..|p.calls|] == p.log;
  }

  ghost function Join(p: Path, q: Path): Path
    requires |q.states| > 0
  {
    Path(p.calls + q.calls, p.states + q.states[1..], p.log + q.log)
  }

  lemma WalksJoin(c: Limits, p: Path, q: Path, a: State, b: State, d: State)
    requires Walk(c, p) && Walk(c, q) && Between(p, a, b) && Between(q, b, d)
    ensures Walk(c, Join(p, q)) && Between(Join(p, q), a, d)
  {
    var r, n := Join(p, q), |p.calls|;
    forall i | 0 <= i < |r.calls| ensures MovesAt(c, r, i) {
      if i < n {
        assert MovesAt(c, p, i);
      } else {
        assert MovesAt(c, q, i - n);
        assert r.calls[i] == q.calls[i - n] && r.states[i + 1] == q.states[i - n + 1] && r.log[i] == q.log[i - n];
        assert r.states[i] == q.states[i - n];
      }
    }
  }

  /** The same call, `k` times. */
  lemma SameCalls(c: Limits, call: Call, k: nat, f: nat -> State, g: nat -> Grant) returns (p: Path)
    requires forall i: nat :: i < k ==> Moves(c, f(i), call, f(i + 1), g(i))
    ensures Walk(c, p) && Between(p, f(0), f(k)) && |p.calls| == k
    ensures forall i :: 0 <= i < k ==> p.calls[i] == call && p.log[i] == g(i)
  {
    p := Path(seq(k, _ => call), seq(k + 1, i requires 0 <= i => f(i)), seq(k, i requires 0 <= i => g(i)));
    forall i: nat | i < k ensures MovesAt(c, p, i) { assert Moves(c, f(i), call, f(i + 1), g(i)); }
  }

  /** `k` grants of a network at one time, charged to an identity or not. */
  ghost predicate AllAt(p: Path, k: nat, n: Network, now: real, identified: bool) {
    && |p.log| == |p.calls| == k
    && (forall i :: 0 <= i < k ==> p.calls[i].now == now && p.calls[i].network == n)
    && (forall i :: 0 <= i < k ==> p.log[i].network == n && p.log[i].time == now && Identified(p.log[i], identified))
  }

  ghost predicate Identified(g: Grant, identified: bool) {
    if identified then g.account.Some? && g.account.value.0 == 0 else g.account.None?
  }

  // ----- The bounds are reached

  /** Limits with one place in the table, one bucket of each kind and windows of ten seconds. */
  ghost predicate Small(c: Limits) { c.Valid() && c.maxKeys == 1 && c.buckets == 1 && c.windowSeconds == 10 }

  /** The windows that the next call is charged to. */
  ghost function NextGlobal(c: Limits, s: State, now: real): Window { OrFresh(Live(c, s.global, now), now) }

  ghost function NextOverflow(c: Limits, s: State, now: real): Window
    requires Small(c) && Shape(c, s)
  {
    OrFresh(Live(c, s.overflowIps[0], now), now)
  }

  ghost function NextAccount(c: Limits, s: State, now: real): Window
    requires Small(c) && Shape(c, s)
  {
    OrFresh(Live(c, s.overflowIdentities[0], now), now)
  }

  function Used(w: Window, k: nat): Window { w.(count := w.count + k) }

  /** One network in the table, and the global window. */
  ghost function Holding(s: State, n: Network, w: Window, g: Window): State {
    s.(table := [Entry(n, w)], global := Some(g))
  }

  lemma PrimaryStep(c: Limits, s: State, n: Network, now: real, w: Window, g: Window)
    requires Small(c) && Shape(c, s) && IsLive(c, w, now) && w.count < c.maximum
    requires IsLive(c, g, now) && g.count < c.globalMaximum
    ensures Moves(c, Holding(s, n, w, g), Call(now, n, None), Holding(s, n, Used(w, 1), Used(g, 1)),
                  Grant(now, n, Primary(n), w.started, None, g.started))
  {
    assert Put([Entry(n, w)], n, Spend(w)) == [Entry(n, Spend(w))];
  }

  lemma OpenStep(c: Limits, s: State, n: Network, now: real)
    requires Small(c) && Shape(c, s) && Evict(c, s.table, now) == [] && Live(c, s.overflowIps[0], now) == None
    requires NextGlobal(c, s, now).count < c.globalMaximum
    ensures var g := NextGlobal(c, s, now);
            Moves(c, s, Call(now, n, None), Holding(s, n, Window(now, 1), Used(g, 1)),
                  Grant(now, n, Primary(n), now, None, g.started))
  {
    assert Put([], n, Window(now, 1)) == [Entry(n, Window(now, 1))];
  }

  /** `k` calls at once on a live primary window. */
  lemma RepeatPrimary(c: Limits, s: State, n: Network, now: real, w: Window, g: Window, k: nat) returns (p: Path)
    requires Small(c) && Shape(c, s) && IsLive(c, w, now) && w.count + k <= c.maximum
    requires IsLive(c, g, now) && g.count + k <= c.globalMaximum
    ensures Walk(c, p) && Between(p, Holding(s, n, w, g), Holding(s, n, Used(w, k), Used(g, k))) &&
            AllAt(p, k, n, now, false)
  {
    var f := (i: nat) => Holding(s, n, Used(w, i), Used(g, i));
    var grant := Grant(now, n, Primary(n), w.started, None, g.started);
    forall i: nat | i < k ensures Moves(c, f(i), Call(now, n, None), f(i + 1), grant) {
      PrimaryStep(c, s, n, now, Used(w, i), Used(g, i));
    }
    p := SameCalls(c, Call(now, n, None), k, f, _ => grant);
  }

  /** After `i` calls that open a primary window and use it. */
  ghost function Opening(s: State, n: Network, now: real, g: Window, i: nat): State {
    if i == 0 then s else Holding(s, n, Window(now, i), Used(g, i))
  }

  lemma OpeningMoves(c: Limits, s: State, n: Network, now: real, i: nat)
    requires Small(c) && Shape(c, s) && Evict(c, s.table, now) == [] && Live(c, s.overflowIps[0], now) == None
    requires i < c.maximum && NextGlobal(c, s, now).count + i < c.globalMaximum
    ensures var g := NextGlobal(c, s, now);
            Moves(c, Opening(s, n, now, g, i), Call(now, n, None), Opening(s, n, now, g, i + 1),
                  Grant(now, n, Primary(n), now, None, g.started))
  {
    if i == 0 {
      OpenStep(c, s, n, now);
    } else {
      PrimaryStep(c, s, n, now, Window(now, i), Used(NextGlobal(c, s, now), i));
    }
  }

  /** `k` calls at once that open a primary window and use it. */
  lemma RepeatOpen(c: Limits, s: State, n: Network, now: real, k: nat) returns (p: Path)
    requires Small(c) && Shape(c, s) && Evict(c, s.table, now) == [] && Live(c, s.overflowIps[0], now) == None
    requires 1 <= k <= c.maximum && NextGlobal(c, s, now).count + k <= c.globalMaximum
    ensures Walk(c, p) && Between(p, s, Opening(s, n, now, NextGlobal(c, s, now), k)) && AllAt(p, k, n, now, false)
  {
    var g := NextGlobal(c, s, now);
    var f := (i: nat) => Opening(s, n, now, g, i);
    var grant := Grant(now, n, Primary(n), now, None, g.started);
    forall i: nat | i < k ensures Moves(c, f(i), Call(now, n, None), f(i + 1), grant) {
      OpeningMoves(c, s, n, now, i);
    }
    p := SameCalls(c, Call(now, n, None), k, f, _ => grant);
  }

  /** The overflow, identity and global windows that overflowing calls are charged to. */
  datatype Paid = Paid(w: Window, a: Window, g: Window)

  ghost function NextPaid(c: Limits, s: State, now: real): Paid
    requires Small(c) && Shape(c, s)
  {
    Paid(NextOverflow(c, s, now), NextAccount(c, s, now), NextGlobal(c, s, now))
  }

  ghost predicate Affords(c: Limits, p: Paid, k: nat) {
    p.w.count + k <= c.maximum && p.a.count + k <= c.fallbackMaximum && p.g.count + k <= c.globalMaximum
  }

  /** After `k` overflowing calls. */
  ghost function Overflowing(table: seq<Entry>, p: Paid, k: nat): State {
    State(table, [Some(Used(p.w, k))], [Some(Used(p.a, k))], Some(Used(p.g, k)))
  }

  lemma OverflowStep(c: Limits, s: State, n: Network, id: Identity, now: real)
    requires Small(c) && Shape(c, s) && Lookup(Evict(c, s.table, now), n) == None
    requires Live(c, s.overflowIps[0], now).Some? || |Evict(c, s.table, now)| >= 1
    requires Affords(c, NextPaid(c, s, now), 1)
    ensures var p := NextPaid(c, s, now);
            Moves(c, s, Call(now, n, Some(id)), Overflowing(Evict(c, s.table, now), p, 1), OverflowGrant(now, n, p))
  {
    assert c.Index(IpBucket, n) == 0 && c.Index(IdentityBucket, id) == 0;
    var w, a := NextOverflow(c, s, now), NextAccount(c, s, now);
    assert s.overflowIps[0 := Some(Spend(w))] == [Some(Spend(w))];
    assert s.overflowIdentities[0 := Some(Spend(a))] == [Some(Spend(a))];
  }

  ghost function OverflowGrant(now: real, n: Network, p: Paid): Grant {
    Grant(now, n, Overflow(0), p.w.started, Some((0, p.a.started)), p.g.started)
  }

  lemma {:induction false} EvictTwice(c: Limits, table: seq<Entry>, now: real)
    ensures Evict(c, Evict(c, table, now), now) == Evict(c, table, now)
  {
    if table == [] || IsLive(c, table[0].window, now) {
    } else {
      EvictTwice(c, table[1..], now);
    }
  }

  ghost predicate PaidLive(c: Limits, p: Paid, now: real) {
    IsLive(c, p.w, now) && IsLive(c, p.a, now) && IsLive(c, p.g, now)
  }

  lemma NextIsLive(c: Limits, s: State, now: real)
    requires Small(c) && Shape(c, s)
    ensures PaidLive(c, NextPaid(c, s, now), now)
  {
  }

  lemma OverflowAgain(c: Limits, table: seq<Entry>, n: Network, id: Identity, now: real, p: Paid, k: nat)
    requires Small(c) && Lookup(table, n) == None && Evict(c, table, now) == table
    requires PaidLive(c, p, now) && Affords(c, p, k + 1)
    ensures Moves(c, Overflowing(table, p, k), Call(now, n, Some(id)), Overflowing(table, p, k + 1),
            OverflowGrant(now, n, p))
  {
    OverflowStep(c, Overflowing(table, p, k), n, id, now);
  }

  /** `k` overflowing calls at once: the windows are opened if they are not live, and used. */
  lemma RepeatOverflow(c: Limits, s: State, n: Network, id: Identity, now: real, k: nat) returns (p: Path)
    requires Small(c) && Shape(c, s) && Lookup(Evict(c, s.table, now), n) == None
    requires Live(c, s.overflowIps[0], now).Some? || |Evict(c, s.table, now)| >= 1
    requires k >= 1 && Affords(c, NextPaid(c, s, now), k)
    ensures Walk(c, p) && Between(p, s, Overflowing(Evict(c, s.table, now), NextPaid(c, s, now), k))
    ensures AllAt(p, k, n, now, true)
  {
    var call, paid, table := Call(now, n, Some(id)), NextPaid(c, s, now), Evict(c, s.table, now);
    var f := (i: nat) => if i == 0 then s else Overflowing(table, paid, i);
    EvictTwice(c, s.table, now);
    NextIsLive(c, s, now);
    forall i: nat | i < k ensures Moves(c, f(i), call, f(i + 1), OverflowGrant(now, n, paid)) {
      if i == 0 { OverflowStep(c, s, n, id, now); } else { OverflowAgain(c, table, n, id, now, paid, i); }
    }
    p := SameCalls(c, call, k, f, _ => OverflowGrant(now, n, paid));
  }

  ghost function Range(a: nat, b: nat): (r: set<nat>)
    ensures forall i :: i in r <==> a <= i < b
    ensures a <= b ==> |r| == b - a
  {
    if b <= a then {} else Range(a, b - 1) + {b - 1}
  }

  /** Pieces of a run in order of time. */
  ghost predicate Ordinary(p: Path, before: real, now: real, networks: set<Network>) {
    forall i :: 0 <= i < |p.calls| ==> before <= p.calls[i].now <= now && p.calls[i].network in networks
  }

  lemma ChronologyJoins(p: Path, q: Path, a: real, b: real, d: real, networks: set<Network>)
    requires |q.states| > 0 && Chronological(p.calls) && Chronological(q.calls)
    requires Ordinary(p, a, b, networks) && Ordinary(q, b, d, networks) && a <= b <= d
    ensures Chronological(Join(p, q).calls) && Ordinary(Join(p, q), a, d, networks)
  {
  }

  lemma AllAtOrdinary(p: Path, k: nat, n: Network, now: real, identified: bool, before: real, networks: set<Network>)
    requires AllAt(p, k, n, now, identified) && before <= now && n in networks
    ensures Chronological(p.calls) && Ordinary(p, before, now, networks)
  {
  }

  /** One call at 0, `k - 1` at 9 and `k` at 10: two windows, full but for the call before the interval. */
  lemma TwoWindows(c: Limits, n: Network, k: nat) returns (p: Path)
    requires Small(c) && 1 <= k <= c.maximum && k <= c.globalMaximum
    ensures Walk(c, p) && p.states[0] == Empty(c) && Chronological(p.calls) && Ordinary(p, 0.0, 10.0, {n})
    ensures |p.log| == 2 * k && p.log[0].time == 0.0
    ensures forall i :: 0 < i < |p.log| ==> p.log[i].network == n && 9.0 <= p.log[i].time <= 10.0
  {
    var s0 := Empty(c);
    var p1 := RepeatOpen(c, s0, n, 0.0, 1);
    var s1 := Holding(s0, n, Window(0.0, 1), Window(0.0, 1));
    var p2 := RepeatPrimary(c, s0, n, 9.0, Window(0.0, 1), Window(0.0, 1), k - 1);
    var s2 := Holding(s0, n, Window(0.0, k), Window(0.0, k));
    assert Evict(c, s2.table, 10.0) == [];
    var p3 := RepeatOpen(c, s2, n, 10.0, k);
    WalksJoin(c, p1, p2, s0, s1, s2);
    WalksJoin(c, Join(p1, p2), p3, s0, s2, Opening(s2, n, 10.0, NextGlobal(c, s2, 10.0), k));
    AllAtOrdinary(p1, 1, n, 0.0, false, 0.0, {n});
    AllAtOrdinary(p2, k - 1, n, 9.0, false, 0.0, {n});
    AllAtOrdinary(p3, k, n, 10.0, false, 9.0, {n});
    ChronologyJoins(p1, p2, 0.0, 0.0, 9.0, {n});
    ChronologyJoins(Join(p1, p2), p3, 0.0, 9.0, 10.0, {n});
    p := Join(Join(p1, p2), p3);
  }

  /** The global bound is reached, whatever the global budget, if one network may use all of it. */
  lemma GlobalBoundIsReached(c: Limits, n: Network) returns (calls: seq<Call>)
    requires Small(c) && c.globalMaximum <= c.maximum
    ensures Chronological(calls)
    ensures var log := Run(c, calls).1; |set i: nat | i < |log| && Within(c, log[i], 9.0)| == 2 * c.globalMaximum - 1
  {
    var p := TwoWindows(c, n, c.globalMaximum);
    WalkIsRun(c, p);
    calls := p.calls;
    assert (set i: nat | i < |p.log| && Within(c, p.log[i], 9.0)) == Range(1, |p.log|);
  }

  /** The bound for a network with a bucket of its own is reached, whatever its budget. */
  lemma OwnBoundIsReached(c: Limits, n: Network) returns (calls: seq<Call>)
    requires Small(c) && c.maximum <= c.globalMaximum
    ensures Chronological(calls) && OwnBucket(calls, c, n)
    ensures |NetworkGrants(c, Run(c, calls).1, n, 9.0)| == 2 * c.maximum - 1
  {
    var p := TwoWindows(c, n, c.maximum);
    WalkIsRun(c, p);
    calls := p.calls;
    assert NetworkGrants(c, p.log, n, 9.0) == Range(1, |p.log|);
  }

  /** All grants of a piece are of one network and lie between two times. */
  ghost predicate In(p: Path, n: Network, lo: real, hi: real) {
    forall i :: 0 <= i < |p.log| ==> p.log[i].network == n && lo <= p.log[i].time <= hi
  }

  /** A piece of a run that starts and ends in given states, at given times, among given networks. */
  ghost predicate Piece(c: Limits, p: Path, a: State, b: State, before: real, now: real, networks: set<Network>,
                        k: nat) {
    Walk(c, p) && Between(p, a, b) && Chronological(p.calls) && Ordinary(p, before, now, networks) && |p.log| == k
  }

  lemma PiecesJoin(c: Limits, p: Path, q: Path, a: State, b: State, d: State, t: real, u: real, v: real,
                   networks: set<Network>, k: nat, l: nat)
    requires Piece(c, p, a, b, t, u, networks, k) && Piece(c, q, b, d, u, v, networks, l) && t <= u <= v
    ensures Piece(c, Join(p, q), a, d, t, v, networks, k + l)
  {
    WalksJoin(c, p, q, a, b, d);
    ChronologyJoins(p, q, t, u, v, networks);
  }

  lemma AllAtPiece(c: Limits, p: Path, a: State, b: State, n: Network, before: real, now: real, identified: bool,
                   networks: set<Network>, k: nat)
    requires Walk(c, p) && Between(p, a, b) && AllAt(p, k, n, now, identified) && before <= now && n in networks
    ensures Piece(c, p, a, b, before, now, networks, k) && In(p, n, now, now)
  {
    AllAtOrdinary(p, k, n, now, identified, before, networks);
  }

  lemma InJoin(p: Path, q: Path, n: Network, lo: real, hi: real)
    requires |q.states| > 0 && In(p, n, lo, hi) && In(q, n, lo, hi)
    ensures In(Join(p, q), n, lo, hi)
  {
  }

  /** A call before the interval opens a primary window, and a neighbour in the bucket an overflow window. */
  lemma SharedStart(c: Limits, n: Network, m: Network, id: Identity) returns (p: Path)
    requires Small(c) && c.maximum >= 2 && c.fallbackMaximum >= 1 && c.globalMaximum >= 2 && n != m
    ensures Piece(c, p, Empty(c), SharedState(n), 0.0, 5.0, {n, m}, 2)
    ensures p.log[0].time == 0.0 && p.log[1].network == m
  {
    var s0 := Empty(c);
    var p1 := RepeatOpen(c, s0, n, 0.0, 1);
    var s1 := Holding(s0, n, Window(0.0, 1), Window(0.0, 1));
    AllAtPiece(c, p1, s0, s1, n, 0.0, 0.0, false, {n, m}, 1);
    var p2 := SharedSecond(c, n, m, id);
    PiecesJoin(c, p1, p2, s0, s1, SharedState(n), 0.0, 0.0, 5.0, {n, m}, 1, 1);
    p := Join(p1, p2);
  }

  lemma SharedSecond(c: Limits, n: Network, m: Network, id: Identity) returns (p: Path)
    requires Small(c) && c.maximum >= 2 && c.fallbackMaximum >= 1 && c.globalMaximum >= 2 && n != m
    ensures Piece(c, p, Holding(Empty(c), n, Window(0.0, 1), Window(0.0, 1)), SharedState(n), 0.0, 5.0, {n, m}, 1)
    ensures p.log[0].network == m
  {
    var s1 := Holding(Empty(c), n, Window(0.0, 1), Window(0.0, 1));
    assert Evict(c, s1.table, 5.0) == s1.table;
    p := RepeatOverflow(c, s1, m, id, 5.0, 1);
    AllAtPiece(c, p, s1, SharedState(n), m, 0.0, 5.0, true, {n, m}, 1);
  }

  ghost function SharedState(n: Network): State {
    State([Entry(n, Window(0.0, 1))], [Some(Window(5.0, 1))], [Some(Window(5.0, 1))], Some(Window(0.0, 2)))
  }

  /** From there the network fills its primary window, the shared overflow window, and a new primary one. */
  lemma SharedEnd(c: Limits, n: Network, m: Network, id: Identity) returns (p: Path, s: State)
    requires Small(c) && c.maximum >= 2 && c.fallbackMaximum >= c.maximum && c.globalMaximum >= 2 * c.maximum - 1
    ensures Piece(c, p, SharedState(n), s, 5.0, 15.0, {n, m}, 3 * c.maximum - 2) && In(p, n, 9.0, 15.0)
  {
    var k, s2 := c.maximum, SharedState(n);
    var p3 := RepeatPrimary(c, s2, n, 9.0, Window(0.0, 1), Window(0.0, 2), k - 1);
    var s3 := Holding(s2, n, Window(0.0, k), Window(0.0, k + 1));
    assert Evict(c, s3.table, 11.0) == [];
    var p4 := RepeatOverflow(c, s3, n, id, 11.0, k - 1);
    var s4 := State([], [Some(Window(5.0, k))], [Some(Window(5.0, k))], Some(Window(11.0, k - 1)));
    var p5 := RepeatOpen(c, s4, n, 15.0, k);
    s := Opening(s4, n, 15.0, Window(11.0, k - 1), k);
    AllAtPiece(c, p3, s2, s3, n, 5.0, 9.0, false, {n, m}, k - 1);
    AllAtPiece(c, p4, s3, s4, n, 9.0, 11.0, true, {n, m}, k - 1);
    AllAtPiece(c, p5, s4, s, n, 11.0, 15.0, false, {n, m}, k);
    PiecesJoin(c, p3, p4, s2, s3, s4, 5.0, 9.0, 11.0, {n, m}, k - 1, k - 1);
    PiecesJoin(c, Join(p3, p4), p5, s2, s4, s, 5.0, 11.0, 15.0, {n, m}, 2 * k - 2, k);
    InJoin(p3, p4, n, 9.0, 15.0);
    InJoin(Join(p3, p4), p5, n, 9.0, 15.0);
    p := Join(Join(p3, p4), p5);
  }

  /** The bound for a network that shares its bucket is reached, whatever its budget: but for the call that
      opened each, a primary window, an overflow window and another primary window are used in one interval. */
  lemma NetworkBoundIsReached(c: Limits, n: Network, m: Network, id: Identity) returns (calls: seq<Call>)
    requires Small(c) && c.maximum >= 2 && c.fallbackMaximum >= c.maximum && c.globalMaximum >= 2 * c.maximum - 1 &&
             n != m
    ensures Chronological(calls)
    ensures |NetworkGrants(c, Run(c, calls).1, n, 9.0)| == 3 * c.maximum - 2
  {
    var p := SharedStart(c, n, m, id);
    var q, s := SharedEnd(c, n, m, id);
    PiecesJoin(c, p, q, Empty(c), SharedState(n), s, 0.0, 5.0, 15.0, {n, m}, 2, 3 * c.maximum - 2);
    var r := Join(p, q);
    WalkIsRun(c, r);
    calls := r.calls;
    TailCounts(c, p, q, n, m);
  }

  lemma TailCounts(c: Limits, p: Path, q: Path, n: Network, m: Network)
    requires Small(c) && |q.states| > 0 && |p.log| == 2 && p.log[0].time == 0.0 && p.log[1].network == m != n &&
             In(q, n, 9.0, 15.0)
    ensures |NetworkGrants(c, p.log + q.log, n, 9.0)| == |q.log|
  {
    assert NetworkGrants(c, p.log + q.log, n, 9.0) == Range(2, 2 + |q.log|);
  }

  /** Every grant of a piece was charged to the identity bucket, between two times. */
  ghost predicate Charging(p: Path, lo: real, hi: real) {
    forall i :: 0 <= i < |p.log| ==> Identified(p.log[i], true) && lo <= p.log[i].time <= hi
  }

  /** A neighbour fills the table; the identity opens its window before the interval and fills it within. */
  lemma IdentityStart(c: Limits, n: Network, m: Network, id: Identity) returns (p: Path, q: Path, s: State)
    requires Small(c) && 2 <= c.fallbackMaximum <= c.maximum && c.globalMaximum >= c.fallbackMaximum + 1 && n != m
    ensures |q.states| > 0 && Piece(c, Join(p, q), Empty(c), s, 0.0, 9.0, {n, m}, c.fallbackMaximum + 1)
    ensures |p.log| == 2 && p.log[0].time == 0.0 && p.log[1].time == 0.0 && Charging(q, 9.0, 9.0)
    ensures var k := c.fallbackMaximum;
            s == State([Entry(m, Window(0.0, 1))], [Some(Window(0.0, k))], [Some(Window(0.0, k))],
              Some(Window(0.0, k + 1)))
  {
    var k, s0 := c.fallbackMaximum, Empty(c);
    var p1 := RepeatOpen(c, s0, m, 0.0, 1);
    var s1 := Holding(s0, m, Window(0.0, 1), Window(0.0, 1));
    var p2 := RepeatOverflow(c, s1, n, id, 0.0, 1);
    var s2 := State([Entry(m, Window(0.0, 1))], [Some(Window(0.0, 1))], [Some(Window(0.0, 1))], Some(Window(0.0, 2)));
    q := RepeatOverflow(c, s2, n, id, 9.0, k - 1);
    s := State([Entry(m, Window(0.0, 1))], [Some(Window(0.0, k))], [Some(Window(0.0, k))], Some(Window(0.0, k + 1)));
    p := Join(p1, p2);
    AllAtPiece(c, p1, s0, s1, m, 0.0, 0.0, false, {n, m}, 1);
    AllAtPiece(c, p2, s1, s2, n, 0.0, 0.0, true, {n, m}, 1);
    AllAtPiece(c, q, s2, s, n, 0.0, 9.0, true, {n, m}, k - 1);
    PiecesJoin(c, p1, p2, s0, s1, s2, 0.0, 0.0, 0.0, {n, m}, 1, 1);
    PiecesJoin(c, p, q, s0, s2, s, 0.0, 0.0, 9.0, {n, m}, 2, k - 1);
  }

  /** Then the neighbour fills the table anew, and the identity a new window. */
  lemma IdentityEnd(c: Limits, n: Network, m: Network, id: Identity, s: State) returns (p: Path, q: Path, s': State)
    requires Small(c) && 2 <= c.fallbackMaximum <= c.maximum && c.globalMaximum >= c.fallbackMaximum + 1 && n != m
    requires var k := c.fallbackMaximum;
             s == State([Entry(m, Window(0.0, 1))], [Some(Window(0.0, k))], [Some(Window(0.0, k))],
               Some(Window(0.0, k + 1)))
    ensures |q.states| > 0 && Piece(c, Join(p, q), s, s', 9.0, 10.0, {n, m}, c.fallbackMaximum + 1)
    ensures |p.log| == 1 && Identified(p.log[0], false) && Charging(q, 10.0, 10.0)
  {
    var k := c.fallbackMaximum;
    assert Evict(c, s.table, 10.0) == [];
    p := RepeatOpen(c, s, m, 10.0, 1);
    var s1 := Holding(s, m, Window(10.0, 1), Window(10.0, 1));
    q := RepeatOverflow(c, s1, n, id, 10.0, k);
    s' := Overflowing(s1.table, Paid(Window(10.0, 0), Window(10.0, 0), Window(10.0, 1)), k);
    AllAtPiece(c, p, s, s1, m, 9.0, 10.0, false, {n, m}, 1);
    AllAtPiece(c, q, s1, s', n, 10.0, 10.0, true, {n, m}, k);
    PiecesJoin(c, p, q, s, s1, s', 9.0, 10.0, 10.0, {n, m}, 1, k);
  }

  lemma ChargesCount(c: Limits, a: seq<Grant>, p: Path, b: seq<Grant>, q: Path)
    requires Small(c) && |a| == 2 && a[0].time == 0.0 && a[1].time == 0.0 && Charging(p, 9.0, 9.0)
    requires |b| == 1 && Identified(b[0], false) && Charging(q, 10.0, 10.0)
    ensures |MeterGrants(c, (a + p.log) + (b + q.log), Account(0), 9.0)| == |p.log| + |q.log|
  {
    var log, i := (a + p.log) + (b + q.log), 2 + |p.log|;
    assert log[i] == b[0];
    assert MeterGrants(c, log, Account(0), 9.0) == Range(2, |log|) - {i};
  }

  /** The bound for an identity bucket is reached, whatever its budget. */
  lemma IdentityBoundIsReached(c: Limits, n: Network, m: Network, id: Identity) returns (calls: seq<Call>)
    requires Small(c) && 2 <= c.fallbackMaximum <= c.maximum && c.globalMaximum >= c.fallbackMaximum + 1 && n != m
    ensures Chronological(calls)
    ensures |MeterGrants(c, Run(c, calls).1, Account(0), 9.0)| == 2 * c.fallbackMaximum - 1
  {
    var k := c.fallbackMaximum;
    var p1, q1, s1 := IdentityStart(c, n, m, id);
    var p2, q2, s2 := IdentityEnd(c, n, m, id, s1);
    PiecesJoin(c, Join(p1, q1), Join(p2, q2), Empty(c), s1, s2, 0.0, 9.0, 10.0, {n, m}, k + 1, k + 1);
    var r := Join(Join(p1, q1), Join(p2, q2));
    WalkIsRun(c, r);
    calls := r.calls;
    ChargesCount(c, p1.log, q1, p2.log, q2);
  }

  // ----- The limiter object

  class LoginIpRateLimiter {
    const limits: Limits
    var windows: seq<Entry>
    const overflowIps: array<Option<Window>>
    const overflowIdentities: array<Option<Window>>
    var globalWindow: Option<Window>

    ghost predicate Valid()
      reads this
    {
      && limits.Valid()
      && overflowIps.Length == limits.buckets == overflowIdentities.Length
      && overflowIps != overflowIdentities
    }

    ghost function View(): (s: State)
      requires Valid()
      reads this, overflowIps, overflowIdentities
      ensures Shape(limits, s)
    {
      State(windows, overflowIps[..], overflowIdentities[..], globalWindow)
    }

    constructor (limits: Limits)
      requires limits.Valid()
      ensures Valid() && this.limits == limits && View() == Empty(limits)
      ensures fresh(overflowIps) && fresh(overflowIdentities)
    {
      this.limits := limits;
      windows := [];
      overflowIps := new Option<Window>[limits.buckets](_ => None);
      overflowIdentities := new Option<Window>[limits.buckets](_ => None);
      globalWindow := None;
    }

    /** Drops expired windows from the front of the table, oldest first. */
    method DropExpired(now: real)
      requires Valid()
      modifies `windows
      ensures windows == Evict(limits, old(windows), now)
    {
      while windows != []
        invariant Evict(limits, windows, now) == Evict(limits, old(windows), now)
        decreases |windows|
      {
        if IsLive(limits, windows[0].window, now) { break; }
        windows := windows[1..];
      }
    }

    /** The answer to a call: the windows it would be charged to, or how long to wait. */
    method Weigh(now: real, network: Network, identity: Option<Identity>) returns (d: Decision)
      requires Valid()
      ensures d == Decide(limits, View(), Call(now, network, identity))
    {
      var live := Live(limits, globalWindow, now);
      var retry := 0;
      if live.Some? && live.value.count >= limits.globalMaximum {
        retry := Retry(limits, live.value, now);
      }
      var ip := limits.Index(IpBucket, network);
      var account: Option<Window> := None;
      if identity.Some? {
        account := Live(limits, overflowIdentities[limits.Index(IdentityBucket, identity.value)], now);
      }
      var window := Lookup(windows, network);
      var overflow := if window.None? then Live(limits, overflowIps[ip], now) else None;
      var useOverflow := window.None? && (overflow.Some? || |windows| >= limits.maxKeys);
      if useOverflow {
        if identity.None? {
          var oldest := if overflow.Some? then overflow.value else windows[0].window;
          return Refused(Max(retry, Retry(limits, oldest, now)));
        }
        window := Some(OrFresh(overflow, now));
        account := Some(OrFresh(account, now));
      } else {
        window := Some(OrFresh(window, now));
      }
      if window.value.count >= limits.maximum {
        retry := Max(retry, Retry(limits, window.value, now));
      }
      if account.Some? && account.value.count >= limits.fallbackMaximum {
        retry := Max(retry, Retry(limits, account.value, now));
      }
      if retry != 0 { return Refused(retry); }
      d := Granted(if useOverflow then Overflow(ip) else Primary(network), window.value, account, OrFresh(live, now));
    }

    /** Charges a granted call to its windows. */
    method Pay(now: real, network: Network, identity: Option<Identity>, d: Decision)
      requires Valid() && d.Granted? && (d.slot.Overflow? ==> d.slot.bucket < limits.buckets)
      requires d.account.Some? ==> identity.Some?
      modifies this, overflowIps, overflowIdentities
      ensures Valid() && View() == Charge(limits, old(View()), Call(now, network, identity), d)
    {
      if d.slot.Overflow? {
        overflowIps[d.slot.bucket] := Some(Spend(d.window));
      } else {
        windows := Put(windows, d.slot.network, Spend(d.window));
      }
      if d.account.Some? {
        overflowIdentities[limits.Index(IdentityBucket, identity.value)] := Some(Spend(d.account.value));
      }
      globalWindow := Some(Spend(d.global));
    }

    method Consume(now: real, network: Network, identity: Option<Identity>) returns (retryAfter: Option<int>)
      requires Valid()
      modifies this, overflowIps, overflowIdentities
      ensures Valid()
      ensures var (s, d) := Step(limits, old(View()), Call(now, network, identity));
              View() == s && retryAfter == (if d.Refused? then Some(d.retryAfter) else None)
    {
      DropExpired(now);
      var d := Weigh(now, network, identity);
      if d.Refused? { return Some(d.retryAfter); }
      Pay(now, network, identity, d);
      retryAfter := None;
    }
  }
}
