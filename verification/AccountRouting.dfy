/** Routing of managed torrents to tracker and qBittorrent accounts. */
module AccountRouting {
  import opened Common

  const MAX_C411_ACCOUNTS := 16

  /** An account reference: the one derived from a C411 slot number, or any other identifier. */
  datatype Ref = SlotRef(slot: nat) | OtherRef(id: nat)

  type TorrentId = nat

  datatype Route = Route(tracker: Ref, qb: Ref, passkey: string)

  /** The explicit routes of a deployment, or one shared integration that may carry a legacy account. */
  datatype Deployment =
    | Explicit(routes: seq<Route>)
    | Shared(qb: Ref, legacy: Option<Route>)

  /** One configured slot; `None` where the stored option is not a text. */
  datatype Slot = Slot(number: Option<string>, passkey: Option<string>)

  datatype Row = Row(hash: string, tracker: Option<Ref>, qb: Option<Ref>)

  datatype Error = RouteInvalid | RouteIncomplete | Unconfigured | ConfigInvalid | RouteUnavailable

  datatype Result = Routed(route: Route) | Refused(error: Error)

  predicate IsSlotRef(r: Ref) { r.SlotRef? && 1 <= r.slot <= MAX_C411_ACCOUNTS }

  /** The deployment was accepted by the constructor: no two explicit routes share a reference, and a
      legacy route runs on the shared qBittorrent account. */
  ghost predicate Accepted(d: Deployment) {
    match d
    case Explicit(routes) => forall i, j :: 0 <= i < j < |routes| ==>
        routes[i].tracker != routes[j].tracker && routes[i].qb != routes[j].qb
    case Shared(qb, legacy) => legacy.Some? ==> legacy.value.qb == qb
  }

  function LegacyOf(d: Deployment): Option<Route> { if d.Shared? then d.legacy else None }

  // ----- The routes that a session can choose from

  /** The slot options of a session: sixteen, one per slot. */
  type Slots = s: seq<Slot> | |s| == MAX_C411_ACCOUNTS witness seq(MAX_C411_ACCOUNTS, _ => Slot(None, None))

  predicate Readable(s: Slot) { s.number.Some? && s.passkey.Some? }

  predicate Filled(s: Slot) { Readable(s) && s.number.value != "" }

  function RouteFor(d: Deployment, slots: seq<Slot>, k: nat): Route
    requires d.Shared? && k < |slots| && Filled(slots[k])
  {
    Route(SlotRef(k + 1), d.qb, slots[k].passkey.value)
  }

  /** Routes of the filled slots, in slot order. */
  function SlotRoutes(d: Deployment, slots: seq<Slot>): seq<Route>
    requires d.Shared?
  {
    if slots == [] then []
    else
      var n := |slots| - 1;
      SlotRoutes(d, slots[..n]) + (if Filled(slots[n]) then [RouteFor(d, slots, n)] else [])
  }

  /** The last filled slot holding the legacy passkey. */
  function Replacement(d: Deployment, slots: seq<Slot>): Option<Route>
    requires d.Shared?
  {
    if slots == [] || d.legacy == None then None
    else
      var n := |slots| - 1;
      if Filled(slots[n]) && slots[n].passkey == Some(d.legacy.value.passkey) then Some(RouteFor(d, slots, n))
      else Replacement(d, slots[..n])
  }

  function Selectable(d: Deployment, slots: Slots): seq<Route> {
    if d.Explicit? then d.routes
    else
      var routes := SlotRoutes(d, slots);
      if routes == [] && d.legacy.Some? then [d.legacy.value] else routes
  }

  predicate Configured(d: Deployment, slots: Slots) {
    d.Explicit? || forall k :: 0 <= k < |slots| ==> Readable(slots[k])
  }

  /** The last route registered for a pair of references. */
  function Assigned(routes: seq<Route>, tracker: Ref, qb: Ref): Option<Route> {
    if routes == [] then None
    else
      var n := |routes| - 1;
      if routes[n].tracker == tracker && routes[n].qb == qb then Some(routes[n]) else Assigned(routes[..n], tracker, qb)
  }

  // ----- Resolving a torrent

  function Moved(row: Row, route: Route): Row { row.(tracker := Some(route.tracker), qb := Some(route.qb)) }

  /** The row after a call, and its answer; `draw` is the random choice. */
  function Resolved(d: Deployment, row: Row, slots: Slots, draw: nat): (Row, Result) {
    var routes := Selectable(d, slots);
    if !Configured(d, slots) then (row, Refused(ConfigInvalid))
    else if row.tracker.None? != row.qb.None? then (row, Refused(RouteIncomplete))
    else if row.tracker.None? then
      if routes == [] then (row, Refused(Unconfigured))
      else (Moved(row, routes[draw % |routes|]), Routed(routes[draw % |routes|]))
    else
      var tracker, qb := row.tracker.value, row.qb.value;
      var found := Assigned(routes, tracker, qb);
      if found.Some? then (row, Routed(found.value))
      else if LegacyOf(d).Some? && (tracker, qb) == (LegacyOf(d).value.tracker, LegacyOf(d).value.qb) then
        match Replacement(d, slots)
        case None => (row, Routed(LegacyOf(d).value))
        case Some(route) => (Moved(row, route), Routed(route))
      else if d.Shared? && qb == d.qb && !IsSlotRef(tracker) && routes != [] then
        (Moved(row, routes[draw % |routes|]), Routed(routes[draw % |routes|]))
      else (row, Refused(RouteUnavailable))
  }

  predicate IsSha1(text: string) {
    |text| == 40 && forall i :: 0 <= i < |text| ==> '0' <= text[i] <= '9' || 'a' <= text[i] <= 'f'
  }

  type Rows = map<TorrentId, Row>

  function Resolve(d: Deployment, rows: Rows, id: TorrentId, hash: string, slots: Slots, draw: nat): (Rows, Result) {
    if !IsSha1(hash) || id !in rows || rows[id].hash != hash then (rows, Refused(RouteInvalid))
    else
      var (row, result) := Resolved(d, rows[id], slots, draw);
      (rows[id := row], result)
  }

  // ----- What one call does to a row

  lemma {:induction false} SlotRoutesAreSlots(d: Deployment, slots: seq<Slot>)
    requires d.Shared? && |slots| <= MAX_C411_ACCOUNTS
    ensures forall i :: 0 <= i < |SlotRoutes(d, slots)| ==>
              IsSlotRef(SlotRoutes(d, slots)[i].tracker) && SlotRoutes(d, slots)[i].qb == d.qb
  {
    if slots == [] {
    } else {
      SlotRoutesAreSlots(d, slots[..|slots| - 1]);
    }
  }

  lemma {:induction false} ReplacementIsSlot(d: Deployment, slots: seq<Slot>)
    requires d.Shared? && |slots| <= MAX_C411_ACCOUNTS && Replacement(d, slots).Some?
    ensures IsSlotRef(Replacement(d, slots).value.tracker) && Replacement(d, slots).value.qb == d.qb
    ensures d.legacy.Some? && Replacement(d, slots).value.passkey == d.legacy.value.passkey
  {
    var n := |slots| - 1;
    if !(Filled(slots[n]) && slots[n].passkey == Some(d.legacy.value.passkey)) { ReplacementIsSlot(d, slots[..n]); }
  }

  lemma {:induction false} ReplacementListed(d: Deployment, slots: seq<Slot>)
    requires d.Shared? && Replacement(d, slots).Some?
    ensures Replacement(d, slots).value in SlotRoutes(d, slots)
  {
    var n := |slots| - 1;
    if Filled(slots[n]) && slots[n].passkey == Some(d.legacy.value.passkey) {
      assert RouteFor(d, slots, n) in SlotRoutes(d, slots);
    } else {
      ReplacementListed(d, slots[..n]);
    }
  }

  lemma {:induction false} AssignedMatches(routes: seq<Route>, tracker: Ref, qb: Ref)
    ensures Assigned(routes, tracker, qb).Some? ==>
              Assigned(routes, tracker, qb).value.tracker == tracker && Assigned(routes, tracker, qb).value.qb == qb &&
              Assigned(routes, tracker, qb).value in routes
    ensures Assigned(routes, tracker, qb).None? ==> forall r :: r in routes ==> r.tracker != tracker || r.qb != qb
  {
    if routes == [] {
    } else {
      AssignedMatches(routes[..|routes| - 1], tracker, qb);
    }
  }

  predicate IsLegacy(d: Deployment, tracker: Ref) { LegacyOf(d).Some? && tracker == LegacyOf(d).value.tracker }

  /** How settled a tracker reference is: unknown, legacy, or a slot that is not the legacy account's. */
  function Rank(d: Deployment, tracker: Ref): nat {
    if IsLegacy(d, tracker) then 1 else if IsSlotRef(tracker) then 2 else 0
  }

  ghost predicate LegacyIsNoSlot(d: Deployment) { LegacyOf(d).Some? ==> !IsSlotRef(LegacyOf(d).value.tracker) }

  lemma SelectableRoutes(d: Deployment, slots: Slots, r: Route)
    requires d.Shared? && Accepted(d) && r in Selectable(d, slots)
    ensures r.qb == d.qb && (IsSlotRef(r.tracker) || (SlotRoutes(d, slots) == [] && d.legacy == Some(r)))
    ensures Rank(d, r.tracker) >= 1
  {
    SlotRoutesAreSlots(d, slots);
  }

  ghost predicate Complete(row: Row) { row.tracker.Some? == row.qb.Some? }

  /** One call leaves the references both set or both unset, and a success answers with the route
      whose references the row then holds. */
  lemma ResolvedRoute(d: Deployment, row: Row, slots: Slots, draw: nat)
    requires Accepted(d)
    ensures var (after, result) := Resolved(d, row, slots, draw);
            && after.hash == row.hash && (Complete(row) ==> Complete(after))
            && (result.Routed? ==> after.tracker == Some(result.route.tracker) && after.qb == Some(result.route.qb))
            && (result.Refused? ==> after == row)
  {
    if row.tracker.Some? && row.qb.Some? { AssignedMatches(Selectable(d, slots), row.tracker.value, row.qb.value); }
  }

  /** Once set, the qBittorrent reference never changes; a tracker reference that changes gains rank. */
  lemma ResolvedClimbs(d: Deployment, row: Row, slots: Slots, draw: nat)
    requires Accepted(d) && row.tracker.Some? && row.qb.Some?
    ensures var after := Resolved(d, row, slots, draw).0;
            && after.tracker.Some? && after.qb == row.qb
            && (after == row || Rank(d, after.tracker.value) > Rank(d, row.tracker.value))
            && (d.Explicit? ==> after == row)
  {
    var tracker, qb, routes := row.tracker.value, row.qb.value, Selectable(d, slots);
    if d.Shared? {
      AssignedMatches(routes, tracker, qb);
      if Replacement(d, slots).Some? {
        ReplacementIsSlot(d, slots);
        ReplacementListed(d, slots);
      }
      if routes != [] { SelectableRoutes(d, slots, routes[draw % |routes|]); }
    }
  }

  // ----- Runs

  datatype Call = Call(id: TorrentId, hash: string, slots: Slots, draw: nat)

  /** Any calls, with the slots edited at will in between. */
  ghost predicate Run(d: Deployment, states: seq<Rows>, calls: seq<Call>) {
    && |states| == |calls| + 1
    && forall i {:trigger calls[i]} :: 0 <= i < |calls| ==>
         states[i + 1] == Resolve(d, states[i], calls[i].id, calls[i].hash, calls[i].slots, calls[i].draw).0
  }

  lemma {:induction false} ReferencesSetTogether(d: Deployment, states: seq<Rows>, calls: seq<Call>, i: nat,
                                                 t: TorrentId)
    requires Run(d, states, calls) && Accepted(d) && i < |states| && t in states[0] && Complete(states[0][t])
    ensures t in states[i] && Complete(states[i][t])
  {
    if i == 0 {
    } else {
      ReferencesSetTogether(d, states, calls, i - 1, t);
      var call := calls[i - 1];
      if call.id in states[i - 1] { ResolvedRoute(d, states[i - 1][call.id], call.slots, call.draw); }
    }
  }

  /** How often the references of `t` changed between two states. */
  ghost function Changes(states: seq<Rows>, t: TorrentId, i: nat, j: nat): nat
    requires i <= j < |states| && forall k :: i <= k <= j ==> t in states[k]
  {
    if i == j then 0 else Changes(states, t, i, j - 1) + (if states[j][t] == states[j - 1][t] then 0 else 1)
  }

  lemma {:induction false} TorrentsStay(d: Deployment, states: seq<Rows>, calls: seq<Call>, i: nat, j: nat,
                                        t: TorrentId)
    requires Run(d, states, calls) && i <= j < |states| && t in states[i]
    ensures t in states[j]
  {
    if i == j {
    } else {
      TorrentsStay(d, states, calls, i, j - 1, t);
      var _ := calls[j - 1];
    }
  }

  ghost predicate Routable(rows: Rows, t: TorrentId) { t in rows && rows[t].tracker.Some? && rows[t].qb.Some? }

  lemma {:induction false} ChangesClimb(d: Deployment, states: seq<Rows>, calls: seq<Call>, i: nat, j: nat,
                                        t: TorrentId)
    requires Run(d, states, calls) && Accepted(d) && i <= j < |states| && Routable(states[i], t)
    requires forall k :: i <= k <= j ==> t in states[k]
    ensures Routable(states[j], t) && states[j][t].qb == states[i][t].qb
    ensures Rank(d, states[i][t].tracker.value) + Changes(states, t, i, j) <= Rank(d, states[j][t].tracker.value)
    ensures d.Explicit? ==> Changes(states, t, i, j) == 0
  {
    if i == j {
    } else {
      ChangesClimb(d, states, calls, i, j - 1, t);
      var call := calls[j - 1];
      if call.id == t { ResolvedClimbs(d, states[j - 1][t], call.slots, call.draw); }
    }
  }

  lemma {:induction false} NoChangesNoMove(states: seq<Rows>, t: TorrentId, i: nat, j: nat)
    requires i <= j < |states| && (forall k :: i <= k <= j ==> t in states[k]) && Changes(states, t, i, j) == 0
    ensures states[j][t] == states[i][t]
  {
    if i == j {
    } else {
      NoChangesNoMove(states, t, i, j - 1);
    }
  }

  /** Over any run, a routed torrent keeps its qBittorrent account, its tracker reference only climbs from
      unknown to legacy to another slot, so at most twice, and never moves once it is a slot other than the
      legacy account's, or in an explicit deployment. */
  lemma RoutingIsSticky(d: Deployment, states: seq<Rows>, calls: seq<Call>, i: nat, j: nat, t: TorrentId)
    requires Run(d, states, calls) && Accepted(d) && i <= j < |states| && Routable(states[i], t)
    ensures Routable(states[j], t) && states[j][t].qb == states[i][t].qb
    ensures forall k :: i <= k <= j ==> t in states[k]
    ensures Rank(d, states[i][t].tracker.value) <= Rank(d, states[j][t].tracker.value)
    ensures Changes(states, t, i, j) <= 2 - Rank(d, states[i][t].tracker.value)
    ensures var tracker := states[i][t].tracker.value;
            (IsSlotRef(tracker) && !IsLegacy(d, tracker)) || d.Explicit? ==> states[j][t] == states[i][t]
  {
    forall k | i <= k <= j ensures t in states[k] { TorrentsStay(d, states, calls, i, k, t); }
    ChangesClimb(d, states, calls, i, j, t);
    if Changes(states, t, i, j) == 0 { NoChangesNoMove(states, t, i, j); }
  }

  // ----- Which torrents resolve

  lemma {:induction false} SlotListed(d: Deployment, slots: seq<Slot>, n: nat)
    requires d.Shared? && 1 <= n && |slots| <= MAX_C411_ACCOUNTS
    ensures (exists r :: r in SlotRoutes(d, slots) && r.tracker == SlotRef(n)) <==> n <= |slots| && Filled(slots[n - 1])
  {
    if slots == [] {
    } else {
      var k := |slots| - 1;
      SlotListed(d, slots[..k], n);
      if Filled(slots[k]) {
        assert SlotRoutes(d, slots) == SlotRoutes(d, slots[..k]) + [RouteFor(d, slots, k)];
        assert RouteFor(d, slots, k) in SlotRoutes(d, slots);
      }
      if r :| r in SlotRoutes(d, slots[..k]) && r.tracker == SlotRef(n) { assert r in SlotRoutes(d, slots); }
    }
  }

  /** In shared mode a torrent assigned to a slot that is not the legacy account's resolves exactly while
      that slot is filled; any other torrent on the shared account resolves exactly while there is some
      account to route to. */
  lemma SharedResolves(d: Deployment, row: Row, slots: Slots, draw: nat)
    requires d.Shared? && Accepted(d) && Configured(d, slots) && Complete(row)
    requires row.qb.Some? ==> row.qb.value == d.qb
    ensures Resolved(d, row, slots, draw).1.Routed? <==>
            if row.tracker.Some? && IsSlotRef(row.tracker.value) && !IsLegacy(d, row.tracker.value)
            then Filled(slots[row.tracker.value.slot - 1])
            else Selectable(d, slots) != []
  {
    var routes := Selectable(d, slots);
    SlotRoutesAreSlots(d, slots);
    if row.tracker.Some? {
      var tracker := row.tracker.value;
      AssignedMatches(routes, tracker, d.qb);
      if IsSlotRef(tracker) { SlotListed(d, slots, tracker.slot); }
    }
  }

  // ----- Exactly when a slot assignment is final

  function OneSlot(at: nat, passkey: string): Slots
    requires 1 <= at <= MAX_C411_ACCOUNTS
  {
    seq(MAX_C411_ACCOUNTS, k => if k + 1 == at then Slot(Some("1"), Some(passkey)) else Slot(Some(""), Some("")))
  }

  lemma {:induction false} OneSlotRoutes(d: Deployment, at: nat, passkey: string, n: nat)
    requires d.Shared? && 1 <= at <= MAX_C411_ACCOUNTS && n <= MAX_C411_ACCOUNTS
    ensures SlotRoutes(d, OneSlot(at, passkey)[..n]) == if at <= n then [Route(SlotRef(at), d.qb, passkey)] else []
    ensures d.legacy.Some? && d.legacy.value.passkey == passkey ==>
              Replacement(d, OneSlot(at, passkey)[..n]) == if at <= n then Some(Route(SlotRef(at), d.qb, passkey))
                else None
  {
    if n == 0 {
    } else {
      OneSlotRoutes(d, at, passkey, n - 1);
      assert OneSlot(at, passkey)[..n][..n - 1] == OneSlot(at, passkey)[..n - 1];
    }
  }

  /** A legacy account registered under a slot's own reference moves: emptying that slot and giving its
      passkey to another one sends its torrents there. */
  lemma LegacySlotMoves(d: Deployment, hash: string, draw: nat)
    requires d.Shared? && Accepted(d) && d.legacy.Some? && IsSlotRef(d.legacy.value.tracker)
    ensures var legacy := d.legacy.value;
            var other := if legacy.tracker.slot == 1 then 2 else 1;
            Resolved(d, Row(hash, Some(legacy.tracker), Some(d.qb)), OneSlot(other, legacy.passkey), draw).0
            == Row(hash, Some(SlotRef(other)), Some(d.qb))
  {
    var legacy := d.legacy.value;
    var other := if legacy.tracker.slot == 1 then 2 else 1;
    var slots := OneSlot(other, legacy.passkey);
    OneSlotRoutes(d, other, legacy.passkey, MAX_C411_ACCOUNTS);
    assert slots[..MAX_C411_ACCOUNTS] == slots;
    AssignedMatches(Selectable(d, slots), legacy.tracker, d.qb);
  }

  ghost predicate SlotsAreFinal(d: Deployment) {
    forall row: Row, slots: Slots, draw: nat :: row.tracker.Some? && row.qb.Some? && IsSlotRef(row.tracker.value) ==>
      Resolved(d, row, slots, draw).0 == row
  }

  /** Slot assignments are final exactly when the legacy reference is not itself a slot reference. */
  lemma SlotsAreFinalIff(d: Deployment)
    requires Accepted(d)
    ensures SlotsAreFinal(d) <==> LegacyIsNoSlot(d)
  {
    if LegacyIsNoSlot(d) {
      forall row: Row, slots: Slots, draw: nat | row.tracker.Some? && row.qb.Some? && IsSlotRef(row.tracker.value)
        ensures Resolved(d, row, slots, draw).0 == row
      {
        ResolvedClimbs(d, row, slots, draw);
      }
    } else {
      var legacy := d.legacy.value;
      LegacySlotMoves(d, "", 0);
      var row := Row("", Some(legacy.tracker), Some(d.qb));
      assert Resolved(d, row, OneSlot(if legacy.tracker.slot == 1 then 2 else 1, legacy.passkey), 0).0 != row;
    }
  }

  // ----- Which account a torrent gets

  /** A slot with a number and a passkey. */
  ghost predicate Occupied(s: Slot) { s.number.Some? && s.number != Some("") && s.passkey.Some? }

  /** The route is that of an occupied slot, with the passkey the slot holds. */
  ghost predicate IsSlotRoute(d: Deployment, slots: seq<Slot>, r: Route)
    requires d.Shared?
  {
    && r.tracker.SlotRef? && 1 <= r.tracker.slot <= |slots| && r.qb == d.qb
    && Occupied(slots[r.tracker.slot - 1]) && slots[r.tracker.slot - 1].passkey == Some(r.passkey)
  }

  /** The list holds the routes of exactly the occupied slots, in slot order. */
  ghost predicate Lists(d: Deployment, slots: seq<Slot>, routes: seq<Route>)
    requires d.Shared?
  {
    OnlySlots(d, slots, routes) && AllSlots(slots, routes) && SlotOrder(routes)
  }

  ghost predicate OnlySlots(d: Deployment, slots: seq<Slot>, routes: seq<Route>)
    requires d.Shared?
  {
    forall i :: 0 <= i < |routes| ==> IsSlotRoute(d, slots, routes[i])
  }

  ghost predicate AllSlots(slots: seq<Slot>, routes: seq<Route>) {
    forall n: nat {:trigger SlotRef(n)} :: 1 <= n <= |slots| && Occupied(slots[n - 1]) ==> HasSlot(routes, SlotRef(n))
  }

  ghost predicate SlotOrder(routes: seq<Route>) {
    && (forall i :: 0 <= i < |routes| ==> routes[i].tracker.SlotRef?)
    && (forall i, j :: 0 <= i < j < |routes| ==> routes[i].tracker.slot < routes[j].tracker.slot)
  }

  ghost predicate HasSlot(routes: seq<Route>, n: Ref) { exists i :: 0 <= i < |routes| && routes[i].tracker == n }

  lemma {:induction false} SlotRoutesList(d: Deployment, slots: seq<Slot>)
    requires d.Shared?
    ensures Lists(d, slots, SlotRoutes(d, slots))
  {
    if slots == [] {
    } else {
      var n := |slots| - 1;
      SlotRoutesList(d, slots[..n]);
      OnlySlotsMore(d, slots, n, SlotRoutes(d, slots[..n]));
      if Occupied(slots[n]) { assert SlotRoutes(d, slots)[|SlotRoutes(d, slots[..n])|].tracker == SlotRef(n + 1); }
      AllSlotsMore(slots, n, SlotRoutes(d, slots[..n]), SlotRoutes(d, slots));
      SlotOrderMore(d, slots, n, SlotRoutes(d, slots[..n]));
    }
  }

  lemma OnlySlotsMore(d: Deployment, slots: seq<Slot>, n: nat, routes: seq<Route>)
    requires d.Shared? && n + 1 == |slots| && OnlySlots(d, slots[..n], routes)
    ensures OnlySlots(d, slots, routes)
    ensures Filled(slots[n]) ==> OnlySlots(d, slots, routes + [RouteFor(d, slots, n)])
  {
    forall i | 0 <= i < |routes| ensures IsSlotRoute(d, slots, routes[i]) {
      assert IsSlotRoute(d, slots[..n], routes[i]);
    }
  }

  lemma AllSlotsMore(slots: seq<Slot>, n: nat, routes: seq<Route>, more: seq<Route>)
    requires n + 1 == |slots| && AllSlots(slots[..n], routes) && routes <= more
    requires Occupied(slots[n]) ==> HasSlot(more, SlotRef(n + 1))
    ensures AllSlots(slots, more)
  {
    forall k: nat {:trigger SlotRef(k)} | 1 <= k <= |slots| &&
      Occupied(slots[k - 1]) ensures HasSlot(more, SlotRef(k)) {
      if k <= n {
        assert slots[..n][k - 1] == slots[k - 1];
        var i :| 0 <= i < |routes| && routes[i].tracker == SlotRef(k);
        assert more[i] == routes[i];
      }
    }
  }

  lemma SlotOrderMore(d: Deployment, slots: seq<Slot>, n: nat, routes: seq<Route>)
    requires d.Shared? && n + 1 == |slots| && SlotOrder(routes) && OnlySlots(d, slots[..n], routes)
    ensures Filled(slots[n]) ==> SlotOrder(routes + [RouteFor(d, slots, n)])
  {
  }

  /** Such a list is determined by the slots. */
  lemma {:induction false} ListIsUnique(d: Deployment, slots: seq<Slot>, routes: seq<Route>, routes': seq<Route>)
    requires d.Shared? && Lists(d, slots, routes) && Lists(d, slots, routes')
    ensures routes == routes'
    decreases |routes|
  {
    BothEmpty(d, slots, routes, routes');
    BothEmpty(d, slots, routes', routes);
    if routes == [] {
    } else {
      SameLast(d, slots, routes, routes');
      var m, m' := |routes| - 1, |routes'| - 1;
      ListsInit(d, slots, routes);
      ListsInit(d, slots, routes');
      ListIsUnique(d, slots[..routes[m].tracker.slot - 1], routes[..m], routes'[..m']);
      assert routes == routes[..m] + [routes[m]] && routes' == routes'[..m'] + [routes'[m']];
    }
  }

  lemma BothEmpty(d: Deployment, slots: seq<Slot>, routes: seq<Route>, routes': seq<Route>)
    requires d.Shared? && Lists(d, slots, routes) && Lists(d, slots, routes')
    ensures routes != [] ==> routes' != []
  {
    if routes != [] { SlotAlsoIn(d, slots, routes, routes', 0); }
  }

  /** What one list holds the other holds too. */
  lemma SlotAlsoIn(d: Deployment, slots: seq<Slot>, routes: seq<Route>, routes': seq<Route>, i: nat)
    requires d.Shared? && OnlySlots(d, slots, routes) && AllSlots(slots, routes') && i < |routes|
    ensures routes[i].tracker.SlotRef? && HasSlot(routes', routes[i].tracker)
  {
    assert IsSlotRoute(d, slots, routes[i]);
    assert routes[i].tracker == SlotRef(routes[i].tracker.slot);
  }

  lemma SameLast(d: Deployment, slots: seq<Slot>, routes: seq<Route>, routes': seq<Route>)
    requires d.Shared? && Lists(d, slots, routes) && Lists(d, slots, routes') && routes != [] && routes' != []
    ensures routes[|routes| - 1] == routes'[|routes'| - 1]
  {
    LastIsLeast(d, slots, routes, routes');
    LastIsLeast(d, slots, routes', routes);
    assert IsSlotRoute(d, slots, routes[|routes| - 1]) && IsSlotRoute(d, slots, routes'[|routes'| - 1]);
  }

  lemma LastIsLeast(d: Deployment, slots: seq<Slot>, routes: seq<Route>, routes': seq<Route>)
    requires d.Shared? && Lists(d, slots, routes) && Lists(d, slots, routes') && routes != [] && routes' != []
    ensures routes[|routes| - 1].tracker.slot <= routes'[|routes'| - 1].tracker.slot
  {
    SlotAlsoIn(d, slots, routes, routes', |routes| - 1);
    var i :| 0 <= i < |routes'| && routes'[i].tracker == routes[|routes| - 1].tracker;
  }

  /** Without its last route a list holds the occupied slots before that one. */
  lemma ListsInit(d: Deployment, slots: seq<Slot>, routes: seq<Route>)
    requires d.Shared? && Lists(d, slots, routes) && routes != []
    ensures 1 <= routes[|routes| - 1].tracker.slot <= |slots|
    ensures Lists(d, slots[..routes[|routes| - 1].tracker.slot - 1], routes[..|routes| - 1])
  {
    var m := |routes| - 1;
    assert IsSlotRoute(d, slots, routes[m]);
    var n, init := routes[m].tracker.slot - 1, routes[..m];
    forall i | 0 <= i < |init| ensures IsSlotRoute(d, slots[..n], init[i]) {
      assert IsSlotRoute(d, slots, routes[i]) && init[i] == routes[i];
    }
    forall k: nat {:trigger SlotRef(k)} | 1 <= k <= n && Occupied(slots[..n][k - 1]) ensures HasSlot(init, SlotRef(k)) {
      assert Occupied(slots[k - 1]);
      var i :| 0 <= i < |routes| && routes[i].tracker == SlotRef(k);
      assert i < m && init[i] == routes[i];
    }
  }

  /** What a session offers: the occupied slots in order, or the legacy account where there is none. */
  ghost predicate Offers(d: Deployment, slots: Slots, routes: seq<Route>) {
    if d.Explicit? then routes == d.routes
    else if exists k :: 0 <= k < |slots| && Occupied(slots[k]) then Lists(d, slots, routes)
    else routes == if d.legacy.Some? then [d.legacy.value] else []
  }

  lemma SomeOccupied(d: Deployment, slots: Slots)
    requires d.Shared?
    ensures SlotRoutes(d, slots) != [] <==> exists k :: 0 <= k < |slots| && Occupied(slots[k])
  {
    var all := SlotRoutes(d, slots);
    SlotRoutesList(d, slots);
    if all != [] {
      assert IsSlotRoute(d, slots, all[0]);
      assert Occupied(slots[all[0].tracker.slot - 1]);
    }
    if k :| 0 <= k < |slots| && Occupied(slots[k]) { assert HasSlot(all, SlotRef(k + 1)); }
  }

  lemma OffersSelectable(d: Deployment, slots: Slots, routes: seq<Route>)
    ensures Offers(d, slots, routes) <==> routes == Selectable(d, slots)
  {
    if d.Shared? {
      SomeOccupied(d, slots);
      SlotRoutesList(d, slots);
      if Lists(d, slots, routes) { ListIsUnique(d, slots, routes, SlotRoutes(d, slots)); }
    }
  }

  ghost predicate TextsOnly(d: Deployment, slots: Slots) {
    d.Shared? ==> forall k :: 0 <= k < |slots| ==> slots[k].number != None && slots[k].passkey != None
  }

  /** A torrent without references gets exactly the drawn route of those on offer, and is assigned to it. */
  lemma UnassignedIsDrawn(d: Deployment, row: Row, slots: Slots, draw: nat, routes: seq<Route>)
    requires Offers(d, slots, routes) && TextsOnly(d, slots) && row.tracker.None? && row.qb.None?
    ensures if routes == [] then Resolved(d, row, slots, draw) == (row, Refused(Unconfigured))
            else var r := routes[draw % |routes|];
                 Resolved(d, row, slots, draw) == (Row(row.hash, Some(r.tracker), Some(r.qb)), Routed(r))
  {
    OffersSelectable(d, slots, routes);
  }

  ghost predicate Refers(row: Row, r: Route) { row.tracker == Some(r.tracker) && row.qb == Some(r.qb) }

  /** A torrent whose references are on offer is answered with them and with the passkey they have now. */
  lemma AssignedIsKept(d: Deployment, row: Row, slots: Slots, draw: nat, routes: seq<Route>, r: Route)
    requires Accepted(d) && Offers(d, slots, routes) && TextsOnly(d, slots) && r in routes && Refers(row, r)
    ensures Resolved(d, row, slots, draw) == (row, Routed(r))
  {
    OffersSelectable(d, slots, routes);
    AssignedMatches(routes, r.tracker, r.qb);
    OneRoutePerTracker(d, slots, routes, r, Assigned(routes, r.tracker, r.qb).value);
  }

  lemma OneRoutePerTracker(d: Deployment, slots: Slots, routes: seq<Route>, r: Route, r': Route)
    requires Accepted(d) && Offers(d, slots, routes) && r in routes && r' in routes && r.tracker == r'.tracker
    ensures r == r'
  {
    OfferedDiffer(d, slots, routes);
    var i :| 0 <= i < |routes| && routes[i] == r;
    var j :| 0 <= j < |routes| && routes[j] == r';
  }

  lemma OfferedDiffer(d: Deployment, slots: Slots, routes: seq<Route>)
    requires Accepted(d) && Offers(d, slots, routes)
    ensures forall i, j :: 0 <= i < j < |routes| ==> routes[i].tracker != routes[j].tracker
  {
  }

  /** Slot k is the last occupied one that holds the passkey. */
  ghost predicate LastHolder(slots: seq<Slot>, k: nat, passkey: string) {
    && k < |slots| && Occupied(slots[k]) && slots[k].passkey == Some(passkey)
    && forall j :: k < j < |slots| && Occupied(slots[j]) ==> slots[j].passkey != Some(passkey)
  }

  ghost predicate Held(slots: seq<Slot>, passkey: string) {
    exists k :: 0 <= k < |slots| && Occupied(slots[k]) && slots[k].passkey == Some(passkey)
  }

  lemma {:induction false} ReplacementIff(d: Deployment, slots: seq<Slot>)
    requires d.Shared? && d.legacy.Some?
    ensures Replacement(d, slots).Some? <==> Held(slots, d.legacy.value.passkey)
    ensures forall k: nat :: LastHolder(slots, k, d.legacy.value.passkey) ==>
              Replacement(d, slots) == Some(Route(SlotRef(k + 1), d.qb, d.legacy.value.passkey))
  {
    var passkey := d.legacy.value.passkey;
    if slots == [] {
    } else {
      var n := |slots| - 1;
      ReplacementIff(d, slots[..n]);
      if Filled(slots[n]) && slots[n].passkey == Some(passkey) {
        assert Occupied(slots[n]);
      } else {
        forall k: nat | LastHolder(slots, k, passkey) ensures LastHolder(slots[..n], k, passkey) { }
        if k :| 0 <= k < |slots| && Occupied(slots[k]) && slots[k].passkey == Some(passkey) {
          assert slots[..n][k] == slots[k];
        }
        if k :| 0 <= k < n && Occupied(slots[..n][k]) && slots[..n][k].passkey == Some(passkey) {
          assert Occupied(slots[k]);
        }
      }
    }
  }

  lemma {:induction false} SomeLastHolder(slots: seq<Slot>, passkey: string)
    requires Held(slots, passkey)
    ensures exists k: nat :: LastHolder(slots, k, passkey)
  {
    var n := |slots| - 1;
    if Occupied(slots[n]) && slots[n].passkey == Some(passkey) {
      assert LastHolder(slots, n, passkey);
    } else {
      var k :| 0 <= k < |slots| && Occupied(slots[k]) && slots[k].passkey == Some(passkey);
      assert slots[..n][k] == slots[k];
      SomeLastHolder(slots[..n], passkey);
      var j: nat :| LastHolder(slots[..n], j, passkey);
      assert LastHolder(slots, j, passkey);
    }
  }

  /** A torrent on the legacy account whose references are not on offer keeps its passkey: it goes to the last
      occupied slot that holds the legacy passkey, and stays on the legacy account where none does. */
  lemma LegacyKeepsPasskey(d: Deployment, row: Row, slots: Slots, draw: nat, routes: seq<Route>)
    requires d.Shared? && Accepted(d) && d.legacy.Some? && TextsOnly(d, slots) && Refers(row, d.legacy.value)
    requires Offers(d, slots, routes) && forall r :: r in routes ==> r.tracker != d.legacy.value.tracker
    ensures var (after, result) := Resolved(d, row, slots, draw);
            && result.Routed? && result.route.passkey == d.legacy.value.passkey && after.hash == row.hash
            && Refers(after, result.route)
            && (if Held(slots, d.legacy.value.passkey)
                then && result.route.tracker.SlotRef? && result.route.tracker.slot >= 1
                     && LastHolder(slots, result.route.tracker.slot - 1, d.legacy.value.passkey)
                else result.route == d.legacy.value && after == row)
  {
    OffersSelectable(d, slots, routes);
    AssignedMatches(routes, d.legacy.value.tracker, d.qb);
    ReplacementIff(d, slots);
    if Held(slots, d.legacy.value.passkey) {
      SomeLastHolder(slots, d.legacy.value.passkey);
      var k: nat :| LastHolder(slots, k, d.legacy.value.passkey);
    }
  }

  /** A torrent of the shared account under a reference that is neither on offer, nor the legacy account's, nor a
      slot's, gets exactly the drawn route. */
  lemma UnknownIsDrawn(d: Deployment, row: Row, slots: Slots, draw: nat, routes: seq<Route>)
    requires d.Shared? && Offers(d, slots, routes) && TextsOnly(d, slots) && routes != []
    requires row.tracker.Some? && row.qb == Some(d.qb) && !IsLegacy(d, row.tracker.value)
    requires row.tracker.value.SlotRef? ==> row.tracker.value.slot == 0 || row.tracker.value.slot > 16
    ensures var r := routes[draw % |routes|];
            Resolved(d, row, slots, draw) == (Row(row.hash, Some(r.tracker), Some(r.qb)), Routed(r))
  {
    OffersSelectable(d, slots, routes);
    SlotRoutesAreSlots(d, slots);
    AssignedMatches(routes, row.tracker.value, d.qb);
  }

  /** Which error a call answers: options that are no texts, one reference without the other, or nothing on
      offer for a new torrent. */
  lemma RefusedIff(d: Deployment, row: Row, slots: Slots, draw: nat, routes: seq<Route>)
    requires Offers(d, slots, routes)
    ensures var result := Resolved(d, row, slots, draw).1;
            && (result == Refused(ConfigInvalid) <==> !TextsOnly(d, slots))
            && (result == Refused(RouteIncomplete) <==> TextsOnly(d, slots) && !Complete(row))
            && (result == Refused(Unconfigured) <==>
                  TextsOnly(d, slots) && Complete(row) && row.tracker.None? && routes == [])
            && result != Refused(RouteInvalid)
  {
    OffersSelectable(d, slots, routes);
    ConfiguredTexts(d, slots);
  }

  lemma ConfiguredTexts(d: Deployment, slots: Slots)
    ensures Configured(d, slots) <==> TextsOnly(d, slots)
  {
  }

  /** References lead nowhere exactly when no route on offer has them and they are on no shared account, or name
      neither the legacy account nor an unknown one that could be replaced. */
  lemma UnavailableIff(d: Deployment, row: Row, slots: Slots, draw: nat, routes: seq<Route>)
    requires Accepted(d) && Offers(d, slots, routes) && TextsOnly(d, slots) && row.tracker.Some? && row.qb.Some?
    ensures Resolved(d, row, slots, draw).1 == Refused(RouteUnavailable) <==>
            && (forall r :: r in routes ==> !Refers(row, r))
            && (|| d.Explicit? || row.qb.value != d.qb
                || (!IsLegacy(d, row.tracker.value) && (IsSlotRef(row.tracker.value) || routes == [])))
  {
    OffersSelectable(d, slots, routes);
    AssignedIff(routes, row);
  }

  lemma AssignedIff(routes: seq<Route>, row: Row)
    requires row.tracker.Some? && row.qb.Some?
    ensures Assigned(routes, row.tracker.value, row.qb.value).None? <==> forall r :: r in routes ==> !Refers(row, r)
  {
    AssignedMatches(routes, row.tracker.value, row.qb.value);
  }

  /** A call is for a stored torrent under its own hash, or is refused; it touches no other torrent. */
  lemma ResolveIff(d: Deployment, rows: Rows, id: TorrentId, hash: string, slots: Slots, draw: nat)
    requires Accepted(d)
    ensures var (after, result) := Resolve(d, rows, id, hash, slots, draw);
            && (result == Refused(RouteInvalid) <==> !(id in rows && rows[id].hash == hash && IsSha1(hash)))
            && after.Keys == rows.Keys && (forall t :: t in rows && t != id ==> after[t] == rows[t])
            && (result.Refused? ==> after == rows)
            && (result.Routed? ==> id in after && Refers(after[id], result.route) && after[id].hash == hash)
  {
    if id in rows {
      var routes := Selectable(d, slots);
      OffersSelectable(d, slots, routes);
      RefusedIff(d, rows[id], slots, draw, routes);
      ResolvedRoute(d, rows[id], slots, draw);
    }
  }

  /** Call c took the torrent from the legacy account to a slot that held the legacy passkey. */
  ghost predicate Inherits(d: Deployment, states: seq<Rows>, calls: seq<Call>, c: nat, t: TorrentId)
    requires d.Shared? && d.legacy.Some? && c < |calls| < |states|
  {
    && calls[c].id == t && t in states[c] && Refers(states[c][t], d.legacy.value) && Routable(states[c + 1], t)
    && var r := states[c + 1][t].tracker.value;
       IsSlotRef(r) && LastHolder(calls[c].slots, r.slot - 1, d.legacy.value.passkey)
  }

  lemma LegacyCall(d: Deployment, states: seq<Rows>, calls: seq<Call>, c: nat, t: TorrentId)
    requires Run(d, states, calls) && d.Shared? && Accepted(d) && d.legacy.Some? && LegacyIsNoSlot(d)
    requires c < |calls| && t in states[c] && Refers(states[c][t], d.legacy.value) && t in states[c + 1]
    ensures states[c + 1][t] == states[c][t] || Inherits(d, states, calls, c, t)
  {
    var call := calls[c];
    var row, routes := states[c][t], Selectable(d, call.slots);
    if call.id == t && states[c + 1][t] != row {
      OffersSelectable(d, call.slots, routes);
      RefusedIff(d, row, call.slots, call.draw, routes);
      if r :| r in routes && r.tracker == d.legacy.value.tracker {
        SelectableRoutes(d, call.slots, r);
        AssignedIsKept(d, row, call.slots, call.draw, routes, r);
      } else {
        ResolvedRoute(d, row, call.slots, call.draw);
        LegacyKeepsPasskey(d, row, call.slots, call.draw, routes);
      }
    }
  }

  /** Over any run, and any edits of the slots: a torrent that was on the legacy account is still there, or on the
      slot that held the legacy passkey when it was moved. */
  lemma {:induction false} LegacyMovesToItsPasskey(d: Deployment, states: seq<Rows>, calls: seq<Call>, i: nat, j: nat,
                                                   t: TorrentId)
    requires Run(d, states, calls) && d.Shared? && Accepted(d) && d.legacy.Some? && LegacyIsNoSlot(d)
    requires i <= j < |states| && t in states[i] && Refers(states[i][t], d.legacy.value)
    ensures t in states[j]
    ensures states[j][t] == states[i][t] ||
            exists c: nat :: i <= c < j && Inherits(d, states, calls, c, t) && states[j][t] == states[c + 1][t]
  {
    TorrentsStay(d, states, calls, i, j, t);
    if i == j {
    } else {
      LegacyMovesToItsPasskey(d, states, calls, i, j - 1, t);
      if states[j - 1][t] == states[i][t] {
        LegacyCall(d, states, calls, j - 1, t);
      } else {
        var c: nat :| i <= c < j - 1 && Inherits(d, states, calls, c, t) && states[j - 1][t] == states[c + 1][t];
        RoutingIsSticky(d, states, calls, j - 1, j, t);
      }
    }
  }

  // ----- Controls, grouped by account

  const MAX_CONTROL_TORRENTS := 200

  datatype Control = Control(hash: string, qb: Option<Ref>)

  /** What one account is asked to apply. */
  datatype Batch = Batch(account: Ref, controls: seq<Control>)

  datatype Applied = Applied(started: seq<string>, stopped: seq<string>, limits: seq<string>, priorities: seq<string>,
    skipped: seq<string>)

  function Joined(a: Applied, b: Applied): Applied {
    Applied(a.started + b.started, a.stopped + b.stopped, a.limits + b.limits, a.priorities + b.priorities,
      a.skipped + b.skipped)
  }

  function Where(controls: seq<Control>, keep: Control -> bool): seq<Control> {
    if controls == [] then []
    else
      var n := |controls| - 1;
      Where(controls[..n], keep) + (if keep(controls[n]) then [controls[n]] else [])
  }

  function Of(account: Ref): Control -> bool { (c: Control) => c.qb == Some(account) }

  function Among(accounts: seq<Ref>): Control -> bool { (c: Control) => c.qb.Some? && c.qb.value in accounts }

  function Outside(accounts: seq<Ref>): Control -> bool { (c: Control) => !(c.qb.Some? && c.qb.value in accounts) }

  function Hashes(controls: seq<Control>): seq<string> {
    seq(|controls|, i requires 0 <= i < |controls| => controls[i].hash)
  }

  /** Each account that has controls gets them all at once, in the caller's order. */
  function Batches(controls: seq<Control>, accounts: seq<Ref>): seq<Batch> {
    if accounts == [] then []
    else
      var n := |accounts| - 1;
      var own := Where(controls, Of(accounts[n]));
      Batches(controls, accounts[..n]) + (if own == [] then [] else [Batch(accounts[n], own)])
  }

  /** The answers of the accounts, in account order, after the controls nobody could take. */
  function Answers(gateway: Batch -> Applied, skipped: seq<string>, batches: seq<Batch>): Applied {
    if batches == [] then Applied([], [], [], [], skipped)
    else
      var n := |batches| - 1;
      Joined(Answers(gateway, skipped, batches[..n]), gateway(batches[n]))
  }

  ghost function AllControls(batches: seq<Batch>): multiset<Control> {
    if batches == [] then multiset{}
    else AllControls(batches[..|batches| - 1]) + multiset(batches[|batches| - 1].controls)
  }

  lemma {:induction false} WhereSplits(controls: seq<Control>, p: Control -> bool, q: Control -> bool,
                                       both: Control -> bool)
    requires forall c :: both(c) <==> p(c) || q(c)
    requires forall c :: !(p(c) && q(c))
    ensures multiset(Where(controls, both)) == multiset(Where(controls, p)) + multiset(Where(controls, q))
  {
    if controls == [] {
    } else {
      WhereSplits(controls[..|controls| - 1], p, q, both);
    }
  }

  lemma {:induction false} WhereAlways(controls: seq<Control>, keep: Control -> bool)
    requires forall c :: keep(c)
    ensures Where(controls, keep) == controls
  {
    if controls == [] {
    } else {
      WhereAlways(controls[..|controls| - 1], keep);
    }
  }

  lemma {:induction false} WhereNever(controls: seq<Control>, keep: Control -> bool)
    requires forall c :: !keep(c)
    ensures Where(controls, keep) == []
  {
    if controls == [] {
    } else {
      WhereNever(controls[..|controls| - 1], keep);
    }
  }

  lemma BatchesStep(controls: seq<Control>, accounts: seq<Ref>, k: nat)
    requires k < |accounts|
    ensures var before, own := Batches(controls, accounts[..k]), Where(controls, Of(accounts[k]));
            && Batches(controls, accounts[..k + 1]) == (if own == [] then before
              else before + [Batch(accounts[k], own)])
            && AllControls(Batches(controls, accounts[..k + 1])) == AllControls(before) + multiset(own)
  {
    var before, own := Batches(controls, accounts[..k]), Where(controls, Of(accounts[k]));
    assert accounts[..k + 1][..k] == accounts[..k];
    if own != [] {
      assert (before + [Batch(accounts[k], own)])[..|before|] == before;
    }
  }

  lemma AnswersStep(gateway: Batch -> Applied, skipped: seq<string>, batches: seq<Batch>, b: Batch)
    ensures Answers(gateway, skipped, batches + [b]) == Joined(Answers(gateway, skipped, batches), gateway(b))
  {
    assert (batches + [b])[..|batches|] == batches;
  }

  lemma WhereStep(controls: seq<Control>, k: nat, keep: Control -> bool)
    requires k < |controls|
    ensures Where(controls[..k + 1], keep)
            == Where(controls[..k], keep) + (if keep(controls[k]) then [controls[k]] else [])
  {
    assert controls[..k + 1][..k] == controls[..k];
  }

  lemma SkippedStep(controls: seq<Control>, k: nat, accounts: seq<Ref>)
    requires k < |controls|
    ensures Hashes(Where(controls[..k + 1], Outside(accounts))) ==
            Hashes(Where(controls[..k], Outside(accounts)))
              + (if Outside(accounts)(controls[k]) then [controls[k].hash] else [])
  {
    WhereStep(controls, k, Outside(accounts));
  }

  /** The groups collect, per known account, its controls. */
  ghost predicate Grouped(groups: map<Ref, seq<Control>>, accounts: seq<Ref>, controls: seq<Control>) {
    && (forall a :: a in accounts ==> (if a in groups then groups[a] else []) == Where(controls, Of(a)))
    && (forall a :: a in groups ==> a in accounts && groups[a] != [])
  }

  function Collected(groups: map<Ref, seq<Control>>, accounts: seq<Ref>, c: Control): map<Ref, seq<Control>> {
    if c.qb.None? || c.qb.value !in accounts then groups
    else groups[c.qb.value := (if c.qb.value in groups then groups[c.qb.value] else []) + [c]]
  }

  lemma CollectedAt(groups: map<Ref, seq<Control>>, accounts: seq<Ref>, controls: seq<Control>, k: nat, a: Ref)
    requires k < |controls| && a in accounts && (if a in groups then groups[a] else []) == Where(controls[..k], Of(a))
    ensures var after := Collected(groups, accounts, controls[k]);
            (if a in after then after[a] else []) == Where(controls[..k + 1], Of(a))
  {
    WhereStep(controls, k, Of(a));
  }

  lemma GroupedStep(groups: map<Ref, seq<Control>>, accounts: seq<Ref>, controls: seq<Control>, k: nat)
    requires k < |controls| && Grouped(groups, accounts, controls[..k])
    ensures Grouped(Collected(groups, accounts, controls[k]), accounts, controls[..k + 1])
  {
    var after := Collected(groups, accounts, controls[k]);
    forall a | a in accounts ensures (if a in after then after[a] else []) == Where(controls[..k + 1], Of(a)) {
      CollectedAt(groups, accounts, controls, k, a);
    }
  }

  lemma AmongSplits(accounts: seq<Ref>, n: nat)
    requires n + 1 == |accounts| && forall i, j :: 0 <= i < j < |accounts| ==> accounts[i] != accounts[j]
    ensures forall c :: Among(accounts)(c) <==> Among(accounts[..n])(c) || Of(accounts[n])(c)
    ensures forall c :: !(Among(accounts[..n])(c) && Of(accounts[n])(c))
  {
    assert accounts == accounts[..n] + [accounts[n]];
  }

  lemma {:induction false} BatchesHold(controls: seq<Control>, accounts: seq<Ref>)
    requires forall i, j :: 0 <= i < j < |accounts| ==> accounts[i] != accounts[j]
    ensures AllControls(Batches(controls, accounts)) == multiset(Where(controls, Among(accounts)))
  {
    if accounts == [] {
      WhereNever(controls, Among(accounts));
    } else {
      var n := |accounts| - 1;
      BatchesHold(controls, accounts[..n]);
      AmongSplits(accounts, n);
      WhereSplits(controls, Among(accounts[..n]), Of(accounts[n]), Among(accounts));
      BatchesStep(controls, accounts, n);
      assert accounts[..n + 1] == accounts;
    }
  }

  /** No control is lost or applied twice: each goes to its own account once, or is skipped. */
  lemma ControlsAreConserved(controls: seq<Control>, accounts: seq<Ref>)
    requires forall i, j :: 0 <= i < j < |accounts| ==> accounts[i] != accounts[j]
    ensures AllControls(Batches(controls, accounts)) + multiset(Where(controls, Outside(accounts)))
            == multiset(controls)
  {
    BatchesHold(controls, accounts);
    var all := (c: Control) => true;
    WhereSplits(controls, Among(accounts), Outside(accounts), all);
    WhereAlways(controls, all);
  }

  // ----- Order and ownership of the batches

  lemma WhereAppend(a: seq<Control>, c: Control, keep: Control -> bool)
    ensures Where(a + [c], keep) == Where(a, keep) + (if keep(c) then [c] else [])
  {
    assert (a + [c])[..|a|] == a;
  }

  /** Choosing goes through the controls in order: a control is kept exactly when it qualifies. */
  lemma {:induction false} WhereJoins(a: seq<Control>, b: seq<Control>, keep: Control -> bool)
    ensures Where(a + b, keep) == Where(a, keep) + Where(b, keep)
    ensures |b| == 1 ==> Where(b, keep) == if keep(b[0]) then b else []
  {
    if b == [] {
      assert a + b == a;
    } else {
      var init, c := b[..|b| - 1], b[|b| - 1];
      assert b == init + [c] && a + b == (a + init) + [c];
      WhereJoins(a, init, keep);
      WhereAppend(a + init, c, keep);
      WhereAppend(init, c, keep);
    }
  }

  lemma {:induction false} WhereQualify(controls: seq<Control>, keep: Control -> bool, c: Control)
    ensures c in Where(controls, keep) <==> c in controls && keep(c)
  {
    if controls == [] {
    } else {
      var n := |controls| - 1;
      WhereQualify(controls[..n], keep, c);
      assert controls == controls[..n] + [controls[n]];
    }
  }

  lemma BatchesAppend(controls: seq<Control>, a: seq<Ref>, x: Ref)
    ensures Batches(controls, a + [x]) == Batches(controls, a) + Batches(controls, [x])
  {
    assert (a + [x])[..|a|] == a;
    assert Batches(controls, [x][..0]) == [];
  }

  /** The batches come in account order. */
  lemma {:induction false} BatchesJoin(controls: seq<Control>, a: seq<Ref>, b: seq<Ref>)
    ensures Batches(controls, a + b) == Batches(controls, a) + Batches(controls, b)
  {
    if b == [] {
      assert a + b == a;
    } else {
      var init, x := b[..|b| - 1], b[|b| - 1];
      assert b == init + [x] && a + b == (a + init) + [x];
      BatchesJoin(controls, a, init);
      BatchesAppend(controls, a + init, x);
      BatchesAppend(controls, init, x);
    }
  }

  /** An account gets a batch exactly when some control is its own: addressed to it, with its own controls and
      no others. */
  lemma OneBatch(controls: seq<Control>, b: seq<Ref>)
    requires |b| == 1
    ensures var batches := Batches(controls, b);
            && (batches == [] <==> forall c :: c in controls ==> c.qb != Some(b[0]))
            && (batches != [] ==> |batches| == 1 && batches[0].account == b[0])
            && (batches != [] ==> forall c :: c in batches[0].controls <==> c in controls && c.qb == Some(b[0]))
  {
    var own := Where(controls, Of(b[0]));
    assert Batches(controls, b) == if own == [] then [] else [Batch(b[0], own)];
    forall c ensures c in own <==> c in controls && c.qb == Some(b[0]) { WhereQualify(controls, Of(b[0]), c); }
    if own != [] { assert own[0] in own; }
  }

  /** The joined answer lists what the first accounts answered before what the later ones did, field by field,
      with the controls nobody could take in front of the skipped ones. */
  lemma {:induction false} AnswersInOrder(gateway: Batch -> Applied, skipped: seq<string>, a: seq<Batch>, b: seq<Batch>)
    ensures Follow(Answers(gateway, skipped, a + b), Answers(gateway, skipped, a), Answers(gateway, [], b))
    ensures Answers(gateway, skipped, []).skipped == skipped
    ensures |b| == 1 ==> Answers(gateway, [], b) == gateway(b[0])
  {
    if b == [] {
      assert a + b == a;
    } else {
      var n := |b| - 1;
      AnswersInOrder(gateway, skipped, a, b[..n]);
      assert (a + b)[..|a| + n] == a + b[..n];
      JoinedFollows(Answers(gateway, skipped, a + b[..n]), Answers(gateway, skipped, a), Answers(gateway, [], b[..n]),
                    gateway(b[n]));
      if n == 0 { assert b[..n] == []; }
    }
  }

  ghost predicate Follow(all: Applied, x: Applied, y: Applied) {
    && all.started == x.started + y.started && all.stopped == x.stopped + y.stopped
    && all.limits == x.limits + y.limits && all.priorities == x.priorities + y.priorities
    && all.skipped == x.skipped + y.skipped
  }

  lemma JoinedFollows(all: Applied, x: Applied, y: Applied, z: Applied)
    requires Follow(all, x, y)
    ensures Follow(Joined(all, z), x, Joined(y, z))
  {
  }

  // ----- The router

  ghost predicate Distinct(s: seq<string>) { forall i, j :: 0 <= i < j < |s| ==> s[i] != s[j] }

  class DeploymentAccountRouter {
    const deployment: Deployment
    /** The accounts with a client, in the byte order of their references. */
    const accounts: seq<Ref>
    var rows: Rows

    constructor (deployment: Deployment, accounts: seq<Ref>, rows: Rows)
      ensures this.deployment == deployment && this.accounts == accounts && this.rows == rows
    {
      this.deployment, this.accounts, this.rows := deployment, accounts, rows;
    }

    method RoutesForSession(slots: Slots) returns (valid: bool, routes: seq<Route>, replacement: Option<Route>)
      ensures valid == Configured(deployment, slots)
      ensures valid ==> routes == Selectable(deployment, slots)
      ensures valid && deployment.Shared? ==> replacement == Replacement(deployment, slots)
    {
      if deployment.Explicit? { return true, deployment.routes, None; }
      routes, replacement := [], None;
      var legacy := deployment.legacy;
      for k := 0 to |slots|
        invariant forall i :: 0 <= i < k ==> Readable(slots[i])
        invariant routes == SlotRoutes(deployment, slots[..k])
        invariant replacement == Replacement(deployment, slots[..k])
      {
        if slots[k].number.None? || slots[k].passkey.None? { return false, [], None; }
        assert slots[..k + 1][..k] == slots[..k];
        if slots[k].number.value == "" { continue; }
        var route := Route(SlotRef(k + 1), deployment.qb, slots[k].passkey.value);
        routes := routes + [route];
        if legacy.Some? && slots[k].passkey.value == legacy.value.passkey { replacement := Some(route); }
      }
      assert slots[..|slots|] == slots;
      if routes == [] && legacy.Some? { routes := [legacy.value]; }
      valid := true;
    }

    method ResolveTorrent(id: TorrentId, hash: string, slots: Slots, draw: nat) returns (result: Result)
      modifies this
      ensures (rows, result) == Resolve(deployment, old(rows), id, hash, slots, draw)
    {
      if !IsSha1(hash) || id !in rows || rows[id].hash != hash { return Refused(RouteInvalid); }
      var torrent := rows[id];
      assert rows[id := torrent] == rows;
      var valid, routes, replacement := RoutesForSession(slots);
      if !valid { return Refused(ConfigInvalid); }
      if torrent.tracker.None? != torrent.qb.None? { return Refused(RouteIncomplete); }
      if torrent.tracker.None? {
        if routes == [] { return Refused(Unconfigured); }
        var route := routes[draw % |routes|];
        rows := rows[id := Moved(torrent, route)];
        return Routed(route);
      }
      var tracker, qb := torrent.tracker.value, torrent.qb.value;
      var found := Assigned(routes, tracker, qb);
      if found.None? && LegacyOf(deployment).Some? &&
        (tracker, qb) == (deployment.legacy.value.tracker, deployment.legacy.value.qb) {
        if replacement.None? { return Routed(deployment.legacy.value); }
        rows := rows[id := Moved(torrent, replacement.value)];
        return Routed(replacement.value);
      }
      if found.None? && deployment.Shared? && qb == deployment.qb && !IsSlotRef(tracker) && routes != [] {
        var route := routes[draw % |routes|];
        rows := rows[id := Moved(torrent, route)];
        return Routed(route);
      }
      if found.None? { return Refused(RouteUnavailable); }
      return Routed(found.value);
    }

    /** Groups the controls by account; those without a known account are skipped. */
    method GroupControls(controls: seq<Control>) returns (groups: map<Ref, seq<Control>>, skipped: seq<string>)
      ensures Grouped(groups, accounts, controls)
      ensures skipped == Hashes(Where(controls, Outside(accounts)))
    {
      groups, skipped := map[], [];
      for k := 0 to |controls|
        invariant Grouped(groups, accounts, controls[..k])
        invariant skipped == Hashes(Where(controls[..k], Outside(accounts)))
      {
        var c := controls[k];
        GroupedStep(groups, accounts, controls, k);
        SkippedStep(controls, k, accounts);
        if c.qb.None? || c.qb.value !in accounts {
          skipped := skipped + [c.hash];
        } else {
          var a := c.qb.value;
          groups := groups[a := (if a in groups then groups[a] else []) + [c]];
        }
      }
      assert controls[..|controls|] == controls;
    }

    method NoRepeats(hashes: seq<string>) returns (r: bool)
      ensures r == Distinct(hashes)
    {
      var seen: set<string> := {};
      for k := 0 to |hashes|
        invariant forall i :: 0 <= i < k ==> hashes[i] in seen
        invariant forall h :: h in seen ==> exists i :: 0 <= i < k && hashes[i] == h
        invariant forall i, j :: 0 <= i < j < k ==> hashes[i] != hashes[j]
      {
        if hashes[k] in seen { return false; }
        seen := seen + {hashes[k]};
      }
      r := true;
    }

    /** Refuses oversized or repeating control sets; otherwise asks each account once, in order. */
    method ApplyManagedControls(controls: seq<Control>, gateway: Batch -> Applied) returns (result: Option<Applied>)
      ensures result.Some? <==> |controls| <= 200 && Distinct(Hashes(controls))
      ensures result.Some? ==>
                result.value == Answers(gateway, Hashes(Where(controls, Outside(accounts))),
                  Batches(controls, accounts))
    {
      if |controls| > MAX_CONTROL_TORRENTS { return None; }
      var distinct := NoRepeats(Hashes(controls));
      if !distinct { return None; }
      var groups, skipped := GroupControls(controls);
      var joined := Applied([], [], [], [], skipped);
      for k := 0 to |accounts|
        invariant joined == Answers(gateway, skipped, Batches(controls, accounts[..k]))
      {
        BatchesStep(controls, accounts, k);
        assert accounts[k] in accounts;
        if accounts[k] in groups {
          var batch := Batch(accounts[k], groups[accounts[k]]);
          AnswersStep(gateway, skipped, Batches(controls, accounts[..k]), batch);
          joined := Joined(joined, gateway(batch));
        }
      }
      assert accounts[..|accounts|] == accounts;
      result := Some(joined);
    }
  }
}
