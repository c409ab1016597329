/** Private download notices: the durable delivery table and the cycle that claims, sends and
    advances, with a crash possible between any two steps. */
module Delivery {
  import opened Common

  /** Instants are microseconds. */
  const GRACE := 86_400_000_000

  /** How a timestamp text reads; `None` where parsing raises. */
  type Parser = string -> Option<int>

  datatype Item = Item(request: string, readyAt: string, warningAt: Option<string>, unsubscribeAt: string,
    member: string)

  datatype Kind = Ready | Warning

  /** A resubscription has a new ready time; only warnings depend on the deadline. */
  datatype Key =
    | ReadyKey(request: string, readyAt: string)
    | WarningKey(request: string, readyAt: string, deadline: string)

  function KeyOf(item: Item, kind: Kind): Key {
    match kind
    case Ready => ReadyKey(item.request, item.readyAt)
    case Warning => WarningKey(item.request, item.readyAt, item.unsubscribeAt)
  }

  datatype Page = Page(items: seq<Item>, nextAfter: Option<string>)

  /** Where the notification cycle stands. */
  datatype Position =
    | Idle
    | At(page: Page, k: nat)
    | Mark(page: Page, k: nat)
    | Claim(page: Page, k: nat, kind: Kind)
    | Send(page: Page, k: nat, kind: Kind)

  /** `delivered`, `preferences` and `cursor` are on disk; `clock` is the last time that was read. */
  datatype State = State(
    delivered: map<Key, int>,
    preferences: map<string, bool>,
    cursor: Option<string>,
    clock: int,
    position: Position)

  datatype Outcome = Confirmed | Ambiguous | Raised

  datatype Event =
    | Fetch(page: Page)
    | Look(now: int)
    | MarkReady
    | ClaimKind
    | SendMessage(outcome: Outcome)
    | Advance(now: int)
    | Crash
    | Toggle(member: string)

  predicate Enabled(preferences: map<string, bool>, member: string) {
    member !in preferences || preferences[member]
  }

  /** Insert or ignore, then raise the expiry. */
  function Claimed(delivered: map<Key, int>, key: Key, deadline: int): map<Key, int> {
    delivered[key := if key in delivered then Max(delivered[key], deadline) else deadline]
  }

  function Pruned(delivered: map<Key, int>, now: int): map<Key, int> {
    map key | key in delivered && !(delivered[key] < now - GRACE) :: delivered[key]
  }

  /** The item at hand, while one is. */
  predicate HasItem(p: Position) { !p.Idle? && p.k < |p.page.items| }

  function ItemAt(p: Position): Item
    requires HasItem(p)
  {
    p.page.items[p.k]
  }

  /** Where looking at an item leads: skip it, give up on unreadable data, or go on to claim. */
  function AfterLook(parse: Parser, preferences: map<string, bool>, page: Page, k: nat, now: int): Position
    requires k < |page.items|
  {
    var item := page.items[k];
    if !Enabled(preferences, item.member) then At(page, k + 1)
    else match parse(item.unsubscribeAt)
      case None => Idle
      case Some(deadline) =>
        if deadline <= now then At(page, k + 1)
        else match item.warningAt
          case None => Claim(page, k, Ready)
          case Some(text) =>
            match parse(text)
            case None => Idle
            case Some(due) => if due <= now then Mark(page, k) else Claim(page, k, Ready)
  }

  /** Which steps the cycle can take; toggles and crashes come at any time, and the clock never goes back. */
  predicate CanHappen(parse: Parser, s: State, e: Event) {
    match e
    case Fetch(_) => s.position.Idle?
    case Look(now) => s.position.At? && HasItem(s.position) && now >= s.clock
    case MarkReady => s.position.Mark? && HasItem(s.position) && parse(ItemAt(s.position).unsubscribeAt).Some?
    case ClaimKind => s.position.Claim? && HasItem(s.position) && parse(ItemAt(s.position).unsubscribeAt).Some?
    case SendMessage(_) => s.position.Send? && HasItem(s.position)
    case Advance(now) => s.position.At? && s.position.k == |s.position.page.items| && now >= s.clock
    case Crash => true
    case Toggle(_) => true
  }

  function Deadline(parse: Parser, p: Position): int
    requires HasItem(p) && parse(ItemAt(p).unsubscribeAt).Some?
  {
    parse(ItemAt(p).unsubscribeAt).value
  }

  function Next(parse: Parser, s: State, e: Event): State
    requires CanHappen(parse, s, e)
  {
    var p := s.position;
    match e
    case Fetch(page) => s.(position := At(page, 0))
    case Look(now) => s.(clock := now, position := AfterLook(parse, s.preferences, p.page, p.k, now))
    case MarkReady =>
      s.(delivered := Claimed(s.delivered, KeyOf(ItemAt(p), Ready), Deadline(parse, p)),
        position := Claim(p.page, p.k, Warning))
    case ClaimKind =>
      var key := KeyOf(ItemAt(p), p.kind);
      s.(delivered := Claimed(s.delivered, key, Deadline(parse, p)),
         position := if key in s.delivered then At(p.page, p.k + 1) else Send(p.page, p.k, p.kind))
    case SendMessage(outcome) => s.(position := if outcome == Raised then Idle else At(p.page, p.k + 1))
    case Advance(now) =>
      s.(clock := now, cursor := p.page.nextAfter, delivered := Pruned(s.delivered, now), position := Idle)
    case Crash => s.(position := Idle)
    case Toggle(member) => s.(preferences := s.preferences[member := !Enabled(s.preferences, member)])
  }

  /** The key a step sends a message for: however sending ends, the member may have got it. */
  function Sends(s: State, e: Event): Option<Key> {
    if e.SendMessage? && s.position.Send? && HasItem(s.position)
    then Some(KeyOf(ItemAt(s.position), s.position.kind))
    else None
  }

  /** The key a step claims, whether or not the claim is new. */
  function Claims(s: State, e: Event): Option<Key> {
    if !HasItem(s.position) then None
    else if e.MarkReady? && s.position.Mark? then Some(KeyOf(ItemAt(s.position), Ready))
    else if e.ClaimKind? && s.position.Claim? then Some(KeyOf(ItemAt(s.position), s.position.kind))
    else None
  }

  ghost predicate Run(parse: Parser, states: seq<State>, events: seq<Event>) {
    && |states| == |events| + 1
    && Sound(parse, states[0])
    && forall i {:trigger events[i]} :: 0 <= i < |events| ==>
         CanHappen(parse, states[i], events[i]) && states[i + 1] == Next(parse, states[i], events[i])
  }

  // ----- What every step keeps

  /** An item being claimed or sent has a deadline still ahead, and a key being sent is in the table. */
  ghost predicate Sound(parse: Parser, s: State) {
    var p := s.position;
    (p.Mark? || p.Claim? || p.Send?) ==>
      && HasItem(p)
      && parse(ItemAt(p).unsubscribeAt).Some? && s.clock < Deadline(parse, p)
      && (p.Send? ==> KeyOf(ItemAt(p), p.kind) in s.delivered)
      && (!p.Mark? && p.kind == Warning ==> KeyOf(ItemAt(p), Ready) in s.delivered)
  }

  /** A claim of `key` up to `deadline` is on record, or lapsed more than a day ago. */
  ghost predicate Covers(s: State, key: Key, deadline: int) {
    (key in s.delivered && s.delivered[key] >= deadline) || deadline + GRACE < s.clock
  }

  lemma SoundStep(parse: Parser, s: State, e: Event)
    requires Sound(parse, s) && CanHappen(parse, s, e)
    ensures Sound(parse, Next(parse, s, e))
  {
  }

  lemma CoversStep(parse: Parser, s: State, e: Event, key: Key, deadline: int)
    requires CanHappen(parse, s, e) && Covers(s, key, deadline)
    ensures Covers(Next(parse, s, e), key, deadline)
  {
  }

  lemma ClaimCovers(parse: Parser, s: State, e: Event)
    requires CanHappen(parse, s, e) && Claims(s, e).Some?
    ensures Covers(Next(parse, s, e), Claims(s, e).value, Deadline(parse, s.position))
  {
  }

  /** A key leaves the table only when an advance finds its expiry more than a day past. */
  lemma LeavesByLapse(parse: Parser, s: State, e: Event, key: Key)
    requires CanHappen(parse, s, e) && key in s.delivered && key !in Next(parse, s, e).delivered
    ensures e.Advance? && s.delivered[key] < e.now - GRACE
  {
  }

  ghost predicate Sending(s: State, key: Key) {
    s.position.Send? && HasItem(s.position) && KeyOf(ItemAt(s.position), s.position.kind) == key
  }

  /** Sending starts only from a claim of a key not in the table. */
  lemma SendingStarts(parse: Parser, s: State, e: Event, key: Key)
    requires CanHappen(parse, s, e) && !Sending(s, key) && Sending(Next(parse, s, e), key)
    ensures e.ClaimKind? && Claims(s, e) == Some(key) && key !in s.delivered
  {
  }

  lemma {:induction false} SoundAlways(parse: Parser, states: seq<State>, events: seq<Event>, i: nat)
    requires Run(parse, states, events) && i < |states|
    ensures Sound(parse, states[i])
  {
    if i == 0 {
    } else {
      SoundAlways(parse, states, events, i - 1);
      assert CanHappen(parse, states[i - 1], events[i - 1]);
      SoundStep(parse, states[i - 1], events[i - 1]);
    }
  }

  lemma {:induction false} CoversAlways(parse: Parser, states: seq<State>, events: seq<Event>, i: nat, j: nat, key: Key,
                                        deadline: int)
    requires Run(parse, states, events) && i <= j < |states| && Covers(states[i], key, deadline)
    ensures Covers(states[j], key, deadline)
  {
    if i == j {
    } else {
      CoversAlways(parse, states, events, i, j - 1, key, deadline);
      assert CanHappen(parse, states[j - 1], events[j - 1]);
      CoversStep(parse, states[j - 1], events[j - 1], key, deadline);
    }
  }

  // ----- Warnings

  /** A warning key that is settled: recorded and not being sent. */
  ghost predicate Settled(s: State, key: Key, deadline: int) {
    Covers(s, key, deadline) && !Sending(s, key)
  }

  lemma SettledStep(parse: Parser, s: State, e: Event, key: Key)
    requires Sound(parse, s) && CanHappen(parse, s, e)
    requires key.WarningKey? && parse(key.deadline).Some? && Settled(s, key, parse(key.deadline).value)
    ensures Settled(Next(parse, s, e), key, parse(key.deadline).value)
  {
    CoversStep(parse, s, e, key, parse(key.deadline).value);
    if Sending(Next(parse, s, e), key) {
      SendingStarts(parse, s, e, key);
    }
  }

  lemma {:induction false} SettledAlways(parse: Parser, states: seq<State>, events: seq<Event>, i: nat, j: nat,
                                         key: Key)
    requires Run(parse, states, events) && i <= j < |states|
    requires key.WarningKey? && parse(key.deadline).Some? && Settled(states[i], key, parse(key.deadline).value)
    ensures Settled(states[j], key, parse(key.deadline).value)
  {
    if i == j {
    } else {
      SettledAlways(parse, states, events, i, j - 1, key);
      SoundAlways(parse, states, events, j - 1);
      assert CanHappen(parse, states[j - 1], events[j - 1]);
      SettledStep(parse, states[j - 1], events[j - 1], key);
    }
  }

  /** A key being sent covers its own deadline: nothing lapses before it. */
  lemma SendSettles(parse: Parser, states: seq<State>, events: seq<Event>, i: nat, key: Key)
    requires Run(parse, states, events) && i < |events| && Sends(states[i], events[i]) == Some(key) && key.WarningKey?
    requires Recorded(parse, states[0])
    ensures parse(key.deadline).Some? && Settled(states[i + 1], key, parse(key.deadline).value)
  {
    SoundAlways(parse, states, events, i);
    RecordedAlways(parse, states, events, i);
    assert CanHappen(parse, states[i], events[i]);
  }

  /** A warning's expiry is never below its own deadline. */
  ghost predicate Recorded(parse: Parser, s: State) {
    forall key :: key in s.delivered && key.WarningKey? ==>
        parse(key.deadline).Some? && s.delivered[key] >= parse(key.deadline).value
  }

  lemma {:induction false} RecordedAlways(parse: Parser, states: seq<State>, events: seq<Event>, i: nat)
    requires Run(parse, states, events) && i < |states| && Recorded(parse, states[0])
    ensures Recorded(parse, states[i])
  {
    if i == 0 {
    } else {
      RecordedAlways(parse, states, events, i - 1);
      assert CanHappen(parse, states[i - 1], events[i - 1]);
    }
  }

  /** One warning for one request, ready time and deadline is sent at most once ever, whatever crashes,
      aborted pages and repeated pages come between. */
  lemma WarningSentOnce(parse: Parser, states: seq<State>, events: seq<Event>, i: nat, j: nat, key: Key)
    requires Run(parse, states, events) && Recorded(parse, states[0]) && i < j < |events| && key.WarningKey?
    requires Sends(states[i], events[i]) == Some(key)
    ensures Sends(states[j], events[j]) != Some(key)
  {
    SendSettles(parse, states, events, i, key);
    SettledAlways(parse, states, events, i + 1, j, key);
  }

  // ----- Ready notices

  /** Step `m` is an advance at which every deadline ever claimed for the key is over a day past. */
  ghost predicate AllLapsed(parse: Parser, states: seq<State>, events: seq<Event>, m: nat, key: Key)
    requires m < |events| < |states|
  {
    && events[m].Advance?
    && key in states[m].delivered && states[m].delivered[key] < events[m].now - GRACE
    && forall c {:trigger Claims(states[c], events[c])} :: 0 <= c < m && Claims(states[c], events[c]) == Some(key) ==>
         HasItem(states[c].position) && parse(ItemAt(states[c].position).unsubscribeAt).Some? &&
         Deadline(parse, states[c].position) < events[m].now - GRACE
  }

  lemma LapseIsTotal(parse: Parser, states: seq<State>, events: seq<Event>, m: nat, key: Key)
    requires Run(parse, states, events) && m < |events| && key in states[m].delivered && key !in states[m + 1].delivered
    ensures AllLapsed(parse, states, events, m, key)
  {
    assert CanHappen(parse, states[m], events[m]);
    LeavesByLapse(parse, states[m], events[m], key);
    forall c {:trigger Claims(states[c], events[c])} | 0 <= c < m && Claims(states[c], events[c]) == Some(key)
      ensures HasItem(states[c].position) && parse(ItemAt(states[c].position).unsubscribeAt).Some? &&
              Deadline(parse, states[c].position) < events[m].now - GRACE
    {
      assert CanHappen(parse, states[c], events[c]);
      ClaimCovers(parse, states[c], events[c]);
      CoversAlways(parse, states, events, c + 1, m, key, Deadline(parse, states[c].position));
    }
  }

  /** Sending a key that was on record and not being sent takes an advance in between that dropped it. */
  lemma {:induction false} SendNeedsLapse(parse: Parser, states: seq<State>, events: seq<Event>, i: nat, j: nat,
                                          key: Key)
    requires Run(parse, states, events) && i <= j < |states|
    requires key in states[i].delivered && !Sending(states[i], key)
    requires key !in states[j].delivered || Sending(states[j], key)
    ensures exists m :: i <= m < j && AllLapsed(parse, states, events, m, key)
    decreases j
  {
    assert CanHappen(parse, states[j - 1], events[j - 1]);
    if key in states[j - 1].delivered && !Sending(states[j - 1], key) {
      if Sending(states[j], key) { SendingStarts(parse, states[j - 1], events[j - 1], key); }
      LapseIsTotal(parse, states, events, j - 1, key);
      assert AllLapsed(parse, states, events, j - 1, key);
    } else {
      SendNeedsLapse(parse, states, events, i, j - 1, key);
    }
  }

  /** Two READY messages for one request and ready time: in between, every deadline claimed so far for
      it had lapsed by more than a day. */
  lemma ReadyResentOnlyAfterLapse(parse: Parser, states: seq<State>, events: seq<Event>, i: nat, j: nat, key: Key)
    requires Run(parse, states, events) && i < j < |events|
    requires Sends(states[i], events[i]) == Some(key) && Sends(states[j], events[j]) == Some(key)
    ensures exists m :: i < m < j && AllLapsed(parse, states, events, m, key)
  {
    SoundAlways(parse, states, events, i);
    assert CanHappen(parse, states[i], events[i]);
    SendNeedsLapse(parse, states, events, i + 1, j, key);
  }

  /** No READY message after the red warning of the same period, unless the period was forgotten: every
      deadline claimed for it lapsed by more than a day. */
  lemma NoReadyAfterWarning(parse: Parser, states: seq<State>, events: seq<Event>, i: nat, j: nat, warning: Key)
    requires Run(parse, states, events) && i < j < |events| && warning.WarningKey?
    requires Sends(states[i], events[i]) == Some(warning)
    requires Sends(states[j], events[j]) == Some(ReadyKey(warning.request, warning.readyAt))
    ensures exists m :: i < m < j && AllLapsed(parse, states, events, m, ReadyKey(warning.request, warning.readyAt))
  {
    SoundAlways(parse, states, events, i);
    assert CanHappen(parse, states[i], events[i]);
    SendNeedsLapse(parse, states, events, i + 1, j, ReadyKey(warning.request, warning.readyAt));
  }

  // ----- Notices that are due are sent

  /** A member who wants notices, has access left and was not told yet is sent exactly one notice at the
      next look: the warning if it is due, the READY message otherwise. */
  lemma DueNoticeIsSent(parse: Parser, s: State, now: int)
    requires s.position.At? && HasItem(s.position) && s.clock <= now
    requires Enabled(s.preferences, ItemAt(s.position).member)
    requires parse(ItemAt(s.position).unsubscribeAt).Some? && now < Deadline(parse, s.position)
    requires ItemAt(s.position).warningAt.Some? ==> parse(ItemAt(s.position).warningAt.value).Some?
    ensures var item, p := ItemAt(s.position), s.position;
            var due := item.warningAt.Some? && parse(item.warningAt.value).value <= now;
            var kind := if due then Warning else Ready;
            var s1 := Next(parse, s, Look(now));
            var s2 := if due then (assert CanHappen(parse, s1, MarkReady); Next(parse, s1, MarkReady)) else s1;
            && CanHappen(parse, s2, ClaimKind)
            && var s3 := Next(parse, s2, ClaimKind);
               s3.position == if KeyOf(item, kind) in s.delivered then At(p.page, p.k + 1) else Send(p.page, p.k, kind)
  {
  }

  // ----- Who is sent what, and when the cursor moves

  /** Step j looked at item k of the page, found its member willing to be told and its deadline ahead, and found
      a notice of this kind due: a warning exactly when its time has come. */
  ghost predicate Looked(parse: Parser, states: seq<State>, events: seq<Event>, j: nat, page: Page, k: nat, kind: Kind)
    requires j < |events| < |states|
  {
    && events[j].Look? && states[j].position == At(page, k) && k < |page.items|
    && var item := page.items[k];
       && (item.member in states[j].preferences ==> states[j].preferences[item.member])
       && parse(item.unsubscribeAt).Some? && events[j].now < parse(item.unsubscribeAt).value
       && (kind == Warning <==>
             item.warningAt.Some? && parse(item.warningAt.value).Some? &&
               parse(item.warningAt.value).value <= events[j].now)
  }

  /** No page was fetched and no crash came between two steps. */
  ghost predicate SamePage(events: seq<Event>, j: nat, i: nat)
    requires i <= |events|
  {
    forall m {:trigger events[m]} :: j < m < i ==> !events[m].Fetch? && !events[m].Crash?
  }

  ghost predicate LookedBefore(parse: Parser, states: seq<State>, events: seq<Event>, i: nat, page: Page, k: nat,
                               kind: Kind)
    requires i <= |events| < |states|
  {
    exists j: nat :: j < i && Looked(parse, states, events, j, page, k, kind) && SamePage(events, j, i)
  }

  /** The kind that is on its way while an item is marked, claimed or sent. */
  function Under(p: Position): Option<Kind> {
    match p
    case Mark(_, _) => Some(Warning)
    case Claim(_, _, kind) => Some(kind)
    case Send(_, _, kind) => Some(kind)
    case _ => None
  }

  lemma UnderStep(parse: Parser, states: seq<State>, events: seq<Event>, i: nat)
    requires Run(parse, states, events) && i < |events| && Under(states[i + 1].position).Some?
    ensures var p, p' := states[i].position, states[i + 1].position;
            || Looked(parse, states, events, i, p'.page, p'.k, Under(p').value)
            || (&& !events[i].Fetch? && !events[i].Crash?
                && Under(p) == Under(p') && p.page == p'.page && p.k == p'.k)
  {
    assert CanHappen(parse, states[i], events[i]);
  }

  lemma {:induction false} UnderWasLooked(parse: Parser, states: seq<State>, events: seq<Event>, i: nat)
    requires Run(parse, states, events) && states[0].position.Idle? && i < |states| && Under(states[i].position).Some?
    ensures var p := states[i].position; LookedBefore(parse, states, events, i, p.page, p.k, Under(p).value)
  {
    if i == 0 {
    } else {
      var p := states[i].position;
      UnderStep(parse, states, events, i - 1);
      if Looked(parse, states, events, i - 1, p.page, p.k, Under(p).value) {
        assert SamePage(events, i - 1, i);
      } else {
        UnderWasLooked(parse, states, events, i - 1);
        var j: nat :| j < i - 1 && Looked(parse, states, events, j, p.page, p.k, Under(p).value) &&
                      SamePage(events, j, i - 1);
        assert SamePage(events, j, i);
      }
    }
  }

  /** Over any run: a message is sent only for an item that was looked at since its page was fetched and the
      bot last crashed, whose member had notices on at that look, whose deadline was ahead, and for the kind due. */
  lemma SentOnlyToTheWilling(parse: Parser, states: seq<State>, events: seq<Event>, i: nat)
    requires Run(parse, states, events) && states[0].position.Idle? && i < |events|
    requires Sends(states[i], events[i]).Some?
    ensures var p := states[i].position;
            && p.Send? && p.k < |p.page.items| && Sends(states[i], events[i]) == Some(KeyOf(p.page.items[p.k], p.kind))
            && LookedBefore(parse, states, events, i, p.page, p.k, p.kind)
  {
    UnderWasLooked(parse, states, events, i);
  }

  ghost predicate Muted(s: State, member: string) { member in s.preferences && !s.preferences[member] }

  /** A member who keeps notices off from the fetch of a page on is sent nothing from that page. */
  lemma MutedGetsNothing(parse: Parser, states: seq<State>, events: seq<Event>, a: nat, i: nat, member: string)
    requires Run(parse, states, events) && states[0].position.Idle? && a < i < |events| && events[a].Fetch?
    requires forall m :: a <= m <= i ==> Muted(states[m], member)
    requires Sends(states[i], events[i]).Some?
    ensures ItemAt(states[i].position).member != member
  {
    SentOnlyToTheWilling(parse, states, events, i);
    var p := states[i].position;
    var j: nat :| j < i && Looked(parse, states, events, j, p.page, p.k, p.kind) && SamePage(events, j, i);
    assert a <= j;
    assert Muted(states[j], member);
  }

  /** Only an advance moves the cursor: an aborted cycle or a crash leaves it. */
  lemma CursorStays(parse: Parser, s: State, e: Event)
    requires CanHappen(parse, s, e) && !e.Advance?
    ensures Next(parse, s, e).cursor == s.cursor
  {
  }

  /** Some step since the fetch at step f looked at item q of the page. */
  ghost predicate Visited(states: seq<State>, events: seq<Event>, f: nat, i: nat, page: Page, q: nat)
    requires i <= |events| < |states|
  {
    exists m: nat :: f < m < i && events[m].Look? && states[m].position == At(page, q)
  }

  /** The page was fetched at step f, nothing fetched or crashed since, and the first n items were looked at. */
  ghost predicate Through(states: seq<State>, events: seq<Event>, f: nat, i: nat, page: Page, n: nat)
    requires i <= |events| < |states|
  {
    && f < i && events[f] == Fetch(page) && SamePage(events, f, i)
    && forall q: nat :: q < n ==> Visited(states, events, f, i, page, q)
  }

  ghost predicate CameThrough(states: seq<State>, events: seq<Event>, i: nat, page: Page, n: nat)
    requires i <= |events| < |states|
  {
    exists f: nat :: Through(states, events, f, i, page, n)
  }

  /** How many items of its page a position has behind it. */
  function Behind(p: Position): nat
    requires !p.Idle?
  {
    if p.At? then p.k else p.k + 1
  }

  lemma BehindStep(parse: Parser, states: seq<State>, events: seq<Event>, i: nat)
    requires Run(parse, states, events) && i < |events| && !states[i + 1].position.Idle?
    ensures var p, p' := states[i].position, states[i + 1].position;
            if events[i].Fetch? then p' == At(events[i].page, 0)
            else && !p.Idle? && !events[i].Crash? && p'.page == p.page && Behind(p') <= Behind(p) + 1
                 && (Behind(p') > Behind(p) ==> events[i].Look? && p == At(p.page, Behind(p)))
  {
    assert CanHappen(parse, states[i], events[i]);
  }

  lemma ThroughStep(states: seq<State>, events: seq<Event>, f: nat, i: nat, page: Page, n: nat, n': nat)
    requires i < |events| < |states| && Through(states, events, f, i, page, n) && n' <= n + 1
    requires !events[i].Fetch? && !events[i].Crash?
    requires n' > n ==> events[i].Look? && states[i].position == At(page, n)
    ensures Through(states, events, f, i + 1, page, n')
  {
    var next := i + 1;
    forall q: nat | q < n' ensures Visited(states, events, f, next, page, q) {
      if q < n {
        assert Visited(states, events, f, i, page, q);
        var m: nat :| f < m < i && events[m].Look? && states[m].position == At(page, q);
        assert f < m < next && events[m].Look?;
      } else {
        assert f < i < next && events[i].Look?;
      }
    }
  }

  lemma {:induction false} PositionCameThrough(parse: Parser, states: seq<State>, events: seq<Event>, i: nat)
    requires Run(parse, states, events) && states[0].position.Idle? && i < |states| && !states[i].position.Idle?
    ensures var p := states[i].position; CameThrough(states, events, i, p.page, Behind(p))
  {
    if i == 0 {
    } else {
      var p := states[i].position;
      BehindStep(parse, states, events, i - 1);
      if events[i - 1].Fetch? {
        assert Through(states, events, i - 1, i, p.page, 0);
      } else {
        var before := states[i - 1].position;
        PositionCameThrough(parse, states, events, i - 1);
        var f: nat :| Through(states, events, f, i - 1, before.page, Behind(before));
        ThroughStep(states, events, f, i - 1, p.page, Behind(before), Behind(p));
      }
    }
  }

  /** Over any run: the cursor moves only to the end of a page that was fetched, every item of which was looked
      at since, with no crash in between. */
  lemma CursorFollowsWholePages(parse: Parser, states: seq<State>, events: seq<Event>, i: nat)
    requires Run(parse, states, events) && states[0].position.Idle? && i < |events|
    ensures if events[i].Advance?
            then exists page: Page :: states[i + 1].cursor == page.nextAfter &&
                                CameThrough(states, events, i, page, |page.items|)
            else states[i + 1].cursor == states[i].cursor
  {
    assert CanHappen(parse, states[i], events[i]);
    if events[i].Advance? {
      PositionCameThrough(parse, states, events, i);
      var page := states[i].position.page;
      assert states[i + 1].cursor == page.nextAfter && CameThrough(states, events, i, page, |page.items|);
    } else {
      CursorStays(parse, states[i], events[i]);
    }
  }

  /** An advance forgets exactly the notices whose expiry is more than a day past. */
  lemma AdvanceForgets(parse: Parser, s: State, now: int, key: Key)
    requires CanHappen(parse, s, Advance(now))
    ensures var s' := Next(parse, s, Advance(now));
            && (key in s'.delivered <==> key in s.delivered && s.delivered[key] + 24 * 3600 * 1_000_000 >= now)
            && (key in s'.delivered ==> s'.delivered[key] == s.delivered[key])
  {
  }

  /** A toggle turns the notices of its member on or off, and no one else's. */
  lemma ToggleFlips(parse: Parser, s: State, member: string, other: string)
    ensures var s' := Next(parse, s, Toggle(member));
            && (Muted(s', member) <==> !Muted(s, member))
            && (other != member ==> (Muted(s', other) <==> Muted(s, other)))
            && s'.delivered == s.delivered && s'.cursor == s.cursor && s'.position == s.position
  {
  }

  // ----- Key texts

  /** The text that is hashed into the table's key. */
  function KeyText(key: Key): string {
    match key
    case ReadyKey(request, readyAt) => request + ":" + readyAt + ":ready"
    case WarningKey(request, readyAt, deadline) => request + ":" + readyAt + ":warning" + ":" + deadline
  }

  predicate Lower(c: char) { 'a' <= c <= 'z' }

  /** Request identifiers have no colon; timestamps have no lower-case letter. */
  ghost predicate WellFormed(key: Key) {
    && (forall i :: 0 <= i < |key.request| ==> key.request[i] != ':')
    && (forall i :: 0 <= i < |key.readyAt| ==> !Lower(key.readyAt[i]))
  }

  /** Two prefixes free of a kind of character, each followed by one of that kind, have one length. */
  lemma SameCut(a: string, b: string, x: string, y: string, stop: char -> bool)
    requires a + x == b + y && |x| > 0 && |y| > 0 && stop(x[0]) && stop(y[0])
    requires forall i :: 0 <= i < |a| ==> !stop(a[i])
    requires forall i :: 0 <= i < |b| ==> !stop(b[i])
    ensures a == b && x == y
  {
    assert (a + x)[|a|] == x[0] && (b + y)[|b|] == y[0];
    assert a == (a + x)[..|a|] && b == (b + y)[..|a|];
    assert x == (a + x)[|a|..] && y == (b + y)[|a|..];
  }

  function KindText(key: Key): string {
    match key
    case ReadyKey(_, _) => "ready"
    case WarningKey(_, _, deadline) => "warning" + ":" + deadline
  }

  lemma KeyTextParts(key: Key)
    ensures KeyText(key) == key.request + (":" + ((key.readyAt + ":") + KindText(key)))
  {
  }

  /** Different notices never share a key text. */
  lemma KeyTextsDiffer(a: Key, b: Key)
    requires WellFormed(a) && WellFormed(b) && KeyText(a) == KeyText(b)
    ensures a == b
  {
    KeyTextParts(a);
    KeyTextParts(b);
    var x, y := (a.readyAt + ":") + KindText(a), (b.readyAt + ":") + KindText(b);
    SameCut(a.request, b.request, ":" + x, ":" + y, c => c == ':');
    assert x == (":" + x)[1..] && y == (":" + y)[1..];
    SameCut(a.readyAt + ":", b.readyAt + ":", KindText(a), KindText(b), Lower);
    assert a.readyAt == (a.readyAt + ":")[..|a.readyAt|];
    assert KindText(a)[0] == if a.ReadyKey? then 'r' else 'w';
    assert KindText(b)[0] == if b.ReadyKey? then 'r' else 'w';
    if a.WarningKey? {
      assert a.deadline == KindText(a)[8..] && b.deadline == KindText(b)[8..];
    }
  }

  /** Both conditions are needed: with a colon in a request identifier, or lower-case letters in a ready
      time, different notices can share a key text. */
  lemma KeyTextsCanCollide()
    ensures KeyText(ReadyKey("a:b", "c")) == KeyText(ReadyKey("a", "b:c"))
    ensures KeyText(ReadyKey("a", "b:warning:c")) == KeyText(WarningKey("a", "b", "c:ready"))
  {
    assert "a:b" + ":" + "c" + ":ready" == "a" + ":" + "b:c" + ":ready";
    assert "a" + ":" + "b:warning:c" + ":ready" == "a" + ":" + "b" + ":warning" + ":" + "c:ready";
  }

  // ----- The table and the cycle

  function Last(states: seq<State>): State
    requires |states| > 0
  {
    states[|states| - 1]
  }

  ghost function SentBy(states: seq<State>, events: seq<Event>): seq<Key>
    requires |states| > |events|
  {
    if events == [] then []
    else
      var n := |events| - 1;
      SentBy(states, events[..n]) + (match Sends(states[n], events[n]) case Some(key) => [key] case None => [])
  }

  lemma {:induction false} SentByPrefix(a: seq<State>, b: seq<State>, events: seq<Event>)
    requires |a| > |events| && |b| > |events| && forall i :: 0 <= i < |events| ==> a[i] == b[i]
    ensures SentBy(a, events) == SentBy(b, events)
  {
    if events == [] {
    } else {
      SentByPrefix(a, b, events[..|events| - 1]);
    }
  }

  /** One uninterrupted cycle over the page: its fetch, then no other fetch, no crash and no toggle. */
  ghost predicate Orderly(events: seq<Event>, page: Page) {
    |events| > 0 &&
    if |events| == 1 then events[0] == Fetch(page)
    else
      var e := events[|events| - 1];
      Orderly(events[..|events| - 1], page) && !e.Fetch? && !e.Crash? && !e.Toggle?
  }

  /** A run as the cycle records it. */
  datatype Trace = Trace(states: seq<State>, events: seq<Event>)

  /** A run that started in `first`, reached `last` and sent `sent`. */
  ghost predicate Journey(parse: Parser, first: State, t: Trace, last: State, sent: seq<Key>) {
    Run(parse, t.states, t.events) && t.states[0] == first && Last(t.states) == last &&
      SentBy(t.states, t.events) == sent
  }

  ghost function Extend(parse: Parser, t: Trace, last: State, e: Event): Trace
    requires CanHappen(parse, last, e)
  {
    Trace(t.states + [Next(parse, last, e)], t.events + [e])
  }

  lemma OneMore(parse: Parser, first: State, t: Trace, last: State, sent: seq<Key>, e: Event)
    requires Journey(parse, first, t, last, sent) && CanHappen(parse, last, e)
    ensures Journey(parse, first, Extend(parse, t, last, e), Next(parse, last, e),
                    sent + (match Sends(last, e) case Some(key) => [key] case None => []))
  {
    var longer, more := t.states + [Next(parse, last, e)], t.events + [e];
    assert more[..|t.events|] == t.events;
    SentByPrefix(t.states, longer, t.events);
    forall i {:trigger more[i]} | 0 <= i < |more|
      ensures CanHappen(parse, longer[i], more[i]) && longer[i + 1] == Next(parse, longer[i], more[i])
    {
      if i < |t.events| { assert CanHappen(parse, t.states[i], t.events[i]); }
    }
  }

  lemma OrderlyMore(parse: Parser, t: Trace, last: State, e: Event, page: Page)
    requires CanHappen(parse, last, e) && Orderly(t.events, page) && !e.Fetch? && !e.Crash? && !e.Toggle?
    ensures Orderly(Extend(parse, t, last, e).events, page)
  {
    assert (t.events + [e])[..|t.events|] == t.events;
  }

  /** A step that sends nothing. */
  lemma QuietStep(parse: Parser, first: State, t: Trace, last: State, sent: seq<Key>, e: Event)
    requires Journey(parse, first, t, last, sent) && CanHappen(parse, last, e) && !e.SendMessage?
    ensures Journey(parse, first, Extend(parse, t, last, e), Next(parse, last, e), sent)
  {
    OneMore(parse, first, t, last, sent, e);
    assert sent + [] == sent;
  }

  lemma ClaimStep(parse: Parser, s: State, page: Page, k: nat, kind: Kind, deadline: int)
    requires k < |page.items| && parse(page.items[k].unsubscribeAt) == Some(deadline) &&
             s.position == Claim(page, k, kind)
    ensures CanHappen(parse, s, ClaimKind)
    ensures var key := KeyOf(page.items[k], kind);
            Next(parse, s, ClaimKind)
            == State(Claimed(s.delivered, key, deadline), s.preferences, s.cursor, s.clock,
                     if key in s.delivered then At(page, k + 1) else Send(page, k, kind))
  {
  }

  /** The journey through a claim of item `k`. */
  lemma ClaimJourney(parse: Parser, first: State, t: Trace, s: State, sent: seq<Key>, page: Page, k: nat, kind: Kind,
                     deadline: int, after: State)
    requires k < |page.items| && parse(page.items[k].unsubscribeAt) == Some(deadline)
    requires s.position == Claim(page, k, kind) && Journey(parse, first, t, s, sent) && Orderly(t.events, page)
    requires var key := KeyOf(page.items[k], kind);
             after == State(Claimed(s.delivered, key, deadline), s.preferences, s.cursor, s.clock,
                            if key in s.delivered then At(page, k + 1) else Send(page, k, kind))
    ensures CanHappen(parse, s, ClaimKind) && Orderly(Extend(parse, t, s, ClaimKind).events, page)
    ensures Journey(parse, first, Extend(parse, t, s, ClaimKind), after, sent)
  {
    ClaimStep(parse, s, page, k, kind, deadline);
    QuietStep(parse, first, t, s, sent, ClaimKind);
    OrderlyMore(parse, t, s, ClaimKind, page);
  }

  /** The journey through a message about item `k`. */
  lemma SendJourney(parse: Parser, first: State, t: Trace, s: State, sent: seq<Key>, outcome: Outcome, page: Page,
                    k: nat, kind: Kind)
    requires k < |page.items| && s.position == Send(page, k, kind) && Journey(parse, first, t, s, sent)
    ensures CanHappen(parse, s, SendMessage(outcome))
    ensures Journey(parse, first, Extend(parse, t, s, SendMessage(outcome)),
                    State(s.delivered, s.preferences, s.cursor, s.clock, if outcome != Raised then At(page, k + 1)
                      else Idle),
                    sent + [KeyOf(page.items[k], kind)])
  {
    OneMore(parse, first, t, s, sent, SendMessage(outcome));
  }

  class DeliveryState {
    var delivered: map<Key, int>
    var preferences: map<string, bool>
    var cursor: Option<string>

    ghost function View(clock: int, position: Position): State
      reads this
    {
      State(delivered, preferences, cursor, clock, position)
    }

    constructor ()
      ensures delivered == map[] && preferences == map[] && cursor == None
    {
      delivered, preferences, cursor := map[], map[], None;
    }

    method ToggleMember(member: string) returns (enabled: bool)
      modifies this
      ensures forall clock, position ::
                View(clock, position) == Next(_ => None, old(View(clock, position)), Toggle(member))
      ensures enabled == Enabled(preferences, member) == !Enabled(old(preferences), member)
    {
      enabled := !Enabled(preferences, member);
      preferences := preferences[member := enabled];
    }

    method AdvanceCursor(value: Option<string>, now: int)
      modifies this
      ensures cursor == value && delivered == Pruned(old(delivered), now) && preferences == old(preferences)
    {
      cursor := value;
      delivered := map key | key in delivered && delivered[key] >= now - GRACE :: delivered[key];
    }

    method ClaimKey(item: Item, kind: Kind, deadline: int) returns (inserted: bool)
      modifies this
      ensures delivered == Claimed(old(delivered), KeyOf(item, kind), deadline)
      ensures inserted <==> KeyOf(item, kind) !in old(delivered)
      ensures preferences == old(preferences) && cursor == old(cursor)
    {
      var key := KeyOf(item, kind);
      inserted := key !in delivered;
      if inserted { delivered := delivered[key := deadline]; }
      if delivered[key] < deadline { delivered := delivered[key := deadline]; }
    }
  }

  /** The member has notices off, or the deadline is readable and gone by. */
  ghost predicate Passed(parse: Parser, preferences: map<string, bool>, item: Item, now: int) {
    || (item.member in preferences && !preferences[item.member])
    || (parse(item.unsubscribeAt).Some? && parse(item.unsubscribeAt).value <= now)
  }

  /** The item is not passed over, and one of its times cannot be read. */
  ghost predicate Unreadable(parse: Parser, preferences: map<string, bool>, item: Item, now: int) {
    && !Passed(parse, preferences, item, now)
    && (parse(item.unsubscribeAt).None? || (item.warningAt.Some? && parse(item.warningAt.value).None?))
  }

  class RegistrationBot {
    const deliveries: DeliveryState

    constructor (deliveries: DeliveryState)
      ensures this.deliveries == deliveries
    {
      this.deliveries := deliveries;
    }

    /** Claims the notice of the item at hand and, if the claim is new, sends it. */
    method ClaimAndSend(parse: Parser, page: Page, k: nat, kind: Kind, deadline: int, outcome: Outcome,
                        before: seq<Key>, ghost clock: int, ghost first: State, ghost soFar: Trace)
      returns (goOn: bool, sent: seq<Key>, ghost trace: Trace)
      requires k < |page.items| && parse(page.items[k].unsubscribeAt) == Some(deadline)
      requires Orderly(soFar.events, page) &&
               Journey(parse, first, soFar, deliveries.View(clock, Claim(page, k, kind)), before)
      modifies deliveries
      ensures Journey(parse, first, trace, deliveries.View(clock, if goOn then At(page, k + 1) else Idle), sent)
      ensures Orderly(trace.events, page)
      ensures deliveries.preferences == old(deliveries.preferences) && deliveries.cursor == old(deliveries.cursor)
      ensures var key := KeyOf(page.items[k], kind);
              if key in old(deliveries.delivered) then sent == before && goOn
              else sent == before + [key] && (goOn <==> outcome != Raised)
    {
      goOn, sent := true, before;
      ghost var s := deliveries.View(clock, Claim(page, k, kind));
      var inserted := deliveries.ClaimKey(page.items[k], kind, deadline);
      ClaimJourney(parse, first, soFar, s, sent, page, k, kind, deadline,
                   deliveries.View(clock, if inserted then Send(page, k, kind) else At(page, k + 1)));
      trace := Extend(parse, soFar, s, ClaimKind);
      if inserted {
        goOn, sent, trace := SendNotice(parse, page, k, kind, outcome, before, clock, first, trace);
      }
    }

    /** Sends a claimed notice: only an error other than the service's own ends the cycle. */
    method SendNotice(parse: Parser, page: Page, k: nat, kind: Kind, outcome: Outcome, before: seq<Key>,
                      ghost clock: int, ghost first: State, ghost soFar: Trace)
      returns (goOn: bool, sent: seq<Key>, ghost trace: Trace)
      requires k < |page.items|
      requires Orderly(soFar.events, page) &&
               Journey(parse, first, soFar, deliveries.View(clock, Send(page, k, kind)), before)
      ensures Journey(parse, first, trace, deliveries.View(clock, if goOn then At(page, k + 1) else Idle), sent)
      ensures Orderly(trace.events, page)
      ensures sent == before + [KeyOf(page.items[k], kind)] && (goOn <==> outcome != Raised)
    {
      ghost var s := deliveries.View(clock, Send(page, k, kind));
      SendJourney(parse, first, soFar, s, before, outcome, page, k, kind);
      OrderlyMore(parse, soFar, s, SendMessage(outcome), page);
      trace := Extend(parse, soFar, s, SendMessage(outcome));
      sent := before + [KeyOf(page.items[k], kind)];
      goOn := outcome != Raised;
    }

    /** Looks at one item: a member with notices off or a deadline gone by is passed over, unreadable data ends
        the cycle, and anyone else is sent the notice due unless it is on record. */
    method VisitItem(parse: Parser, page: Page, k: nat, now: int, outcome: Outcome, before: seq<Key>,
                     ghost clock: int, ghost first: State, ghost soFar: Trace)
      returns (goOn: bool, sent: seq<Key>, ghost trace: Trace)
      requires k < |page.items| && clock <= now
      requires Orderly(soFar.events, page) && Journey(parse, first, soFar, deliveries.View(clock, At(page, k)), before)
      modifies deliveries
      ensures Journey(parse, first, trace, deliveries.View(now, if goOn then At(page, k + 1) else Idle), sent)
      ensures Orderly(trace.events, page)
      ensures deliveries.preferences == old(deliveries.preferences) && deliveries.cursor == old(deliveries.cursor)
      ensures Passed(parse, old(deliveries.preferences), page.items[k], now) ==>
                goOn && sent == before && deliveries.delivered == old(deliveries.delivered)
      ensures Unreadable(parse, old(deliveries.preferences), page.items[k], now) ==>
                !goOn && sent == before && deliveries.delivered == old(deliveries.delivered)
      ensures !Passed(parse, old(deliveries.preferences), page.items[k], now) &&
              !Unreadable(parse, old(deliveries.preferences), page.items[k], now) ==>
                var item := page.items[k];
                var due := item.warningAt.Some? && parse(item.warningAt.value).value <= now;
                var key := KeyOf(item, if due then Warning else Ready);
                if key in old(deliveries.delivered) then sent == before && goOn
                else sent == before + [key] && (goOn <==> outcome != Raised)
    {
      var item := page.items[k];
      sent := before;
      ghost var s := deliveries.View(clock, At(page, k));
      QuietStep(parse, first, soFar, s, sent, Look(now));
      OrderlyMore(parse, soFar, s, Look(now), page);
      trace := Extend(parse, soFar, s, Look(now));
      if !Enabled(deliveries.preferences, item.member) { return true, sent, trace; }
      var deadline := parse(item.unsubscribeAt);
      if deadline == None { return false, sent, trace; }
      if deadline.value <= now { return true, sent, trace; }
      var warning := false;
      if item.warningAt.Some? {
        var due := parse(item.warningAt.value);
        if due == None { return false, sent, trace; }
        warning := due.value <= now;
      }
      if warning {
        s := deliveries.View(now, Mark(page, k));
        QuietStep(parse, first, trace, s, sent, MarkReady);
        OrderlyMore(parse, trace, s, MarkReady, page);
        trace := Extend(parse, trace, s, MarkReady);
        var _ := deliveries.ClaimKey(item, Ready, deadline.value);
      }
      var kind := if warning then Warning else Ready;
      goOn, sent, trace :=
        ClaimAndSend(parse, page, k, kind, deadline.value, outcome, sent, now, first, trace);
    }

    /** One cycle over a fetched page, whose clock readings and sending outcomes are given, is an uninterrupted
        run of the step machine from one idle position to the next, and sends what that run sends. A completed
        cycle stores where the page ends; one that is broken off leaves the cursor. */
    method NotificationCycle(parse: Parser, page: Page, now: seq<int>, outcomes: seq<Outcome>, ghost clock: int)
      returns (completed: bool, sent: seq<Key>, ghost trace: Trace, ghost end: int)
      requires |now| == |page.items| + 1 && |outcomes| == |page.items|
      requires clock <= now[0] && forall i {:trigger now[i]} :: 0 < i < |now| ==> now[i - 1] <= now[i]
      modifies deliveries
      ensures Journey(parse, old(deliveries.View(clock, Idle)), trace, deliveries.View(end, Idle), sent)
      ensures Orderly(trace.events, page)
      ensures deliveries.cursor == if completed then page.nextAfter else old(deliveries.cursor)
      ensures deliveries.preferences == old(deliveries.preferences)
    {
      completed, sent, end := false, [], clock;
      ghost var first := deliveries.View(clock, Idle);
      trace := Trace([first], []);
      QuietStep(parse, first, trace, first, sent, Fetch(page));
      trace := Extend(parse, trace, first, Fetch(page));
      for k := 0 to |page.items|
        invariant Journey(parse, first, trace, deliveries.View(end, At(page, k)), sent)
        invariant Orderly(trace.events, page)
        invariant deliveries.cursor == old(deliveries.cursor) && deliveries.preferences == old(deliveries.preferences)
        invariant end <= now[k]
      {
        var goOn;
        goOn, sent, trace := VisitItem(parse, page, k, now[k], outcomes[k], sent, end, first, trace);
        end := now[k];
        if !goOn { return; }
        assert now[k] <= now[k + 1];
      }
      ghost var s := deliveries.View(end, At(page, |page.items|));
      end := now[|page.items|];
      QuietStep(parse, first, trace, s, sent, Advance(end));
      OrderlyMore(parse, trace, s, Advance(end), page);
      trace := Extend(parse, trace, s, Advance(end));
      deliveries.AdvanceCursor(page.nextAfter, now[|page.items|]);
      completed := true;
    }
  }
}
