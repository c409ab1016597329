/** Backup retention: every point of the last fourteen days, plus the newest point of each of the
    eight latest ISO 8601 weeks. */
module Retention {
  import opened Common

  // ----- ISO 8601 weeks of proleptic Gregorian day ordinals (day 1 is a Monday)

  predicate IsLeap(year: nat) { year % 4 == 0 && (year % 100 != 0 || year % 400 == 0) }

  function DaysBefore(year: nat): nat
    requires year >= 1
  {
    if year == 1 then 0 else DaysBefore(year - 1) + (if IsLeap(year - 1) then 366 else 365)
  }

  function YearFrom(day: nat, year: nat): (y: nat)
    requires year >= 1 && DaysBefore(year) < day
    ensures y >= 1 && DaysBefore(y) < day <= DaysBefore(y + 1)
    decreases day - DaysBefore(year)
  {
    if day <= DaysBefore(year + 1) then year else YearFrom(day, year + 1)
  }

  /** The Monday of ISO week 1: the week holding the year's first Thursday. */
  function MondayNear(first: int): (m: int)
    ensures first - 3 <= m <= first + 3
  {
    var weekday := (first + 6) % 7;
    if weekday > 3 then first - weekday + 7 else first - weekday
  }

  function Week1Monday(year: nat): int
    requires year >= 1
  {
    MondayNear(DaysBefore(year) + 1)
  }

  datatype IsoWeek = IsoWeek(year: nat, week: int)

  function IsoCalendar(day: nat): IsoWeek
    requires day >= 1
  {
    IsoFrom(day, YearFrom(day, 1))
  }

  /** The ISO week of a day of calendar year `year`: it may belong to a neighbouring ISO year. */
  function IsoFrom(day: nat, year: nat): IsoWeek
    requires year >= 1
  {
    var week := (day - Week1Monday(year)) / 7;
    if week < 0 then
      if year == 1 then IsoWeek(0, week + 1) else IsoWeek(year - 1, (day - Week1Monday(year - 1)) / 7 + 1)
    else if week >= 52 && day >= Week1Monday(year + 1) then IsoWeek(year + 1, 1)
    else IsoWeek(year, week + 1)
  }

  /** Days since day 1, in whole weeks. */
  function WeekIndex(day: int): int { (day - 1) / 7 }

  lemma MondayIsMonday(first: int)
    ensures MondayNear(first) == 7 * WeekIndex(MondayNear(first)) + 1
  {
    var q, weekday := (first + 6) / 7, (first + 6) % 7;
    assert first == 7 * (q - 1) + 1 + weekday;
  }

  lemma DivShift(a: int, k: int)
    ensures (a - 7 * k) / 7 == a / 7 - k
  {
    var q, r := a / 7, a % 7;
    assert a - 7 * k == 7 * (q - k) + r;
  }

  /** Weeks counted from an ISO Monday are differences of week indices. */
  lemma WeeksFrom(day: int, year: nat)
    requires year >= 1
    ensures (day - Week1Monday(year)) / 7 == WeekIndex(day) - WeekIndex(Week1Monday(year))
  {
    MondayIsMonday(DaysBefore(year) + 1);
    DivShift(day - 1, WeekIndex(Week1Monday(year)));
  }

  /** A day is on or after an ISO Monday exactly when its week is. */
  lemma OnOrAfterMonday(day: int, year: nat)
    requires year >= 1
    ensures day >= Week1Monday(year) <==> WeekIndex(day) >= WeekIndex(Week1Monday(year))
  {
    MondayIsMonday(DaysBefore(year) + 1);
    var k, q := WeekIndex(Week1Monday(year)), WeekIndex(day);
    assert 7 * q <= day - 1 < 7 * q + 7;
  }

  function FirstWeek(year: nat): int
    requires year >= 1
  {
    WeekIndex(Week1Monday(year))
  }

  /** An ISO year has 52 or 53 weeks. */
  lemma IsoYearLength(year: nat)
    requires year >= 1
    ensures 52 <= FirstWeek(year + 1) - FirstWeek(year) <= 53
  {
    MondayIsMonday(DaysBefore(year) + 1);
    MondayIsMonday(DaysBefore(year + 1) + 1);
    assert 365 <= DaysBefore(year + 1) - DaysBefore(year) <= 366;
  }

  /** A day lies in the ISO year of its calendar year, or in one of its neighbours. */
  lemma NearbyIsoYear(day: nat, year: nat)
    requires day >= 1 && year >= 1 && DaysBefore(year) < day <= DaysBefore(year + 1)
    ensures WeekIndex(day) < FirstWeek(year + 2)
    ensures if year == 1 then FirstWeek(1) <= WeekIndex(day) else FirstWeek(year - 1) <= WeekIndex(day)
  {
    OnOrAfterMonday(day, year + 2);
    if year == 1 {
      OnOrAfterMonday(day, 1);
      assert Week1Monday(1) == 1;
    } else {
      OnOrAfterMonday(day, year - 1);
    }
  }

  lemma IsoFromBefore(day: nat, year: nat)
    requires year >= 2 && WeekIndex(day) < FirstWeek(year)
    ensures IsoFrom(day, year) == IsoWeek(year - 1, WeekIndex(day) - FirstWeek(year - 1) + 1)
  {
    WeeksFrom(day, year);
    WeeksFrom(day, year - 1);
  }

  lemma IsoFromWithin(day: nat, year: nat)
    requires year >= 1 && FirstWeek(year) <= WeekIndex(day) < FirstWeek(year + 1)
    ensures IsoFrom(day, year) == IsoWeek(year, WeekIndex(day) - FirstWeek(year) + 1)
  {
    WeeksFrom(day, year);
    OnOrAfterMonday(day, year + 1);
  }

  lemma IsoFromAfter(day: nat, year: nat)
    requires year >= 1 && FirstWeek(year + 1) <= WeekIndex(day)
    ensures IsoFrom(day, year) == IsoWeek(year + 1, 1)
  {
    WeeksFrom(day, year);
    OnOrAfterMonday(day, year + 1);
    IsoYearLength(year);
  }

  /** The ISO year is the one whose weeks contain the day, and the week counts from its first one. */
  lemma IsoCalendarPlaces(day: nat)
    requires day >= 1
    ensures var i := IsoCalendar(day);
            i.year >= 1 && FirstWeek(i.year) <= WeekIndex(day) < FirstWeek(i.year + 1) &&
              i.week == WeekIndex(day) - FirstWeek(i.year) + 1
  {
    var year := YearFrom(day, 1);
    NearbyIsoYear(day, year);
    if WeekIndex(day) < FirstWeek(year) {
      IsoFromBefore(day, year);
    } else if WeekIndex(day) < FirstWeek(year + 1) {
      IsoFromWithin(day, year);
    } else {
      IsoFromAfter(day, year);
      IsoYearBound(day, year);
    }
  }

  lemma IsoYearBound(day: nat, year: nat)
    requires day >= 1 && year >= 1 && DaysBefore(year) < day <= DaysBefore(year + 1) &&
             WeekIndex(day) >= FirstWeek(year + 1)
    ensures WeekIndex(day) == FirstWeek(year + 1)
  {
    MondayIsMonday(DaysBefore(year + 1) + 1);
    var q := WeekIndex(day);
    assert 7 * q <= day - 1;
  }

  lemma {:induction false} FirstWeekGrows(a: nat, b: nat)
    requires 1 <= a < b
    ensures FirstWeek(a + 1) <= FirstWeek(b)
    decreases b
  {
    if a + 1 < b {
      FirstWeekGrows(a, b - 1);
      IsoYearLength(b - 1);
    }
  }

  /** Two days share an ISO year and week exactly when they fall between the same two Mondays. */
  lemma SameIsoWeek(a: nat, b: nat)
    requires a >= 1 && b >= 1
    ensures IsoCalendar(a) == IsoCalendar(b) <==> WeekIndex(a) == WeekIndex(b)
  {
    IsoCalendarPlaces(a);
    IsoCalendarPlaces(b);
    var y, z := IsoCalendar(a).year, IsoCalendar(b).year;
    if y < z { FirstWeekGrows(y, z); } else if z < y { FirstWeekGrows(z, y); }
  }

  // ----- Retention

  const DAY := 86400
  const KEEP_DAYS := 14
  const KEEP_WEEKS := 8

  /** A verified backup: its second-resolution stamp (counted from midnight of day 1) and a name tag. */
  datatype Backup = Backup(stamp: nat, tag: nat)

  predicate Newer(a: Backup, b: Backup) { a.stamp > b.stamp || (a.stamp == b.stamp && a.tag > b.tag) }

  function DayOf(b: Backup): nat { b.stamp / DAY + 1 }

  function Week(b: Backup): IsoWeek { IsoCalendar(DayOf(b)) }

  ghost function WeeksNewer(s: set<Backup>, x: Backup): set<IsoWeek> {
    set y | y in s && Newer(y, x) :: Week(y)
  }

  predicate Recent(x: Backup, now: int) { x.stamp >= now - KEEP_DAYS * DAY }

  /** The newest point of its week, with fewer than eight weeks represented by newer points. */
  ghost predicate Weekly(s: set<Backup>, x: Backup) {
    Week(x) !in WeeksNewer(s, x) && |WeeksNewer(s, x)| < KEEP_WEEKS
  }

  ghost function Keep(s: set<Backup>, now: int): set<Backup> {
    set x | x in s && (Recent(x, now) || Weekly(s, x))
  }

  lemma WeeksGrow(a: set<Backup>, b: set<Backup>, x: Backup)
    requires a <= b
    ensures WeeksNewer(a, x) <= WeeksNewer(b, x) && |WeeksNewer(a, x)| <= |WeeksNewer(b, x)|
  {
    SubsetSize(WeeksNewer(a, x), WeeksNewer(b, x));
  }

  lemma WeeksJoin(a: set<Backup>, b: set<Backup>, x: Backup)
    ensures WeeksNewer(a + b, x) == WeeksNewer(a, x) + WeeksNewer(b, x)
  {
  }

  ghost function NewerIn(s: set<Backup>, x: Backup): set<Backup> { set y | y in s && Newer(y, x) }

  /** The newest point of week `w` newer than `x`, given there is one. */
  lemma NewestOf(s: set<Backup>, x: Backup, w: IsoWeek) returns (y: Backup)
    requires w in WeeksNewer(s, x)
    ensures y in s && Newer(y, x) && Week(y) == w && w !in WeeksNewer(s, y)
    decreases |NewerIn(s, x)|
  {
    y :| y in s && Newer(y, x) && Week(y) == w;
    if w in WeeksNewer(s, y) {
      assert NewerIn(s, y) < NewerIn(s, x) by { assert y in NewerIn(s, x) && y !in NewerIn(s, y); }
      SubsetSize(NewerIn(s, y), NewerIn(s, x) - {y});
      y := NewestOf(s, y, w);
    }
  }

  /** Pruning forgets a week newer than `x` only when eight weeks newer than `x` stay represented. */
  lemma PruningKeepsWeeks(s: set<Backup>, now: int, x: Backup)
    ensures WeeksNewer(Keep(s, now), x) == WeeksNewer(s, x) || |WeeksNewer(Keep(s, now), x)| >= KEEP_WEEKS
    decreases |NewerIn(s, x)|
  {
    var k := Keep(s, now);
    WeeksGrow(k, s, x);
    if w :| w in WeeksNewer(s, x) && w !in WeeksNewer(k, x) {
      var y := NewestOf(s, x, w);
      assert y !in k;
      assert NewerIn(s, y) <= NewerIn(s, x) - {y} by { assert y in NewerIn(s, x) && y !in NewerIn(s, y); }
      SubsetSize(NewerIn(s, y), NewerIn(s, x) - {y});
      PruningKeepsWeeks(s, now, y);
      assert WeeksNewer(k, y) <= WeeksNewer(k, x);
      SubsetSize(WeeksNewer(k, y), WeeksNewer(k, x));
    }
  }

  /** Pruning early makes no difference: prune, add any points, prune again later, and what is left is
      what one prune of everything would leave. */
  lemma PruneThenPrune(s: set<Backup>, batch: set<Backup>, early: int, later: int)
    requires early <= later
    ensures Keep(Keep(s, early) + batch, later) == Keep(s + batch, later)
  {
    forall x ensures x in Keep(Keep(s, early) + batch, later) <==> x in Keep(s + batch, later) {
      SameFate(s, batch, early, later, x);
    }
  }

  lemma SameFate(s: set<Backup>, batch: set<Backup>, early: int, later: int, x: Backup)
    requires early <= later
    ensures x in Keep(Keep(s, early) + batch, later) <==> x in Keep(s + batch, later)
  {
    var k := Keep(s, early);
    WeeksGrow(k + batch, s + batch, x);
    WeeksGrow(s, s + batch, x);
    if x in k + batch {
      WeeksJoin(k, batch, x);
      WeeksJoin(s, batch, x);
      PruningKeepsWeeks(s, early, x);
      WeeksGrow(k, k + batch, x);
    }
  }

  datatype Cycle = Cycle(batch: set<Backup>, now: int)

  /** New points arrive, then retention runs, over and over. */
  ghost function Incremental(cycles: seq<Cycle>): set<Backup> {
    if cycles == [] then {}
    else
      var last := cycles[|cycles| - 1];
      Keep(Incremental(cycles[..|cycles| - 1]) + last.batch, last.now)
  }

  ghost function Everything(cycles: seq<Cycle>): set<Backup> {
    if cycles == [] then {} else Everything(cycles[..|cycles| - 1]) + cycles[|cycles| - 1].batch
  }

  /** With a clock that never goes back, pruning after every batch leaves exactly what one prune of
      the whole history at the last time leaves. */
  lemma {:induction false} IncrementalIsOneShot(cycles: seq<Cycle>)
    requires cycles != []
    requires forall i, j :: 0 <= i < j < |cycles| ==> cycles[i].now <= cycles[j].now
    ensures Incremental(cycles) == Keep(Everything(cycles), cycles[|cycles| - 1].now)
  {
    var before, last := cycles[..|cycles| - 1], cycles[|cycles| - 1];
    if before != [] {
      IncrementalIsOneShot(before);
      PruneThenPrune(Everything(before), last.batch, before[|before| - 1].now, last.now);
    }
  }

  // ----- What the kept weeks are

  function IndexOf(b: Backup): int { WeekIndex(DayOf(b)) }

  ghost function LaterWeeks(s: set<Backup>, x: Backup): set<int> {
    set y | y in s && IndexOf(y) > IndexOf(x) :: IndexOf(y)
  }

  lemma IndexIsMonotone(a: Backup, b: Backup)
    requires a.stamp <= b.stamp
    ensures IndexOf(a) <= IndexOf(b)
  {
    var p, q := a.stamp / DAY, b.stamp / DAY;
    assert p <= q;
    assert p / 7 <= q / 7;
  }

  ghost function WeeksOf(s: set<Backup>): set<IsoWeek> { set y | y in s :: Week(y) }

  ghost function IndicesOf(s: set<Backup>): set<int> { set y | y in s :: IndexOf(y) }

  lemma WeekAdded(s: set<Backup>, x: Backup)
    ensures WeeksOf(s + {x}) == WeeksOf(s) + {Week(x)}
  {
  }

  lemma IndexAdded(s: set<Backup>, x: Backup)
    ensures IndicesOf(s + {x}) == IndicesOf(s) + {IndexOf(x)}
  {
  }

  lemma WeekIffIndex(s: set<Backup>, x: Backup)
    ensures Week(x) in WeeksOf(s) <==> IndexOf(x) in IndicesOf(s)
  {
    forall y | y in s ensures Week(y) == Week(x) <==> IndexOf(y) == IndexOf(x) { SameIsoWeek(DayOf(y), DayOf(x)); }
  }

  /** As many ISO weeks as week indices: each names the same span of seven days. */
  lemma {:induction false} SameCount(s: set<Backup>)
    ensures |WeeksOf(s)| == |IndicesOf(s)|
    decreases |s|
  {
    if s == {} {
    } else {
      var x :| x in s;
      var rest := s - {x};
      SameCount(rest);
      assert rest + {x} == s;
      WeekAdded(rest, x);
      IndexAdded(rest, x);
      WeekIffIndex(rest, x);
    }
  }

  /** A point outside the fourteen days is kept exactly when it is the newest of its ISO week and
      fewer than eight later weeks have a point. */
  lemma WeeklyMeansEightLatestWeeks(s: set<Backup>, x: Backup)
    ensures Weekly(s, x) <==>
            (forall y :: y in s && Newer(y, x) ==> IndexOf(y) != IndexOf(x)) && |LaterWeeks(s, x)| < KEEP_WEEKS
  {
    forall y | y in s ensures Week(y) == Week(x) <==> IndexOf(y) == IndexOf(x) { SameIsoWeek(DayOf(y), DayOf(x)); }
    assert Week(x) !in WeeksNewer(s, x) <==> (forall y :: y in s && Newer(y, x) ==> IndexOf(y) != IndexOf(x));
    if Week(x) !in WeeksNewer(s, x) {
      var newer := NewerIn(s, x);
      forall y | y in s ensures y in newer <==> IndexOf(y) > IndexOf(x) {
        if Newer(y, x) { IndexIsMonotone(x, y); } else { IndexIsMonotone(y, x); }
      }
      SameCount(newer);
      assert WeeksNewer(s, x) == WeeksOf(newer);
      assert LaterWeeks(s, x) == IndicesOf(newer);
    }
  }

  /** A point is kept exactly when it is at most fourteen days old, or the newest of its calendar week with fewer
      than eight later weeks that have a point. */
  lemma KeptIff(s: set<Backup>, now: int, x: Backup)
    ensures x in Keep(s, now) <==>
            && x in s
            && (|| now - x.stamp <= 14 * 86400
                || (&& (forall y :: y in s && IndexOf(y) == IndexOf(x) && y != x ==> Newer(x, y))
                    && |LaterWeeks(s, x)| < 8))
  {
    WeeklyMeansEightLatestWeeks(s, x);
    forall y | y in s && y != x ensures Newer(x, y) <==> !Newer(y, x) { }
  }

  // ----- The retention loop

  /** A directory entry: a backup whose manifest verifies, or anything else. */
  datatype Entry = Verified(backup: Backup) | Unknown(name: string)

  lemma NewestExists(s: set<Backup>)
    requires s != {}
    ensures exists x :: Newest(s, x)
    decreases |s|
  {
    var x :| x in s;
    var above := NewerIn(s, x);
    if above == {} {
      forall y | y in s && y != x ensures Newer(x, y) { assert y !in above; }
      assert Newest(s, x);
    } else {
      assert x !in above;
      SubsetSize(above, s - {x});
      NewestExists(above);
      var z :| Newest(above, z);
      forall y | y in s && y != z ensures Newer(z, y) { if y !in above { assert y == x || Newer(x, y); } }
      assert Newest(s, z);
    }
  }

  function PointsOf(entries: set<Entry>): set<Backup> { set e | e in entries && e.Verified? :: e.backup }

  ghost function UnknownOf(entries: set<Entry>): set<Entry> { set e | e in entries && e.Unknown? }

  ghost function Entries(unknown: set<Entry>, points: set<Backup>): set<Entry> {
    unknown + set x | x in points :: Verified(x)
  }

  lemma NothingVisited(entries: set<Entry>, points: set<Backup>, keep: set<Backup>)
    requires points == PointsOf(entries) && keep <= points
    ensures entries == Entries(UnknownOf(entries), points + keep) && WeeksOf(points - points) == {} &&
            Older(points, points)
  {
    forall e ensures e in entries <==> e in Entries(UnknownOf(entries), points + keep) {
      if e in entries && e.Verified? { assert e.backup in points; }
    }
  }

  lemma RemoveOrKeep(unknown: set<Entry>, candidates: set<Backup>, keep: set<Backup>, x: Backup)
    requires x in candidates && forall e: Entry :: e in unknown ==> e.Unknown?
    ensures Entries(unknown, candidates - {x} + keep) ==
            if x in keep then Entries(unknown, candidates + keep)
              else Entries(unknown, candidates + keep) - {Verified(x)}
  {
    if x in keep { assert candidates - {x} + keep == candidates + keep; }
    else { assert candidates - {x} + keep == candidates + keep - {x}; }
  }

  lemma AllVisited(unknown: set<Entry>, keep: set<Backup>)
    requires forall e: Entry :: e in unknown ==> e.Unknown?
    ensures UnknownOf(Entries(unknown, {} + keep)) == unknown && PointsOf(Entries(unknown, {} + keep)) == keep
  {
    forall x ensures x in PointsOf(Entries(unknown, {} + keep)) <==> x in keep {
      if x in keep { assert Verified(x) in Entries(unknown, {} + keep); }
    }
  }

  /** What remains to be visited is older than all that was. */
  ghost predicate Older(points: set<Backup>, candidates: set<Backup>) {
    candidates <= points && forall x, y :: x in points - candidates && y in candidates ==> Newer(x, y)
  }

  predicate Newest(s: set<Backup>, x: Backup) { x in s && forall y :: y in s && y != x ==> Newer(x, y) }

  lemma VisitNewest(points: set<Backup>, candidates: set<Backup>, x: Backup)
    requires Older(points, candidates) && Newest(candidates, x)
    ensures Older(points, candidates - {x})
    ensures points - (candidates - {x}) == points - candidates + {x}
    ensures NewerIn(points, x) == points - candidates
  {
  }

  lemma WeeksVisited(points: set<Backup>, candidates: set<Backup>, x: Backup)
    requires NewerIn(points, x) == points - candidates
    ensures WeeksNewer(points, x) == WeeksOf(points - candidates)
  {
    var n := NewerIn(points, x);
    assert WeeksOf(n) == set y | y in points && Newer(y, x) :: Week(y);
  }

  /** One visit decides the newest candidate as `Keep` does. */
  lemma VisitDecides(points: set<Backup>, candidates: set<Backup>, now: int, x: Backup)
    requires Older(points, candidates) && Newest(candidates, x)
    ensures Older(points, candidates - {x})
    ensures WeeksOf(points - (candidates - {x})) == WeeksOf(points - candidates) + {Week(x)}
    ensures x in Keep(points, now) <==>
            Recent(x, now) || (Week(x) !in WeeksOf(points - candidates) && |WeeksOf(points - candidates)| < KEEP_WEEKS)
  {
    VisitNewest(points, candidates, x);
    WeeksVisited(points, candidates, x);
    WeekAdded(points - candidates, x);
  }

  class BackupRoot {
    var entries: set<Entry>

    ghost function Points(): set<Backup>
      reads this
    {
      PointsOf(entries)
    }

    /** Visits verified points from the newest down, remembering the weeks seen. */
    method Retention(now: int)
      modifies this
      ensures Points() == Keep(old(Points()), now)
      ensures UnknownOf(entries) == UnknownOf(old(entries))
    {
      ghost var points, unknown, keep := Points(), UnknownOf(entries), Keep(Points(), now);
      var candidates := PointsOf(entries);
      var weeks: set<IsoWeek> := {};
      NothingVisited(entries, points, keep);
      while candidates != {}
        invariant Older(points, candidates)
        invariant weeks == WeeksOf(points - candidates)
        invariant entries == Entries(unknown, candidates + keep)
        decreases candidates
      {
        NewestExists(candidates);
        var x :| x in candidates && Newest(candidates, x);
        VisitDecides(points, candidates, now, x);
        var keepWeekly := Week(x) !in weeks && |weeks| < KEEP_WEEKS;
        weeks := weeks + {Week(x)};
        RemoveOrKeep(unknown, candidates, keep, x);
        if !Recent(x, now) && !keepWeekly {
          entries := entries - {Verified(x)};
        }
        candidates := candidates - {x};
      }
      AllVisited(unknown, keep);
    }
  }
}
