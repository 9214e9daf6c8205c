// The arithmetic of the seeded history: how a state plan is spread over days,
// how its facts are stamped, and how stamps of a running day are folded into
// the past. Days are ordinals (day 1 is a Monday), times are real minutes.
module SeedTimeline {
  import opened Common

  // ------------------------------------------------------------ the state plan

  const STATE_ORDER := ["proposed", "in_progress", "in_review", "done"]

  datatype Move = Move(offset: nat, from: string, to: string)

  function Max(a: int, b: int): int {
    if a >= b then a else b
  }

  // r is p / q to the nearest integer, halves to the even one.
  predicate Nearest(p: int, q: int, r: int) {
    && -q <= 2 * (q * r - p) <= q
    && (2 * (q * r - p) == q || 2 * (q * r - p) == -q ==> r % 2 == 0)
  }

  function RoundHalfEven(p: nat, q: nat): (r: nat)
    requires q > 0
    ensures Nearest(p, q, r)
  {
    var low, rest := p / q, p % q;
    Around(p, q, low, rest);
    if 2 * rest < q || (2 * rest == q && low % 2 == 0) then low else low + 1
  }

  lemma Around(p: nat, q: nat, low: nat, rest: nat)
    requires q > 0 && low == p / q && rest == p % q
    ensures 2 * rest < q || (2 * rest == q && low % 2 == 0) ==> Nearest(p, q, low)
    ensures !(2 * rest < q || (2 * rest == q && low % 2 == 0)) ==> Nearest(p, q, low + 1)
  {
    Division(p, q);
    assert q * (low + 1) == q * low + q;
  }

  lemma Division(p: nat, q: nat)
    requires q > 0
    ensures q * (p / q) == p - p % q
    ensures p % q < q
  {
  }

  // Multiples of q further apart than one are at least q apart.
  lemma MultiplesApart(q: nat, a: nat, b: nat)
    ensures a < b ==> q * a + q <= q * b
  {
    if a < b {
      var d: nat := b - a - 1;
      assert q * (a + 1 + d) == q * a + q + q * d;
      assert q * d >= 0;
    }
  }

  lemma RoundMonotone(a: nat, b: nat, q: nat)
    requires q > 0 && a <= b
    ensures RoundHalfEven(a, q) <= RoundHalfEven(b, q)
  {
    hide RoundHalfEven;
    MultiplesApart(q, RoundHalfEven(b, q), RoundHalfEven(a, q));
  }

  lemma RoundOfMultiple(d: nat, q: nat)
    requires q > 0
    ensures RoundHalfEven(d * q, q) == d
  {
    hide RoundHalfEven;
    var r := RoundHalfEven(d * q, q);
    assert d * q == q * d;
    MultiplesApart(q, d, r);
    MultiplesApart(q, r, d);
  }

  function Offset(started: nat, lastChange: nat, target: nat, index: nat): nat
    requires 1 <= index <= target
  {
    var span := Max(1, started - lastChange);
    if index == target then lastChange
    else Max(0, started - RoundHalfEven(span * (index - 1), Max(1, target - 1)))
  }

  method TransitionPlan(order: seq<string>, target: nat, started: nat, lastChange: nat) returns (plan: seq<Move>)
    requires target < |order|
    ensures target == 0 ==> plan == [Move(started, "proposed", "proposed")]
    ensures target > 0 ==> |plan| == target && forall i :: 1 <= i <= target ==>
              plan[i - 1] == Move(Offset(started, lastChange, target, i), order[i - 1], order[i])
  {
    if target == 0 {
      return [Move(started, "proposed", "proposed")];
    }
    var span: nat := Max(1, started - lastChange);
    plan := [];
    for index := 1 to target + 1
      invariant |plan| == index - 1
      invariant forall i :: 1 <= i < index ==>
                  plan[i - 1] == Move(Offset(started, lastChange, target, i), order[i - 1], order[i])
    {
      var offset: int := started - RoundHalfEven(span * (index - 1), Max(1, target - 1));
      if index == target {
        offset := lastChange;
      }
      plan := plan + [Move(Max(0, offset), order[index - 1], order[index])];
    }
  }

  lemma SpreadWithinSpan(span: nat, index: nat, target: nat)
    requires 1 <= index < target
    ensures RoundHalfEven(span * (index - 1), target - 1) <= span
  {
    MulLess(span, index - 1, target - 1);
    RoundMonotone(span * (index - 1), span * (target - 1), target - 1);
    RoundOfMultiple(span, target - 1);
  }

  lemma MulLess(span: nat, a: nat, b: nat)
    requires a <= b
    ensures span * a <= span * b
  {
  }

  // The days of the moves never go backwards in time, unless everything
  // happened on one day and the plan has more than three moves.
  lemma OffsetsNeverGrowIff(started: nat, lastChange: nat, target: nat)
    requires target >= 1 && started >= lastChange >= 1
    ensures (forall i :: 1 <= i < target ==>
            Offset(started, lastChange, target, i) >= Offset(started, lastChange, target, i + 1))
            <==> (started > lastChange || target <= 3)
  {
    if started > lastChange || target <= 3 {
      forall i | 1 <= i < target
        ensures Offset(started, lastChange, target, i) >= Offset(started, lastChange, target, i + 1)
      {
        OffsetStep(started, lastChange, target, i);
      }
    } else {
      hide RoundHalfEven;
      assert RoundHalfEven(1 * (target - 2), target - 1) == 1 by {
        AlmostOne(target - 1);
      }
      assert Offset(started, lastChange, target, target - 1) < Offset(started, lastChange, target, (target - 1) + 1);
    }
  }

  lemma AlmostOne(q: nat)
    requires q >= 3
    ensures RoundHalfEven(1 * (q - 1), q) == 1
  {
    assert (q - 1) / q == 0 && (q - 1) % q == q - 1;
  }

  lemma OffsetStep(started: nat, lastChange: nat, target: nat, i: nat)
    requires 1 <= i < target && started >= lastChange >= 1
    requires started > lastChange || target <= 3
    ensures Offset(started, lastChange, target, i) >= Offset(started, lastChange, target, i + 1)
  {
    var span := Max(1, started - lastChange);
    MulLess(span, i - 1, i);
    RoundMonotone(span * (i - 1), span * i, target - 1);
    SpreadWithinSpan(span, i, target);
    if started == lastChange {
      assert span * (i - 1) == i - 1;
      assert target == 3 && i == 2 ==> RoundHalfEven(1, 2) == 0;
      assert i == 1 ==> RoundHalfEven(0, target - 1) == 0 by {
        RoundOfMultiple(0, target - 1);
      }
    }
  }

  // ------------------------------------------------------------ stamps

  const DAY := 1440

  function Start(day: int): real {
    (day * DAY) as real
  }

  function Minutes(hour: nat, minute: nat): (r: nat)
    requires hour < 24
    ensures r < DAY
  {
    hour * 60 + minute % 60
  }

  function Folded(elapsed: real, minutes: nat): real {
    elapsed * (minutes as real / DAY as real)
  }

  // A stamp on a day, folded into the part of it that has happened by `latest`.
  function At(day: int, minutes: nat, latest: real): real
    requires minutes < DAY
  {
    var stamp := Start(day) + minutes as real;
    if stamp <= latest then stamp
    else if latest <= Start(day) then latest
    else Start(day) + Folded(latest - Start(day), minutes)
  }

  predicate Kept(day: int, minutes: nat, latest: real) {
    Start(day) + minutes as real <= latest
  }

  lemma Fraction(elapsed: real, minutes: nat)
    requires minutes < DAY
    ensures Folded(elapsed, minutes) * 1440.0 == elapsed * minutes as real
    ensures elapsed > 0.0 ==> 0.0 <= Folded(elapsed, minutes) < elapsed
  {
    var f := minutes as real / DAY as real;
    assert f * 1440.0 == minutes as real && 0.0 <= f < 1.0;
    Spread(elapsed, f, minutes as real);
    if elapsed > 0.0 {
      Scaled(elapsed, f);
    }
  }

  lemma Spread(a: real, f: real, m: real)
    requires m == f * 1440.0
    ensures a * f * 1440.0 == a * m
  {
  }

  lemma Scaled(a: real, f: real)
    requires a > 0.0 && 0.0 <= f < 1.0
    ensures 0.0 <= a * f < a
  {
    var rest := 1.0 - f;
    assert a * rest > 0.0 && a * f >= 0.0;
    assert a * f + a * rest == a * (f + rest);
  }

  lemma AtIsPast(day: int, minutes: nat, latest: real)
    requires minutes < DAY
    ensures At(day, minutes, latest) <= latest
    ensures Start(day) <= At(day, minutes, latest) < Start(day + 1) <==> Start(day) <= latest
  {
    hide Folded;
    Fraction(latest - Start(day), minutes);
  }

  lemma DaysStayInOrder(day: int, minutes: nat, later: int, minutes': nat, latest: real)
    requires minutes < DAY && minutes' < DAY && day < later
    ensures At(day, minutes, latest) <= At(later, minutes', latest)
  {
    AtIsPast(day, minutes, latest);
    AtIsPast(later, minutes', latest);
    if Start(later) <= latest {
      assert Start(day + 1) <= Start(later);
      assert Start(day) <= latest;
    }
  }

  lemma FoldedGrows(elapsed: real, a: nat, b: nat)
    requires a < b < DAY && elapsed > 0.0
    ensures Folded(elapsed, a) < Folded(elapsed, b)
  {
    var f, g := a as real / DAY as real, b as real / DAY as real;
    assert g - f > 0.0;
    assert elapsed * (g - f) > 0.0;
    assert elapsed * g == elapsed * f + elapsed * (g - f);
  }

  // Within a day, two stamps that are both kept or both folded stay in order.
  // A kept one stays before a folded one exactly when its time of day is at
  // most the folded one's share of what has elapsed.
  lemma SameDayOrderIff(day: int, a: nat, b: nat, latest: real)
    requires a < b < DAY && Start(day) < latest
    ensures Kept(day, a, latest) == Kept(day, b, latest) ==> At(day, a, latest) < At(day, b, latest)
    ensures Kept(day, a, latest) && !Kept(day, b, latest) ==>
              (At(day, a, latest) <= At(day, b, latest) <==> a as real * 1440.0 <= (latest - Start(day)) * b as real)
    ensures Kept(day, b, latest) ==> Kept(day, a, latest)
  {
    hide Folded;
    var elapsed := latest - Start(day);
    FoldedGrows(elapsed, a, b);
    Fraction(elapsed, b);
  }

  // The whole day keeps its order exactly when the last minute kept stays
  // before the first one folded.
  lemma DayKeepsItsOrderIff(day: int, latest: real)
    requires Start(day) < latest < Start(day + 1)
    ensures var elapsed := latest - Start(day);
            var last := elapsed.Floor;
            (forall a: nat, b: nat :: a < b < DAY ==> At(day, a, latest) <= At(day, b, latest))
              <==> last as real * 1440.0 <= elapsed * (last + 1) as real
  {
    hide At;
    var elapsed := latest - Start(day);
    var last: nat := elapsed.Floor;
    assert last as real <= elapsed < (last + 1) as real && last < DAY;
    if last as real * 1440.0 <= elapsed * (last + 1) as real {
      forall a: nat, b: nat | a < b < DAY
        ensures At(day, a, latest) <= At(day, b, latest)
      {
        SameDayOrderIff(day, a, b, latest);
        if Kept(day, a, latest) && !Kept(day, b, latest) {
          assert a <= last < b;
          assert elapsed * ((b - last - 1) as real) >= 0.0;
          assert elapsed * b as real == elapsed * (last + 1) as real + elapsed * ((b - last - 1) as real);
        }
      }
    } else {
      assert last + 1 < DAY by {
        assert last as real * 1440.0 <= elapsed * 1440.0;
      }
      SameDayOrderIff(day, last, last + 1, latest);
      assert Kept(day, last, latest) && !Kept(day, last + 1, latest);
      assert !(At(day, last, latest) <= At(day, last + 1, latest));
    }
  }

  // Seeding at noon: a 09:30 check-in is kept, and an 18:00 commit folds to
  // 09:00, before it.
  lemma NoonSwapsCheckInAndCommit(day: int)
    ensures var noon := Start(day) + 720.0;
            && At(day, Minutes(9, 30), noon) == Start(day) + 570.0
            && At(day, Minutes(18, 0), noon) == Start(day) + 540.0
  {
  }

  // ------------------------------------------------------------ the facts of a plan

  const MARGIN := 5.0

  // When move number `index` is stamped; its issue fact follows two minutes on.
  function MoveStamp(today: int, offset: nat, index: nat, latest: real): real {
    At(today - offset, Minutes(17, index * 7), latest)
  }

  // Each move, then its issue fact, then the next move, strictly in time.
  lemma FactsInterleave(started: nat, lastChange: nat, target: nat, today: int, now: real, i: nat)
    requires started >= lastChange >= 1 && 1 <= i < target < |STATE_ORDER| && now >= Start(today)
    ensures var latest := now - MARGIN;
            var move := MoveStamp(today, Offset(started, lastChange, target, i), i - 1, latest);
            var next := MoveStamp(today, Offset(started, lastChange, target, i + 1), i, latest);
            move < move + 2.0 < next && next + 2.0 <= latest
  {
    hide At;
    OffsetsNeverGrowIff(started, lastChange, target);
    var a, b := Offset(started, lastChange, target, i), Offset(started, lastChange, target, i + 1);
    assert a >= b;
    OffsetAtLeastOne(started, lastChange, target, i);
    OffsetAtLeastOne(started, lastChange, target, i + 1);
    FinishedDayIsKept(today, a, i - 1, now);
    FinishedDayIsKept(today, b, i, now);
  }

  lemma OffsetAtLeastOne(started: nat, lastChange: nat, target: nat, i: nat)
    requires started >= lastChange >= 1 && 1 <= i <= target <= 3
    ensures Offset(started, lastChange, target, i) >= 1
    decreases target - i
  {
    if i < target {
      OffsetsNeverGrowIff(started, lastChange, target);
      if i + 1 < target {
        OffsetAtLeastOne(started, lastChange, target, i + 1);
      }
    }
  }

  lemma FinishedDayIsKept(today: int, offset: nat, index: nat, now: real)
    requires offset >= 1 && index <= 3 && now >= Start(today)
    ensures MoveStamp(today, offset, index, now - MARGIN) == Start(today - offset) + (1020 + index * 7) as real
    ensures Start(today - offset) + 1042.0 <= now - MARGIN
  {
  }

  // ------------------------------------------------------------ the window of weekdays

  function Weekday(day: int): int {
    (day + 6) % 7
  }

  // Weekdays before a day, counted from a fixed Monday.
  function WeekdaysBefore(day: int): int {
    var week, rest := (day + 6) / 7, (day + 6) % 7;
    5 * week + if rest < 5 then rest else 5
  }

  ghost predicate Ascending(days: seq<int>) {
    forall i, j :: 0 <= i < j < |days| ==> days[i] < days[j]
  }

  lemma WeekdaysBeforeNext(day: int)
    ensures WeekdaysBefore(day + 1) == WeekdaysBefore(day) + if Weekday(day) < 5 then 1 else 0
  {
  }

  method Weekdays(end: int, count: int) returns (days: seq<int>)
    ensures forall d :: d in days <==> end - count <= d <= end && Weekday(d) < 5
    ensures Ascending(days)
    ensures count >= 0 ==> |days| == WeekdaysBefore(end + 1) - WeekdaysBefore(end - count)
  {
    hide Weekday, WeekdaysBefore;
    days := [];
    var cursor := end - count;
    while cursor <= end
      invariant count >= 0 ==> cursor <= end + 1
      invariant end - count <= cursor
      invariant forall d :: d in days <==> end - count <= d < cursor && d <= end && Weekday(d) < 5
      invariant Ascending(days)
      invariant |days| == WeekdaysBefore(cursor) - WeekdaysBefore(end - count)
      decreases end + 1 - cursor
    {
      WeekdaysBeforeNext(cursor);
      if Weekday(cursor) < 5 {
        assert forall i :: 0 <= i < |days| ==> days[i] in days;
        days := days + [cursor];
      }
      cursor := cursor + 1;
    }
  }

  lemma WeekdayCountBounds(end: int, count: nat)
    ensures var n, days := count + 1, WeekdaysBefore(end + 1) - WeekdaysBefore(end - count);
            5 * (n / 7) + Max(0, n % 7 - 2) <= days <= 5 * (n / 7) + (if n % 7 < 5 then n % 7 else 5)
  {
  }

  // ------------------------------------------------------------ when a blocker was last seen

  predicate SeenOn(day: int, first: int, horizon: int, replied: int -> bool) {
    first <= day <= horizon && replied(day)
  }

  // The latest day of the window the person replied on while the blocker was
  // open; the day it was first seen when there is none.
  ghost predicate LatestSeen(days: seq<int>, first: int, horizon: int, replied: int -> bool, last: int) {
    && (forall d :: d in days && SeenOn(d, first, horizon, replied) ==> d <= last)
    && ((last in days && SeenOn(last, first, horizon, replied)) || last == first)
  }

  method LastSeen(days: seq<int>, first: int, resolved: Option<int>, today: int,
      replied: int -> bool) returns (last: int)
    ensures var horizon := if resolved.Some? then resolved.value else today;
            && (resolved.None? && Ascending(days) ==> LatestSeen(days, first, horizon, replied, last))
            && (resolved.Some? && first <= horizon ==> last == horizon)
            && (first <= last <= horizon <==> first <= horizon)
  {
    var horizon := if resolved.Some? then resolved.value else today;
    last := first;
    for n := 0 to |days|
      invariant Ascending(days) ==> LatestSeen(days[..n], first, horizon, replied, last)
      invariant first <= last && (first <= horizon ==> last <= horizon)
    {
      assert days[..n + 1] == days[..n] + [days[n]];
      assert Ascending(days) ==> forall i :: 0 <= i < n ==> days[..n][i] == days[i] < days[n];
      if first <= days[n] <= horizon && replied(days[n]) {
        last := days[n];
      }
    }
    assert days[..|days|] == days;
    if resolved.Some? {
      last := Max(last, resolved.value);
    }
  }
}
