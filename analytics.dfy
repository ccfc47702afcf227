/** What the home and history views derive from the history log: the set of
    workout days, the month grid (script.js:267-338), the current streak
    (script.js:341-372) and the next-session advice (script.js:1055-1071). */
module Analytics {
  import opened Wrappers
  import opened Records
  import opened DayKeys

  // ---- Workout days -------------------------------------------------------

  /** The keys of the given days. */
  function KeysOf(days: seq<CivilDate>): set<string> {
    set i | 0 <= i < |days| :: DayKey(days[i])
  }

  /** The forEach of `renderCalendar` that collects one key per logged session,
      given each session's local calendar day in history order. */
  method CollectWorkoutDates(days: seq<CivilDate>) returns (keys: set<string>)
    ensures keys == KeysOf(days)
  {
    keys := {};
    var n := 0;
    while n < |days|
      invariant 0 <= n <= |days|
      invariant keys == KeysOf(days[..n])
    {
      assert days[..n + 1] == days[..n] + [days[n]];
      KeysOfSnoc(days[..n], days[n]);
      keys := keys + {DayKey(days[n])};
      n := n + 1;
    }
    assert days[..n] == days;
  }

  lemma KeysOfSnoc(days: seq<CivilDate>, d: CivilDate)
    ensures KeysOf(days + [d]) == KeysOf(days) + {DayKey(d)}
  {
    var ext := days + [d];
    forall k | k in KeysOf(ext) ensures k in KeysOf(days) + {DayKey(d)} {
      var i :| 0 <= i < |ext| && DayKey(ext[i]) == k;
      if i < |days| {
        assert ext[i] == days[i];
      }
    }
    forall k | k in KeysOf(days) ensures k in KeysOf(ext) {
      var i :| 0 <= i < |days| && DayKey(days[i]) == k;
      assert ext[i] == days[i];
    }
    assert ext[|days|] == d;
  }

  /** A calendar cell lights up exactly on the days some session was logged:
      keys stand for days because `DayKey` is injective. */
  lemma KeysMarkWorkoutDays(days: seq<CivilDate>, d: CivilDate)
    requires Reportable(d)
    requires forall i :: 0 <= i < |days| ==> Reportable(days[i])
    ensures DayKey(d) in KeysOf(days) <==> d in days
  {
    if DayKey(d) in KeysOf(days) {
      var i :| 0 <= i < |days| && DayKey(days[i]) == DayKey(d);
      DayKeyInjective(d, days[i]);
    }
    if d in days {
      var i :| 0 <= i < |days| && days[i] == d;
      assert DayKey(days[i]) in KeysOf(days);
    }
  }

  // ---- Streak ---------------------------------------------------------------

  /** Days `d - k + 1 .. d` are all workout days and `d - k` is not. */
  ghost predicate RunEndingAt(days: set<int>, d: int, k: nat) {
    (forall i :: d - k < i <= d ==> i in days) && d - k !in days
  }

  /** How many consecutive workout days end at `d`. */
  function RunLength(days: set<int>, d: int): (n: nat)
    decreases |days|
  {
    if d in days then 1 + RunLength(days - {d}, d - 1) else 0
  }

  /** Removing a later day does not change a run that ends earlier. */
  lemma {:induction false} RunLengthIgnoresLater(days: set<int>, x: int, d: int)
    requires x > d
    ensures RunLength(days - {x}, d) == RunLength(days, d)
    decreases |days|
  {
    if d in days {
      assert (days - {x}) - {d} == (days - {d}) - {x};
      RunLengthIgnoresLater(days - {d}, x, d - 1);
    }
  }

  /** One step of the walk back: a workout day extends the run ending the day before. */
  lemma RunLengthStep(days: set<int>, d: int)
    requires d in days
    ensures RunLength(days, d) == 1 + RunLength(days, d - 1)
  {
    RunLengthIgnoresLater(days, d, d - 1);
  }

  /** The run length is the length of the run: all its days present, the day before it absent. */
  lemma {:induction false} RunLengthIsRun(days: set<int>, d: int)
    ensures RunEndingAt(days, d, RunLength(days, d))
    decreases |days|
  {
    if d in days {
      var k := RunLength(days - {d}, d - 1);
      RunLengthIsRun(days - {d}, d - 1);
      forall i | d - (k + 1) < i <= d
        ensures i in days
      {
        if i < d {
          assert i in days - {d};
        }
      }
      assert d - 1 - k !in days - {d};
    }
  }

  /** A run never has more days than there are workout days. */
  lemma {:induction false} RunLengthBound(days: set<int>, d: int)
    ensures RunLength(days, d) <= |days|
    decreases |days|
  {
    if d in days {
      RunLengthBound(days - {d}, d - 1);
    }
  }

  /** The streak shown on the home view: counted from today when today is a
      workout day, otherwise from yesterday; 0 without workout days. */
  function Streak(days: set<int>, today: int): nat {
    if |days| == 0 then 0
    else if today in days then RunLength(days, today)
    else RunLength(days, today - 1)
  }

  /** `updateStreak`: the `while (true)` walk back from today or yesterday. */
  method CurrentStreak(days: set<int>, today: int) returns (streak: nat)
    ensures streak == Streak(days, today)
    ensures streak <= |days|
    ensures days != {} ==> RunEndingAt(days, if today in days then today else today - 1, streak)
  {
    if |days| == 0 {
      return 0;
    }
    var checkDate := today;
    if today !in days {
      checkDate := today - 1;
    }
    ghost var start := checkDate;
    RunLengthBound(days, start);
    RunLengthIsRun(days, start);
    streak := 0;
    while true
      invariant checkDate == start - streak
      invariant streak + RunLength(days, checkDate) == RunLength(days, start) <= |days|
      decreases |days| - streak
    {
      if checkDate in days {
        RunLengthStep(days, checkDate);
        streak := streak + 1;
        checkDate := checkDate - 1;
      } else {
        break;
      }
    }
  }

  /** The streak is the length of the run ending today or yesterday, and no
      longer than the number of workout days. */
  lemma StreakIsRun(days: set<int>, today: int)
    requires days != {}
    ensures RunEndingAt(days, if today in days then today else today - 1, Streak(days, today))
    ensures Streak(days, today) <= |days|
  {
    var start := if today in days then today else today - 1;
    RunLengthIsRun(days, start);
    RunLengthBound(days, start);
  }

  /** Only one length describes the run ending at a day. */
  lemma RunIsUnique(days: set<int>, d: int, k1: nat, k2: nat)
    requires RunEndingAt(days, d, k1) && RunEndingAt(days, d, k2)
    ensures k1 == k2
  {
  }

  /** With neither today nor yesterday a workout day the streak is broken. */
  lemma StreakBroken(days: set<int>, today: int)
    requires today !in days && today - 1 !in days
    ensures Streak(days, today) == 0
  {
  }

  /** Three workout days up to today count 3, and still 3 the next day. */
  lemma StreakExamples()
    ensures Streak({1, 2, 3}, 3) == 3
    ensures Streak({1, 2, 3}, 4) == 3
    ensures Streak({}, 4) == 0
  {
    var days: set<int> := {1, 2, 3};
    assert |days| == 3;
    RunLengthStep(days, 3);
    RunLengthStep(days, 2);
    RunLengthStep(days, 1);
  }

  // ---- Recommendation -------------------------------------------------------

  /** What the history view suggests for the next session. */
  datatype Advice = TryHeavier(weight: real) | FocusOnForm

  /** The `maxWeight` of `getRecommendation`: the heaviest weight, starting from 0. */
  function MaxWeight(sets: seq<LoggedSet>): (m: real)
    ensures m >= 0.0
    ensures forall i :: 0 <= i < |sets| ==> sets[i].weight <= m
    ensures m == 0.0 || exists i :: 0 <= i < |sets| && sets[i].weight == m
  {
    if sets == [] then 0.0
    else
      var m := MaxWeight(sets[..|sets| - 1]);
      if sets[|sets| - 1].weight > m then sets[|sets| - 1].weight else m
  }

  /** Index of the first set weighing `w`: what `find(s => s.weight === w)` returns. */
  function FirstWithWeight(sets: seq<LoggedSet>, w: real): (r: Option<nat>)
    ensures r.Some? ==> r.value < |sets| && sets[r.value].weight == w &&
                        forall j :: 0 <= j < r.value ==> sets[j].weight != w
    ensures r.None? ==> forall j :: 0 <= j < |sets| ==> sets[j].weight != w
  {
    if sets == [] then None
    else if sets[0].weight == w then Some(0)
    else match FirstWithWeight(sets[1..], w)
      case None => None
      case Some(k) => Some(k + 1)
  }

  /** The advice for one logged exercise, decided by the first heaviest set. */
  function Recommendation(sets: seq<LoggedSet>): Option<Advice> {
    if sets == [] then None
    else
      var m := MaxWeight(sets);
      match FirstWithWeight(sets, m)
      case None => None
      case Some(k) =>
        if sets[k].reps >= 12.0 then Some(TryHeavier(m + 2.5))
        else if sets[k].reps < 6.0 then Some(FocusOnForm)
        else None
  }

  /** `k` is the first set with the maximum weight (the tie-break of `find`). */
  ghost predicate FirstHeaviest(sets: seq<LoggedSet>, k: nat) {
    k < |sets| && sets[k].weight == MaxWeight(sets) &&
    forall j :: 0 <= j < k ==> sets[j].weight != MaxWeight(sets)
  }

  /** The three outcomes of the advice, each in terms of the first heaviest set. */
  lemma RecommendationMeaning(sets: seq<LoggedSet>)
    ensures sets == [] ==> Recommendation(sets) == None
    ensures forall w :: Recommendation(sets) == Some(TryHeavier(w)) <==>
      exists k: nat :: FirstHeaviest(sets, k) && sets[k].reps >= 12.0 && w == MaxWeight(sets) + 2.5
    ensures Recommendation(sets) == Some(FocusOnForm) <==>
      exists k: nat :: FirstHeaviest(sets, k) && sets[k].reps < 6.0
    ensures Recommendation(sets) == None <==>
      forall k: nat :: FirstHeaviest(sets, k) ==> 6.0 <= sets[k].reps < 12.0
  {
    var m := MaxWeight(sets);
    var f := FirstWithWeight(sets, m);
    if f.Some? {
      var k := f.value;
      assert FirstHeaviest(sets, k);
      assert forall k': nat :: FirstHeaviest(sets, k') ==> k' == k;
    }
  }

  /** When every weight is negative no set weighs the starting maximum 0, so there is no advice. */
  lemma NegativeWeightsGiveNoAdvice(sets: seq<LoggedSet>)
    requires forall i :: 0 <= i < |sets| ==> sets[i].weight < 0.0
    ensures Recommendation(sets) == None
  {
    if sets != [] {
      assert MaxWeight(sets) == 0.0;
    }
  }

  lemma RecommendationExamples()
    ensures Recommendation([LoggedSet(100.0, 12.0)]) == Some(TryHeavier(102.5))
    ensures Recommendation([LoggedSet(100.0, 4.0)]) == Some(FocusOnForm)
    ensures Recommendation([LoggedSet(100.0, 8.0)]) == None
  {
    assert [LoggedSet(100.0, 12.0)][..0] == [];
    assert [LoggedSet(100.0, 4.0)][..0] == [];
    assert [LoggedSet(100.0, 8.0)][..0] == [];
  }

  /** `getRecommendation`: the forEach that raises `maxWeight`, then the decision. */
  method GetRecommendation(exerciseName: string, sets: seq<LoggedSet>) returns (r: Option<Advice>)
    ensures r == Recommendation(sets)
    ensures sets == [] ==> r == None
  {
    if |sets| == 0 {
      return None;
    }
    var maxWeight := 0.0;
    var i := 0;
    while i < |sets|
      invariant 0 <= i <= |sets|
      invariant maxWeight == MaxWeight(sets[..i])
    {
      assert sets[..i + 1][..i] == sets[..i];
      if sets[i].weight > maxWeight {
        maxWeight := sets[i].weight;
      }
      i := i + 1;
    }
    assert sets[..i] == sets;
    var found := FirstWithWeight(sets, maxWeight);
    if found.Some? && sets[found.value].reps >= 12.0 {
      return Some(TryHeavier(maxWeight + 2.5));
    }
    if found.Some? && sets[found.value].reps < 6.0 {
      return Some(FocusOnForm);
    }
    return None;
  }

  // ---- Month grid -----------------------------------------------------------

  /** A cell of the 6-by-7 month grid. */
  datatype Cell = Empty | DayCell(day: nat, isToday: bool, active: bool)

  const GridCells := 42

  /** `firstDay === 0 ? 6 : firstDay - 1`: the weekday counted from Monday. */
  function StartDayIndex(firstDay: nat): (r: nat)
    requires firstDay < 7
    ensures r < 7
    ensures (r + 1) % 7 == firstDay
  {
    if firstDay == 0 then 6 else firstDay - 1
  }

  /** The full year `new Date(year, month, day)` reads: a year from 0 to 99 means 1900 + year. */
  function ConstructorYear(year: int): (y: int)
    ensures 0 <= year <= 99 ==> y == 1900 + year
    ensures !(0 <= year <= 99) ==> y == year
  {
    if 0 <= year <= 99 then 1900 + year else year
  }

  /** The Gregorian leap-year rule. */
  predicate IsLeapYear(y: int) {
    y % 4 == 0 && (y % 100 != 0 || y % 400 == 0)
  }

  /** `new Date(year, month + 1, 0).getDate()`: the length of a month, numbered
      from 0 as `getMonth` does, in the proleptic Gregorian calendar, of the year
      the `Date` constructor reads. */
  function DaysInMonth(year: int, month: nat): (n: nat)
    requires month < 12
    ensures 28 <= n <= 31
    ensures month == 1 ==> (n == 29 <==> IsLeapYear(ConstructorYear(year)))
    ensures month != 1 ==> (n == 30 <==> month in {3, 5, 8, 10})
  {
    if month == 1 then (if IsLeapYear(ConstructorYear(year)) then 29 else 28)
    else if month == 3 || month == 5 || month == 8 || month == 10 then 30
    else 31
  }

  /** February of the year written 0 is February 1900, which is not a leap year. */
  lemma TwoDigitYears()
    ensures DaysInMonth(0, 1) == 28 && DaysInMonth(2000, 1) == 29 && DaysInMonth(1900, 1) == 28
    ensures DaysInMonth(4, 1) == 29 && DaysInMonth(-4, 1) == 29
  {
  }

  /** The cell of day `d` of the month: today's mark and the workout mark come
      from the day's civil date (months in `CivilDate` count from 1). */
  function DayCellOf(year: int, month: nat, d: nat, today: CivilDate, workoutDates: set<string>): Cell {
    DayCell(d, today == CivilDate(year, month + 1, d), DayKey(CivilDate(year, month + 1, d)) in workoutDates)
  }

  /** Cell `i` of the grid whose days start after `lead` empties. */
  function GridCell(year: int, month: nat, lead: nat, daysInMonth: nat, today: CivilDate, workoutDates: set<string>, i: nat): Cell {
    if i < lead then Empty
    else if i < lead + daysInMonth then DayCellOf(year, month, i - lead + 1, today, workoutDates)
    else Empty
  }

  /** Appending the cell that belongs at the end keeps a prefix of the grid a prefix. */
  lemma GridStep(cells: seq<Cell>, c: Cell, year: int, month: nat, lead: nat, daysInMonth: nat,
                 today: CivilDate, workoutDates: set<string>)
    requires forall j :: 0 <= j < |cells| ==> cells[j] == GridCell(year, month, lead, daysInMonth, today, workoutDates, j)
    requires c == GridCell(year, month, lead, daysInMonth, today, workoutDates, |cells|)
    ensures forall j :: 0 <= j < |cells| + 1 ==> (cells + [c])[j] == GridCell(year, month, lead, daysInMonth, today, workoutDates, j)
  {
  }

  /** The three loops of `renderCalendar`: leading empties, one cell per day
      (marked when it is today or a workout day), trailing empties up to 42. */
  method BuildMonthGrid(year: int, month: nat, firstDay: nat,
                        today: CivilDate, workoutDates: set<string>) returns (cells: seq<Cell>)
    requires month < 12 && firstDay < 7
    ensures |cells| == GridCells
    ensures var lead := StartDayIndex(firstDay); var daysInMonth := DaysInMonth(year, month);
      && (forall i :: 0 <= i < lead ==> cells[i] == Empty)
      && (forall i :: lead <= i < lead + daysInMonth ==> cells[i] == DayCellOf(year, month, i - lead + 1, today, workoutDates))
      && (forall i :: lead + daysInMonth <= i < |cells| ==> cells[i] == Empty)
  {
    var daysInMonth := DaysInMonth(year, month);
    var startDayIndex := StartDayIndex(firstDay);
    cells := [];
    var i := 0;
    while i < startDayIndex
      invariant 0 <= i <= startDayIndex
      invariant |cells| == i
      invariant forall j :: 0 <= j < |cells| ==> cells[j] == GridCell(year, month, startDayIndex, daysInMonth, today, workoutDates, j)
    {
      GridStep(cells, Empty, year, month, startDayIndex, daysInMonth, today, workoutDates);
      cells := cells + [Empty];
      i := i + 1;
    }
    var d := 1;
    while d <= daysInMonth
      invariant 1 <= d <= daysInMonth + 1
      invariant |cells| == startDayIndex + d - 1
      invariant forall j :: 0 <= j < |cells| ==> cells[j] == GridCell(year, month, startDayIndex, daysInMonth, today, workoutDates, j)
    {
      var isToday := d == today.day && month + 1 == today.month && year == today.year;
      var active := DayKey(CivilDate(year, month + 1, d)) in workoutDates;
      assert DayCell(d, isToday, active) == GridCell(year, month, startDayIndex, daysInMonth, today, workoutDates, |cells|);
      GridStep(cells, DayCell(d, isToday, active), year, month, startDayIndex, daysInMonth, today, workoutDates);
      cells := cells + [DayCell(d, isToday, active)];
      d := d + 1;
    }
    var remaining := GridCells - (startDayIndex + daysInMonth);
    i := 0;
    while i < remaining
      invariant 0 <= i <= remaining
      invariant |cells| == startDayIndex + daysInMonth + i
      invariant forall j :: 0 <= j < |cells| ==> cells[j] == GridCell(year, month, startDayIndex, daysInMonth, today, workoutDates, j)
    {
      GridStep(cells, Empty, year, month, startDayIndex, daysInMonth, today, workoutDates);
      cells := cells + [Empty];
      i := i + 1;
    }
  }
}
