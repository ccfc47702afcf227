/** The live workout as the page shows it, and the computations `App` runs on
    it: which rows a card opens with (script.js:790), the snapshot scrape of
    `saveWorkoutState` (script.js:838-870), the finish filter of `finishWorkout`
    (script.js:929-960) and the exercises `redoWorkout` seeds (script.js:731-756). */
module Session {
  import opened Wrappers
  import opened Records

  /** A workout card on the page: the exercise's id and name and its set rows. */
  datatype Card = Card(id: string, name: string, rows: seq<SetEntry>)

  /** The row `generateSetRowHtml` emits with its default arguments. */
  const BlankSet := SetEntry(None, None, false)

  /** How a logged set is shown when a redo pre-fills the page: both numbers, not ticked. */
  function PrefillEntry(s: LoggedSet): SetEntry {
    SetEntry(Some(s.weight), Some(s.reps), false)
  }

  /** The rows a redo shows for the logged sets, one per set, in order. */
  function PrefillRows(sets: seq<LoggedSet>): (rows: seq<SetEntry>)
    ensures |rows| == |sets|
    ensures forall i :: 0 <= i < |sets| ==> rows[i] == PrefillEntry(sets[i])
  {
    seq(|sets|, i requires 0 <= i < |sets| => PrefillEntry(sets[i]))
  }

  /** The lengths `Array(n)` accepts: 0 to 2^32 - 1. */
  predicate ValidArrayLength(n: int) {
    0 <= n < 0x1_0000_0000
  }

  /** `ex.sets || ex.prefillSets || Array(ex.defaultSets || 3).fill(blank)`. An empty
      array is truthy in JavaScript, so empty `sets` give no rows. `Array(n)` throws a
      RangeError unless `n` is a 32-bit unsigned length, so a negative count or one of
      2^32 or more gives None. */
  function SetsToRender(ex: SessionExercise): Option<seq<SetEntry>>
  {
    if ex.sets.Some? then Some(ex.sets.value)
    else if ex.prefillSets.Some? then Some(PrefillRows(ex.prefillSets.value))
    else if !ValidArrayLength(CountOr3(ex.defaultSets)) then None
    else Some(seq(CountOr3(ex.defaultSets), i => BlankSet))
  }

  /** The cards `renderWorkoutView` leaves on the page: one per exercise, in order,
      up to the first exercise whose rows throw. */
  function RenderCards(exs: seq<SessionExercise>): (cards: seq<Card>)
    ensures |cards| <= |exs|
    ensures forall i :: 0 <= i < |cards| ==>
      cards[i].id == exs[i].id && cards[i].name == exs[i].name && SetsToRender(exs[i]) == Some(cards[i].rows)
    ensures |cards| < |exs| ==> SetsToRender(exs[|cards|]).None?
  {
    if exs == [] then []
    else match SetsToRender(exs[0])
      case None => []
      case Some(rows) => [Card(exs[0].id, exs[0].name, rows)] + RenderCards(exs[1..])
  }

  /** What `saveWorkoutState` records for one card. */
  function Scraped(c: Card): SessionExercise {
    SessionExercise(c.id, c.name, Some(c.rows), None, None)
  }

  /** The push loop of `saveWorkoutState`: one saved exercise per card, in page order. */
  method ScrapeCards(cards: seq<Card>) returns (exs: seq<SessionExercise>)
    ensures |exs| == |cards|
    ensures forall i :: 0 <= i < |cards| ==> exs[i] == Scraped(cards[i])
    ensures RenderCards(exs) == cards
  {
    exs := [];
    var k := 0;
    while k < |cards|
      invariant 0 <= k <= |cards|
      invariant |exs| == k
      invariant forall i :: 0 <= i < k ==> exs[i] == Scraped(cards[i])
    {
      var c := cards[k];
      var sets: seq<SetEntry> := [];
      var j := 0;
      while j < |c.rows|
        invariant 0 <= j <= |c.rows|
        invariant sets == c.rows[..j]
      {
        var row := c.rows[j];
        sets := sets + [SetEntry(row.weight, row.reps, row.completed)];
        j := j + 1;
      }
      assert c.rows[..j] == c.rows;
      exs := exs + [SessionExercise(c.id, c.name, Some(sets), None, None)];
      k := k + 1;
    }
    RenderScraped(exs, cards);
  }

  /** Rendering a saved snapshot puts back exactly the cards it was scraped from. */
  lemma {:induction false} RenderScraped(exs: seq<SessionExercise>, cards: seq<Card>)
    requires |exs| == |cards|
    requires forall i :: 0 <= i < |cards| ==> exs[i] == Scraped(cards[i])
    ensures RenderCards(exs) == cards
  {
    if cards != [] {
      RenderScraped(exs[1..], cards[1..]);
      assert [cards[0]] + cards[1..] == cards;
    }
  }

  /** `!isNaN(weight) || !isNaN(reps)`: the row holds at least one number. */
  predicate HasNumber(s: SetEntry) {
    s.weight.Some? || s.reps.Some?
  }

  /** `{ weight: weight || 0, reps: reps || 0 }`. */
  function Logged(s: SetEntry): LoggedSet {
    LoggedSet(s.weight.GetOr(0.0), s.reps.GetOr(0.0))
  }

  /** The sets a finished card contributes to the log. */
  function KeptSets(rows: seq<SetEntry>): (r: seq<LoggedSet>)
    ensures |r| <= |rows|
    ensures r == [] <==> forall i :: 0 <= i < |rows| ==> !HasNumber(rows[i])
  {
    if rows == [] then []
    else (if HasNumber(rows[0]) then [Logged(rows[0])] else []) + KeptSets(rows[1..])
  }

  /** The exercises a finished page contributes: a card without numbers is left out. */
  function LoggedExercises(cards: seq<Card>): (r: seq<LoggedExercise>)
    ensures |r| <= |cards|
    ensures forall i :: 0 <= i < |r| ==> r[i].sets != []
    ensures r == [] <==> forall i :: 0 <= i < |cards| ==> KeptSets(cards[i].rows) == []
  {
    if cards == [] then []
    else
      var sets := KeptSets(cards[0].rows);
      (if sets != [] then [LoggedExercise(cards[0].name, sets)] else []) + LoggedExercises(cards[1..])
  }

  /** Filtering row by row: the kept sets of a concatenation are the kept sets of
      each part, in order. */
  lemma {:induction false} KeptSetsAppend(a: seq<SetEntry>, b: seq<SetEntry>)
    ensures KeptSets(a + b) == KeptSets(a) + KeptSets(b)
  {
    if a == [] {
      assert a + b == b;
    } else {
      var head := if HasNumber(a[0]) then [Logged(a[0])] else [];
      assert (a + b)[0] == a[0] && (a + b)[1..] == a[1..] + b;
      assert KeptSets(a + b) == head + KeptSets(a[1..] + b);
      KeptSetsAppend(a[1..], b);
      assert KeptSets(a) == head + KeptSets(a[1..]);
    }
  }

  lemma {:induction false} LoggedExercisesAppend(a: seq<Card>, b: seq<Card>)
    ensures LoggedExercises(a + b) == LoggedExercises(a) + LoggedExercises(b)
  {
    if a == [] {
      assert a + b == b;
    } else {
      assert (a + b)[1..] == a[1..] + b;
      LoggedExercisesAppend(a[1..], b);
    }
  }

  /** A row is kept exactly when it holds a number, its empty field becoming 0. */
  lemma KeptSetsOfRow(s: SetEntry)
    ensures KeptSets([s]) == if HasNumber(s) then [LoggedSet(s.weight.GetOr(0.0), s.reps.GetOr(0.0))] else []
  {
    assert [s][1..] == [];
  }

  /** A card is logged exactly when it keeps a set, under its own name. */
  lemma LoggedExercisesOfCard(c: Card)
    ensures LoggedExercises([c]) == if KeptSets(c.rows) != [] then [LoggedExercise(c.name, KeptSets(c.rows))] else []
  {
    assert [c][1..] == [];
  }

  /** The inner forEach of `finishWorkout`. */
  method FinishedSets(rows: seq<SetEntry>) returns (sets: seq<LoggedSet>)
    ensures sets == KeptSets(rows)
  {
    sets := [];
    var j := 0;
    while j < |rows|
      invariant 0 <= j <= |rows|
      invariant sets == KeptSets(rows[..j])
    {
      var row := rows[j];
      assert rows[..j + 1] == rows[..j] + [row];
      KeptSetsAppend(rows[..j], [row]);
      KeptSetsOfRow(row);
      if row.weight.Some? || row.reps.Some? {
        sets := sets + [LoggedSet(row.weight.GetOr(0.0), row.reps.GetOr(0.0))];
      }
      j := j + 1;
    }
    assert rows[..j] == rows;
  }

  /** The outer forEach of `finishWorkout`: the log's exercises. */
  method FinishedExercises(cards: seq<Card>) returns (exs: seq<LoggedExercise>)
    ensures exs == LoggedExercises(cards)
  {
    exs := [];
    var k := 0;
    while k < |cards|
      invariant 0 <= k <= |cards|
      invariant exs == LoggedExercises(cards[..k])
    {
      var c := cards[k];
      assert cards[..k + 1] == cards[..k] + [c];
      LoggedExercisesAppend(cards[..k], [c]);
      LoggedExercisesOfCard(c);
      var sets := FinishedSets(c.rows);
      if |sets| > 0 {
        exs := exs + [LoggedExercise(c.name, sets)];
      }
      k := k + 1;
    }
    assert cards[..k] == cards;
  }

  /** `Math.round((now - startTime) / 60000)`: the nearest whole minute, halves
      rounding up. A start time that is still text (not revived to a `Date`)
      makes the subtraction NaN: None. */
  function DurationMinutes(start: StartTime, now: int): (r: Option<int>)
    ensures start.AsText? ==> r.None?
    ensures start.AsDate? ==> r.Some? && 60000 * r.value - 30000 <= now - start.ms < 60000 * r.value + 30000
  {
    match start
    case AsText(_) => None
    case AsDate(ms) => Some((2 * (now - ms) + 60000) / 120000)
  }

  /** The log `finishWorkout` builds from the workout and the cards on the page. */
  function MakeLog(id: string, w: Workout, now: int, cards: seq<Card>): WorkoutLog {
    WorkoutLog(id, w.planId, w.planName, now, DurationMinutes(w.startTime, now), LoggedExercises(cards))
  }

  /** The exercises `startWorkout` copies from the plan. */
  function FromPlan(ts: seq<ExerciseTemplate>): (r: seq<SessionExercise>)
    ensures |r| == |ts|
    ensures forall i :: 0 <= i < |ts| ==> r[i] == SessionExercise(ts[i].id, ts[i].name, None, None, Some(ts[i].defaultSets))
  {
    seq(|ts|, i requires 0 <= i < |ts| => SessionExercise(ts[i].id, ts[i].name, None, None, Some(ts[i].defaultSets)))
  }

  /** The exercises `redoWorkout` seeds from a log, with fresh ids from `newId`. */
  function RedoExercises(exs: seq<LoggedExercise>, newId: nat -> string): (r: seq<SessionExercise>)
    ensures |r| == |exs|
    ensures forall i :: 0 <= i < |exs| ==>
      r[i].id == newId(i) && r[i].name == exs[i].name && r[i].sets.None? &&
      r[i].prefillSets == Some(exs[i].sets) && r[i].defaultSets == Some(|exs[i].sets|)
  {
    seq(|exs|, i requires 0 <= i < |exs| => SessionExercise(newId(i), exs[i].name, None, Some(exs[i].sets), Some(|exs[i].sets|)))
  }

  /** `log.planId || 'redo'`. */
  function RedoPlanId(planId: string): (r: string)
    ensures r != ""
    ensures planId != "" ==> r == planId
  {
    if planId == "" then "redo" else planId
  }

  /** A fresh session shows `defaultSets || 3` blank rows per exercise, as long
      as every count is a length `Array` accepts, so finishing it untouched logs nothing. */
  lemma {:induction false} FreshSessionLogsNothing(ts: seq<ExerciseTemplate>)
    ensures forall i :: 0 <= i < |RenderCards(FromPlan(ts))| ==>
      forall j :: 0 <= j < |RenderCards(FromPlan(ts))[i].rows| ==> RenderCards(FromPlan(ts))[i].rows[j] == BlankSet
    ensures (forall i :: 0 <= i < |ts| ==> ValidArrayLength(ts[i].defaultSets)) ==> |RenderCards(FromPlan(ts))| == |ts|
    ensures LoggedExercises(RenderCards(FromPlan(ts))) == []
  {
    var cards := RenderCards(FromPlan(ts));
    forall i | 0 <= i < |cards|
      ensures KeptSets(cards[i].rows) == []
    {
      assert SetsToRender(FromPlan(ts)[i]) == Some(cards[i].rows);
    }
  }

  /** Redoing a log and finishing without an edit writes the same exercises
      again, when every logged exercise has a set (as `finishWorkout` ensures). */
  lemma RedoThenFinish(exs: seq<LoggedExercise>, newId: nat -> string)
    requires forall i :: 0 <= i < |exs| ==> exs[i].sets != []
    ensures |RenderCards(RedoExercises(exs, newId))| == |exs|
    ensures LoggedExercises(RenderCards(RedoExercises(exs, newId))) == exs
  {
    var r := RedoExercises(exs, newId);
    var cards := RenderCards(r);
    assert |cards| == |exs| by {
      if |cards| < |r| {
        assert false;
      }
    }
    forall i | 0 <= i < |exs|
      ensures KeptSets(cards[i].rows) == exs[i].sets
    {
      assert cards[i].rows == PrefillRows(exs[i].sets);
      PrefilledRowsKeepSets(exs[i].sets);
    }
    LogEveryCard(cards, exs);
  }

  /** When every card keeps exactly the sets of one logged exercise, the log is
      those exercises. */
  lemma {:induction false} LogEveryCard(cards: seq<Card>, exs: seq<LoggedExercise>)
    requires |cards| == |exs|
    requires forall i :: 0 <= i < |exs| ==>
      exs[i].sets != [] && cards[i].name == exs[i].name && KeptSets(cards[i].rows) == exs[i].sets
    ensures LoggedExercises(cards) == exs
  {
    if cards != [] {
      LogEveryCard(cards[1..], exs[1..]);
      assert [exs[0]] + exs[1..] == exs;
    }
  }

  /** Every pre-filled row holds numbers, and logs back as the set it came from. */
  lemma {:induction false} PrefilledRowsKeepSets(sets: seq<LoggedSet>)
    ensures KeptSets(PrefillRows(sets)) == sets
  {
    var rows := PrefillRows(sets);
    if sets != [] {
      PrefilledRowsKeepSets(sets[1..]);
      assert rows[1..] == PrefillRows(sets[1..]);
      assert [sets[0]] + sets[1..] == sets;
    }
  }
}
