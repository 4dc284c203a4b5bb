/** The daily focus card (components/hypeos/daily-focus-card.tsx): how a task
    is shown (done, skipped or open), its guards, its counters, the points
    label and the "how to complete" expansion. The card remembers the ids
    completed and skipped during this visit. */
module FocusCard {
  import opened Base
  import opened Items
  import DailyLedger

  datatype CardState = CardState(completed: seq<int>, skipped: seq<int>, expanded: set<int>)

  /** `isCompleted`: completed today according to the task itself, or
      clicked during this visit. */
  predicate IsCompleted(t: Item, s: CardState, today: int)
    ensures IsCompleted(t, s, today) ==> t.completed || t.id in s.completed
    ensures t.id in s.completed ==> IsCompleted(t, s, today)
  {
    CompletedOn(t, today) || t.id in s.completed
  }

  predicate IsSkipped(t: Item, s: CardState) {
    t.id in s.skipped
  }

  /** The checkbox: a completed or skipped task ignores the click; otherwise
      the id is recorded and the page's `completeTask` is called with it. */
  function CheckboxClick(t: Item, s: CardState, today: int): (r: (CardState, Option<int>))
    ensures IsCompleted(t, s, today) || IsSkipped(t, s) ==> r == (s, None)
    ensures !IsCompleted(t, s, today) && !IsSkipped(t, s) ==>
              r.1 == Some(t.id) && r.0 == s.(completed := s.completed + [t.id])
    ensures !IsSkipped(t, s) ==> IsCompleted(t, r.0, today)
  {
    if !IsCompleted(t, s, today) && !IsSkipped(t, s)
    then (s.(completed := s.completed + [t.id]), Some(t.id))
    else (s, None)
  }

  /** The Complete button is shown only for an open task. */
  predicate ShowsActions(t: Item, s: CardState, today: int) {
    !IsCompleted(t, s, today) && !IsSkipped(t, s)
  }

  /** The Complete button, rendered only for an open task; it calls
      `handleComplete`. */
  function CompleteButton(t: Item, s: CardState, today: int): (r: (CardState, int))
    requires ShowsActions(t, s, today)
    ensures r.1 == t.id && IsCompleted(t, r.0, today) && r.0.skipped == s.skipped
  {
    (s.(completed := s.completed + [t.id]), t.id)
  }

  /** `handleSkip`: the id is recorded as skipped and handed to the page.
      The card renders no control that calls it. */
  function Skip(t: Item, s: CardState, today: int): (r: (CardState, int))
    ensures r.1 == t.id && IsSkipped(t, r.0) && !ShowsActions(t, r.0, today)
    ensures r.0.completed == s.completed
  {
    (s.(skipped := s.skipped + [t.id]), t.id)
  }

  /** Once completed or skipped, a task never offers its actions again, and
      its checkbox does nothing. */
  lemma ClosedStaysClosed(t: Item, s: CardState, today: int)
    requires !ShowsActions(t, s, today)
    ensures CheckboxClick(t, s, today) == (s, None)
  {
  }

  /** `completedCount`/`completionRate` of the card: computed from the task
      records only, they agree with the page's own counters. */
  function Completion(tasks: seq<Item>, today: int): (r: (nat, real))
    ensures r.0 <= |tasks|
    ensures 0.0 <= r.1 <= 100.0
    ensures |tasks| == 0 ==> r.1 == 0.0
    ensures r.0 == DailyLedger.CompletedToday(tasks, today)
    ensures r.1 == DailyLedger.CompletionRate(tasks, today)
  {
    var n := Count(tasks, CardCountsFn(today));
    CountSame(tasks, today);
    var rate := if |tasks| > 0 then (n as real / |tasks| as real) * 100.0 else 0.0;
    assert rate == DailyLedger.CompletionRate(tasks, today);
    (n, rate)
  }

  /** The card's own test: completed, and with a timestamp from today. */
  predicate CardCounts(t: Item, today: int) {
    if !t.completed then false
    else if t.completedAt.Some? then Day(t.completedAt.value) == today
    else false
  }

  function CardCountsFn(today: int): Item -> bool {
    t => CardCounts(t, today)
  }

  lemma {:induction false} CountSame(tasks: seq<Item>, today: int)
    ensures Count(tasks, CardCountsFn(today)) == DailyLedger.CompletedToday(tasks, today)
  {
    if |tasks| > 0 {
      CountSame(tasks[1..], today);
    }
  }

  const Messages: seq<string> := [
    "Perfect day! Ready for more?",
    "Amazing progress! Keep it up!",
    "Great momentum! You're on fire!",
    "Good progress! Keep pushing!",
    "Getting there! Every task counts!",
    "Let's tackle these tasks together!"
  ]

  /** `getMotivationalMessage`: rate exactly 100, then at least 80, 60, 40, 20. */
  function Message(rate: real): (m: string)
    ensures rate <= 100.0 ==> m == Messages[Tier(rate, [100.0, 80.0, 60.0, 40.0, 20.0])]
  {
    var ts := [100.0, 80.0, 60.0, 40.0, 20.0];
    assert ts[0] == 100.0 && ts[1] == 80.0 && ts[2] == 60.0 && ts[3] == 40.0 && ts[4] == 20.0;
    if rate == 100.0 then "Perfect day! Ready for more?"
    else if rate >= 80.0 then "Amazing progress! Keep it up!"
    else if rate >= 60.0 then "Great momentum! You're on fire!"
    else if rate >= 40.0 then "Good progress! Keep pushing!"
    else if rate >= 20.0 then "Getting there! Every task counts!"
    else "Let's tackle these tasks together!"
  }

  /** The "how to complete" button flips whether this one task is expanded. */
  function ToggleExpanded(s: CardState, id: int): (r: CardState)
    ensures id in r.expanded <==> id !in s.expanded
    ensures r.expanded - {id} == s.expanded - {id}
    ensures r.completed == s.completed && r.skipped == s.skipped
  {
    s.(expanded := Flip(s.expanded, id))
  }

  /** The momentum multiplier the daily page hands the card. */
  function Multiplier(streak: int): real {
    if streak >= 3 then 1.5 else 1.0
  }

  /** The points label: `Math.round(points * multiplier)`. */
  function DisplayedPoints(points: int, streak: int): (d: int)
    ensures streak < 3 ==> d == points
    ensures streak >= 3 ==> 3 * points <= 2 * d <= 3 * points + 1
  {
    Round(points as real * Multiplier(streak))
  }
}
