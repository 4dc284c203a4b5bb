/** The mini-wins panel (components/hypeos/mini-wins.tsx): what it counts as
    done today, the points it shows, its message, and its click guard. The
    panel remembers the ids clicked during this visit in `session`. */
module MiniWinsPanel {
  import opened Base
  import opened Items

  /** A win counts as done when it was clicked during this visit or carries
      a completion timestamp from today. */
  predicate CountsToday(w: Item, session: seq<int>, today: int) {
    w.id in session || CompletedOn(w, today)
  }

  /** `CountsToday` as a function value, so that every use names the same one. */
  function CountsFn(session: seq<int>, today: int): Item -> bool {
    w => CountsToday(w, session, today)
  }

  function PointsOf(w: Item): int {
    w.points
  }

  /** `completedCount`: the wins that count as done. */
  function CompletedCount(wins: seq<Item>, session: seq<int>, today: int): (n: nat)
    ensures n <= |wins|
    ensures n == |Filter(wins, CountsFn(session, today))|
    ensures n == 0 <==> forall i :: 0 <= i < |wins| ==> wins[i].id !in session && !CompletedOn(wins[i], today)
  {
    Count(wins, CountsFn(session, today))
  }

  /** `totalPoints`, accumulated left to right as the `reduce` does. */
  function TotalPoints(wins: seq<Item>, session: seq<int>, today: int): (r: int)
    ensures (forall i :: 0 <= i < |wins| ==> !CountsToday(wins[i], session, today)) ==> r == 0
    ensures (forall i :: 0 <= i < |wins| ==> wins[i].points >= 0) ==> 0 <= r <= SumOf(wins, PointsOf)
    decreases |wins|
  {
    if |wins| == 0 then 0
    else (if CountsToday(wins[0], session, today) then wins[0].points else 0)
         + TotalPoints(wins[1..], session, today)
  }

  /** The points shown are exactly the points of the wins counted as done. */
  lemma {:induction false} TotalPointsOfCounted(wins: seq<Item>, session: seq<int>, today: int)
    ensures TotalPoints(wins, session, today)
            == SumOf(Filter(wins, CountsFn(session, today)), PointsOf)
  {
    SumOfFilter(wins, CountsFn(session, today), PointsOf);
    TotalPointsIsSum(wins, session, today);
  }

  lemma {:induction false} TotalPointsIsSum(wins: seq<Item>, session: seq<int>, today: int)
    ensures TotalPoints(wins, session, today)
            == SumWhere(wins, CountsFn(session, today), PointsOf)
  {
    if |wins| > 0 {
      TotalPointsIsSum(wins[1..], session, today);
    }
  }

  /** The completion rate behind the message. */
  function Rate(completed: nat, total: nat): (rate: real)
    ensures total == 0 ==> rate == 0.0
    ensures completed <= total ==> 0.0 <= rate <= 100.0
    ensures total > 0 ==> (rate == 100.0 <==> completed == total)
  {
    if total > 0 then RatioPercent(completed, total); (completed as real / total as real) * 100.0 else 0.0
  }

  const Messages: seq<string> := [
    "All mini wins completed! You're on fire!",
    "Almost there! Great momentum!",
    "Halfway through! Keep it up!",
    "Good start! Every win counts!",
    "Quick wins build big momentum!"
  ]

  /** `getMotivationalMessage`: rate exactly 100, then at least 75, 50, 25. */
  function Message(completed: nat, total: nat): (m: string)
    requires completed <= total
    ensures m == Messages[Tier(Rate(completed, total), [100.0, 75.0, 50.0, 25.0])]
    ensures total == 0 ==> m == "Quick wins build big momentum!"
  {
    var rate := Rate(completed, total);
    var ts := [100.0, 75.0, 50.0, 25.0];
    assert ts[0] == 100.0 && ts[1] == 75.0 && ts[2] == 50.0 && ts[3] == 25.0;
    if rate == 100.0 then "All mini wins completed! You're on fire!"
    else if rate >= 75.0 then "Almost there! Great momentum!"
    else if rate >= 50.0 then "Halfway through! Keep it up!"
    else if rate >= 25.0 then "Good start! Every win counts!"
    else "Quick wins build big momentum!"
  }

  /** A click on a win's checkbox or button: ignored when the win already
      counts as done; otherwise its id joins the session and the page's
      `completeMiniWin` is called with it (the second component). */
  function Click(w: Item, session: seq<int>, today: int): (r: (seq<int>, Option<int>))
    ensures CountsToday(w, session, today) ==> r == (session, None)
    ensures !CountsToday(w, session, today) ==> r.1 == Some(w.id) && |r.0| > |session| && r.0[..|session|] == session
    ensures CountsToday(w, r.0, today)
  {
    if CountsToday(w, session, today) then (session, None)
    else (session + [w.id], Some(w.id))
  }

  /** A click never turns a win that counts as done back into an open one. */
  lemma ClickNeverUncounts(wins: seq<Item>, w: Item, session: seq<int>, today: int)
    ensures forall i :: 0 <= i < |wins| && CountsToday(wins[i], session, today) ==>
              CountsToday(wins[i], Click(w, session, today).0, today)
  {
  }
}
