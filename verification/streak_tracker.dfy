/** The streak tracker card (components/hypeos/streak-tracker.tsx): the
    level ladder, the progress bar, the next milestone, the weekly
    celebration and the seven recent-activity cells. */
module StreakTracker {
  import opened Base
  import opened Strings

  datatype Level = Level(name: string, color: string)

  const Thresholds: seq<real> := [100.0, 50.0, 30.0, 21.0, 14.0, 7.0, 3.0]

  const Levels: seq<Level> := [
    Level("Legendary", "text-purple-600 dark:text-purple-400"),
    Level("Epic", "text-red-600 dark:text-red-400"),
    Level("Master", "text-orange-600 dark:text-orange-400"),
    Level("Expert", "text-yellow-600 dark:text-yellow-400"),
    Level("Advanced", "text-green-600 dark:text-green-400"),
    Level("Intermediate", "text-blue-600 dark:text-blue-400"),
    Level("Beginner", "text-gray-600 dark:text-gray-400"),
    Level("Starting", "text-gray-500 dark:text-gray-500")
  ]

  /** `getStreakLevel`: the first of 100, 50, 30, 21, 14, 7, 3 the streak
      reaches picks the level; below 3 it is "Starting". */
  function StreakLevel(streak: int): (l: Level)
    ensures l == Levels[Tier(streak as real, Thresholds)]
  {
    var ts := Thresholds;
    assert ts[0] == 100.0 && ts[1] == 50.0 && ts[2] == 30.0 && ts[3] == 21.0
        && ts[4] == 14.0 && ts[5] == 7.0 && ts[6] == 3.0;
    if streak >= 100 then Level("Legendary", "text-purple-600 dark:text-purple-400")
    else if streak >= 50 then Level("Epic", "text-red-600 dark:text-red-400")
    else if streak >= 30 then Level("Master", "text-orange-600 dark:text-orange-400")
    else if streak >= 21 then Level("Expert", "text-yellow-600 dark:text-yellow-400")
    else if streak >= 14 then Level("Advanced", "text-green-600 dark:text-green-400")
    else if streak >= 7 then Level("Intermediate", "text-blue-600 dark:text-blue-400")
    else if streak >= 3 then Level("Beginner", "text-gray-600 dark:text-gray-400")
    else Level("Starting", "text-gray-500 dark:text-gray-500")
  }

  /** A longer streak never sits on a lower rung of the ladder. */
  lemma StreakLevelMonotone(a: int, b: int)
    requires a <= b
    ensures Tier(b as real, Thresholds) <= Tier(a as real, Thresholds)
  {
    TierMonotone(a as real, b as real, Thresholds);
  }

  /** `streakProgress`: `Math.min((current / goal) * 100, 100)` on JavaScript
      numbers. It never exceeds 100; it is NaN only for 0/0. */
  function StreakProgress(current: int, goal: int): (p: JsNum)
    ensures p == NaN <==> current == 0 && goal == 0
    ensures p != NaN ==> JsLe(p, Finite(100.0))
    ensures goal > 0 && current >= goal ==> p == Finite(100.0)
    ensures goal > 0 && current < 0 ==> p.Finite? && p.r < 0.0
    ensures goal > 0 && 0 <= current <= goal ==> p == Finite(current as real / goal as real * 100.0)
  {
    if goal > 0 then RatioAgainstOne(current, goal); JsMin(JsScale(JsDiv(current as real, goal as real), 100.0), Finite(100.0))
    else JsMin(JsScale(JsDiv(current as real, goal as real), 100.0), Finite(100.0))
  }

  lemma RatioAgainstOne(current: int, goal: int)
    requires goal > 0
    ensures current >= goal ==> current as real / goal as real * 100.0 >= 100.0
    ensures 0 <= current <= goal ==> 0.0 <= current as real / goal as real * 100.0 <= 100.0
  {
    var q := current as real / goal as real;
    assert q * goal as real == current as real;
  }

  const Milestones: seq<int> := [3, 7, 14, 21, 30, 50, 100]

  /** `milestones.find(m => m > current)`: the first entry above `current`. */
  function FirstAbove(ms: seq<int>, current: int): (r: Option<int>)
    ensures r.Some? ==> exists k :: 0 <= k < |ms| && ms[k] == r.value && r.value > current
                          && forall j :: 0 <= j < k ==> ms[j] <= current
    ensures r.None? <==> forall j :: 0 <= j < |ms| ==> ms[j] <= current
  {
    if |ms| == 0 then None
    else if ms[0] > current then Some(ms[0])
    else
      var r := FirstAbove(ms[1..], current);
      assert forall j :: 1 <= j < |ms| ==> ms[j] == ms[1..][j - 1];
      r
  }

  /** `nextMilestone`: the least milestone strictly above the streak, or
      none from 100 on. */
  function NextMilestone(current: int): (r: Option<int>)
    ensures r.None? <==> current >= 100
    ensures r.Some? ==> r.value in Milestones && r.value > current
    ensures r.Some? ==> forall j :: 0 <= j < |Milestones| && Milestones[j] > current ==> r.value <= Milestones[j]
  {
    MilestonesAscending();
    FirstAbove(Milestones, current)
  }

  lemma MilestonesAscending()
    ensures Milestones[6] == 100
    ensures forall i, j :: 0 <= i < j < |Milestones| ==> Milestones[i] < Milestones[j]
  {
  }

  /** The "(n more)" hint under the bar is shown with a positive n. */
  lemma MoreIsPositive(current: int)
    requires NextMilestone(current).Some?
    ensures NextMilestone(current).value - current > 0
  {
  }

  /** The celebration fires on a positive multiple of seven, with the
      message "<n> day streak!". */
  function Celebration(current: int): (r: Option<string>)
    ensures r.Some? <==> current > 0 && current % 7 == 0
    ensures r.Some? ==> r.value == IntToString(current) + " day streak!"
  {
    if current > 0 && current % 7 == 0 then Some(IntToString(current) + " day streak!") else None
  }

  /** The celebration comes back every seven days and only then. */
  lemma CelebrationEveryWeek(k: int, d: int)
    requires k >= 1 && 0 < d < 7
    ensures Celebration(7 * k).Some?
    ensures Celebration(7 * k + d).None?
  {
    var n := 7 * k;
    assert n % 7 == 0 && (n + d) % 7 == d by {
      assert n == 7 * k + 0;
    }
  }

  /** One recent-activity cell: whether it is lit and its label (T for
      today, Y for yesterday, otherwise the number of days ago). */
  datatype Cell = Cell(active: bool, text: string)

  function CellLabel(dayOffset: int): string {
    if dayOffset == 0 then "T" else if dayOffset == 1 then "Y" else IntToString(dayOffset)
  }

  /** The seven cells, oldest first; cell i is `6 - i` days ago and is lit
      when the streak is longer than that. */
  function Cells(current: int): (cs: seq<Cell>)
    ensures |cs| == 7
    ensures forall i :: 0 <= i < 7 ==> (cs[i].active <==> current > 6 - i)
    ensures cs[6].text == "T" && cs[5].text == "Y"
  {
    seq(7, i requires 0 <= i < 7 => Cell(current > 6 - i, CellLabel(6 - i)))
  }

  predicate IsActive(c: Cell) {
    c.active
  }

  /** Exactly `min(streak, 7)` cells are lit (none for a non-positive
      streak), and they are the most recent ones. */
  lemma ActiveCells(current: int)
    ensures Count(Cells(current), IsActive) == if current <= 0 then 0 else if current >= 7 then 7 else current
    ensures forall i, j :: 0 <= i <= j < 7 && Cells(current)[i].active ==> Cells(current)[j].active
  {
    var cs := Cells(current);
    var k := if current <= 0 then 7 else if current >= 7 then 0 else 7 - current;
    CountLitSuffix(cs, k);
  }

  lemma {:induction false} CountLitSuffix(cs: seq<Cell>, k: int)
    requires 0 <= k <= |cs|
    requires forall i :: 0 <= i < |cs| ==> (cs[i].active <==> i >= k)
    ensures Count(cs, IsActive) == |cs| - k
  {
    if k > 0 {
      CountLitSuffix(cs[1..], k - 1);
    }
  }
}
