/** The analytics of the HypeOS progress page (app/hypeos/progress/page.tsx):
    points per day over the last week, completion rates per impact, the
    category breakdown, the insight lines, and the two lookup tables. Days
    are integer day numbers and midnight of day `today` is `today * DayMs`. */
module ProgressAnalytics {
  import opened Base
  import opened Strings
  import opened Items

  /** A task the page treats as completed: flagged and timestamped. */
  predicate Done(t: Item) {
    t.completed && t.completedAt.Some?
  }

  function PointsOf(t: Item): int {
    t.points
  }

  /** The impact of a task record; mini-win records carry none. */
  function ImpactOf(t: Item): string {
    if t.body.TaskBody? then t.body.impact else ""
  }

  // ---------------------------------------------------------------------------
  // Weekly points
  // ---------------------------------------------------------------------------

  /** `Math.floor((midnightToday - completedAt) / 86400000)`. */
  function DaysAgo(today: int, ts: int): int {
    (today * DayMs - ts) / DayMs
  }

  /** How many days back the page files a completed task. */
  function AgeAsWritten(today: int): Item -> int {
    (t: Item) => if t.completedAt.Some? then DaysAgo(today, t.completedAt.value) else 0
  }

  /** The task lands in bucket `k`: completed, `0 <= age < 7`, and `k == 6 - age`. */
  predicate InBucket(age: Item -> int, k: int, t: Item) {
    Done(t) && 0 <= age(t) < 7 && k == 6 - age(t)
  }

  function BucketFn(age: Item -> int, k: int): Item -> bool {
    t => InBucket(age, k, t)
  }

  /** Adding one task to the seven buckets (the body of the `forEach`). */
  function AddToWeek(week: seq<int>, t: Item, age: Item -> int): (w: seq<int>)
    requires |week| == 7
    ensures |w| == 7
  {
    if Done(t) && 0 <= age(t) < 7 then week[6 - age(t) := week[6 - age(t)] + t.points]
    else week
  }

  /** The seven buckets after visiting every task. Additions commute, so
      visiting the tasks from the back gives the page's sums. */
  function Weekly(tasks: seq<Item>, age: Item -> int): (w: seq<int>)
    ensures |w| == 7
  {
    if |tasks| == 0 then [0, 0, 0, 0, 0, 0, 0]
    else AddToWeek(Weekly(tasks[1..], age), tasks[0], age)
  }

  /** Each bucket holds exactly the points of the completed tasks filed
      under it; every other task is ignored. */
  lemma {:induction false} WeeklyBuckets(tasks: seq<Item>, age: Item -> int)
    ensures forall k :: 0 <= k < 7 ==> Weekly(tasks, age)[k] == SumWhere(tasks, BucketFn(age, k), PointsOf)
  {
    if |tasks| > 0 {
      WeeklyBuckets(tasks[1..], age);
    }
  }

  /** `weeklyPoints` as the page computes it. */
  function WeeklyPoints(tasks: seq<Item>, today: int): (w: seq<int>)
    ensures |w| == 7
    ensures forall k :: 0 <= k < 7 ==> w[k] == SumWhere(tasks, BucketFn(AgeAsWritten(today), k), PointsOf)
  {
    WeeklyBuckets(tasks, AgeAsWritten(today));
    Weekly(tasks, AgeAsWritten(today))
  }

  /** A completion stamped after today's midnight has a negative age and is
      filed nowhere. */
  lemma AfterMidnightIgnored(t: Item, today: int)
    requires Done(t) && t.completedAt.value > today * DayMs
    ensures forall k :: !InBucket(AgeAsWritten(today), k, t)
  {
    var diff := today * DayMs - t.completedAt.value;
    assert diff < 0;
    assert diff / DayMs < 0;
  }

  /** A task completed a little after midnight today contributes nothing. */
  lemma TodayExcludedExample(today: int)
    ensures var t := Item(1, "Post 3 TikToks", true, 150, Some(today * DayMs + 1000),
                          TaskBody("medium", Some("content"), "30 min", []));
            WeeklyPoints([t], today) == [0, 0, 0, 0, 0, 0, 0]
  {
    var t := Item(1, "Post 3 TikToks", true, 150, Some(today * DayMs + 1000),
                  TaskBody("medium", Some("content"), "30 min", []));
    AfterMidnightIgnored(t, today);
    var w := WeeklyPoints([t], today);
    forall k | 0 <= k < 7 ensures w[k] == 0 {
      SumWhereNone([t], BucketFn(AgeAsWritten(today), k), PointsOf);
    }
  }

  /** The calendar-day age the chart labels assume: today is 0. */
  function AgeByDay(today: int): Item -> int {
    (t: Item) => if t.completedAt.Some? then today - Day(t.completedAt.value) else 0
  }

  /** Weekly points bucketed by calendar day, bucket 6 being today as the
      chart labels it. */
  function WeeklyPointsByDay(tasks: seq<Item>, today: int): (w: seq<int>)
    ensures |w| == 7
    ensures forall k :: 0 <= k < 7 ==> w[k] == SumWhere(tasks, BucketFn(AgeByDay(today), k), PointsOf)
  {
    WeeklyBuckets(tasks, AgeByDay(today));
    Weekly(tasks, AgeByDay(today))
  }

  /** By calendar day, bucket 6 holds exactly the tasks completed today and
      bucket k the ones completed `6 - k` days ago. */
  lemma ByDayBucketIsCalendarDay(t: Item, today: int, k: int)
    requires 0 <= k < 7
    ensures InBucket(AgeByDay(today), k, t) <==> Done(t) && Day(t.completedAt.value) == today - (6 - k)
  {
  }

  // ---------------------------------------------------------------------------
  // Completion rate per impact
  // ---------------------------------------------------------------------------

  predicate HasImpact(impact: string, t: Item) {
    ImpactOf(t) == impact
  }

  predicate DoneWithImpact(impact: string, t: Item) {
    HasImpact(impact, t) && Done(t)
  }

  function HasImpactFn(impact: string): Item -> bool {
    t => HasImpact(impact, t)
  }

  function DoneWithImpactFn(impact: string): Item -> bool {
    t => DoneWithImpact(impact, t)
  }

  /** `Math.round(completed / total * 100)` over the tasks of one impact, or
      0 when there are none. */
  function ImpactRate(tasks: seq<Item>, impact: string): (rate: int)
    ensures 0 <= rate <= 100
    ensures Count(tasks, HasImpactFn(impact)) == 0 ==> rate == 0
    ensures Count(tasks, DoneWithImpactFn(impact)) == 0 ==> rate == 0
    ensures Count(tasks, HasImpactFn(impact)) > 0 ==>
              rate == Percent(Count(tasks, DoneWithImpactFn(impact)), Count(tasks, HasImpactFn(impact)))
  {
    var total := Count(tasks, HasImpactFn(impact));
    var completed := Count(tasks, DoneWithImpactFn(impact));
    CountImplies(tasks, DoneWithImpactFn(impact), HasImpactFn(impact));
    if total > 0 then Percent(completed, total) else 0
  }

  /** When every task of an impact is completed the rate is 100. */
  lemma AllDoneIsHundred(tasks: seq<Item>, impact: string)
    requires exists i :: 0 <= i < |tasks| && HasImpact(impact, tasks[i])
    requires forall i :: 0 <= i < |tasks| && HasImpact(impact, tasks[i]) ==> Done(tasks[i])
    ensures ImpactRate(tasks, impact) == 100
  {
    CountSameTest(tasks, DoneWithImpactFn(impact), HasImpactFn(impact));
  }

  lemma {:induction false} CountSameTest(s: seq<Item>, p: Item -> bool, q: Item -> bool)
    requires forall i :: 0 <= i < |s| ==> (p(s[i]) <==> q(s[i]))
    ensures Count(s, p) == Count(s, q)
  {
    if |s| > 0 {
      CountSameTest(s[1..], p, q);
    }
  }

  // ---------------------------------------------------------------------------
  // Category breakdown
  // ---------------------------------------------------------------------------

  /** `task.category || 'General'`. */
  function CategoryOf(t: Item): string {
    var c := if t.body.TaskBody? then t.body.category else t.body.category;
    if c.Some? && c.value != "" then c.value else "General"
  }

  /** An entry of the insertion-ordered `Map` from category to points. */
  datatype Tally = Tally(category: string, points: int)

  /** The categories present in a list of tallies. */
  function Keys(ts: seq<Tally>): (k: set<string>)
    ensures forall i :: 0 <= i < |ts| ==> ts[i].category in k
    ensures forall c :: c in k ==> exists i :: 0 <= i < |ts| && ts[i].category == c
  {
    if |ts| == 0 then {}
    else
      assert forall i :: 1 <= i < |ts| ==> ts[i] == ts[1..][i - 1];
      {ts[0].category} + Keys(ts[1..])
  }

  predicate DistinctKeys(ts: seq<Tally>) {
    forall i, j :: 0 <= i < j < |ts| ==> ts[i].category != ts[j].category
  }

  function TallyPoints(ts: seq<Tally>): int {
    if |ts| == 0 then 0 else ts[0].points + TallyPoints(ts[1..])
  }

  /** `map.get(c) || 0`: the points of the first entry for `c`, 0 without one. */
  function PointsFor(ts: seq<Tally>, c: string): int {
    if |ts| == 0 then 0
    else if ts[0].category == c then ts[0].points
    else PointsFor(ts[1..], c)
  }

  /** With distinct keys, every entry is the one its category finds. */
  lemma {:induction false} PointsForEntry(ts: seq<Tally>, i: int)
    requires DistinctKeys(ts) && 0 <= i < |ts|
    ensures PointsFor(ts, ts[i].category) == ts[i].points
  {
    if i > 0 {
      assert ts[0].category != ts[i].category;
      assert ts[1..][i - 1] == ts[i];
      PointsForEntry(ts[1..], i - 1);
    }
  }

  /** `map.set(c, (map.get(c) || 0) + p)`: update in place, or append. */
  function Upsert(ts: seq<Tally>, c: string, p: int): (r: seq<Tally>)
    ensures Keys(r) == Keys(ts) + {c}
    ensures TallyPoints(r) == TallyPoints(ts) + p
    ensures forall d :: PointsFor(r, d) == PointsFor(ts, d) + (if d == c then p else 0)
  {
    if |ts| == 0 then [Tally(c, p)]
    else if ts[0].category == c then
      TallyCons(Tally(c, ts[0].points + p), ts[1..]);
      [Tally(c, ts[0].points + p)] + ts[1..]
    else
      var rest := Upsert(ts[1..], c, p);
      TallyCons(ts[0], rest);
      assert ts == [ts[0]] + ts[1..];
      [ts[0]] + rest
  }

  /** A category not yet in the map is appended at the end. */
  lemma {:induction false} UpsertAppends(ts: seq<Tally>, c: string, p: int)
    requires c !in Keys(ts)
    ensures Upsert(ts, c, p) == ts + [Tally(c, p)]
  {
    if |ts| > 0 {
      assert ts[0].category in Keys(ts);
      TallyCons(ts[0], ts[1..]);
      assert ts == [ts[0]] + ts[1..];
      UpsertAppends(ts[1..], c, p);
      assert [ts[0]] + (ts[1..] + [Tally(c, p)]) == ts + [Tally(c, p)];
    }
  }

  /** A category already in the map is updated where it stands: at its
      first entry, which gains the points. */
  lemma {:induction false} UpsertUpdates(ts: seq<Tally>, c: string, p: int, k: int)
    requires 0 <= k < |ts| && ts[k].category == c
    requires forall j :: 0 <= j < k ==> ts[j].category != c
    ensures Upsert(ts, c, p) == ts[k := Tally(c, ts[k].points + p)]
  {
    if k > 0 {
      UpsertUpdates(ts[1..], c, p, k - 1);
      assert ts[1..][k - 1 := Tally(c, ts[k].points + p)] == ts[k := Tally(c, ts[k].points + p)][1..];
    }
  }

  /** Keys and points of a list with one more tally in front. */
  lemma TallyCons(x: Tally, ts: seq<Tally>)
    ensures Keys([x] + ts) == {x.category} + Keys(ts)
    ensures TallyPoints([x] + ts) == x.points + TallyPoints(ts)
  {
    assert ([x] + ts)[1..] == ts;
  }

  /** Distinct keys, taken apart at the front and put back together. */
  lemma DistinctCons(x: Tally, ts: seq<Tally>)
    ensures DistinctKeys([x] + ts) <==> x.category !in Keys(ts) && DistinctKeys(ts)
  {
    var r := [x] + ts;
    assert forall i :: 0 <= i < |ts| ==> r[i + 1] == ts[i];
    if DistinctKeys(r) {
      forall m | 0 <= m < |ts| ensures ts[m].category != x.category {
        assert r[0].category != r[m + 1].category;
      }
    }
  }

  lemma {:induction false} UpsertDistinct(ts: seq<Tally>, c: string, p: int)
    requires DistinctKeys(ts)
    ensures DistinctKeys(Upsert(ts, c, p))
  {
    if |ts| > 0 {
      assert ts == [ts[0]] + ts[1..];
      DistinctCons(ts[0], ts[1..]);
      if ts[0].category == c {
        DistinctCons(Tally(c, ts[0].points + p), ts[1..]);
      } else {
        UpsertDistinct(ts[1..], c, p);
        DistinctCons(ts[0], Upsert(ts[1..], c, p));
      }
    }
  }

  /** The categories of the completed tasks (`'General'` for a missing one). */
  function DoneCategories(tasks: seq<Item>): (cs: set<string>)
    ensures forall i :: 0 <= i < |tasks| && Done(tasks[i]) ==> CategoryOf(tasks[i]) in cs
    ensures forall c :: c in cs ==> exists i :: 0 <= i < |tasks| && Done(tasks[i]) && CategoryOf(tasks[i]) == c
  {
    if |tasks| == 0 then {}
    else
      assert forall i :: 1 <= i < |tasks| ==> tasks[i] == tasks[1..][i - 1];
      (if Done(tasks[0]) then {CategoryOf(tasks[0])} else {}) + DoneCategories(tasks[1..])
  }

  /** A completed task filed under category `c`. */
  function DoneInFn(c: string): Item -> bool {
    t => Done(t) && CategoryOf(t) == c
  }

  /** The `forEach` over the completed tasks that fills the map. */
  function Accumulate(acc: seq<Tally>, tasks: seq<Item>): (r: seq<Tally>)
    ensures DistinctKeys(acc) ==> DistinctKeys(r)
    ensures Keys(r) == Keys(acc) + DoneCategories(tasks)
    ensures TallyPoints(r) == TallyPoints(acc) + SumWhere(tasks, Done, PointsOf)
    ensures forall c :: PointsFor(r, c) == PointsFor(acc, c) + SumWhere(tasks, DoneInFn(c), PointsOf)
    decreases |tasks|
  {
    if |tasks| == 0 then acc
    else if Done(tasks[0]) then
      var next := Upsert(acc, CategoryOf(tasks[0]), tasks[0].points);
      if DistinctKeys(acc) then UpsertDistinct(acc, CategoryOf(tasks[0]), tasks[0].points); Accumulate(next, tasks[1..])
      else Accumulate(next, tasks[1..])
    else Accumulate(acc, tasks[1..])
  }

  /** The breakdown row: category, points and share of the total. */
  datatype CategoryShare = CategoryShare(category: string, points: int, percentage: int)

  /** Insert before the first entry with no more points: the position a
      stable sort on descending points gives an element that came first. */
  function InsertDesc(e: Tally, xs: seq<Tally>): (r: seq<Tally>)
    ensures |r| == |xs| + 1
    ensures multiset(r) == multiset(xs) + multiset{e}
    ensures TallyPoints(r) == TallyPoints(xs) + e.points
  {
    if |xs| == 0 || xs[0].points <= e.points then [e] + xs
    else
      var rest := InsertDesc(e, xs[1..]);
      assert xs == [xs[0]] + xs[1..];
      [xs[0]] + rest
  }

  predicate SortedDesc(xs: seq<Tally>) {
    forall i, j :: 0 <= i < j < |xs| ==> xs[i].points >= xs[j].points
  }

  lemma {:induction false} InsertDescSorted(e: Tally, xs: seq<Tally>)
    requires SortedDesc(xs)
    ensures SortedDesc(InsertDesc(e, xs))
    ensures |xs| > 0 ==> InsertDesc(e, xs)[0].points == if xs[0].points <= e.points then e.points else xs[0].points
  {
    if |xs| > 0 && xs[0].points > e.points {
      InsertDescSorted(e, xs[1..]);
      InsertDescBelow(e, xs[1..], xs[0].points);
    }
  }

  /** Inserting under a bound every entry respects keeps every entry under
      it. */
  lemma {:induction false} InsertDescBelow(e: Tally, xs: seq<Tally>, b: int)
    requires e.points <= b && forall i :: 0 <= i < |xs| ==> xs[i].points <= b
    ensures forall i :: 0 <= i < |InsertDesc(e, xs)| ==> InsertDesc(e, xs)[i].points <= b
  {
    if |xs| > 0 && xs[0].points > e.points {
      InsertDescBelow(e, xs[1..], b);
    }
  }

  /** `.sort((a, b) => b.points - a.points)`, stable. */
  function SortDesc(xs: seq<Tally>): (r: seq<Tally>)
    ensures |r| == |xs|
    ensures multiset(r) == multiset(xs)
    ensures TallyPoints(r) == TallyPoints(xs)
  {
    if |xs| == 0 then []
    else
      assert xs == [xs[0]] + xs[1..];
      InsertDesc(xs[0], SortDesc(xs[1..]))
  }

  lemma {:induction false} SortDescSorted(xs: seq<Tally>)
    ensures SortedDesc(SortDesc(xs))
  {
    if |xs| > 0 {
      SortDescSorted(xs[1..]);
      InsertDescSorted(xs[0], SortDesc(xs[1..]));
    }
  }

  /** The sort keeps the set of categories and their distinctness. */
  lemma SortKeepsKeys(xs: seq<Tally>)
    ensures Keys(SortDesc(xs)) == Keys(xs)
    ensures DistinctKeys(xs) ==> DistinctKeys(SortDesc(xs))
  {
    var r := SortDesc(xs);
    KeysOfPermutation(r, xs);
    KeysOfPermutation(xs, r);
    if DistinctKeys(xs) {
      DistinctByCount(xs, r);
    }
  }

  lemma KeysOfPermutation(xs: seq<Tally>, r: seq<Tally>)
    requires multiset(r) == multiset(xs)
    ensures Keys(r) <= Keys(xs)
  {
    forall c | c in Keys(r) ensures c in Keys(xs) {
      var i :| 0 <= i < |r| && r[i].category == c;
      assert r[i] in multiset(xs);
      var j :| 0 <= j < |xs| && xs[j] == r[i];
    }
  }

  /** Distinct keys are a property of the multiset of entries. */
  lemma DistinctByCount(xs: seq<Tally>, r: seq<Tally>)
    requires DistinctKeys(xs) && multiset(r) == multiset(xs)
    ensures DistinctKeys(r)
  {
    forall i, j | 0 <= i < j < |r|
      ensures r[i].category != r[j].category
    {
      if r[i].category == r[j].category {
        assert r[i] in multiset(xs);
        var a :| 0 <= a < |xs| && xs[a] == r[i];
        assert r[j] in multiset(xs);
        var b :| 0 <= b < |xs| && xs[b] == r[j];
        if a == b {
          assert r[i] == r[j];
          assert multiset(r)[r[i]] >= 2 by {
            assert r == r[..i] + [r[i]] + r[i + 1..j] + [r[j]] + r[j + 1..];
          }
          assert multiset(xs)[xs[a]] >= 2;
          OnlyOnce(xs, a);
        }
      }
    }
  }

  /** In a list with distinct keys an entry occurs once. */
  lemma OnlyOnce(xs: seq<Tally>, a: int)
    requires DistinctKeys(xs) && 0 <= a < |xs|
    ensures multiset(xs)[xs[a]] == 1
  {
    assert xs == xs[..a] + [xs[a]] + xs[a + 1..];
    assert forall k :: 0 <= k < a ==> xs[..a][k].category != xs[a].category;
    assert xs[a] !in xs[..a];
    var tail := xs[a + 1..];
    assert forall k :: 0 <= k < |tail| ==> tail[k].category != xs[a].category;
    assert xs[a] !in tail;
  }

  /** The breakdown rows with their percentages. */
  function Shares(ts: seq<Tally>, total: int): (r: seq<CategoryShare>)
    ensures |r| == |ts|
    ensures forall i :: 0 <= i < |ts| ==> r[i].category == ts[i].category && r[i].points == ts[i].points
    ensures forall i :: 0 <= i < |ts| ==> r[i].percentage == Share(ts[i].points, total)
  {
    seq(|ts|, i requires 0 <= i < |ts| =>
      CategoryShare(ts[i].category, ts[i].points, Share(ts[i].points, total)))
  }

  /** `categoryBreakdown`: one row per distinct category of the completed
      tasks (missing ones under "General"), most points first. */
  function CategoryBreakdown(tasks: seq<Item>): (r: seq<CategoryShare>)
    ensures forall i, j :: 0 <= i < j < |r| ==> r[i].category != r[j].category
    ensures forall i, j :: 0 <= i < j < |r| ==> r[i].points >= r[j].points
    ensures forall i :: 0 <= i < |r| ==> r[i].category in DoneCategories(tasks)
    ensures forall c :: c in DoneCategories(tasks) ==> exists i :: 0 <= i < |r| && r[i].category == c
    ensures forall i :: 0 <= i < |r| ==> r[i].points == SumWhere(tasks, DoneInFn(r[i].category), PointsOf)
    ensures forall i :: 0 <= i < |r| ==>
              r[i].percentage == Share(r[i].points, SumWhere(tasks, Done, PointsOf))
  {
    var tallies := Accumulate([], tasks);
    var sorted := SortDesc(tallies);
    SortDescSorted(tallies);
    SortKeepsKeys(tallies);
    SortedPoints(tallies, tasks);
    Shares(sorted, TallyPoints(tallies))
  }

  /** `total > 0 ? Math.round(points / total * 100) : 0`. */
  function Share(points: int, total: int): int {
    if total > 0 then Percent(points, total) else 0
  }

  /** Every sorted entry holds the points of its category's completed tasks. */
  lemma SortedPoints(tallies: seq<Tally>, tasks: seq<Item>)
    requires tallies == Accumulate([], tasks)
    ensures forall i :: 0 <= i < |SortDesc(tallies)| ==>
              SortDesc(tallies)[i].points == SumWhere(tasks, DoneInFn(SortDesc(tallies)[i].category), PointsOf)
  {
    var sorted := SortDesc(tallies);
    forall i | 0 <= i < |sorted|
      ensures sorted[i].points == SumWhere(tasks, DoneInFn(sorted[i].category), PointsOf)
    {
      assert sorted[i] in multiset(tallies);
      var j :| 0 <= j < |tallies| && tallies[j] == sorted[i];
      PointsForEntry(tallies, j);
    }
  }

  /** The rows' points add up to the points of the completed tasks. */
  lemma BreakdownTotal(tasks: seq<Item>)
    ensures SumOf(CategoryBreakdown(tasks), SharePoints) == SumWhere(tasks, Done, PointsOf)
  {
    var tallies := Accumulate([], tasks);
    SharesTotal(SortDesc(tallies), TallyPoints(tallies));
  }

  function SharePoints(s: CategoryShare): int {
    s.points
  }

  lemma {:induction false} SharesTotal(ts: seq<Tally>, total: int)
    ensures SumOf(Shares(ts, total), SharePoints) == TallyPoints(ts)
  {
    if |ts| > 0 {
      SharesTotal(ts[1..], total);
      assert Shares(ts, total)[1..] == Shares(ts[1..], total);
    }
  }

  // ---------------------------------------------------------------------------
  // Insights and the whole computation
  // ---------------------------------------------------------------------------

  datatype User = User(hypePoints: int, currentStreak: int, longestStreak: int, goalProgress: Option<int>)

  const StartMessage: string := "Start completing tasks to see your progress here."
  const ActiveTodayMessage: string := "You've been active today - keep it up!"
  const EmptyMessage: string := "Complete tasks to see insights here."

  /** The insight lines, given the weekly buckets they consult. */
  function Insights(tasks: seq<Item>, streak: int, weekly: seq<int>): (r: seq<string>)
    requires |weekly| == 7
    ensures |r| >= 1
    ensures Count(tasks, Done) == 0 ==> r == [StartMessage]
    ensures ActiveTodayMessage in r <==> Count(tasks, Done) > 0 && weekly[0] > 0
  {
    var done := Count(tasks, Done);
    var raw :=
      if done > 0 then
        var rate := Percent(done, |tasks|);
        (if rate >= 80 then ["You're maintaining an excellent completion rate!"]
         else if rate >= 60 then ["You're making steady progress on your tasks."]
         else [])
        + (if streak >= 7 then ["You've maintained a " + IntToString(streak) + "-day streak!"] else [])
        + (if weekly[0] > 0 then [ActiveTodayMessage] else [])
      else [StartMessage];
    StreakLineIsNotActiveToday(streak);
    if |raw| > 0 then raw else [EmptyMessage]
  }

  lemma StreakLineIsNotActiveToday(streak: int)
    ensures "You've maintained a " + IntToString(streak) + "-day streak!" != ActiveTodayMessage
  {
    var s := "You've maintained a " + IntToString(streak) + "-day streak!";
    assert s[7] == 'm';
    assert ActiveTodayMessage[7] == 'b';
  }

  /** The "active today" line fires for a task finished a week ago with
      nothing done today: bucket 0 is the oldest bucket. */
  lemma ActiveTodayExample(today: int)
    ensures var t := Item(1, "Post 3 TikToks", true, 150, Some(today * DayMs - 6 * DayMs - 1),
                          TaskBody("medium", Some("content"), "30 min", []));
            && Day(t.completedAt.value) == today - 7
            && ActiveTodayMessage in Insights([t], 0, WeeklyPoints([t], today))
  {
    var t := Item(1, "Post 3 TikToks", true, 150, Some(today * DayMs - 6 * DayMs - 1),
                  TaskBody("medium", Some("content"), "30 min", []));
    var ts := t.completedAt.value;
    assert today * DayMs - ts == DayMs * 6 + 1;
    DivExact(6, 1, DayMs);
    assert DaysAgo(today, ts) == 6;
    assert ts == DayMs * (today - 7) + (DayMs - 1);
    DivExact(today - 7, DayMs - 1, DayMs);
    assert InBucket(AgeAsWritten(today), 0, t);
    assert [t][1..] == [];
    assert SumWhere([t], BucketFn(AgeAsWritten(today), 0), PointsOf) == 150;
    assert Count([t], Done) == 1;
  }

  /** The "active today" test on the calendar-day buckets. */
  predicate ActiveTodayByDay(tasks: seq<Item>, today: int) {
    WeeklyPointsByDay(tasks, today)[6] > 0
  }

  /** On the calendar-day buckets the line is backed by a task completed
      today with points. */
  lemma ActiveTodayByDayMeansToday(tasks: seq<Item>, today: int)
    requires ActiveTodayByDay(tasks, today)
    ensures exists i :: 0 <= i < |tasks| && Done(tasks[i]) && Day(tasks[i].completedAt.value) == today
                        && tasks[i].points != 0
  {
    SumWhereNonZero(tasks, BucketFn(AgeByDay(today), 6), PointsOf);
    var i :| 0 <= i < |tasks| && BucketFn(AgeByDay(today), 6)(tasks[i]) && PointsOf(tasks[i]) != 0;
    ByDayBucketIsCalendarDay(tasks[i], today, 6);
  }

  datatype ImpactRates = ImpactRates(high: int, medium: int, low: int)

  datatype Analytics = Analytics(
    totalPoints: int, weeklyPoints: seq<int>, monthlyProgress: int,
    current: int, longest: int, average: int,
    taskCompletion: ImpactRates, categoryBreakdown: seq<CategoryShare>, weeklyInsights: seq<string>)

  /** `calculateRealAnalytics`. */
  function CalculateAnalytics(user: Option<User>, tasks: seq<Item>, today: int): (a: Analytics)
    ensures user.None? ==> a == Analytics(0, [0, 0, 0, 0, 0, 0, 0], 0, 0, 0, 0, ImpactRates(0, 0, 0), [], [])
    ensures user.Some? ==> |a.weeklyInsights| >= 1 && |a.weeklyPoints| == 7
    ensures user.Some? ==> 0 <= a.taskCompletion.high <= 100 && 0 <= a.taskCompletion.medium <= 100
                           && 0 <= a.taskCompletion.low <= 100
    ensures user.Some? && Count(tasks, Done) == 0 ==> a.weeklyInsights == [StartMessage]
  {
    match user
    case None => Analytics(0, [0, 0, 0, 0, 0, 0, 0], 0, 0, 0, 0, ImpactRates(0, 0, 0), [], [])
    case Some(u) =>
      var weekly := WeeklyPoints(tasks, today);
      Analytics(u.hypePoints, weekly, if u.goalProgress.Some? then u.goalProgress.value else 0,
                u.currentStreak, u.longestStreak, u.currentStreak,
                ImpactRates(ImpactRate(tasks, "high"), ImpactRate(tasks, "medium"), ImpactRate(tasks, "low")),
                CategoryBreakdown(tasks), Insights(tasks, u.currentStreak, weekly))
  }

  // ---------------------------------------------------------------------------
  // Lookup tables
  // ---------------------------------------------------------------------------

  const Messages: seq<string> := [
    "You're absolutely crushing it!",
    "Incredible momentum! Keep going!",
    "You're on fire!",
    "Great progress! You've got this!",
    "Halfway there! Keep pushing!",
    "Building momentum! Every step counts!"
  ]

  /** `getMotivationalMessage`: at least 90, 80, 70, 60, 50, else the default. */
  function MotivationalMessage(progress: int): (m: string)
    ensures m == Messages[Tier(progress as real, [90.0, 80.0, 70.0, 60.0, 50.0])]
  {
    var ts := [90.0, 80.0, 70.0, 60.0, 50.0];
    assert ts[0] == 90.0 && ts[1] == 80.0 && ts[2] == 70.0 && ts[3] == 60.0 && ts[4] == 50.0;
    if progress >= 90 then "You're absolutely crushing it!"
    else if progress >= 80 then "Incredible momentum! Keep going!"
    else if progress >= 70 then "You're on fire!"
    else if progress >= 60 then "Great progress! You've got this!"
    else if progress >= 50 then "Halfway there! Keep pushing!"
    else "Building momentum! Every step counts!"
  }

  datatype Level = Level(name: string, color: string)

  const Levels: seq<Level> := [
    Level("Legendary", "text-purple-600"),
    Level("Expert", "text-orange-600"),
    Level("Advanced", "text-green-600"),
    Level("Intermediate", "text-blue-600"),
    Level("Beginner", "text-gray-600"),
    Level("Starting", "text-gray-500")
  ]

  /** This page's `getStreakLevel`: 30, 21, 14, 7, 3, else "Starting". It
      has no Epic or Master rung and calls 30 days Legendary. */
  function StreakLevel(streak: int): (l: Level)
    ensures l == Levels[Tier(streak as real, [30.0, 21.0, 14.0, 7.0, 3.0])]
  {
    var ts := [30.0, 21.0, 14.0, 7.0, 3.0];
    assert ts[0] == 30.0 && ts[1] == 21.0 && ts[2] == 14.0 && ts[3] == 7.0 && ts[4] == 3.0;
    if streak >= 30 then Level("Legendary", "text-purple-600")
    else if streak >= 21 then Level("Expert", "text-orange-600")
    else if streak >= 14 then Level("Advanced", "text-green-600")
    else if streak >= 7 then Level("Intermediate", "text-blue-600")
    else if streak >= 3 then Level("Beginner", "text-gray-600")
    else Level("Starting", "text-gray-500")
  }
}
