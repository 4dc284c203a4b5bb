/** The daily task ledger of the HypeOS daily page (app/hypeos/daily/page.tsx):
    what the page shows after reading local storage at mount time, completing
    a task or mini win, appending generated tasks, and the per-day counters.
    Local storage is an input value; the page's writes are returned as the new
    content of the two keys ("tasks" and "tasks last date") of each list. */
module DailyLedger {
  import opened Base
  import opened Items

  // ---------------------------------------------------------------------------
  // Normalising one stored item
  // ---------------------------------------------------------------------------

  /** The mount-time cleanup pass applied to one item: a completed item
      without a timestamp, or with one that is not today, is reset. */
  function CleanupItem(today: int, x: Item): (r: Item)
    ensures r.completed ==> CompletedOn(r, today)
    ensures !x.completed || CompletedOn(x, today) ==> r == x
    ensures x.completed && !CompletedOn(x, today) ==> r == Uncomplete(x)
  {
    if x.completed && x.completedAt.None? then Uncomplete(x)
    else if x.completed && x.completedAt.Some? && Day(x.completedAt.value) != today then Uncomplete(x)
    else x
  }

  /** The load-time reset applied to one same-day item; written with the
      timestamp test first, as the page does. */
  function LoadResetItem(today: int, x: Item): (r: Item)
    ensures r.completed ==> CompletedOn(r, today)
    ensures !x.completed || CompletedOn(x, today) ==> r == x
    ensures x.completed && !CompletedOn(x, today) ==> r == Uncomplete(x)
  {
    if x.completed && x.completedAt.Some? then
      (if Day(x.completedAt.value) != today then Uncomplete(x) else x)
    else if x.completed && x.completedAt.None? then Uncomplete(x)
    else x
  }

  /** The two normalisations are one and the same map, and it is idempotent:
      running the cleanup and then the load-time reset equals either alone. */
  lemma NormaliseIdempotent(today: int, x: Item)
    ensures CleanupItem(today, x) == LoadResetItem(today, x)
    ensures LoadResetItem(today, CleanupItem(today, x)) == CleanupItem(today, x)
    ensures CleanupItem(today, CleanupItem(today, x)) == CleanupItem(today, x)
  {
  }

  // ---------------------------------------------------------------------------
  // Local storage content
  // ---------------------------------------------------------------------------

  /** One element of a stored array. `wellTyped` records whether its `id` is a
      number and its `title` a string, which is all the load validation tests. */
  datatype Element = Element(item: Item, wellTyped: bool)

  /** What `JSON.parse` makes of a stored string; `Absent` stands for a missing
      key or an empty string. */
  datatype StoredValue = Absent | Unparsable | NotArray | Array(elems: seq<Element>)

  /** A list key together with its "last date" key. */
  datatype Slot = Slot(value: StoredValue, date: Option<int>)

  function MapItems(xs: seq<Item>, f: Item -> Item): (r: seq<Item>)
    ensures |r| == |xs| && forall i :: 0 <= i < |xs| ==> r[i] == f(xs[i])
  {
    seq(|xs|, i requires 0 <= i < |xs| => f(xs[i]))
  }

  function MapElements(es: seq<Element>, f: Item -> Item): (r: seq<Element>)
    ensures |r| == |es|
    ensures forall i :: 0 <= i < |es| ==> r[i] == Element(f(es[i].item), es[i].wellTyped)
  {
    seq(|es|, i requires 0 <= i < |es| => Element(f(es[i].item), es[i].wellTyped))
  }

  function ItemsOf(es: seq<Element>): (r: seq<Item>)
    ensures |r| == |es| && forall i :: 0 <= i < |es| ==> r[i] == es[i].item
  {
    seq(|es|, i requires 0 <= i < |es| => es[i].item)
  }

  predicate AllWellTyped(es: seq<Element>) {
    forall i :: 0 <= i < |es| ==> es[i].wellTyped
  }

  /** The one-time cleanup run first at mount (page.tsx:110-166): only a
      same-day stored array is rewritten. */
  function Cleanup(slot: Slot, today: int): (r: Slot)
    ensures r.date == slot.date
    ensures !(slot.value.Array? && slot.date == Some(today)) ==> r == slot
    ensures slot.value.Array? && slot.date == Some(today) ==>
              r.value == Array(MapElements(slot.value.elems, x => CleanupItem(today, x)))
  {
    if slot.value.Array? && slot.date == Some(today)
    then Slot(Array(MapElements(slot.value.elems, x => CleanupItem(today, x))), slot.date)
    else slot
  }

  /** The outcome of loading one list: the list the page now shows (`None`
      when it keeps its initial list) and the new content of the two keys. */
  datatype Loaded = Loaded(shown: Option<seq<Item>>, slot: Slot)

  /** Which list is being loaded: only tasks are validated and removed on error. */
  datatype ListKind = Tasks | MiniWins

  /** Loading a list at mount (tasks: page.tsx:172-229; mini wins: 232-276). */
  function Load(kind: ListKind, slot: Slot, today: int): (r: Loaded)
    // a same-day array is shown after normalisation when it is accepted
    ensures slot.date == Some(today) && slot.value.Array? && |slot.value.elems| > 0
            && (kind == MiniWins || AllWellTyped(slot.value.elems)) ==>
              r == Loaded(Some(MapItems(ItemsOf(slot.value.elems), x => LoadResetItem(today, x))), slot)
    // a different-day array is shown with every completion cleared, and stored back under today's date
    ensures slot.date != Some(today) && slot.value.Array? && |slot.value.elems| > 0 ==>
              r == Loaded(Some(MapItems(ItemsOf(slot.value.elems), Uncomplete)),
                          Slot(Array(MapElements(slot.value.elems, Uncomplete)), Some(today)))
    // same-day tasks that fail to parse or to validate are removed
    ensures kind == Tasks && slot.date == Some(today) &&
            (slot.value.Unparsable? || (slot.value.Array? && |slot.value.elems| > 0 && !AllWellTyped(slot.value.elems))) ==>
              r == Loaded(None, Slot(Absent, None))
    // nothing else is shown or changed
    ensures !(slot.value.Array? && |slot.value.elems| > 0) && !(kind == Tasks && slot.date == Some(today) && slot.value.Unparsable?) ==>
              r == Loaded(None, slot)
  {
    match slot.value
    case Absent => Loaded(None, slot)
    case Unparsable =>
      if kind == Tasks && slot.date == Some(today) then Loaded(None, Slot(Absent, None))
      else Loaded(None, slot)
    case NotArray => Loaded(None, slot)
    case Array(es) =>
      if |es| == 0 then Loaded(None, slot)
      else if slot.date == Some(today) then
        if kind == MiniWins || AllWellTyped(es)
        then Loaded(Some(MapItems(ItemsOf(es), x => LoadResetItem(today, x))), slot)
        else Loaded(None, Slot(Absent, None))
      else Loaded(Some(MapItems(ItemsOf(es), Uncomplete)), Slot(Array(MapElements(es, Uncomplete)), Some(today)))
  }

  // ---------------------------------------------------------------------------
  // Mount
  // ---------------------------------------------------------------------------

  function MockTasks(): seq<Item> {
    [ Item(1, "Post 3 TikToks", false, 150, None, TaskBody("medium", Some("content"), "30 min", [])),
      Item(2, "Email 5 potential clients", false, 300, None, TaskBody("high", Some("sales"), "45 min", [])),
      Item(3, "Update pricing page", false, 200, None, TaskBody("medium", Some("admin"), "20 min", [])),
      Item(4, "Research competitor pricing", false, 100, None, TaskBody("low", Some("research"), "15 min", [])) ]
  }

  function MockMiniWins(): seq<Item> {
    [ Item(1, "Check analytics", false, 25, None, WinBody("2 min", Some("admin"), "easy")),
      Item(2, "Reply to comments", false, 30, None, WinBody("3 min", Some("social"), "easy")),
      Item(3, "Update bio", false, 20, None, WinBody("1 min", Some("admin"), "easy")) ]
  }

  /** Local storage as the page reads it; the numbers are the results of
      `parseInt`, `None` standing for a missing key or NaN. */
  datatype Storage = Storage(tasks: Slot, miniWins: Slot, points: Option<int>, streak: Option<int>)

  datatype DailyState = DailyState(tasks: seq<Item>, miniWins: seq<Item>, points: int, streak: int)

  function Shown(l: Loaded, initial: seq<Item>): seq<Item> {
    match l.shown
    case Some(xs) => xs
    case None => initial
  }

  /** The mount effect (page.tsx:103-306): cleanup, then load each list, the
      points and the streak; returns the page state and the new storage. */
  function Mount(st: Storage, today: int): (r: (DailyState, Storage))
    ensures r.0.points == (if st.points.Some? then st.points.value else 2450)
    ensures r.0.streak == (if st.streak.Some? then st.streak.value else 12)
  {
    var t := Load(Tasks, Cleanup(st.tasks, today), today);
    var w := Load(MiniWins, Cleanup(st.miniWins, today), today);
    (DailyState(Shown(t, MockTasks()), Shown(w, MockMiniWins()),
                if st.points.Some? then st.points.value else 2450,
                if st.streak.Some? then st.streak.value else 12),
     Storage(t.slot, w.slot, st.points, st.streak))
  }

  /** Every item of the list is either open or completed today. */
  predicate NoStaleCompletion(xs: seq<Item>, today: int) {
    forall i :: 0 <= i < |xs| ==> xs[i].completed ==> CompletedOn(xs[i], today)
  }

  lemma LoadShowsNoStaleCompletion(kind: ListKind, slot: Slot, today: int)
    ensures var l := Load(kind, slot, today);
            l.shown.Some? ==> NoStaleCompletion(l.shown.value, today)
  {
  }

  /** After mount, no task or mini win is marked completed unless its
      timestamp falls on today. */
  lemma MountShowsNoStaleCompletion(st: Storage, today: int)
    ensures NoStaleCompletion(Mount(st, today).0.tasks, today)
    ensures NoStaleCompletion(Mount(st, today).0.miniWins, today)
  {
    LoadShowsNoStaleCompletion(Tasks, Cleanup(st.tasks, today), today);
    LoadShowsNoStaleCompletion(MiniWins, Cleanup(st.miniWins, today), today);
  }

  /** Day rollover: when the stored date is not today, every stored task
      comes back with its completion cleared and all other fields unchanged,
      and storage is rewritten under today's date. */
  lemma MountAfterRollover(st: Storage, today: int)
    requires st.tasks.value.Array? && |st.tasks.value.elems| > 0 && st.tasks.date != Some(today)
    ensures var (s, st') := Mount(st, today);
            var es := st.tasks.value.elems;
            && |s.tasks| == |es|
            && (forall i :: 0 <= i < |es| ==>
                  !s.tasks[i].completed && s.tasks[i].completedAt.None? &&
                  s.tasks[i].(completed := es[i].item.completed, completedAt := es[i].item.completedAt) == es[i].item)
            && st'.tasks.date == Some(today)
  {
  }

  /** Same-day validation: a non-empty stored task array is accepted exactly
      when every element has a numeric id and a string title; otherwise both
      task keys are removed and the initial list stays. */
  lemma MountValidatesSameDayTasks(st: Storage, today: int)
    requires st.tasks.value.Array? && |st.tasks.value.elems| > 0 && st.tasks.date == Some(today)
    ensures var (s, st') := Mount(st, today);
            && (AllWellTyped(st.tasks.value.elems) ==>
                  s.tasks == MapItems(ItemsOf(st.tasks.value.elems), x => LoadResetItem(today, x)))
            && (!AllWellTyped(st.tasks.value.elems) ==>
                  s.tasks == MockTasks() && st'.tasks == Slot(Absent, None))
  {
    var es := st.tasks.value.elems;
    var c := Cleanup(st.tasks, today);
    var ces := MapElements(es, x => CleanupItem(today, x));
    assert c.value == Array(ces);
    assert AllWellTyped(ces) <==> AllWellTyped(es);
    if AllWellTyped(es) {
      var shown := MapItems(ItemsOf(ces), x => LoadResetItem(today, x));
      forall i | 0 <= i < |es|
        ensures shown[i] == LoadResetItem(today, es[i].item)
      {
        NormaliseIdempotent(today, es[i].item);
      }
    }
  }

  // ---------------------------------------------------------------------------
  // Completing and adding
  // ---------------------------------------------------------------------------

  /** `tasks.find(t => t.id === id)`, as an index. */
  function FindById(xs: seq<Item>, id: int): (r: Option<nat>)
    ensures r.Some? ==> r.value < |xs| && xs[r.value].id == id
    ensures r.Some? ==> forall j :: 0 <= j < r.value ==> xs[j].id != id
    ensures r.None? ==> forall j :: 0 <= j < |xs| ==> xs[j].id != id
  {
    if |xs| == 0 then None
    else if xs[0].id == id then Some(0)
    else match FindById(xs[1..], id)
      case None => None
      case Some(k) => Some(k + 1)
  }

  function MarkCompleted(xs: seq<Item>, id: int, now: int): seq<Item> {
    MapItems(xs, (x: Item) => if x.id == id then x.(completed := true, completedAt := Some(now)) else x)
  }

  /** `completeTask` (page.tsx:396-448) at time `now`. An unknown id changes
      nothing; otherwise every task with that id becomes completed at `now`,
      nothing else changes, and the points grow by the first such task's points. */
  function CompleteTask(tasks: seq<Item>, points: int, id: int, now: int): (r: (seq<Item>, int))
    ensures FindById(tasks, id).None? ==> r == (tasks, points)
    ensures FindById(tasks, id).Some? ==> r.1 == points + tasks[FindById(tasks, id).value].points
    ensures |r.0| == |tasks|
    ensures forall i :: 0 <= i < |tasks| && tasks[i].id != id ==> r.0[i] == tasks[i]
    ensures forall i :: 0 <= i < |tasks| && tasks[i].id == id ==>
              r.0[i] == tasks[i].(completed := true, completedAt := Some(now))
  {
    match FindById(tasks, id)
    case None => (tasks, points)
    case Some(k) => (MarkCompleted(tasks, id, now), points + tasks[k].points)
  }

  /** `completeMiniWin` (page.tsx:450-486): the list is updated whether or not
      the id exists; points are only added for a known id. */
  function CompleteMiniWin(wins: seq<Item>, points: int, id: int, now: int): (r: (seq<Item>, int))
    ensures r.0 == MarkCompleted(wins, id, now)
    ensures FindById(wins, id).None? ==> r.0 == wins && r.1 == points
    ensures FindById(wins, id).Some? ==> r.1 == points + wins[FindById(wins, id).value].points
  {
    var w := MarkCompleted(wins, id, now);
    match FindById(wins, id)
    case None =>
      assert w == wins;
      (w, points)
    case Some(k) => (w, points + wins[k].points)
  }

  /** A task completed now counts as completed today. */
  lemma CompletingCountsToday(tasks: seq<Item>, points: int, id: int, now: int)
    requires FindById(tasks, id).Some?
    ensures CompletedOn(CompleteTask(tasks, points, id, now).0[FindById(tasks, id).value], Day(now))
  {
  }

  /** `Math.max(...ids)`, or 0 for an empty list. Recursive, so its contract
      rests on the contract of the recursive call. */
  function MaxId(xs: seq<Item>): (m: int)
    ensures |xs| == 0 ==> m == 0
    ensures forall i :: 0 <= i < |xs| ==> xs[i].id <= m
    ensures |xs| > 0 ==> exists i :: 0 <= i < |xs| && xs[i].id == m
  {
    if |xs| == 0 then 0
    else if |xs| == 1 then xs[0].id
    else
      var m := MaxId(xs[1..]);
      assert forall i :: 1 <= i < |xs| ==> xs[i] == xs[1..][i - 1];
      if xs[0].id >= m then xs[0].id else m
  }

  /** `handleAddMoreTasks` (page.tsx:493-519): the existing tasks stay as a
      prefix; the new ones follow, open, with ids maxId+1, maxId+2, ... */
  function AddMoreTasks(tasks: seq<Item>, newTasks: seq<Item>): (r: seq<Item>)
    ensures |r| == |tasks| + |newTasks|
    ensures r[..|tasks|] == tasks
    ensures forall j :: 0 <= j < |newTasks| ==>
              r[|tasks| + j] == newTasks[j].(id := MaxId(tasks) + j + 1, completed := false, completedAt := None)
    ensures forall k :: |tasks| <= k < |r| ==> r[k].id !in Ids(tasks)
    ensures forall k, l :: |tasks| <= k < l < |r| ==> r[k].id < r[l].id
  {
    var maxId := MaxId(tasks);
    tasks + seq(|newTasks|, j requires 0 <= j < |newTasks| =>
                  newTasks[j].(id := maxId + j + 1, completed := false, completedAt := None))
  }

  // ---------------------------------------------------------------------------
  // Counters
  // ---------------------------------------------------------------------------

  /** `completedTasksToday` (page.tsx:528-538), also used for mini wins. */
  function CompletedToday(xs: seq<Item>, today: int): (n: nat)
    ensures n <= |xs|
    ensures n == 0 <==> forall i :: 0 <= i < |xs| ==> !CompletedOn(xs[i], today)
    ensures n == |xs| <==> forall i :: 0 <= i < |xs| ==> CompletedOn(xs[i], today)
  {
    Count(xs, x => CompletedOn(x, today))
  }

  /** `completionRate` (page.tsx:540-541), a percentage. */
  function CompletionRate(xs: seq<Item>, today: int): (rate: real)
    ensures |xs| == 0 ==> rate == 0.0
    ensures 0.0 <= rate <= 100.0
    ensures rate == 100.0 <==> |xs| > 0 && forall i :: 0 <= i < |xs| ==> CompletedOn(xs[i], today)
  {
    if |xs| > 0 then
      var c := CompletedToday(xs, today);
      RatioPercent(c, |xs|);
      (c as real / |xs| as real) * 100.0
    else 0.0
  }

  const Encouragements: seq<string> := [
    "You're doing amazing! Just a few more tasks to go.",
    "You're making solid progress. Keep the momentum going!",
    "Every task you complete brings you closer to your goals."
  ]

  /** The encouragement under the lists (page.tsx:603-612), shown while the
      rate is below 100: at least 75, at least 50, or below. */
  function CompletionMessage(rate: real): (m: Option<string>)
    ensures m.None? <==> rate >= 100.0
    ensures rate < 100.0 ==> m == Some(Encouragements[Tier(rate, [75.0, 50.0])])
  {
    var ts := [75.0, 50.0];
    assert ts[0] == 75.0 && ts[1] == 50.0;
    if rate >= 100.0 then None
    else if rate >= 75.0 then Some("You're doing amazing! Just a few more tasks to go.")
    else if rate >= 50.0 then Some("You're making solid progress. Keep the momentum going!")
    else Some("Every task you complete brings you closer to your goals.")
  }

  /** The "still to do" test of the next-task finder (page.tsx:617-625). */
  predicate IsOpen(x: Item, today: int) {
    if x.completed && x.completedAt.Some? then Day(x.completedAt.value) != today
    else !x.completed
  }

  /** The first open task, as an index. */
  function NextTask(xs: seq<Item>, today: int): (r: Option<nat>)
    ensures r.Some? ==> r.value < |xs| && IsOpen(xs[r.value], today)
    ensures r.Some? ==> forall j :: 0 <= j < r.value ==> !IsOpen(xs[j], today)
    ensures r.None? ==> forall j :: 0 <= j < |xs| ==> !IsOpen(xs[j], today)
  {
    if |xs| == 0 then None
    else if IsOpen(xs[0], today) then Some(0)
    else match NextTask(xs[1..], today)
      case None => None
      case Some(k) => Some(k + 1)
  }

  /** A completed task without a timestamp is neither counted as done today
      nor offered as the next task; on a normalised list (every list shown
      after mount) "open" is exactly "not completed today". */
  lemma OpenMeansNotDoneToday(x: Item, today: int)
    ensures IsOpen(x, today) ==> !CompletedOn(x, today)
    ensures x.completed && x.completedAt.None? ==> !IsOpen(x, today) && !CompletedOn(x, today)
    ensures !x.completed || CompletedOn(x, today) ==> (IsOpen(x, today) <==> !CompletedOn(x, today))
  {
  }
}
