/** The task and mini-win records of the HypeOS daily page, shared by every
    component that reads them. A calendar date is an integer day number and a
    completion timestamp is a number of milliseconds; `Day` plays the role of
    comparing `toDateString()` values. */
module Items {
  import opened Base

  const DayMs: int := 86400000

  /** The day a timestamp falls on; two timestamps have the same
      `toDateString()` exactly when they have the same `Day`. */
  function Day(ts: int): int {
    ts / DayMs
  }

  /** What distinguishes a task from a mini win. */
  datatype Body =
    | TaskBody(impact: string, category: Option<string>, estimatedTime: string, howToComplete: seq<string>)
    | WinBody(time: string, category: Option<string>, difficulty: string)

  /** A task or mini win as kept in the page state and in local storage.
      `completedAt` is `None` when the field is absent or empty. */
  datatype Item = Item(id: int, title: string, completed: bool, points: int,
                       completedAt: Option<int>, body: Body)

  /** The item is marked completed and its timestamp falls on `today`. */
  predicate CompletedOn(x: Item, today: int) {
    x.completed && x.completedAt.Some? && Day(x.completedAt.value) == today
  }

  /** `{ ...x, completed: false, completedAt: undefined }`. */
  function Uncomplete(x: Item): (r: Item)
    ensures !r.completed && r.completedAt.None?
    ensures r.(completed := x.completed, completedAt := x.completedAt) == x
  {
    x.(completed := false, completedAt := None)
  }

  /** The ids of a list of items. */
  function Ids(xs: seq<Item>): (r: set<int>)
    ensures forall i :: 0 <= i < |xs| ==> xs[i].id in r
    ensures forall k :: k in r ==> exists i :: 0 <= i < |xs| && xs[i].id == k
  {
    set i | 0 <= i < |xs| :: xs[i].id
  }
}
