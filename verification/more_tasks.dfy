/** The "more tasks" modal (components/hypeos/more-tasks-modal.tsx): when it
    asks for generated tasks, how it takes the response, and the selection it
    hands back to the daily page. */
module MoreTasks {
  import opened Base
  import opened Items

  datatype Modal = Modal(open: bool, generated: seq<Item>, selected: set<int>, error: Option<string>)

  /** What the generate-tasks endpoint answered: its `success` flag and its
      `tasks` field when present, or nothing readable at all. */
  datatype Response = Answer(success: bool, tasks: Option<seq<Item>>) | Unreadable

  /** The open effect asks for tasks only when the modal is open and nothing
      has been generated yet. */
  predicate ShouldGenerate(m: Modal) {
    m.open && |m.generated| == 0
  }

  const FailureMessage: string := "Failed to generate tasks. Please try again."

  /** Taking the endpoint's answer: the tasks replace the generated list when
      `success` is set and `tasks` is present (an empty array counts as
      present); anything else only sets the error. */
  function TakeResponse(m: Modal, resp: Response): (r: Modal)
    ensures r.open == m.open && r.selected == m.selected
    ensures resp.Answer? && resp.success && resp.tasks.Some? ==>
              r.generated == resp.tasks.value && r.error.None?
    ensures !(resp.Answer? && resp.success && resp.tasks.Some?) ==>
              r.generated == m.generated && r.error == Some(FailureMessage)
  {
    if resp.Answer? && resp.success && resp.tasks.Some?
    then m.(generated := resp.tasks.value, error := None)
    else m.(error := Some(FailureMessage))
  }

  /** Once tasks are generated, reopening the modal does not ask again. */
  lemma NoRegeneration(m: Modal, resp: Response)
    requires resp.Answer? && resp.success && resp.tasks.Some? && |resp.tasks.value| > 0
    ensures !ShouldGenerate(TakeResponse(m, resp).(open := true))
  {
  }

  /** `toggleTaskSelection`. */
  function ToggleSelection(m: Modal, id: int): (r: Modal)
    ensures id in r.selected <==> id !in m.selected
    ensures r.selected - {id} == m.selected - {id}
    ensures r.generated == m.generated && r.open == m.open
  {
    m.(selected := Flip(m.selected, id))
  }

  predicate IsSelected(sel: set<int>, t: Item) {
    t.id in sel
  }

  function SelectedFn(sel: set<int>): Item -> bool {
    t => IsSelected(sel, t)
  }

  /** `handleAddSelected`: when at least one generated task is selected,
      those tasks are handed over in generation order, the selection is
      cleared and the modal closes; otherwise nothing happens. */
  function AddSelected(m: Modal): (r: (Modal, Option<seq<Item>>))
    ensures r.1.Some? ==> Subsequence(r.1.value, m.generated)
    ensures r.1.Some? ==> |r.1.value| > 0
    ensures r.1.Some? ==> forall i :: 0 <= i < |r.1.value| ==> r.1.value[i].id in m.selected
    ensures r.1.Some? ==> forall i :: 0 <= i < |m.generated| && m.generated[i].id in m.selected ==> m.generated[i] in r.1.value
    ensures r.1.Some? ==> |r.1.value| == Count(m.generated, SelectedFn(m.selected))
    ensures r.1.Some? ==> r.0 == m.(selected := {}, open := false)
    ensures r.1.None? <==> forall i :: 0 <= i < |m.generated| ==> m.generated[i].id !in m.selected
    ensures r.1.None? ==> r.0 == m
  {
    var chosen := Filter(m.generated, SelectedFn(m.selected));
    FilterIsSubsequence(m.generated, SelectedFn(m.selected));
    if |chosen| > 0 then (m.(selected := {}, open := false), Some(chosen))
    else (m, None)
  }

  /** `handleAddAll`: every generated task is handed over, in order. */
  function AddAll(m: Modal): (r: (Modal, seq<Item>))
    ensures r.1 == m.generated
    ensures r.0.selected == {} && !r.0.open && r.0.generated == m.generated
  {
    (m.(selected := {}, open := false), m.generated)
  }
}
