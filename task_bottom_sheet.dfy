/**
 * The task bottom sheet: a description field, a drop-down of the lists it is
 * given, and a Create button that hands the description and the chosen list's
 * id to its caller.
 */
module TaskBottomSheet {
  import opened Wrappers
  import opened Primitives
  import opened Model

  const SelectListPrompt: string := "Select a list"

  /** The id selected when the sheet opens: the first list's, or -1 with no lists. */
  function InitialSelection(lists: seq<TodoList>): (r: int)
    ensures lists == [] ==> r == -1
    ensures lists != [] ==> r == lists[0].id
  {
    if lists == [] then -1 else lists[0].id
  }

  /** `lists.find { it.id == id }`: the first list with that id, if any. */
  function SelectedList(lists: seq<TodoList>, id: int): (r: Option<TodoList>)
    ensures r.None? <==> forall l :: l in lists ==> l.id != id
    ensures r.Some? ==>
      exists k :: 0 <= k < |lists| && lists[k] == r.value && r.value.id == id
        && forall j :: 0 <= j < k ==> lists[j].id != id
  {
    if lists == [] then None
    else if lists[0].id == id then Some(lists[0])
    else
      var r := SelectedList(lists[1..], id);
      assert forall l :: l in lists ==> l == lists[0] || l in lists[1..];
      assert forall j :: 1 <= j < |lists| ==> lists[j] == lists[1..][j - 1];
      r
  }

  /** The text of the read-only list field. */
  function SelectionLabel(lists: seq<TodoList>, id: int): (r: string)
    ensures (forall l :: l in lists ==> l.id != id) ==> r == SelectListPrompt
    ensures (exists l :: l in lists && l.id == id) ==> exists l :: l in lists && l.id == id && r == l.title
  {
    match SelectedList(lists, id)
    case None => SelectListPrompt
    case Some(l) => l.title
  }

  /** `taskDescription.isNotBlank() && selectedListId > 0`. */
  predicate IsCreateEnabled(description: string, selectedListId: int) {
    IsNotBlank(description) && selectedListId > 0
  }

  /** What the sheet shows beyond its text: the button's state and whether the hint is visible. */
  datatype SheetView = SheetView(fieldText: string, createEnabled: bool, helperTextShown: bool)

  function ViewOf(lists: seq<TodoList>, description: string, selectedListId: int): (r: SheetView)
    ensures r.createEnabled <==> IsNotBlank(description) && selectedListId > 0
    ensures r.helperTextShown <==> !r.createEnabled
    ensures r.fieldText == SelectionLabel(lists, selectedListId)
  {
    var enabled := IsCreateEnabled(description, selectedListId);
    SheetView(SelectionLabel(lists, selectedListId), enabled, !enabled)
  }

  /** A callback the sheet invokes on its caller. */
  datatype Callback =
    | OnCreateTask(description: string, listId: int)
    | OnDismiss
    | OnDetailsClick

  class TaskSheet {
    var taskDescription: string
    var selectedListId: int
    var expandedDropdown: bool

    constructor (lists: seq<TodoList>)
      ensures taskDescription == "" && selectedListId == InitialSelection(lists) && !expandedDropdown
    {
      taskDescription := "";
      selectedListId := if lists == [] then -1 else lists[0].id;
      expandedDropdown := false;
    }

    method EditDescription(description: string)
      modifies this
      ensures taskDescription == description
      ensures selectedListId == old(selectedListId) && expandedDropdown == old(expandedDropdown)
    {
      taskDescription := description;
    }

    method SetDropdownExpanded(expanded: bool)
      modifies this
      ensures expandedDropdown == expanded
      ensures taskDescription == old(taskDescription) && selectedListId == old(selectedListId)
    {
      expandedDropdown := expanded;
    }

    /** Picking a list from the drop-down selects it and closes the drop-down. */
    method PickList(list: TodoList)
      modifies this
      ensures selectedListId == list.id && !expandedDropdown
      ensures taskDescription == old(taskDescription)
    {
      selectedListId := list.id;
      expandedDropdown := false;
    }

    /** The Create button: when enabled, create then dismiss; otherwise nothing. */
    method Create() returns (calls: seq<Callback>)
      ensures IsCreateEnabled(taskDescription, selectedListId) ==>
        calls == [OnCreateTask(taskDescription, selectedListId), OnDismiss]
      ensures !IsCreateEnabled(taskDescription, selectedListId) ==> calls == []
      ensures forall c :: c in calls && c.OnCreateTask? ==> IsNotBlank(c.description) && c.listId > 0
    {
      calls := [];
      if IsCreateEnabled(taskDescription, selectedListId) {
        calls := calls + [OnCreateTask(taskDescription, selectedListId)];
        calls := calls + [OnDismiss];
      }
    }

    /** The details button: navigate first, then dismiss. */
    method Details() returns (calls: seq<Callback>)
      ensures calls == [OnDetailsClick, OnDismiss]
    {
      calls := [OnDetailsClick, OnDismiss];
    }
  }
}
