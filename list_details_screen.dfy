/**
 * The list details screen: the counts in its header, and the calls its item
 * handlers (toggle, delete with undo) and its task sheet make on the
 * coordinator.
 */
module ListDetailsScreen {
  import opened Wrappers
  import opened Primitives
  import opened DateConverter
  import opened Model
  import opened Seqs
  import opened TodoDao
  import opened RemoteMirror
  import opened TodoViewModel
  import TaskBottomSheet

  const MyTasks: string := "My Tasks"

  /** The effect keyed on the route's list id. */
  function OnOpen(listId: int): (r: TodoCall)
    ensures r.LoadItemsCall? && r.listId == listId
  {
    LoadItemsCall(listId)
  }

  /** The header's title: the current list's, or a fixed fallback. */
  function Title(s: TodoListState): (r: string)
    ensures s.currentList.Some? ==> r == s.currentList.value.title
    ensures s.currentList.None? ==> r == MyTasks
  {
    match s.currentList
    case Some(l) => l.title
    case None => MyTasks
  }

  // ---------------------------------------------------------------------------
  // Counts
  // ---------------------------------------------------------------------------

  function HasCompletion(completed: bool): TodoItem -> bool {
    (i: TodoItem) => i.isCompleted == completed
  }

  /** `items.count { it.isCompleted == completed }`. */
  function CountWhere(items: seq<TodoItem>, completed: bool): (r: nat)
    ensures r == |Filter(items, HasCompletion(completed))|
    ensures r == 0 <==> forall i :: i in items ==> i.isCompleted != completed
  {
    if items == [] then 0
    else
      assert items == [items[0]] + items[1..];
      (if items[0].isCompleted == completed then 1 else 0) + CountWhere(items[1..], completed)
  }

  /** The header's "active" and "completed" counts add up to the number of loaded items. */
  lemma {:induction false} CountsAddUp(items: seq<TodoItem>)
    ensures CountWhere(items, false) + CountWhere(items, true) == |items|
  {
    if items != [] {
      CountsAddUp(items[1..]);
    }
  }

  // ---------------------------------------------------------------------------
  // Toggle
  // ---------------------------------------------------------------------------

  /** What a tap on an item's check box does: one update, and a message when it completes the item. */
  datatype ToggleEffect = ToggleEffect(call: TodoCall, showsCompletedMessage: bool)

  function Toggled(item: TodoItem): (r: TodoItem)
    ensures r.isCompleted == !item.isCompleted
    ensures r.(isCompleted := item.isCompleted) == item
  {
    item.(isCompleted := !item.isCompleted)
  }

  function OnToggleComplete(item: TodoItem): (r: ToggleEffect)
    ensures r.call.UpdateItemCall?
    ensures r.call.item.isCompleted == !item.isCompleted
    ensures r.call.item.id == item.id && r.call.item.listId == item.listId
    ensures r.call.item.description == item.description && r.call.item.position == item.position
    ensures r.call.item.createdAt == item.createdAt && r.call.item.firebaseId == item.firebaseId
    ensures r.showsCompletedMessage <==> !item.isCompleted
  {
    ToggleEffect(UpdateItemCall(Toggled(item)), !item.isCompleted)
  }

  /** Toggling the toggled copy sends back the original item. */
  lemma {:induction false} ToggleTwiceRestores(item: TodoItem)
    ensures OnToggleComplete(OnToggleComplete(item).call.item).call.item == item
    ensures OnToggleComplete(item).showsCompletedMessage != OnToggleComplete(OnToggleComplete(item).call.item).showsCompletedMessage
  {
    assert Toggled(Toggled(item)) == Toggled(item).(isCompleted := item.isCompleted);
  }

  // ---------------------------------------------------------------------------
  // Delete and undo
  // ---------------------------------------------------------------------------

  /** The delete, then the subscription `emission` names emits, if any. */
  method DeleteThenEmit(c: TodoCoordinator, item: TodoItem, removeOutcome: Outcome<Message>, emission: Option<nat>)
    requires c.Valid()
    requires emission.Some? ==> emission.value < |c.subscriptions|
    modifies c, c.store, c.remote
    ensures c.Valid() && c.subscriptions == old(c.subscriptions)
    ensures c.store.lists == old(c.store.lists) && c.store.itemSequence == old(c.store.itemSequence)
    ensures c.store.items == RemoveKey(old(c.store.items), item.id, ItemKey)
    ensures c.state.items == (if emission.Some? && old(c.subscriptions)[emission.value].ListItems?
                              then ItemsByListId(c.store.items, old(c.subscriptions)[emission.value].listId)
                              else old(c.state.items))
  {
    c.DeleteItem(item, removeOutcome);
    if emission.Some? {
      c.Emit(emission.value);
    }
  }

  /**
   * Delete followed by Undo, run against the coordinator. Undo adds a new row
   * with the old description only: a fresh id, not completed, and a position
   * from the loaded count; the deleted row is not restored. When one
   * subscription emits between the delete and the Undo (`emission`, its
   * index), the loaded count is taken after that emission.
   */
  method DeleteWithUndo(c: TodoCoordinator, listId: int, item: TodoItem, removeOutcome: Outcome<Message>,
                        emission: Option<nat>, undoPressed: bool, createdAt: Date, key: Option<string>,
                        setOutcome: Outcome<Message>)
    requires c.Valid()
    requires emission.Some? ==> emission.value < |c.subscriptions|
    requires key.Some? ==> key.value != ""
    modifies c, c.store, c.remote
    ensures c.Valid()
    ensures c.store.lists == old(c.store.lists)
    ensures var remaining := RemoveKey(old(c.store.items), item.id, ItemKey);
      && (!undoPressed || !HasKey(old(c.store.lists), listId, ListKey) ==> c.store.items == remaining)
      && (undoPressed && !HasKey(old(c.store.lists), listId, ListKey) ==> c.state.error == Some(ForeignKeyFailed))
      && (undoPressed && HasKey(old(c.store.lists), listId, ListKey) ==>
            && |c.store.items| == |remaining| + 1
            && c.store.items[..|remaining|] == remaining
            && var added := c.store.items[|remaining|];
               && added.listId == listId && added.description == item.description && !added.isCompleted
               && added.id == old(c.store.itemSequence) + 1
               && added.position == AddItemPosition(
                    if emission.Some? && old(c.subscriptions)[emission.value].ListItems?
                    then ItemsByListId(remaining, old(c.subscriptions)[emission.value].listId)
                    else old(c.state.items))
               && (item in old(c.store.items) ==> added.id != item.id))
  {
    DeleteThenEmit(c, item, removeOutcome, emission);
    if undoPressed {
      ghost var remaining := c.store.items;
      ghost var counter := c.store.itemSequence;
      c.AddItem(listId, item.description, createdAt, key, setOutcome);
      if HasKey(old(c.store.lists), listId, ListKey) {
        assert c.store.items[..|remaining|] == remaining;
        assert item in old(c.store.items) ==> item.id <= counter;
      }
    }
  }

  // ---------------------------------------------------------------------------
  // The task sheet opened from this screen
  // ---------------------------------------------------------------------------

  /** `listOf(currentList).filterNotNull()`. */
  function SheetLists(s: TodoListState): (r: seq<TodoList>)
    ensures s.currentList.None? <==> r == []
    ensures s.currentList.Some? ==> r == [s.currentList.value]
  {
    match s.currentList
    case Some(l) => [l]
    case None => []
  }

  /** The sheet's create callback goes to `addItem` with the list the sheet chose, not to `createTask`. */
  function OnSheetCreate(description: string, listId: int): (r: TodoCall)
    ensures r == AddItemCall(listId, description)
  {
    AddItemCall(listId, description)
  }

  /**
   * The sheet preselects the current list; without one it selects -1, so its
   * Create button stays disabled and `addItem` is never reached from it.
   */
  lemma SheetPreselectsCurrentList(s: TodoListState, description: string)
    ensures s.currentList.Some? ==> TaskBottomSheet.InitialSelection(SheetLists(s)) == s.currentList.value.id
    ensures s.currentList.None? ==> !TaskBottomSheet.IsCreateEnabled(description, TaskBottomSheet.InitialSelection(SheetLists(s)))
  {
  }
}
