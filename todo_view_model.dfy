/**
 * The todo coordinator (ui/screens/lists/TodoViewModel.kt). It owns one state
 * record and drives the local store and the remote mirror, one write after
 * another. Every coroutine runs to completion before the next call; the
 * outcome of each remote call and the key `push()` yields are inputs, and a
 * failure ends the operation with `error = message, isLoading = false`
 * without undoing the writes already made.
 */
module TodoViewModel {
  import opened Wrappers
  import opened Primitives
  import opened DateConverter
  import opened Model
  import opened Seqs
  import opened TodoDao
  import opened RemoteMirror

  /** The state the screens observe. */
  datatype TodoListState = TodoListState(
    lists: seq<TodoList> := [],
    currentList: Option<TodoList> := None,
    items: seq<TodoItem> := [],
    isLoading: bool := false,
    error: Message := None)

  const ListNotFound: string := "List not found"

  datatype Table = ListsTable | ItemsTable

  /** What the coordinator does, in order: state publications and writes to either store. */
  datatype Event =
    | Published(state: TodoListState)
    | LocalInsert(table: Table, rowId: int)
    | LocalUpdate(table: Table, rowId: int)
    | LocalDelete(table: Table, rowId: int)
    | KeyRequested(collection: Collection)
    | RemoteSet(path: Path)
    | RemoteRemove(path: Path)

  /**
   * A collected query. Each emission replaces `lists` or `items` wholesale;
   * the `items` subscription started by `createTask` also clears `isLoading`.
   * Collection never ends: `return@collect` only leaves the lambda.
   */
  datatype Subscription =
    | UserLists(userId: string)
    | ListSearch(query: string, userId: string)
    | ListItems(listId: int, clearsLoading: bool)

  /** A call a screen makes on the coordinator, with the arguments it passes. */
  datatype TodoCall =
    | LoadListsCall(userId: string)
    | LoadItemsCall(listId: int)
    | CreateListCall(title: string, userId: string, category: string)
    | CreateTaskCall(description: string, listId: int)
    | AddItemCall(listId: int, description: string)
    | UpdateItemCall(item: TodoItem)
    | DeleteItemCall(item: TodoItem)

  /** The state after one emission of `sub` over the current tables. */
  function Emission(sub: Subscription, s: TodoListState, lists: seq<TodoList>, items: seq<TodoItem>): (r: TodoListState)
    ensures r.currentList == s.currentList && r.error == s.error
    ensures sub.UserLists? ==>
      && r.items == s.items && !r.isLoading
      && (forall l :: l in r.lists <==> l in lists && l.userId == sub.userId)
    ensures sub.ListSearch? ==>
      && r.items == s.items && r.isLoading == s.isLoading
      && r.lists == TodoDao.SearchLists(lists, sub.query, sub.userId)
    ensures sub.ListItems? ==>
      && r.lists == s.lists
      && r.isLoading == (s.isLoading && !sub.clearsLoading)
      && (forall i :: i in r.items <==> i in items && i.listId == sub.listId)
      && (forall j, k :: 0 <= j < k < |r.items| ==> r.items[j].position <= r.items[k].position)
  {
    match sub
    case UserLists(u) => s.(lists := AllLists(lists, u), isLoading := false)
    case ListSearch(q, u) => s.(lists := TodoDao.SearchLists(lists, q, u))
    case ListItems(l, clears) => s.(items := ItemsByListId(items, l), isLoading := s.isLoading && !clears)
  }

  // ---------------------------------------------------------------------------
  // Rows and remote nodes the operations build
  // ---------------------------------------------------------------------------

  /** `TodoList(title = ..., userId = ..., category = ...)` before insertion. */
  function ListDraft(title: string, userId: string, category: string, createdAt: Date): (r: TodoList)
    ensures r.id == 0 && r.firebaseId == ""
    ensures r.title == title && r.userId == userId && r.category == category && r.createdAt == createdAt
  {
    TodoList(title := title, userId := userId, createdAt := createdAt, category := category)
  }

  /** `TodoItem(listId = ..., description = ..., position = ...)` before insertion. */
  function ItemDraft(listId: int, description: string, createdAt: Date, position: Int32): (r: TodoItem)
    ensures r.id == 0 && r.firebaseId == "" && !r.isCompleted
    ensures r.listId == listId && r.description == description && r.createdAt == createdAt && r.position == position
  {
    TodoItem(listId := listId, description := description, createdAt := createdAt, position := position)
  }

  /** The map `createList` writes, spelled out field by field. */
  function CreateListPayload(l: TodoList): (r: RemoteNode)
    ensures r.Keys == {"title", "userId", "category", "createdAt"}
  {
    map["title" := Text(l.title), "userId" := Text(l.userId),
        "category" := Text(l.category), "createdAt" := Number(l.createdAt.time)]
  }

  /** The map `createTask` writes: the item's projection plus its parent's remote key. */
  function CreateTaskPayload(i: TodoItem, parentKey: string): (r: RemoteNode)
    ensures r.Keys == {"listId", "description", "isCompleted", "createdAt", "position"}
    ensures r["listId"] == Text(parentKey)
  {
    map["listId" := Text(parentKey), "description" := Text(i.description),
        "isCompleted" := Flag(i.isCompleted), "createdAt" := Number(i.createdAt.time),
        "position" := Number(i.position)]
  }

  /** `createList` writes exactly `toMap()` of the list. */
  lemma CreateListPayloadIsToMap(l: TodoList)
    ensures CreateListPayload(l) == ListToMap(l)
  {
  }

  /**
   * `createTask` writes `toMap()` plus `listId`; a later `updateItem`
   * overwrites the node with `toMap()` alone, so the parent key is lost.
   */
  lemma CreateTaskPayloadExtendsToMap(i: TodoItem, parentKey: string)
    ensures CreateTaskPayload(i, parentKey) == ItemToMap(i)["listId" := Text(parentKey)]
    ensures "listId" in CreateTaskPayload(i, parentKey) && "listId" !in ItemToMap(i)
  {
    var a := CreateTaskPayload(i, parentKey);
    var b := ItemToMap(i)["listId" := Text(parentKey)];
    assert a.Keys == b.Keys;
    assert forall f :: f in a ==> a[f] == b[f];
  }

  // ---------------------------------------------------------------------------
  // Positions
  // ---------------------------------------------------------------------------

  /** `createTask`: `(getMaxPositionForList(listId) ?: 0) + 1` in Kotlin `Int` arithmetic. */
  function NextPosition(max: Option<Int32>): (r: Int32)
    ensures max.None? ==> r == 1
    ensures max.Some? && max.value < MaxInt32 ==> r == max.value + 1
    ensures max == Some(MaxInt32) ==> r == MinInt32
  {
    WrapInt32(max.GetOr(0) + 1)
  }

  /** `addItem`: the number of items the state currently holds, whichever list they belong to. */
  function AddItemPosition(loaded: seq<TodoItem>): (r: Int32)
    ensures |loaded| <= MaxInt32 ==> r == |loaded|
  {
    WrapInt32(|loaded|)
  }

  /**
   * `createTask`'s position is above every position already in the list
   * exactly when the list's maximum is not `Int.MAX_VALUE` (where `+ 1`
   * wraps); the first item of an empty list gets 1.
   */
  lemma NextPositionAboveAll(items: seq<TodoItem>, listId: int)
    ensures var p := NextPosition(MaxPositionForList(items, listId));
      (forall i :: i in items && i.listId == listId ==> i.position < p)
      <==> MaxPositionForList(items, listId) != Some(MaxInt32)
    ensures (forall i :: i in items ==> i.listId != listId) ==> NextPosition(MaxPositionForList(items, listId)) == 1
  {
    var m := MaxPositionForList(items, listId);
    if m == Some(MaxInt32) {
      var top :| top in items && top.listId == listId && top.position == MaxInt32;
      assert !(top.position < NextPosition(m));
    }
  }

  /**
   * `addItem` does not keep positions distinct: after two `createTask`
   * calls on an empty list (positions 1 and 2) with those two items loaded,
   * `addItem` assigns 2 again, where `createTask` would assign 3.
   */
  lemma AddItemPositionMayRepeat(d: Date)
    ensures var loaded := [TodoItem(id := 1, listId := 1, createdAt := d, position := 1),
                           TodoItem(id := 2, listId := 1, createdAt := d, position := 2)];
      && AddItemPosition(loaded) == loaded[1].position
      && NextPosition(MaxPositionForList(loaded, 1)) == 3
  {
    var loaded := [TodoItem(id := 1, listId := 1, createdAt := d, position := 1),
                   TodoItem(id := 2, listId := 1, createdAt := d, position := 2)];
    assert loaded[1..] == [loaded[1]];
    assert loaded[1..][1..] == [];
  }

  // ---------------------------------------------------------------------------
  // The coordinator
  // ---------------------------------------------------------------------------

  /** Whether the local `updateItem` is refused by the foreign key. */
  predicate UpdateRefused(lists: seq<TodoList>, items: seq<TodoItem>, item: TodoItem) {
    HasKey(items, item.id, ItemKey) && !HasKey(lists, item.listId, ListKey)
  }

  class TodoCoordinator {
    const store: LocalStore
    const remote: Mirror
    var state: TodoListState
    var subscriptions: seq<Subscription>
    ghost var trace: seq<Event>

    ghost predicate Valid()
      reads this, store
    {
      store.Valid()
    }

    constructor (store: LocalStore, remote: Mirror)
      requires store.Valid()
      ensures Valid()
      ensures this.store == store && this.remote == remote
      ensures state == TodoListState() && subscriptions == [] && trace == []
    {
      this.store := store;
      this.remote := remote;
      state := TodoListState();
      subscriptions := [];
      trace := [];
    }

    /** `_todoState.update { ... }`. */
    method Publish(s: TodoListState)
      modifies this
      ensures state == s && subscriptions == old(subscriptions)
      ensures trace == old(trace) + [Published(s)]
    {
      state := s;
      trace := trace + [Published(s)];
    }

    /** Starts collecting `sub`; its first emission is published at once. */
    method Subscribe(sub: Subscription)
      modifies this
      ensures subscriptions == old(subscriptions) + [sub]
      ensures state == Emission(sub, old(state), store.lists, store.items)
      ensures trace == old(trace) + [Published(state)]
    {
      subscriptions := subscriptions + [sub];
      Publish(Emission(sub, state, store.lists, store.items));
    }

    /** A later emission of an active subscription, after the tables changed. */
    method Emit(k: nat)
      requires k < |subscriptions|
      modifies this
      ensures subscriptions == old(subscriptions)
      ensures state == Emission(subscriptions[k], old(state), store.lists, store.items)
      ensures trace == old(trace) + [Published(state)]
    {
      Publish(Emission(subscriptions[k], state, store.lists, store.items));
    }

    /**
     * The common tail of `createList`: write the remote node under the new
     * key, then copy the key into the row just inserted. A failed write
     * publishes the error and leaves the row without a key.
     */
    method MirrorNewList(ghost before: seq<TodoList>, row: TodoList, key: string, setOutcome: Outcome<Message>)
      requires Valid() && store.lists == before + [row] && key != ""
      modifies this, store, remote
      ensures Valid()
      ensures subscriptions == old(subscriptions)
      ensures store.items == old(store.items)
      ensures store.listSequence == old(store.listSequence) && store.itemSequence == old(store.itemSequence)
      ensures setOutcome.Fail? ==>
        && store.lists == old(store.lists) && remote.nodes == old(remote.nodes)
        && state == old(state).(error := setOutcome.error, isLoading := false)
        && trace == old(trace) + [Published(state)]
      ensures setOutcome.Pass? ==>
        var mirrored := row.(firebaseId := key);
        && store.lists == before + [mirrored]
        && remote.nodes == old(remote.nodes)[Path(Lists, key) := ListToMap(mirrored)]
        && state == old(state)
        && trace == old(trace) + [RemoteSet(Path(Lists, key))] + [LocalUpdate(ListsTable, row.id)]
    {
      var mirrored := row.(firebaseId := key);
      var path := Path(Lists, key);
      CreateListPayloadIsToMap(mirrored);
      remote.SetValue(path, CreateListPayload(mirrored), setOutcome);
      if setOutcome.Fail? {
        Publish(state.(error := setOutcome.error, isLoading := false));
        return;
      }
      trace := trace + [RemoteSet(path)];
      ReplaceLast(before, row, mirrored, ListKey);
      store.UpdateList(mirrored);
      trace := trace + [LocalUpdate(ListsTable, row.id)];
    }

    /**
     * The common tail of `addItem` and `createTask`: write `node` under the
     * new key, then copy the key into the item row just inserted.
     */
    method MirrorNewItem(ghost before: seq<TodoItem>, row: TodoItem, key: string, node: RemoteNode,
                         setOutcome: Outcome<Message>)
      requires Valid() && store.items == before + [row] && HasKey(store.lists, row.listId, ListKey) && key != ""
      modifies this, store, remote
      ensures Valid()
      ensures subscriptions == old(subscriptions)
      ensures store.lists == old(store.lists)
      ensures store.listSequence == old(store.listSequence) && store.itemSequence == old(store.itemSequence)
      ensures setOutcome.Fail? ==>
        && store.items == old(store.items) && remote.nodes == old(remote.nodes)
        && state == old(state).(error := setOutcome.error, isLoading := false)
        && trace == old(trace) + [Published(state)]
      ensures setOutcome.Pass? ==>
        && store.items == before + [row.(firebaseId := key)]
        && remote.nodes == old(remote.nodes)[Path(Items, key) := node]
        && state == old(state)
        && trace == old(trace) + [RemoteSet(Path(Items, key))] + [LocalUpdate(ItemsTable, row.id)]
    {
      var mirrored := row.(firebaseId := key);
      var path := Path(Items, key);
      remote.SetValue(path, node, setOutcome);
      if setOutcome.Fail? {
        Publish(state.(error := setOutcome.error, isLoading := false));
        return;
      }
      trace := trace + [RemoteSet(path)];
      ReplaceLast(before, row, mirrored, ItemKey);
      assert store.items[|before|] == row;
      var updated := store.UpdateItem(mirrored);
      trace := trace + [LocalUpdate(ItemsTable, row.id)];
    }

    /**
     * `createList`: insert locally, obtain a key, write the remote node,
     * copy the key into the local row, append the list to the state.
     */
    method CreateList(title: string, userId: string, category: string, createdAt: Date,
                      key: Option<string>, setOutcome: Outcome<Message>)
      requires Valid()
      requires key.Some? ==> key.value != ""
      modifies this, store, remote
      ensures Valid()
      ensures subscriptions == old(subscriptions) && !state.isLoading
      ensures store.items == old(store.items) && store.itemSequence == old(store.itemSequence)
      ensures store.listSequence == old(store.listSequence) + 1
      ensures var row := ListDraft(title, userId, category, createdAt).(id := old(store.listSequence) + 1);
              var loading := old(state).(isLoading := true);
        key.None? ==>
          && store.lists == old(store.lists) + [row]
          && remote.nodes == old(remote.nodes)
          && state == loading.(error := Some(KeyFailed), isLoading := false)
          && trace == old(trace) + [Published(loading)] + [LocalInsert(ListsTable, row.id)] + [KeyRequested(Lists)] + [Published(state)]
      ensures var row := ListDraft(title, userId, category, createdAt).(id := old(store.listSequence) + 1);
              var loading := old(state).(isLoading := true);
        key.Some? && setOutcome.Fail? ==>
          && store.lists == old(store.lists) + [row]
          && remote.nodes == old(remote.nodes)
          && state == loading.(error := setOutcome.error, isLoading := false)
          && trace == old(trace) + [Published(loading)] + [LocalInsert(ListsTable, row.id)] + [KeyRequested(Lists)] + [Published(state)]
      ensures var row := ListDraft(title, userId, category, createdAt).(id := old(store.listSequence) + 1);
              var loading := old(state).(isLoading := true);
        key.Some? && setOutcome.Pass? ==>
          var mirrored := row.(firebaseId := key.value);
          && mirrored.firebaseId != ""
          && store.lists == old(store.lists) + [mirrored]
          && remote.nodes == old(remote.nodes)[Path(Lists, key.value) := ListToMap(mirrored)]
          && state == loading.(lists := old(state).lists + [mirrored], isLoading := false)
          && trace == old(trace) + [Published(loading)] + [LocalInsert(ListsTable, row.id)] + [KeyRequested(Lists)] + [RemoteSet(Path(Lists, key.value))] + [LocalUpdate(ListsTable, row.id)] + [Published(state)]
    {
      Publish(state.(isLoading := true));
      var list := ListDraft(title, userId, category, createdAt);
      var localId := store.InsertList(list);
      trace := trace + [LocalInsert(ListsTable, localId)];
      trace := trace + [KeyRequested(Lists)];
      if key.None? {
        Publish(state.(error := Some(KeyFailed), isLoading := false));
        return;
      }
      var row := list.(id := localId);
      MirrorNewList(old(store.lists), row, key.value, setOutcome);
      if setOutcome.Fail? {
        return;
      }
      Publish(state.(lists := state.lists + [row.(firebaseId := key.value)], isLoading := false));
    }

    /**
     * `addItem`: like `createList`, for an item placed at the number of items
     * currently loaded. Nothing checks that the list exists; the local insert
     * is then refused by the foreign key.
     */
    method AddItem(listId: int, description: string, createdAt: Date,
                   key: Option<string>, setOutcome: Outcome<Message>)
      requires Valid()
      requires key.Some? ==> key.value != ""
      modifies this, store, remote
      ensures Valid()
      ensures subscriptions == old(subscriptions) && !state.isLoading
      ensures store.lists == old(store.lists) && store.listSequence == old(store.listSequence)
      ensures var loading := old(state).(isLoading := true);
        !HasKey(old(store.lists), listId, ListKey) ==>
          && store.items == old(store.items) && store.itemSequence == old(store.itemSequence)
          && remote.nodes == old(remote.nodes)
          && state == loading.(error := Some(ForeignKeyFailed), isLoading := false)
          && trace == old(trace) + [Published(loading)] + [Published(state)]
      ensures var row := ItemDraft(listId, description, createdAt, AddItemPosition(old(state).items))
                         .(id := old(store.itemSequence) + 1);
              var loading := old(state).(isLoading := true);
        HasKey(old(store.lists), listId, ListKey) ==>
          && store.itemSequence == row.id
          && (key.None? ==>
                && store.items == old(store.items) + [row]
                && remote.nodes == old(remote.nodes)
                && state == loading.(error := Some(KeyFailed), isLoading := false)
                && trace == old(trace) + [Published(loading)] + [LocalInsert(ItemsTable, row.id)] + [KeyRequested(Items)] + [Published(state)])
          && (key.Some? && setOutcome.Fail? ==>
                && store.items == old(store.items) + [row]
                && remote.nodes == old(remote.nodes)
                && state == loading.(error := setOutcome.error, isLoading := false)
                && trace == old(trace) + [Published(loading)] + [LocalInsert(ItemsTable, row.id)] + [KeyRequested(Items)] + [Published(state)])
          && (key.Some? && setOutcome.Pass? ==>
                var mirrored := row.(firebaseId := key.value);
                && mirrored.firebaseId != ""
                && store.items == old(store.items) + [mirrored]
                && remote.nodes == old(remote.nodes)[Path(Items, key.value) := ItemToMap(mirrored)]
                && state == loading.(isLoading := false)
                && trace == old(trace) + [Published(loading)] + [LocalInsert(ItemsTable, row.id)] + [KeyRequested(Items)] + [RemoteSet(Path(Items, key.value))] + [LocalUpdate(ItemsTable, row.id)] + [Published(state)])
    {
      Publish(state.(isLoading := true));
      var item := ItemDraft(listId, description, createdAt, AddItemPosition(state.items));
      var inserted := store.InsertItem(item);
      if inserted.Failure? {
        Publish(state.(error := inserted.error, isLoading := false));
        return;
      }
      trace := trace + [LocalInsert(ItemsTable, inserted.value)];
      trace := trace + [KeyRequested(Items)];
      if key.None? {
        Publish(state.(error := Some(KeyFailed), isLoading := false));
        return;
      }
      var row := item.(id := inserted.value);
      MirrorNewItem(old(store.items), row, key.value, ItemToMap(row.(firebaseId := key.value)), setOutcome);
      if setOutcome.Fail? {
        return;
      }
      Publish(state.(isLoading := false));
    }

    /**
     * `updateItem`: the local row first, then the whole remote node
     * `items/{firebaseId}` with `toMap()`. An item that was never mirrored
     * has an empty `firebaseId`, and the write then overwrites the whole
     * `items` collection.
     */
    method UpdateItem(item: TodoItem, setOutcome: Outcome<Message>)
      requires Valid()
      modifies this, store, remote
      ensures Valid()
      ensures subscriptions == old(subscriptions) && !state.isLoading
      ensures store.lists == old(store.lists) && store.listSequence == old(store.listSequence)
      ensures store.itemSequence == old(store.itemSequence)
      ensures var loading := old(state).(isLoading := true);
        UpdateRefused(old(store.lists), old(store.items), item) ==>
          && store.items == old(store.items)
          && remote.nodes == old(remote.nodes)
          && state == loading.(error := Some(ForeignKeyFailed), isLoading := false)
          && trace == old(trace) + [Published(loading)] + [Published(state)]
      ensures var loading := old(state).(isLoading := true);
              var path := Path(Items, item.firebaseId);
        !UpdateRefused(old(store.lists), old(store.items), item) ==>
          && store.items == (if HasKey(old(store.items), item.id, ItemKey)
                             then Replace(old(store.items), item, ItemKey) else old(store.items))
          && (setOutcome.Fail? ==>
                && remote.nodes == old(remote.nodes)
                && state == loading.(error := setOutcome.error, isLoading := false)
                && trace == old(trace) + [Published(loading)] + [LocalUpdate(ItemsTable, item.id)] + [Published(state)])
          && (setOutcome.Pass? ==>
                && remote.nodes == (if item.firebaseId != "" then old(remote.nodes)[path := ItemToMap(item)]
                                    else WithoutCollection(old(remote.nodes), Items))
                && state == loading.(isLoading := false)
                && trace == old(trace) + [Published(loading)] + [LocalUpdate(ItemsTable, item.id)] + [RemoteSet(path)] + [Published(state)])
    {
      Publish(state.(isLoading := true));
      var updated := store.UpdateItem(item);
      if updated.Fail? {
        Publish(state.(error := updated.error, isLoading := false));
        return;
      }
      trace := trace + [LocalUpdate(ItemsTable, item.id)];
      var path := Path(Items, item.firebaseId);
      remote.SetValue(path, ItemToMap(item), setOutcome);
      if setOutcome.Fail? {
        Publish(state.(error := setOutcome.error, isLoading := false));
        return;
      }
      trace := trace + [RemoteSet(path)];
      Publish(state.(isLoading := false));
    }

    /** `deleteItem`: the local row first, then the remote node; with an empty `firebaseId`, every remote item. */
    method DeleteItem(item: TodoItem, removeOutcome: Outcome<Message>)
      requires Valid()
      modifies this, store, remote
      ensures Valid()
      ensures subscriptions == old(subscriptions) && !state.isLoading
      ensures store.lists == old(store.lists) && store.listSequence == old(store.listSequence)
      ensures store.itemSequence == old(store.itemSequence)
      ensures store.items == RemoveKey(old(store.items), item.id, ItemKey)
      ensures var loading := old(state).(isLoading := true);
              var path := Path(Items, item.firebaseId);
        && (removeOutcome.Fail? ==>
              && remote.nodes == old(remote.nodes)
              && state == loading.(error := removeOutcome.error, isLoading := false)
              && trace == old(trace) + [Published(loading)] + [LocalDelete(ItemsTable, item.id)] + [Published(state)])
        && (removeOutcome.Pass? ==>
              && remote.nodes == (if item.firebaseId != "" then old(remote.nodes) - {path}
                                  else WithoutCollection(old(remote.nodes), Items))
              && state == loading.(isLoading := false)
              && trace == old(trace) + [Published(loading)] + [LocalDelete(ItemsTable, item.id)] + [RemoteRemove(path)] + [Published(state)])
    {
      Publish(state.(isLoading := true));
      store.DeleteItem(item);
      trace := trace + [LocalDelete(ItemsTable, item.id)];
      var path := Path(Items, item.firebaseId);
      remote.RemoveValue(path, removeOutcome);
      if removeOutcome.Fail? {
        Publish(state.(error := removeOutcome.error, isLoading := false));
        return;
      }
      trace := trace + [RemoteRemove(path)];
      Publish(state.(isLoading := false));
    }

    /** `loadItems`: set `currentList` (None when there is no such list), then collect the list's items. */
    method LoadItems(listId: int)
      modifies this
      ensures subscriptions == old(subscriptions) + [ListItems(listId, false)]
      ensures state == old(state).(currentList := ListById(store.lists, listId),
                                   items := ItemsByListId(store.items, listId))
      ensures var selected := old(state).(currentList := ListById(store.lists, listId));
        trace == old(trace) + [Published(selected)] + [Published(state)]
    {
      Publish(state.(currentList := ListById(store.lists, listId)));
      Subscribe(ListItems(listId, false));
    }

    /** `loadLists`: set `isLoading`, then collect the user's lists; each emission clears `isLoading`. */
    method LoadLists(userId: string)
      modifies this
      ensures subscriptions == old(subscriptions) + [UserLists(userId)]
      ensures state == old(state).(lists := AllLists(store.lists, userId), isLoading := false)
      ensures trace == old(trace) + [Published(old(state).(isLoading := true))] + [Published(state)]
    {
      Publish(state.(isLoading := true));
      Subscribe(UserLists(userId));
    }

    /** `searchLists`: collect the search; `isLoading` is not touched. */
    method SearchLists(query: string, userId: string)
      modifies this
      ensures subscriptions == old(subscriptions) + [ListSearch(query, userId)]
      ensures state == old(state).(lists := TodoDao.SearchLists(store.lists, query, userId))
      ensures trace == old(trace) + [Published(state)]
    {
      Subscribe(ListSearch(query, userId));
    }

    /**
     * `createTask`: refuse an unknown list with no write; otherwise place the
     * item after the list's highest position, mirror it with its parent's
     * remote key, and refresh `items` when that list is the current one.
     */
    method CreateTask(description: string, listId: int, createdAt: Date,
                      key: Option<string>, setOutcome: Outcome<Message>)
      requires Valid()
      requires key.Some? ==> key.value != ""
      modifies this, store, remote
      ensures Valid()
      ensures !state.isLoading
      ensures store.lists == old(store.lists) && store.listSequence == old(store.listSequence)
      ensures var loading := old(state).(isLoading := true);
        ListById(old(store.lists), listId).None? ==>
          && store.items == old(store.items) && store.itemSequence == old(store.itemSequence)
          && remote.nodes == old(remote.nodes)
          && subscriptions == old(subscriptions)
          && state == loading.(error := Some(ListNotFound), isLoading := false)
          && trace == old(trace) + [Published(loading)] + [Published(state)]
      ensures var loading := old(state).(isLoading := true);
              var row := ItemDraft(listId, description, createdAt,
                                   NextPosition(MaxPositionForList(old(store.items), listId)))
                         .(id := old(store.itemSequence) + 1);
        ListById(old(store.lists), listId).Some? ==>
          && store.itemSequence == row.id
          && (key.None? ==>
                && store.items == old(store.items) + [row]
                && remote.nodes == old(remote.nodes)
                && subscriptions == old(subscriptions)
                && state == loading.(error := Some(KeyFailed), isLoading := false)
                && trace == old(trace) + [Published(loading)] + [LocalInsert(ItemsTable, row.id)]
                                       + [KeyRequested(Items)] + [Published(state)])
          && (key.Some? && setOutcome.Fail? ==>
                && store.items == old(store.items) + [row]
                && remote.nodes == old(remote.nodes)
                && subscriptions == old(subscriptions)
                && state == loading.(error := setOutcome.error, isLoading := false)
                && trace == old(trace) + [Published(loading)] + [LocalInsert(ItemsTable, row.id)]
                                       + [KeyRequested(Items)] + [Published(state)])
          && (key.Some? && setOutcome.Pass? ==>
                var mirrored := row.(firebaseId := key.value);
                var parentKey := ListById(old(store.lists), listId).value.firebaseId;
                && mirrored.firebaseId != ""
                && store.items == old(store.items) + [mirrored]
                && remote.nodes == old(remote.nodes)[Path(Items, key.value) := CreateTaskPayload(mirrored, parentKey)]
                && RefreshedAfterCreate(old(state).currentList, listId, loading, state, store.items,
                                        old(subscriptions), subscriptions)
                && trace == old(trace) + [Published(loading)] + [LocalInsert(ItemsTable, row.id)]
                                       + [KeyRequested(Items)] + [RemoteSet(Path(Items, key.value))]
                                       + [LocalUpdate(ItemsTable, row.id)] + [Published(state)])
    {
      Publish(state.(isLoading := true));
      var list := ListById(store.lists, listId);
      if list.None? {
        Publish(state.(error := Some(ListNotFound), isLoading := false));
        return;
      }
      CreateTaskIn(list.value, description, createdAt, key, setOutcome);
    }

    /** `createTask` once its list has been found. */
    method CreateTaskIn(parent: TodoList, description: string, createdAt: Date,
                        key: Option<string>, setOutcome: Outcome<Message>)
      requires Valid() && parent in store.lists
      requires key.Some? ==> key.value != ""
      modifies this, store, remote
      ensures Valid()
      ensures !state.isLoading
      ensures store.lists == old(store.lists) && store.listSequence == old(store.listSequence)
      ensures var row := ItemDraft(parent.id, description, createdAt,
                                   NextPosition(MaxPositionForList(old(store.items), parent.id)))
                         .(id := old(store.itemSequence) + 1);
        && store.itemSequence == row.id
        && (key.None? ==>
              && store.items == old(store.items) + [row]
              && remote.nodes == old(remote.nodes)
              && subscriptions == old(subscriptions)
              && state == old(state).(error := Some(KeyFailed), isLoading := false)
              && trace == old(trace) + [LocalInsert(ItemsTable, row.id)] + [KeyRequested(Items)] + [Published(state)])
        && (key.Some? && setOutcome.Fail? ==>
              && store.items == old(store.items) + [row]
              && remote.nodes == old(remote.nodes)
              && subscriptions == old(subscriptions)
              && state == old(state).(error := setOutcome.error, isLoading := false)
              && trace == old(trace) + [LocalInsert(ItemsTable, row.id)] + [KeyRequested(Items)] + [Published(state)])
        && (key.Some? && setOutcome.Pass? ==>
              var mirrored := row.(firebaseId := key.value);
              && store.items == old(store.items) + [mirrored]
              && remote.nodes == old(remote.nodes)[Path(Items, key.value) := CreateTaskPayload(mirrored, parent.firebaseId)]
              && RefreshedAfterCreate(old(state).currentList, parent.id, old(state), state, store.items,
                                      old(subscriptions), subscriptions)
              && trace == old(trace) + [LocalInsert(ItemsTable, row.id)] + [KeyRequested(Items)]
                                     + [RemoteSet(Path(Items, key.value))] + [LocalUpdate(ItemsTable, row.id)]
                                     + [Published(state)])
    {
      var row := InsertTaskRow(parent, description, createdAt);
      if key.None? {
        Publish(state.(error := Some(KeyFailed), isLoading := false));
        return;
      }
      var payload := CreateTaskPayload(row.(firebaseId := key.value), parent.firebaseId);
      MirrorNewItem(old(store.items), row, key.value, payload, setOutcome);
      if setOutcome.Fail? {
        return;
      }
      RefreshAfterCreate(parent.id);
    }

    /** The first writes of `createTask`: insert the row after the list's highest position, then ask for a key. */
    method InsertTaskRow(parent: TodoList, description: string, createdAt: Date) returns (row: TodoItem)
      requires Valid() && parent in store.lists
      modifies this, store
      ensures Valid()
      ensures row == ItemDraft(parent.id, description, createdAt,
                               NextPosition(MaxPositionForList(old(store.items), parent.id)))
                     .(id := old(store.itemSequence) + 1)
      ensures store.items == old(store.items) + [row] && store.itemSequence == row.id
      ensures store.lists == old(store.lists) && store.listSequence == old(store.listSequence)
      ensures HasKey(store.lists, row.listId, ListKey)
      ensures trace == old(trace) + [LocalInsert(ItemsTable, row.id)] + [KeyRequested(Items)]
      ensures state == old(state) && subscriptions == old(subscriptions)
    {
      var position := NextPosition(MaxPositionForList(store.items, parent.id));
      var item := ItemDraft(parent.id, description, createdAt, position);
      assert HasKey(store.lists, parent.id, ListKey) by {
        var k :| 0 <= k < |store.lists| && store.lists[k] == parent;
      }
      var inserted := store.InsertItem(item);
      row := item.(id := inserted.value);
      trace := trace + [LocalInsert(ItemsTable, row.id)];
      trace := trace + [KeyRequested(Items)];
    }

    /** The end of a successful `createTask`: re-collect the items when `listId` is the current list. */
    method RefreshAfterCreate(listId: int)
      modifies this
      ensures RefreshedAfterCreate(old(state).currentList, listId, old(state), state, store.items,
                                   old(subscriptions), subscriptions)
      ensures !state.isLoading
      ensures trace == old(trace) + [Published(state)]
    {
      if state.currentList.Some? && state.currentList.value.id == listId {
        Subscribe(ListItems(listId, true));
      } else {
        Publish(state.(isLoading := false));
      }
    }
  }

  /**
   * How a successful `createTask` on `listId` ends: when the current list is
   * that list, its items are collected again (the collection stays active)
   * and the first emission clears `isLoading`; otherwise only `isLoading` is
   * cleared.
   */
  ghost predicate RefreshedAfterCreate(current: Option<TodoList>, listId: int, before: TodoListState,
                                       after: TodoListState, items: seq<TodoItem>,
                                       subsBefore: seq<Subscription>, subsAfter: seq<Subscription>)
  {
    if current.Some? && current.value.id == listId then
      && subsAfter == subsBefore + [ListItems(listId, true)]
      && after == before.(items := ItemsByListId(items, listId), isLoading := false)
    else
      && subsAfter == subsBefore
      && after == before.(isLoading := false)
  }
}
