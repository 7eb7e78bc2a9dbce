/**
 * The local relational store behind `TodoListDao` and `TodoItemDao`
 * (data/local/TodoDao.kt): two tables, `todo_lists` and `todo_items`, with
 * AUTOINCREMENT ids and a foreign key from items to lists with ON DELETE
 * CASCADE (model/TodoItem.kt). The SELECT queries are pure functions of the
 * tables; the writes are methods of LocalStore.
 */
module TodoDao {
  import opened Wrappers
  import opened Primitives
  import opened DateConverter
  import opened Model
  import opened Seqs
  import opened SqlLike

  /** The message of the SQLiteConstraintException a foreign-key violation raises. */
  const ForeignKeyFailed: string := "FOREIGN KEY constraint failed (code 787 SQLITE_CONSTRAINT_FOREIGNKEY[787])"

  function ListKey(l: TodoList): int { l.id }
  function ItemKey(i: TodoItem): int { i.id }

  // ---------------------------------------------------------------------------
  // Row predicates and sort keys of the queries
  // ---------------------------------------------------------------------------

  function OwnedBy(userId: string): TodoList -> bool {
    (l: TodoList) => l.userId == userId
  }

  function InList(listId: int): TodoItem -> bool {
    (i: TodoItem) => i.listId == listId
  }

  function NotInList(listId: int): TodoItem -> bool {
    (i: TodoItem) => i.listId != listId
  }

  function TitleMatches(query: string, userId: string): TodoList -> bool {
    (l: TodoList) => Like(l.title, ContainsPattern(query)) && l.userId == userId
  }

  function DescriptionMatches(query: string): TodoItem -> bool {
    (i: TodoItem) => Like(i.description, ContainsPattern(query))
  }

  /** `ORDER BY createdAt DESC` as an ascending key. */
  function NewestFirst(l: TodoList): int { -(l.createdAt.time as int) }

  /** `ORDER BY position ASC`. */
  function ByPosition(i: TodoItem): int { i.position }

  // ---------------------------------------------------------------------------
  // Queries
  // ---------------------------------------------------------------------------

  /** `getAllLists(userId)`: the user's lists, newest first. */
  function AllLists(lists: seq<TodoList>, userId: string): (r: seq<TodoList>)
    ensures multiset(r) == multiset(Filter(lists, OwnedBy(userId)))
    ensures forall l :: l in r <==> l in lists && l.userId == userId
    ensures forall i, j :: 0 <= i < j < |r| ==> r[i].createdAt.time >= r[j].createdAt.time
  {
    var r := SortBy(Filter(lists, OwnedBy(userId)), NewestFirst);
    MultisetSameElements(r, Filter(lists, OwnedBy(userId)));
    assert forall i, j :: 0 <= i < j < |r| ==> NewestFirst(r[i]) <= NewestFirst(r[j]);
    r
  }

  /** `getListById(listId)`: the row with that id, or null. */
  function ListById(lists: seq<TodoList>, listId: int): (r: Option<TodoList>)
    ensures r.Some? <==> exists i :: 0 <= i < |lists| && lists[i].id == listId
    ensures r.Some? ==> r.value in lists && r.value.id == listId
  {
    var r := Lookup(lists, listId, ListKey);
    assert HasKey(lists, listId, ListKey) <==> exists i :: 0 <= i < |lists| && lists[i].id == listId;
    r
  }

  /** `searchLists(query, userId)`: the user's lists whose title is LIKE `%query%`, in table order. */
  function SearchLists(lists: seq<TodoList>, query: string, userId: string): (r: seq<TodoList>)
    ensures forall l :: l in r <==> l in lists && l.userId == userId && Like(l.title, ContainsPattern(query))
    ensures IsSubsequence(r, lists)
  {
    FilterIsSubsequence(lists, TitleMatches(query, userId));
    Filter(lists, TitleMatches(query, userId))
  }

  /** For a query without wildcards, `searchLists` is case-insensitive substring search on the title. */
  lemma SearchListsIsTitleSearch(lists: seq<TodoList>, query: string, userId: string, l: TodoList)
    requires NoWildcards(query)
    ensures l in SearchLists(lists, query, userId) <==>
      l in lists && l.userId == userId && ContainsIgnoreCase(l.title, query)
  {
    SearchPatternIsContains(l.title, query);
  }

  /** `getItemsByListId(listId)`: the list's items, by ascending position. */
  function ItemsByListId(items: seq<TodoItem>, listId: int): (r: seq<TodoItem>)
    ensures multiset(r) == multiset(Filter(items, InList(listId)))
    ensures forall i :: i in r <==> i in items && i.listId == listId
    ensures forall i, j :: 0 <= i < j < |r| ==> r[i].position <= r[j].position
  {
    var r := SortBy(Filter(items, InList(listId)), ByPosition);
    MultisetSameElements(r, Filter(items, InList(listId)));
    assert forall i, j :: 0 <= i < j < |r| ==> ByPosition(r[i]) <= ByPosition(r[j]);
    r
  }

  /** `searchItems(query)`: the items of every list whose description is LIKE `%query%`. */
  function SearchItems(items: seq<TodoItem>, query: string): (r: seq<TodoItem>)
    ensures forall i :: i in r <==> i in items && Like(i.description, ContainsPattern(query))
    ensures IsSubsequence(r, items)
  {
    FilterIsSubsequence(items, DescriptionMatches(query));
    Filter(items, DescriptionMatches(query))
  }

  /** `getMaxPositionForList(listId)`: SQL `MAX(position)`, null over no rows. */
  function MaxPositionForList(items: seq<TodoItem>, listId: int): (r: Option<Int32>)
    ensures r.None? <==> forall i :: i in items ==> i.listId != listId
    ensures r.Some? ==> exists i :: i in items && i.listId == listId && i.position == r.value
    ensures r.Some? ==> forall i :: i in items && i.listId == listId ==> i.position <= r.value
  {
    if items == [] then None
    else
      var rest := MaxPositionForList(items[1..], listId);
      assert forall i :: i in items <==> i == items[0] || i in items[1..];
      if items[0].listId != listId then rest
      else match rest
        case None => Some(items[0].position)
        case Some(m) => Some(if items[0].position > m then items[0].position else m)
  }

  // ---------------------------------------------------------------------------
  // Writes
  // ---------------------------------------------------------------------------

  /** Every item row references an existing list row. */
  ghost predicate ForeignKeysHold(lists: seq<TodoList>, items: seq<TodoItem>) {
    forall i :: i in items ==> HasKey(lists, i.listId, ListKey)
  }

  /** Deleting list `listId` (or replacing it) removes its items: ON DELETE CASCADE. */
  function Cascade(items: seq<TodoItem>, listId: int): (r: seq<TodoItem>)
    ensures forall i :: i in r <==> i in items && i.listId != listId
  {
    Filter(items, NotInList(listId))
  }

  /** The rows after `UPDATE todo_items SET position = p WHERE id = itemId`. */
  function WithPosition(items: seq<TodoItem>, itemId: int, p: Int32): (r: seq<TodoItem>)
    ensures |r| == |items|
    ensures forall k :: 0 <= k < |items| ==>
      r[k] == if items[k].id == itemId then items[k].(position := p) else items[k]
  {
    if items == [] then []
    else [if items[0].id == itemId then items[0].(position := p) else items[0]] + WithPosition(items[1..], itemId, p)
  }

  /** Ids are never 0 (0 asks for a fresh id) and never above the AUTOINCREMENT counter. */
  ghost predicate ListIdsBounded(lists: seq<TodoList>, counter: int) {
    forall l :: l in lists ==> l.id != 0 && l.id <= counter
  }

  ghost predicate ItemIdsBounded(items: seq<TodoItem>, counter: int) {
    forall i :: i in items ==> i.id != 0 && i.id <= counter
  }

  /** The integrity the schema maintains: primary keys, counters, foreign keys. */
  ghost predicate TablesValid(lists: seq<TodoList>, items: seq<TodoItem>, listSequence: int, itemSequence: int) {
    && UniqueKeys(lists, ListKey)
    && UniqueKeys(items, ItemKey)
    && 0 <= listSequence && 0 <= itemSequence
    && ListIdsBounded(lists, listSequence)
    && ItemIdsBounded(items, itemSequence)
    && ForeignKeysHold(lists, items)
  }

  function Max(a: int, b: int): (r: int)
    ensures r >= a && r >= b && (r == a || r == b)
  {
    if a >= b then a else b
  }

  /** The row id `insertList`/`insertItem` uses: the next counter value for id 0, else the given id. */
  function RowId(id: int, counter: int): (r: int)
    requires 0 <= counter
    ensures r != 0
    ensures id == 0 ==> r > counter
    ensures id != 0 ==> r == id
  {
    if id == 0 then counter + 1 else id
  }

  /** A fresh AUTOINCREMENT id belongs to no row yet. */
  lemma FreshListId(lists: seq<TodoList>, counter: int)
    requires ListIdsBounded(lists, counter) && 0 <= counter
    ensures !HasKey(lists, RowId(0, counter), ListKey)
  {
    forall k | 0 <= k < |lists| ensures lists[k].id != counter + 1 {
      assert lists[k] in lists;
    }
  }

  lemma FreshItemId(items: seq<TodoItem>, counter: int)
    requires ItemIdsBounded(items, counter) && 0 <= counter
    ensures !HasKey(items, RowId(0, counter), ItemKey)
  {
    forall k | 0 <= k < |items| ensures items[k].id != counter + 1 {
      assert items[k] in items;
    }
  }

  /** Upserting a row with a non-zero id raises the counter to cover it. */
  lemma ListIdsAfterUpsert(lists: seq<TodoList>, row: TodoList, counter: int)
    requires UniqueKeys(lists, ListKey) && ListIdsBounded(lists, counter) && row.id != 0
    ensures ListIdsBounded(Upsert(lists, row, ListKey), Max(counter, row.id))
  {
    UpsertSpec(lists, row, ListKey);
  }

  lemma ItemIdsAfterUpsert(items: seq<TodoItem>, row: TodoItem, counter: int)
    requires UniqueKeys(items, ItemKey) && ItemIdsBounded(items, counter) && row.id != 0
    ensures ItemIdsBounded(Upsert(items, row, ItemKey), Max(counter, row.id))
  {
    UpsertSpec(items, row, ItemKey);
  }

  /** The cascade only removes rows. */
  lemma CascadeKeepsItemsValid(items: seq<TodoItem>, listId: int, counter: int)
    requires UniqueKeys(items, ItemKey) && ItemIdsBounded(items, counter)
    ensures UniqueKeys(Cascade(items, listId), ItemKey) && ItemIdsBounded(Cascade(items, listId), counter)
  {
    FilterPreservesUnique(items, NotInList(listId), ItemKey);
  }

  /** Removing item rows cannot break a foreign key. */
  lemma ForeignKeysOfFewerItems(lists: seq<TodoList>, items: seq<TodoItem>, items': seq<TodoItem>)
    requires ForeignKeysHold(lists, items)
    requires forall i :: i in items' ==> i in items
    ensures ForeignKeysHold(lists, items')
  {
  }

  /** Keeping every list id keeps every foreign key. */
  lemma ForeignKeysOfMoreLists(lists: seq<TodoList>, lists': seq<TodoList>, items: seq<TodoItem>)
    requires ForeignKeysHold(lists, items)
    requires forall k :: HasKey(lists, k, ListKey) ==> HasKey(lists', k, ListKey)
    ensures ForeignKeysHold(lists', items)
  {
  }

  /** `insertList` keeps the schema's integrity. */
  lemma InsertListValid(lists: seq<TodoList>, items: seq<TodoItem>, lseq: int, iseq: int, list: TodoList)
    requires TablesValid(lists, items, lseq, iseq)
    ensures var id := RowId(list.id, lseq);
      TablesValid(Upsert(lists, list.(id := id), ListKey),
                  if HasKey(lists, id, ListKey) then Cascade(items, id) else items,
                  Max(lseq, id), iseq)
  {
    var id := RowId(list.id, lseq);
    var row := list.(id := id);
    var items' := if HasKey(lists, id, ListKey) then Cascade(items, id) else items;
    UpsertSpec(lists, row, ListKey);
    ListIdsAfterUpsert(lists, row, lseq);
    CascadeKeepsItemsValid(items, id, iseq);
    ForeignKeysOfFewerItems(lists, items, items');
    UpsertKeepsKeys(lists, row, ListKey);
    ForeignKeysOfMoreLists(lists, Upsert(lists, row, ListKey), items');
  }

  /** `updateList` keeps the schema's integrity: keys do not change. */
  lemma UpdateListValid(lists: seq<TodoList>, items: seq<TodoItem>, lseq: int, iseq: int, list: TodoList)
    requires TablesValid(lists, items, lseq, iseq)
    ensures TablesValid(Replace(lists, list, ListKey), items, lseq, iseq)
  {
    var lists' := Replace(lists, list, ListKey);
    ReplacePreservesUnique(lists, list, ListKey);
    assert ListIdsBounded(lists', lseq) by {
      ReplaceMembers(lists, list, ListKey);
      forall x | x in lists' ensures x.id != 0 && x.id <= lseq {
        if x !in lists {
          var k :| 0 <= k < |lists| && ListKey(lists[k]) == ListKey(list);
          assert lists[k] in lists;
        }
      }
    }
    assert ForeignKeysHold(lists', items) by {
      ReplaceSameKeys(lists, list, ListKey);
      ForeignKeysOfMoreLists(lists, lists', items);
    }
  }

  /** `deleteList` keeps the schema's integrity, thanks to the cascade. */
  lemma DeleteListValid(lists: seq<TodoList>, items: seq<TodoItem>, lseq: int, iseq: int, listId: int)
    requires TablesValid(lists, items, lseq, iseq)
    ensures TablesValid(RemoveKey(lists, listId, ListKey), Cascade(items, listId), lseq, iseq)
  {
    var lists' := RemoveKey(lists, listId, ListKey);
    RemoveKeyPreservesUnique(lists, listId, ListKey);
    CascadeKeepsItemsValid(items, listId, iseq);
    forall i | i in Cascade(items, listId) ensures HasKey(lists', i.listId, ListKey) {
      var k :| 0 <= k < |lists| && lists[k].id == i.listId;
      assert lists[k] in lists';
      var j :| 0 <= j < |lists'| && lists'[j] == lists[k];
    }
  }

  /** `insertItem` of an item whose list exists keeps the schema's integrity. */
  lemma InsertItemValid(lists: seq<TodoList>, items: seq<TodoItem>, lseq: int, iseq: int, item: TodoItem)
    requires TablesValid(lists, items, lseq, iseq)
    requires HasKey(lists, item.listId, ListKey)
    ensures var id := RowId(item.id, iseq);
      TablesValid(lists, Upsert(items, item.(id := id), ItemKey), lseq, Max(iseq, id))
  {
    var id := RowId(item.id, iseq);
    UpsertSpec(items, item.(id := id), ItemKey);
    ItemIdsAfterUpsert(items, item.(id := id), iseq);
  }

  /** `updateItem` of an existing row to an existing list keeps the schema's integrity. */
  lemma UpdateItemValid(lists: seq<TodoList>, items: seq<TodoItem>, lseq: int, iseq: int, item: TodoItem)
    requires TablesValid(lists, items, lseq, iseq)
    requires HasKey(items, item.id, ItemKey) && HasKey(lists, item.listId, ListKey)
    ensures TablesValid(lists, Replace(items, item, ItemKey), lseq, iseq)
  {
    ReplacePreservesUnique(items, item, ItemKey);
    ReplaceMembers(items, item, ItemKey);
    var k :| 0 <= k < |items| && items[k].id == item.id;
    assert items[k] in items;
  }

  /** `deleteItem` keeps the schema's integrity. */
  lemma DeleteItemValid(lists: seq<TodoList>, items: seq<TodoItem>, lseq: int, iseq: int, itemId: int)
    requires TablesValid(lists, items, lseq, iseq)
    ensures TablesValid(lists, RemoveKey(items, itemId, ItemKey), lseq, iseq)
  {
    RemoveKeyPreservesUnique(items, itemId, ItemKey);
  }

  /** `updateItemPosition` keeps the schema's integrity: ids and list ids do not change. */
  lemma UpdateItemPositionValid(lists: seq<TodoList>, items: seq<TodoItem>, lseq: int, iseq: int, itemId: int, p: Int32)
    requires TablesValid(lists, items, lseq, iseq)
    ensures TablesValid(lists, WithPosition(items, itemId, p), lseq, iseq)
  {
    var items' := WithPosition(items, itemId, p);
    forall i | i in items' ensures i.id != 0 && i.id <= iseq && HasKey(lists, i.listId, ListKey) {
      var k :| 0 <= k < |items'| && items'[k] == i;
      assert items[k] in items;
    }
  }

  /** The two tables and their AUTOINCREMENT counters (`sqlite_sequence`). */
  class LocalStore {
    var lists: seq<TodoList>
    var items: seq<TodoItem>
    var listSequence: int
    var itemSequence: int

    ghost predicate Valid()
      reads this
    {
      TablesValid(lists, items, listSequence, itemSequence)
    }

    /** An empty database. */
    constructor ()
      ensures Valid()
      ensures lists == [] && items == [] && listSequence == 0 && itemSequence == 0
    {
      lists, items := [], [];
      listSequence, itemSequence := 0, 0;
    }

    /**
     * `insertList` with REPLACE: id 0 asks for the next AUTOINCREMENT id, any
     * other id is used as given; a row with that id is deleted first, and the
     * deletion cascades to its items. Returns the row id.
     */
    method InsertList(list: TodoList) returns (rowId: int)
      requires Valid()
      modifies this
      ensures Valid()
      ensures rowId == RowId(list.id, old(listSequence))
      ensures lists == Upsert(old(lists), list.(id := rowId), ListKey)
      ensures items == if HasKey(old(lists), rowId, ListKey) then Cascade(old(items), rowId) else old(items)
      ensures listSequence == Max(old(listSequence), rowId) && itemSequence == old(itemSequence)
      ensures list.id == 0 ==> lists == old(lists) + [list.(id := rowId)] && items == old(items)
    {
      InsertListValid(lists, items, listSequence, itemSequence, list);
      if list.id == 0 {
        FreshListId(lists, listSequence);
      }
      rowId := RowId(list.id, listSequence);
      if HasKey(lists, rowId, ListKey) {
        items := Cascade(items, rowId);
      }
      lists := Upsert(lists, list.(id := rowId), ListKey);
      listSequence := Max(listSequence, rowId);
    }

    /** `updateList`: the row with the list's id takes all its fields; no row, no change. */
    method UpdateList(list: TodoList)
      requires Valid()
      modifies this
      ensures Valid()
      ensures lists == Replace(old(lists), list, ListKey)
      ensures items == old(items) && listSequence == old(listSequence) && itemSequence == old(itemSequence)
    {
      UpdateListValid(lists, items, listSequence, itemSequence, list);
      lists := Replace(lists, list, ListKey);
    }

    /** `deleteList`: the row goes, and so do its items (ON DELETE CASCADE). */
    method DeleteList(list: TodoList)
      requires Valid()
      modifies this
      ensures Valid()
      ensures lists == RemoveKey(old(lists), list.id, ListKey)
      ensures items == Cascade(old(items), list.id)
      ensures listSequence == old(listSequence) && itemSequence == old(itemSequence)
    {
      DeleteListValid(lists, items, listSequence, itemSequence, list.id);
      lists := RemoveKey(lists, list.id, ListKey);
      items := Cascade(items, list.id);
    }

    /**
     * `insertItem` with REPLACE. The foreign key is checked first: an item
     * whose list does not exist is refused and nothing changes.
     */
    method InsertItem(item: TodoItem) returns (r: Result<int, Message>)
      requires Valid()
      modifies this
      ensures Valid()
      ensures lists == old(lists) && listSequence == old(listSequence)
      ensures !HasKey(old(lists), item.listId, ListKey) ==>
        r == Failure(Some(ForeignKeyFailed)) && items == old(items) && itemSequence == old(itemSequence)
      ensures HasKey(old(lists), item.listId, ListKey) ==>
        && r == Success(RowId(item.id, old(itemSequence)))
        && items == Upsert(old(items), item.(id := r.value), ItemKey)
        && itemSequence == Max(old(itemSequence), r.value)
      ensures HasKey(old(lists), item.listId, ListKey) && item.id == 0 ==>
        items == old(items) + [item.(id := r.value)]
    {
      if !HasKey(lists, item.listId, ListKey) {
        return Failure(Some(ForeignKeyFailed));
      }
      InsertItemValid(lists, items, listSequence, itemSequence, item);
      if item.id == 0 {
        FreshItemId(items, itemSequence);
      }
      var rowId := RowId(item.id, itemSequence);
      items := Upsert(items, item.(id := rowId), ItemKey);
      itemSequence := Max(itemSequence, rowId);
      r := Success(rowId);
    }

    /**
     * `updateItem`: the row with the item's id takes all its fields. No such
     * row: nothing is updated and nothing fails. A new `listId` must exist.
     */
    method UpdateItem(item: TodoItem) returns (outcome: Outcome<Message>)
      requires Valid()
      modifies this
      ensures Valid()
      ensures lists == old(lists) && listSequence == old(listSequence) && itemSequence == old(itemSequence)
      ensures !HasKey(old(items), item.id, ItemKey) ==> outcome.Pass? && items == old(items)
      ensures HasKey(old(items), item.id, ItemKey) && !HasKey(old(lists), item.listId, ListKey) ==>
        outcome == Fail(Some(ForeignKeyFailed)) && items == old(items)
      ensures HasKey(old(items), item.id, ItemKey) && HasKey(old(lists), item.listId, ListKey) ==>
        outcome.Pass? && items == Replace(old(items), item, ItemKey)
    {
      if !HasKey(items, item.id, ItemKey) {
        return Pass;
      }
      if !HasKey(lists, item.listId, ListKey) {
        return Fail(Some(ForeignKeyFailed));
      }
      UpdateItemValid(lists, items, listSequence, itemSequence, item);
      items := Replace(items, item, ItemKey);
      outcome := Pass;
    }

    /** `deleteItem`: the row with the item's id goes. */
    method DeleteItem(item: TodoItem)
      requires Valid()
      modifies this
      ensures Valid()
      ensures items == RemoveKey(old(items), item.id, ItemKey)
      ensures lists == old(lists) && listSequence == old(listSequence) && itemSequence == old(itemSequence)
    {
      DeleteItemValid(lists, items, listSequence, itemSequence, item.id);
      items := RemoveKey(items, item.id, ItemKey);
    }

    /** `updateItemPosition`: only the `position` of the row with id `itemId` changes. */
    method UpdateItemPosition(itemId: int, newPosition: Int32)
      requires Valid()
      modifies this
      ensures Valid()
      ensures items == WithPosition(old(items), itemId, newPosition)
      ensures lists == old(lists) && listSequence == old(listSequence) && itemSequence == old(itemSequence)
    {
      UpdateItemPositionValid(lists, items, listSequence, itemSequence, itemId, newPosition);
      items := WithPosition(items, itemId, newPosition);
    }
  }
}
