/**
 * The lists screen: the search filter over the loaded lists, grouping by
 * category, what the content area shows, and the remembered UI state its
 * handlers assign (search query and toggle, the new-list dialog).
 */
module ListsScreen {
  import opened Wrappers
  import opened Primitives
  import opened Model
  import opened Seqs
  import opened TodoViewModel

  // ---------------------------------------------------------------------------
  // Search filter
  // ---------------------------------------------------------------------------

  /** The filter's condition: everything matches the empty query. */
  function MatchesQuery(query: string): TodoList -> bool {
    (l: TodoList) => query == "" || ContainsIgnoreCase(l.title, query) || ContainsIgnoreCase(l.category, query)
  }

  /** The lists shown for `query`, in their loaded order. */
  function FilterLists(lists: seq<TodoList>, query: string): (r: seq<TodoList>)
    ensures query == "" ==> r == lists
    ensures query != "" ==>
      forall l :: l in r <==> l in lists && (ContainsIgnoreCase(l.title, query) || ContainsIgnoreCase(l.category, query))
    ensures IsSubsequence(r, lists)
  {
    FilterIsSubsequence(lists, MatchesQuery(query));
    if query == "" then
      FilterAll(lists, MatchesQuery(query));
      Filter(lists, MatchesQuery(query))
    else
      Filter(lists, MatchesQuery(query))
  }

  // ---------------------------------------------------------------------------
  // Grouping by category (Kotlin `groupBy`, an insertion-ordered map)
  // ---------------------------------------------------------------------------

  datatype Group = Group(category: string, lists: seq<TodoList>)

  predicate HasGroup(groups: seq<Group>, c: string) {
    exists k :: 0 <= k < |groups| && groups[k].category == c
  }

  ghost predicate DistinctCategories(groups: seq<Group>) {
    forall i, j :: 0 <= i < j < |groups| ==> groups[i].category != groups[j].category
  }

  /**
   * One step of `groupBy`: append `l` to the group of its category, or open a
   * new group for it at the end.
   */
  function AddToGroups(groups: seq<Group>, l: TodoList): (r: seq<Group>)
    requires DistinctCategories(groups)
    ensures DistinctCategories(r)
    ensures |r| == |groups| + (if HasGroup(groups, l.category) then 0 else 1)
    ensures forall k :: 0 <= k < |groups| ==>
      r[k] == (if groups[k].category == l.category then Group(l.category, groups[k].lists + [l]) else groups[k])
    ensures !HasGroup(groups, l.category) ==> r[|groups|] == Group(l.category, [l])
  {
    if groups == [] then [Group(l.category, [l])]
    else if groups[0].category == l.category then
      [Group(l.category, groups[0].lists + [l])] + groups[1..]
    else
      var rest := AddToGroups(groups[1..], l);
      assert HasGroup(groups, l.category) <==> HasGroup(groups[1..], l.category) by {
        if HasGroup(groups, l.category) {
          var k :| 0 <= k < |groups| && groups[k].category == l.category;
          assert groups[1..][k - 1].category == l.category;
        }
        if HasGroup(groups[1..], l.category) {
          var k :| 0 <= k < |groups[1..]| && groups[1..][k].category == l.category;
          assert groups[k + 1].category == l.category;
        }
      }
      [groups[0]] + rest
  }

  /** `lists.groupBy { it.category }`, folding from the first list to the last. */
  function GroupByCategory(lists: seq<TodoList>): (r: seq<Group>)
    ensures DistinctCategories(r)
  {
    if lists == [] then []
    else AddToGroups(GroupByCategory(lists[..|lists| - 1]), lists[|lists| - 1])
  }

  /** The category of each list, duplicates dropped, in order of first occurrence. */
  function Categories(lists: seq<TodoList>): seq<string>
  {
    if lists == [] then []
    else
      var cs := Categories(lists[..|lists| - 1]);
      var c := lists[|lists| - 1].category;
      if c in cs then cs else cs + [c]
  }

  /** The reference categories are distinct and are exactly the categories that occur. */
  lemma {:induction false} CategoriesSpec(lists: seq<TodoList>)
    ensures forall i, j :: 0 <= i < j < |Categories(lists)| ==> Categories(lists)[i] != Categories(lists)[j]
    ensures forall c :: c in Categories(lists) <==> exists l :: l in lists && l.category == c
  {
    if lists != [] {
      var prefix := lists[..|lists| - 1];
      var x := lists[|lists| - 1];
      assert lists == prefix + [x];
      CategoriesSpec(prefix);
      assert forall l :: l in lists <==> l in prefix || l == x;
    }
  }

  /** The condition selecting one category. */
  function InCategory(c: string): TodoList -> bool {
    (l: TodoList) => l.category == c
  }

  /** `groups` is the reference grouping of `lists`. */
  ghost predicate IsReferenceGrouping(groups: seq<Group>, lists: seq<TodoList>) {
    && |groups| == |Categories(lists)|
    && forall k :: 0 <= k < |groups| ==>
         groups[k] == Group(Categories(lists)[k], Filter(lists, InCategory(Categories(lists)[k])))
  }

  lemma CategoriesSnoc(prefix: seq<TodoList>, x: TodoList)
    ensures Categories(prefix + [x])
         == if x.category in Categories(prefix) then Categories(prefix) else Categories(prefix) + [x.category]
  {
    assert (prefix + [x])[..|prefix + [x]| - 1] == prefix;
  }

  lemma FilterSnoc(prefix: seq<TodoList>, x: TodoList, p: TodoList -> bool)
    ensures Filter(prefix + [x], p) == Filter(prefix, p) + (if p(x) then [x] else [])
  {
    FilterConcat(prefix, [x], p);
    assert [x][1..] == [];
  }

  /** In a reference grouping, a category has a group exactly when some list has it. */
  lemma HasGroupIffCategory(groups: seq<Group>, lists: seq<TodoList>, c: string)
    requires IsReferenceGrouping(groups, lists)
    ensures HasGroup(groups, c) <==> c in Categories(lists)
  {
    var cs := Categories(lists);
    if HasGroup(groups, c) {
      var j :| 0 <= j < |groups| && groups[j].category == c;
      assert cs[j] == c;
    }
    if c in cs {
      var j :| 0 <= j < |cs| && cs[j] == c;
      assert groups[j].category == c;
    }
  }

  /** Group `k` after one step of the fold from a reference grouping of `prefix`. */
  lemma GroupStepAt(groups: seq<Group>, prefix: seq<TodoList>, x: TodoList, k: nat)
    requires DistinctCategories(groups) && IsReferenceGrouping(groups, prefix)
    requires k < |AddToGroups(groups, x)|
    ensures k < |Categories(prefix + [x])|
    ensures AddToGroups(groups, x)[k]
         == Group(Categories(prefix + [x])[k], Filter(prefix + [x], InCategory(Categories(prefix + [x])[k])))
  {
    var cs := Categories(prefix);
    CategoriesSnoc(prefix, x);
    HasGroupIffCategory(groups, prefix, x.category);
    if k < |groups| {
      FilterSnoc(prefix, x, InCategory(groups[k].category));
    } else {
      FilterSnoc(prefix, x, InCategory(x.category));
      CategoriesSpec(prefix);
      FilterNone(prefix, InCategory(x.category));
    }
  }

  /** One step of the fold keeps the grouping equal to the reference. */
  lemma {:induction false} GroupStep(groups: seq<Group>, prefix: seq<TodoList>, x: TodoList)
    requires DistinctCategories(groups) && IsReferenceGrouping(groups, prefix)
    ensures IsReferenceGrouping(AddToGroups(groups, x), prefix + [x])
  {
    var r := AddToGroups(groups, x);
    var rc := Categories(prefix + [x]);
    CategoriesSnoc(prefix, x);
    HasGroupIffCategory(groups, prefix, x.category);
    assert |r| == |rc|;
    forall k | 0 <= k < |r|
      ensures r[k] == Group(rc[k], Filter(prefix + [x], InCategory(rc[k])))
    {
      GroupStepAt(groups, prefix, x, k);
    }
  }

  /**
   * `groupBy` agrees with the reference: one group per distinct category in
   * order of first occurrence, each holding that category's lists in their
   * original order.
   */
  lemma {:induction false} GroupByCategoryIsReference(lists: seq<TodoList>)
    ensures IsReferenceGrouping(GroupByCategory(lists), lists)
  {
    if lists != [] {
      var prefix := lists[..|lists| - 1];
      var x := lists[|lists| - 1];
      assert lists == prefix + [x];
      GroupByCategoryIsReference(prefix);
      GroupStep(GroupByCategory(prefix), prefix, x);
    }
  }

  /**
   * Every list lands in exactly one group, the one keyed by its category, and
   * a group holds only lists of its category.
   */
  lemma GroupsPartitionLists(lists: seq<TodoList>)
    ensures var g := GroupByCategory(lists);
      && (forall k, x :: 0 <= k < |g| && x in g[k].lists <==> 0 <= k < |g| && x in lists && x.category == g[k].category)
      && (forall x :: x in lists ==> HasGroup(g, x.category))
  {
    GroupByCategoryIsReference(lists);
    CategoriesSpec(lists);
    var g := GroupByCategory(lists);
    var cs := Categories(lists);
    forall x | x in lists
      ensures HasGroup(g, x.category)
    {
      assert x.category in cs;
      var k :| 0 <= k < |cs| && cs[k] == x.category;
      assert g[k].category == x.category;
    }
  }

  /** Some list before position `n` has category `c`. */
  ghost predicate PrecededBy(lists: seq<TodoList>, n: int, c: string) {
    exists m :: 0 <= m < n && m < |lists| && lists[m].category == c
  }

  /** Categories are in order of first occurrence: any list of a later category is preceded by a list of each earlier one. */
  lemma {:induction false} CategoriesInFirstOccurrenceOrder(lists: seq<TodoList>)
    ensures forall i, j, n :: 0 <= i < j < |Categories(lists)| && 0 <= n < |lists| && lists[n].category == Categories(lists)[j] ==>
      PrecededBy(lists, n, Categories(lists)[i])
  {
    forall i, j, n | 0 <= i < j < |Categories(lists)| && 0 <= n < |lists| && lists[n].category == Categories(lists)[j]
      ensures PrecededBy(lists, n, Categories(lists)[i])
    {
      FirstOccurrenceAt(lists, i, j, n);
    }
  }

  /** One instance of the order: the list at `n`, of category `j`, is preceded by a list of category `i < j`. */
  lemma {:induction false} FirstOccurrenceAt(lists: seq<TodoList>, i: int, j: int, n: int)
    requires 0 <= i < j < |Categories(lists)| && 0 <= n < |lists| && lists[n].category == Categories(lists)[j]
    ensures PrecededBy(lists, n, Categories(lists)[i])
  {
    var prefix := lists[..|lists| - 1];
    var x := lists[|lists| - 1];
    assert lists == prefix + [x];
    CategoriesSnoc(prefix, x);
    CategoriesSpec(prefix);
    var cs := Categories(prefix);
    assert Categories(lists)[i] == cs[i];
    if n < |prefix| {
      assert prefix[n] == lists[n] && prefix[n] in prefix;
      assert j < |cs|;
      FirstOccurrenceAt(prefix, i, j, n);
      var m :| 0 <= m < n && m < |prefix| && prefix[m].category == cs[i];
      assert lists[m] == prefix[m];
    } else {
      assert cs[i] in cs;
      var l :| l in prefix && l.category == cs[i];
      var m :| 0 <= m < |prefix| && prefix[m] == l;
      assert lists[m] == l;
    }
  }

  // ---------------------------------------------------------------------------
  // What the content area shows
  // ---------------------------------------------------------------------------

  datatype Content =
    | Spinner
    | NoListsYet
    | NoListsFound(query: string)
    | Grouped(groups: seq<Group>)

  /** The content area for the coordinator's state and the current query. */
  function ContentFor(s: TodoListState, query: string): (r: Content)
    ensures s.isLoading <==> r.Spinner?
    ensures r.NoListsYet? <==> !s.isLoading && s.lists == []
    ensures r.NoListsFound? ==> r.query == query && query != ""
    ensures r.Grouped? ==> r.groups == GroupByCategory(FilterLists(s.lists, query))
  {
    if s.isLoading then Spinner
    else if s.lists == [] then NoListsYet
    else
      var filtered := FilterLists(s.lists, query);
      if filtered == [] && query != "" then NoListsFound(query)
      else Grouped(GroupByCategory(filtered))
  }

  /** "No lists found" is shown exactly when some lists are loaded, the query is non-empty and none matches it. */
  lemma NoListsFoundExactly(s: TodoListState, query: string)
    ensures ContentFor(s, query).NoListsFound? <==>
      && !s.isLoading && s.lists != [] && query != ""
      && forall l :: l in s.lists ==> !ContainsIgnoreCase(l.title, query) && !ContainsIgnoreCase(l.category, query)
  {
    var filtered := FilterLists(s.lists, query);
    if query != "" && filtered != [] {
      assert filtered[0] in filtered;
    }
  }

  // ---------------------------------------------------------------------------
  // Remembered state and its handlers
  // ---------------------------------------------------------------------------

  /** `newListTitle.isNotEmpty()`, the enable condition of the dialog's Create button. */
  predicate CreateListEnabled(title: string) {
    title != ""
  }

  /** The effect keyed on the signed-in user: load that user's lists, if any. */
  function OnUserChanged(user: Option<User>): (r: Option<TodoCall>)
    ensures r.Some? <==> user.Some?
    ensures user.Some? ==> r.value == LoadListsCall(user.value.id)
  {
    match user
    case None => None
    case Some(u) => Some(LoadListsCall(u.id))
  }

  class ListsScreenState {
    var searchQuery: string
    var isSearchActive: bool
    var newListTitle: string
    var selectedCategory: string
    var showNewListDialog: bool
    var showTaskBottomSheet: bool

    constructor ()
      ensures searchQuery == "" && !isSearchActive
      ensures newListTitle == "" && selectedCategory == DefaultCategory && !showNewListDialog
      ensures !showTaskBottomSheet
    {
      searchQuery := "";
      isSearchActive := false;
      newListTitle := "";
      selectedCategory := "Personal";
      showNewListDialog := false;
      showTaskBottomSheet := false;
    }

    /** The search icon. */
    method OpenSearch()
      modifies this
      ensures isSearchActive
      ensures searchQuery == old(searchQuery) && newListTitle == old(newListTitle)
      ensures selectedCategory == old(selectedCategory) && showNewListDialog == old(showNewListDialog)
      ensures showTaskBottomSheet == old(showTaskBottomSheet)
    {
      isSearchActive := true;
    }

    /** Typing in the search field. */
    method EditQuery(query: string)
      modifies this
      ensures searchQuery == query && isSearchActive == old(isSearchActive)
      ensures newListTitle == old(newListTitle)
      ensures selectedCategory == old(selectedCategory) && showNewListDialog == old(showNewListDialog)
      ensures showTaskBottomSheet == old(showTaskBottomSheet)
    {
      searchQuery := query;
    }

    /** The clear button: empty a non-empty query, otherwise close the search field. */
    method ClearSearch()
      modifies this
      ensures searchQuery == ""
      ensures old(searchQuery) != "" ==> isSearchActive == old(isSearchActive)
      ensures old(searchQuery) == "" ==> !isSearchActive
      ensures newListTitle == old(newListTitle)
      ensures selectedCategory == old(selectedCategory) && showNewListDialog == old(showNewListDialog)
      ensures showTaskBottomSheet == old(showTaskBottomSheet)
    {
      if searchQuery != "" {
        searchQuery := "";
      } else {
        isSearchActive := false;
      }
    }

    /** The new-list button. */
    method OpenNewListDialog()
      modifies this
      ensures showNewListDialog
      ensures searchQuery == old(searchQuery) && isSearchActive == old(isSearchActive)
      ensures newListTitle == old(newListTitle) && selectedCategory == old(selectedCategory)
      ensures showTaskBottomSheet == old(showTaskBottomSheet)
    {
      showNewListDialog := true;
    }

    /** Typing the new list's title. */
    method EditTitle(title: string)
      modifies this
      ensures newListTitle == title
      ensures searchQuery == old(searchQuery) && isSearchActive == old(isSearchActive)
      ensures selectedCategory == old(selectedCategory) && showNewListDialog == old(showNewListDialog)
      ensures showTaskBottomSheet == old(showTaskBottomSheet)
    {
      newListTitle := title;
    }

    /** Choosing a category chip. */
    method SelectCategory(category: string)
      modifies this
      ensures selectedCategory == category
      ensures searchQuery == old(searchQuery) && isSearchActive == old(isSearchActive)
      ensures newListTitle == old(newListTitle) && showNewListDialog == old(showNewListDialog)
      ensures showTaskBottomSheet == old(showTaskBottomSheet)
    {
      selectedCategory := category;
    }

    /** Dismissing the dialog closes it and forgets the typed title, but keeps the category. */
    method DismissNewListDialog()
      modifies this
      ensures !showNewListDialog && newListTitle == ""
      ensures searchQuery == old(searchQuery) && isSearchActive == old(isSearchActive)
      ensures selectedCategory == old(selectedCategory)
      ensures showTaskBottomSheet == old(showTaskBottomSheet)
    {
      showNewListDialog := false;
      newListTitle := "";
    }

    /**
     * The dialog's Create button, which is only enabled for a non-empty title:
     * `createList` is called only when a user is signed in, with the typed title
     * and the selected category; the dialog then closes and the title is reset.
     */
    method CreateList(user: Option<User>) returns (call: Option<TodoCall>)
      requires CreateListEnabled(newListTitle)
      modifies this
      ensures call.Some? <==> user.Some?
      ensures user.Some? ==> call.value == CreateListCall(old(newListTitle), user.value.id, old(selectedCategory))
      ensures call.Some? ==> call.value.title != ""
      ensures !showNewListDialog && newListTitle == ""
      ensures searchQuery == old(searchQuery) && isSearchActive == old(isSearchActive)
      ensures selectedCategory == old(selectedCategory)
      ensures showTaskBottomSheet == old(showTaskBottomSheet)
    {
      call := None;
      if user.Some? {
        call := Some(CreateListCall(newListTitle, user.value.id, selectedCategory));
      }
      showNewListDialog := false;
      newListTitle := "";
    }

    /** The task button. */
    method OpenTaskSheet()
      modifies this
      ensures showTaskBottomSheet
      ensures searchQuery == old(searchQuery) && isSearchActive == old(isSearchActive)
      ensures newListTitle == old(newListTitle)
      ensures selectedCategory == old(selectedCategory) && showNewListDialog == old(showNewListDialog)
    {
      showTaskBottomSheet := true;
    }

    /** The sheet's create callback: call `createTask`, then close the sheet. */
    method CreateTask(description: string, listId: int) returns (call: TodoCall)
      modifies this
      ensures call == CreateTaskCall(description, listId)
      ensures !showTaskBottomSheet
      ensures searchQuery == old(searchQuery) && isSearchActive == old(isSearchActive)
      ensures newListTitle == old(newListTitle)
      ensures selectedCategory == old(selectedCategory) && showNewListDialog == old(showNewListDialog)
    {
      call := CreateTaskCall(description, listId);
      showTaskBottomSheet := false;
    }

    /** Dismissing the sheet. */
    method DismissTaskSheet()
      modifies this
      ensures !showTaskBottomSheet
      ensures searchQuery == old(searchQuery) && isSearchActive == old(isSearchActive)
      ensures newListTitle == old(newListTitle)
      ensures selectedCategory == old(selectedCategory) && showNewListDialog == old(showNewListDialog)
    {
      showTaskBottomSheet := false;
    }
  }
}
