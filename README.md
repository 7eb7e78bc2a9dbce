# To-do app core, modelled in Dafny

An Android to-do app keeps to-do lists and their items. It stores them in two places:

- a local relational database with tables `todo_lists` and `todo_items`, accessed through Room;
- a remote realtime database that mirrors each row under a generated key.

This project models the app's core and proves what it promises:

- **The store contract** (`TodoDao`). The queries are filters and stable sorts over the tables. The writes are insert-or-replace, update and delete. These run on a `LocalStore` class that keeps:
  - unique ids;
  - AUTOINCREMENT counters;
  - the foreign key from items to lists, with ON DELETE CASCADE.
- **The entities and their projections.** These cover `TodoList`, `TodoItem`, `User`, their defaults, the `toMap` maps sent to the mirror, and the `Date`↔epoch-millis converter.
- **The coordinator** (`TodoViewModel`). It is a class holding the UI state record, the local store and the remote mirror.
  - Write steps run one after another: local insert, remote key, remote `setValue`, local update. Each step that can fail takes an explicit outcome parameter.
  - A ghost trace records the order of the steps and of the published states.
  - Failures set `error` and clear `isLoading`. Nothing is rolled back.
- **The auth session** (`AuthViewModel`). It covers the `AuthState` transitions of `init`, `register`, `login`, `signOut` and `changePassword`, and the two display-name fallback rules.
- **The screens' gating and filtering rules**:
  - the lists screen's search filter, group-by-category and dialog handlers;
  - the task sheet's selection and enable rule;
  - the profile screen's password validation;
  - the register form's mismatch message;
  - the list details screen's counts, toggle and delete-with-undo.

  A call a screen makes on a view model is returned as a value (`TodoCall`, `AuthCall`). Delete-with-undo is the exception: it runs against the coordinator itself.

Modules follow the source files:

| Module | Contents |
|---|---|
| `Wrappers`, `Primitives`, `Seqs`, `SqlLike` | Shared helpers |
| `Model`, `DateConverter` | Entities |
| `TodoDao` | Store |
| `RemoteMirror` | Remote database as a class over a map |
| `TodoViewModel` | Coordinator |
| `AuthViewModel` | Auth session |
| `ListsScreen`, `TaskBottomSheet`, `ProfileScreen`, `RegisterScreen`, `ListDetailsScreen` | One module per screen |

### How the model reads the code

- **Positions.** `createTask` assigns `(max ?: 0) + 1`. This is proved greater than every position in the list, except when the maximum is `Int.MAX_VALUE`, where Kotlin's `Int` wraps around. `addItem` assigns `state.items.size`, the number of loaded items. The model follows the code here:
  - a first item added through `addItem` gets position 0;
  - positions can repeat (`AddItemPositionMayRepeat`).

  A design that promises position 1 and distinct positions is not what this code does.
- **Foreign keys.** Room enables `PRAGMA foreign_keys`. An item insert or update whose `listId` names no list therefore fails with SQLite's error "FOREIGN KEY constraint failed (code 787 SQLITE_CONSTRAINT_FOREIGNKEY[787])", the text Android's SQLite binding gives it. `addItem` does not check that the list exists, so this failure is how it reports a missing list. Inserting a list whose id already exists replaces the row. SQLite's REPLACE deletes the old row first, so the cascade also removes that list's items.
- **Search patterns.** `searchLists` builds the SQL LIKE pattern `'%' || q || '%'`.
  - `%` and `_` typed in the query act as wildcards.
  - ASCII letters match regardless of case.
  - `SearchPatternIsContains` proves that a query without wildcards yields substring search. `UnderscoreIsWildcard` shows a query where the two differ.
- **Flows.** A collected Flow is a subscription. Collecting it registers the subscription and applies its first emission immediately. Later emissions come from the environment (`TodoCoordinator.Emit`). Collection never stops: `return@collect` only leaves the lambda.

## Model

| member | source | states |
|---|---|---|
| Primitives.WrapInt32 | app/src/main/java/com/example/to_do_list_app/ui/screens/lists/TodoViewModel.kt:259-263 | Kotlin `Int` arithmetic: the result is an `Int`, equal to the mathematical value when that is in range, and otherwise differing from it by a multiple of 2^32 |
| Primitives.WrapInt32Overflow | app/src/main/java/com/example/to_do_list_app/ui/screens/lists/TodoViewModel.kt:259-263 | `Int.MAX_VALUE + 1` wraps to `Int.MIN_VALUE` |
| Primitives.SubstringBefore | app/src/main/java/com/example/to_do_list_app/ui/screens/auth/AuthViewModel.kt:121-125 | `substringBefore(c)` is a prefix free of `c`, followed by `c` or the end of the string; it is the whole string when `c` does not occur |
| Primitives.SubstringBeforeUnique | app/src/main/java/com/example/to_do_list_app/ui/screens/auth/AuthViewModel.kt:121-125 | Any prefix meeting that description is the result, so the contract pins it down |
| DateConverter.FromTimestamp | app/src/main/java/com/example/to_do_list_app/util/DateConverter.kt:11-13 | null maps to null; a value maps to the date at that epoch millisecond |
| DateConverter.DateToTimestamp | app/src/main/java/com/example/to_do_list_app/util/DateConverter.kt:16-18 | null maps to null; a date maps to its epoch milliseconds |
| DateConverter.TimestampRoundTrip | app/src/main/java/com/example/to_do_list_app/util/DateConverter.kt:11-18 | `dateToTimestamp(fromTimestamp(v)) == v` for every long or null |
| DateConverter.DateRoundTrip | app/src/main/java/com/example/to_do_list_app/util/DateConverter.kt:11-18 | `fromTimestamp(dateToTimestamp(d)) == d` for every date or null |
| Model.NoArgConstructorsUseDefaults | app/src/main/java/com/example/to_do_list_app/model/TodoItem.kt:23-34 | The no-argument constructors of `TodoItem`, `TodoList` and `User` give the declared defaults: id 0, not completed, position 0, category "Personal", empty `firebaseId` |
| Model.ListToMap | app/src/main/java/com/example/to_do_list_app/model/TodoList.kt:25-32 | The keys are exactly `title`, `userId`, `createdAt` (in millis) and `category` |
| Model.ItemToMap | app/src/main/java/com/example/to_do_list_app/model/TodoItem.kt:37-44 | The keys are exactly `description`, `isCompleted`, `createdAt` (in millis) and `position` |
| Model.ProjectionsOmitIds | app/src/main/java/com/example/to_do_list_app/model/TodoItem.kt:37-44 | Neither projection carries `id` or `firebaseId`, and the item's carries no `listId` |
| Model.ListToMapDeterminesFields | app/src/main/java/com/example/to_do_list_app/model/TodoList.kt:25-32 | Two lists with equal maps agree on every projected field |
| Model.ItemToMapDeterminesFields | app/src/main/java/com/example/to_do_list_app/model/TodoItem.kt:37-44 | Two items with equal maps agree on every projected field |
| Model.UserToNode | app/src/main/java/com/example/to_do_list_app/model/User.kt:6-12 | A user is stored under the keys `id`, `email` and `displayName` |
| Model.UserFromNode | app/src/main/java/com/example/to_do_list_app/model/User.kt:6-12 | Reading a node back succeeds only when each of `id`, `email` and `displayName` that is present holds text; one holding a non-text value makes it fail |
| Model.UserRoundTrip | app/src/main/java/com/example/to_do_list_app/model/User.kt:6-12 | Reading back a stored user gives that user |
| SqlLike.SearchPatternIsContains | app/src/main/java/com/example/to_do_list_app/data/local/TodoDao.kt:34-35 | For a query without `%` or `_`, `LIKE '%' \|\| q \|\| '%'` holds exactly when the text contains the query, ignoring ASCII case |
| SqlLike.UnderscoreIsWildcard | app/src/main/java/com/example/to_do_list_app/data/local/TodoDao.kt:34-35 | `_` in a query matches any character: "cat" matches the pattern built from "c_t" without containing it |
| SqlLike.LikePrefix | app/src/main/java/com/example/to_do_list_app/data/local/TodoDao.kt:34-35 | A literal followed by `%` matches exactly the texts that start with the literal, ignoring case |
| SqlLike.LikeLeadingPercent | app/src/main/java/com/example/to_do_list_app/data/local/TodoDao.kt:34-35 | A leading `%` matches when the rest of the pattern matches some suffix |
| SqlLike.LikePercentMatchesAll | app/src/main/java/com/example/to_do_list_app/data/local/TodoDao.kt:34-35 | `%` alone matches every text, so an empty query returns every list of the user |
| TodoDao.AllLists | app/src/main/java/com/example/to_do_list_app/data/local/TodoDao.kt:28-29 | The result holds exactly the user's lists, as a multiset; they are ordered by `createdAt`, newest first |
| TodoDao.ListById | app/src/main/java/com/example/to_do_list_app/data/local/TodoDao.kt:31-32 | The result is null exactly when no row has the id; otherwise it is a row of the table with that id |
| TodoDao.SearchLists | app/src/main/java/com/example/to_do_list_app/data/local/TodoDao.kt:34-35 | A list is returned exactly when it belongs to the user and its title matches the LIKE pattern; the result is an order-preserving subsequence |
| TodoDao.SearchListsIsTitleSearch | app/src/main/java/com/example/to_do_list_app/data/local/TodoDao.kt:34-35 | For a query without wildcards, a list is returned exactly when it is the user's and its title contains the query; the category is not searched |
| TodoDao.ItemsByListId | app/src/main/java/com/example/to_do_list_app/data/local/TodoDao.kt:53-54 | The result holds exactly the list's items, as a multiset, ordered by ascending position |
| TodoDao.SearchItems | app/src/main/java/com/example/to_do_list_app/data/local/TodoDao.kt:59-60 | An item is returned exactly when its description matches, across all lists; the result is an order-preserving subsequence |
| TodoDao.MaxPositionForList | app/src/main/java/com/example/to_do_list_app/data/local/TodoDao.kt:62-63 | The result is null exactly when the list has no items; otherwise it is a position of one of the list's items, and no item of the list has a higher one |
| TodoDao.Cascade | app/src/main/java/com/example/to_do_list_app/model/TodoItem.kt:14-21 | An item survives a list's deletion exactly when its `listId` is a different list |
| TodoDao.WithPosition | app/src/main/java/com/example/to_do_list_app/data/local/TodoDao.kt:56-57 | Only the row with the given id has its position set; every other row and field is unchanged |
| TodoDao.FreshListId | app/src/main/java/com/example/to_do_list_app/model/TodoList.kt:13-14 | The next generated list id is used by no row |
| TodoDao.FreshItemId | app/src/main/java/com/example/to_do_list_app/model/TodoItem.kt:24-25 | The next generated item id is used by no row |
| TodoDao.InsertListValid | app/src/main/java/com/example/to_do_list_app/data/local/TodoDao.kt:19-20 | Insert-or-replace of a list, with its cascade, keeps unique ids, the counters' bounds and the foreign key |
| TodoDao.UpdateListValid | app/src/main/java/com/example/to_do_list_app/data/local/TodoDao.kt:22-23 | An update of a list keeps the tables' integrity |
| TodoDao.DeleteListValid | app/src/main/java/com/example/to_do_list_app/data/local/TodoDao.kt:25-26 | A delete of a list with its cascade keeps the tables' integrity |
| TodoDao.InsertItemValid | app/src/main/java/com/example/to_do_list_app/data/local/TodoDao.kt:44-45 | Insert-or-replace of an item whose list exists keeps the tables' integrity |
| TodoDao.UpdateItemValid | app/src/main/java/com/example/to_do_list_app/data/local/TodoDao.kt:47-48 | An update of an item whose list exists keeps the tables' integrity |
| TodoDao.DeleteItemValid | app/src/main/java/com/example/to_do_list_app/data/local/TodoDao.kt:50-51 | Deleting an item keeps the tables' integrity |
| TodoDao.UpdateItemPositionValid | app/src/main/java/com/example/to_do_list_app/data/local/TodoDao.kt:56-57 | Changing a position keeps the tables' integrity |
| TodoDao.LocalStore.constructor | app/src/main/java/com/example/to_do_list_app/data/local/TodoDao.kt:17-64 | A new database has empty tables and zero counters |
| TodoDao.LocalStore.InsertList | app/src/main/java/com/example/to_do_list_app/data/local/TodoDao.kt:19-20 | The table becomes the upsert of the row. If the id was present, its items are cascaded away. The returned row id is the given id, or counter + 1 for id 0, which appends a row and leaves the items alone |
| TodoDao.LocalStore.UpdateList | app/src/main/java/com/example/to_do_list_app/data/local/TodoDao.kt:22-23 | The row with the same id is replaced; a missing id changes nothing |
| TodoDao.LocalStore.DeleteList | app/src/main/java/com/example/to_do_list_app/data/local/TodoDao.kt:25-26 | The row is removed together with every item whose `listId` is its id |
| TodoDao.LocalStore.InsertItem | app/src/main/java/com/example/to_do_list_app/data/local/TodoDao.kt:44-45 | If no list has the `listId`, it fails with the foreign-key error and changes nothing. Otherwise it upserts the row and returns its row id; for id 0 the row is appended under counter + 1 |
| TodoDao.LocalStore.UpdateItem | app/src/main/java/com/example/to_do_list_app/data/local/TodoDao.kt:47-48 | No row with the id: nothing happens. A row but no list for the `listId`: the foreign-key error and no change. Otherwise the row is replaced |
| TodoDao.LocalStore.DeleteItem | app/src/main/java/com/example/to_do_list_app/data/local/TodoDao.kt:50-51 | The row with the item's id is removed; nothing else changes |
| TodoDao.LocalStore.UpdateItemPosition | app/src/main/java/com/example/to_do_list_app/data/local/TodoDao.kt:56-57 | The items become `WithPosition` of the old items; the lists are unchanged |
| RemoteMirror.Mirror.constructor | app/src/main/java/com/example/to_do_list_app/ui/screens/lists/TodoViewModel.kt:59 | The remote database starts with no nodes |
| RemoteMirror.Mirror.SetValue | app/src/main/java/com/example/to_do_list_app/ui/screens/lists/TodoViewModel.kt:71 | A successful `setValue` overwrites the whole node at the path. Under the empty key the path is the collection itself, and no node of that collection is left. A failed write changes nothing |
| RemoteMirror.Mirror.RemoveValue | app/src/main/java/com/example/to_do_list_app/ui/screens/lists/TodoViewModel.kt:188 | A successful `removeValue` deletes the node at the path, or every node of the collection under the empty key. A failed one changes nothing |
| RemoteMirror.Mirror.Get | app/src/main/java/com/example/to_do_list_app/ui/screens/auth/AuthViewModel.kt:42-43 | A read gives the node at the path, or none |
| TodoViewModel.Emission | app/src/main/java/com/example/to_do_list_app/ui/screens/lists/TodoViewModel.kt:104-106 | One emission replaces `lists` with the user's lists and clears `isLoading`, replaces `lists` with the search result, or replaces `items` wholesale with the list's items in position order |
| TodoViewModel.ListDraft | app/src/main/java/com/example/to_do_list_app/ui/screens/lists/TodoViewModel.kt:50-54 | The row `createList` inserts has id 0, the given fields and no remote key |
| TodoViewModel.ItemDraft | app/src/main/java/com/example/to_do_list_app/ui/screens/lists/TodoViewModel.kt:121-128 | The row `addItem` and `createTask` insert has id 0, is not completed, has the given position and no remote key |
| TodoViewModel.CreateListPayload | app/src/main/java/com/example/to_do_list_app/ui/screens/lists/TodoViewModel.kt:64-69 | The inline map has exactly the keys `title`, `userId`, `category` and `createdAt` |
| TodoViewModel.CreateListPayloadIsToMap | app/src/main/java/com/example/to_do_list_app/ui/screens/lists/TodoViewModel.kt:64-71 | The map `createList` writes equals `toMap()` of the list |
| TodoViewModel.CreateTaskPayload | app/src/main/java/com/example/to_do_list_app/ui/screens/lists/TodoViewModel.kt:275-283 | The map `createTask` writes has exactly `listId`, `description`, `isCompleted`, `createdAt` and `position`, with `listId` the parent's remote key |
| TodoViewModel.CreateTaskPayloadExtendsToMap | app/src/main/java/com/example/to_do_list_app/ui/screens/lists/TodoViewModel.kt:163 | That map is `toMap()` plus `listId`. `toMap()` has no `listId`, so `updateItem`'s overwrite drops the parent key |
| TodoViewModel.NextPosition | app/src/main/java/com/example/to_do_list_app/ui/screens/lists/TodoViewModel.kt:259-263 | `(max ?: 0) + 1`: 1 for no items; max + 1 below `Int.MAX_VALUE`; wraps to `Int.MIN_VALUE` at it |
| TodoViewModel.AddItemPosition | app/src/main/java/com/example/to_do_list_app/ui/screens/lists/TodoViewModel.kt:125 | The position is the number of loaded items |
| TodoViewModel.NextPositionAboveAll | app/src/main/java/com/example/to_do_list_app/ui/screens/lists/TodoViewModel.kt:259-263 | `createTask`'s position exceeds every position in the list exactly when the list's maximum is not `Int.MAX_VALUE`; an empty list gives 1 |
| TodoViewModel.AddItemPositionMayRepeat | app/src/main/java/com/example/to_do_list_app/ui/screens/lists/TodoViewModel.kt:125 | With items at positions 1 and 2 loaded, `addItem` assigns 2 again where `createTask` assigns 3 |
| TodoViewModel.TodoCoordinator.constructor | app/src/main/java/com/example/to_do_list_app/ui/screens/lists/TodoViewModel.kt:20-26 | The initial state has no lists, no current list, no items, no loading and no error |
| TodoViewModel.TodoCoordinator.Emit | app/src/main/java/com/example/to_do_list_app/ui/screens/lists/TodoViewModel.kt:104-106 | A later emission of an active subscription applies `Emission` to the current tables |
| TodoViewModel.TodoCoordinator.CreateList | app/src/main/java/com/example/to_do_list_app/ui/screens/lists/TodoViewModel.kt:45-91 | Loading is set first. No key: the row stays without a remote key and the error is "Failed to generate Firebase key". A failed write: that error, nothing rolled back. Success: the mirror gets `toMap()`, the row gets the (non-empty) key, and `state.lists` grows by that row at the end. Every path ends with `isLoading` false, and the trace is local insert, key, remote write, local update |
| TodoViewModel.TodoCoordinator.AddItem | app/src/main/java/com/example/to_do_list_app/ui/screens/lists/TodoViewModel.kt:118-150 | No such list: only the foreign-key error. Otherwise the row has position = number of loaded items; key failure and write failure keep the local row; success writes `toMap()` and copies the key back; in the same step order |
| TodoViewModel.TodoCoordinator.UpdateItem | app/src/main/java/com/example/to_do_list_app/ui/screens/lists/TodoViewModel.kt:155-175 | The local replace comes first and is refused by the foreign key when the list is gone. Then `items/{firebaseId}` is overwritten with `toMap()`, or the write's error is set. An item with an empty `firebaseId` overwrites the whole `items` collection, leaving no remote item |
| TodoViewModel.TodoCoordinator.DeleteItem | app/src/main/java/com/example/to_do_list_app/ui/screens/lists/TodoViewModel.kt:180-200 | The local delete comes before the remote removal; a failed removal sets its error and keeps the local delete. An item with an empty `firebaseId` removes every remote item |
| TodoViewModel.TodoCoordinator.LoadItems | app/src/main/java/com/example/to_do_list_app/ui/screens/lists/TodoViewModel.kt:96-113 | `currentList` is set (possibly absent) before subscribing; the first emission replaces `items` with the list's items in position order |
| TodoViewModel.TodoCoordinator.LoadLists | app/src/main/java/com/example/to_do_list_app/ui/screens/lists/TodoViewModel.kt:205-227 | Loading is set, then the first emission replaces `lists` with the user's lists, newest first, and clears loading |
| TodoViewModel.TodoCoordinator.SearchLists | app/src/main/java/com/example/to_do_list_app/ui/screens/lists/TodoViewModel.kt:232-246 | The search subscription replaces `lists` with the title search |
| TodoViewModel.TodoCoordinator.CreateTask | app/src/main/java/com/example/to_do_list_app/ui/screens/lists/TodoViewModel.kt:251-316 | An unknown list id gives "List not found" with no write to either store. Otherwise the row gets position `(max ?: 0) + 1`, and the mirror gets `toMap()` plus the parent's key. Items are re-read only when the current list is that list; otherwise only `isLoading` is cleared |
| TodoViewModel.TodoCoordinator.RefreshAfterCreate | app/src/main/java/com/example/to_do_list_app/ui/screens/lists/TodoViewModel.kt:289-305 | The refresh after `createTask` subscribes to the list's items only when `currentList.id == listId`, and otherwise just clears loading |
| AuthViewModel.LocalPart | app/src/main/java/com/example/to_do_list_app/ui/screens/auth/AuthViewModel.kt:121-125 | The name taken from an email is its text before the first '@': free of '@', followed by '@' or the end |
| AuthViewModel.LocalPartAt | app/src/main/java/com/example/to_do_list_app/ui/screens/auth/AuthViewModel.kt:121-125 | With the first '@' at index k, the name is the first k characters |
| AuthViewModel.LocalPartWithoutAt | app/src/main/java/com/example/to_do_list_app/ui/screens/auth/AuthViewModel.kt:121-125 | Without '@', the name is the whole address |
| AuthViewModel.InitProfile | app/src/main/java/com/example/to_do_list_app/ui/screens/auth/AuthViewModel.kt:45-53 | A stored profile is used only if it has a non-empty display name. Otherwise the name is the account's display name, else the email's local part, else "User" |
| AuthViewModel.LoginProfile | app/src/main/java/com/example/to_do_list_app/ui/screens/auth/AuthViewModel.kt:121-125 | Any stored profile is used; otherwise the name is the typed email's local part |
| AuthViewModel.ProfileRulesDiffer | app/src/main/java/com/example/to_do_list_app/ui/screens/auth/AuthViewModel.kt:45-53 | A stored profile with an empty name for "ann@example.org" gives "ann" at start-up but "" at login |
| AuthViewModel.ProfileRulesAgree | app/src/main/java/com/example/to_do_list_app/ui/screens/auth/AuthViewModel.kt:121-125 | The two rules agree when the stored profile has a name, or when there is none and the account knows only the email |
| AuthViewModel.StoredProfile | app/src/main/java/com/example/to_do_list_app/ui/screens/auth/AuthViewModel.kt:42-44 | A missing node gives no profile; a present one converts |
| AuthViewModel.FailureMessage | app/src/main/java/com/example/to_do_list_app/ui/screens/auth/AuthViewModel.kt:102 | A failure always shows a message: the exception's, else the operation's fallback |
| AuthViewModel.AuthSession.constructor | app/src/main/java/com/example/to_do_list_app/ui/screens/auth/AuthViewModel.kt:35-72 | No signed-in user leaves the initial state. Otherwise loading is set, and the profile is resolved by the start-up rule and published as logged in. A failed read sets its error and clears loading |
| AuthViewModel.AuthSession.Register | app/src/main/java/com/example/to_do_list_app/ui/screens/auth/AuthViewModel.kt:77-108 | Loading is set and the error cleared first. On success the profile is written, the logged-in state is published, and only then `onSuccess` runs. Failure shows the message or "Registration failed". A sign-up that returns no user leaves loading set |
| AuthViewModel.AuthSession.Login | app/src/main/java/com/example/to_do_list_app/ui/screens/auth/AuthViewModel.kt:113-144 | As for register, with the login profile rule and "Login failed" |
| AuthViewModel.AuthSession.SignOut | app/src/main/java/com/example/to_do_list_app/ui/screens/auth/AuthViewModel.kt:149-159 | Afterwards nobody is signed in: not logged in, no user, not loading, no error |
| AuthViewModel.AuthSession.ChangePassword | app/src/main/java/com/example/to_do_list_app/ui/screens/auth/AuthViewModel.kt:164-203 | With no user or no email: "User not authenticated". A failed re-authentication or update: its message, else "Failed to change password". Success clears loading, then `onSuccess` runs |
| ListsScreen.FilterLists | app/src/main/java/com/example/to_do_list_app/ui/screens/lists/ListsScreen.kt:179-184 | An empty query keeps every list. Otherwise a list is kept exactly when its title or category contains the query, ignoring case. The result is an order-preserving subsequence |
| ListsScreen.AddToGroups | app/src/main/java/com/example/to_do_list_app/ui/screens/lists/ListsScreen.kt:203 | One step of `groupBy`: the list joins the end of its category's group, or opens a new last group; keys stay distinct |
| ListsScreen.GroupByCategoryIsReference | app/src/main/java/com/example/to_do_list_app/ui/screens/lists/ListsScreen.kt:203-205 | The groups are the distinct categories in order of first occurrence, each holding exactly that category's lists in their original order |
| ListsScreen.GroupsPartitionLists | app/src/main/java/com/example/to_do_list_app/ui/screens/lists/ListsScreen.kt:203-205 | Every list is in exactly one group, the one keyed by its category |
| ListsScreen.CategoriesInFirstOccurrenceOrder | app/src/main/java/com/example/to_do_list_app/ui/screens/lists/ListsScreen.kt:203-205 | Group keys follow first occurrence: every list of a later group is preceded by a list of each earlier group |
| ListsScreen.ContentFor | app/src/main/java/com/example/to_do_list_app/ui/screens/lists/ListsScreen.kt:159-205 | The content is a spinner while loading, the empty view for no lists, "No lists found" only for a non-empty query, and otherwise the groups of the filtered lists |
| ListsScreen.NoListsFoundExactly | app/src/main/java/com/example/to_do_list_app/ui/screens/lists/ListsScreen.kt:186 | "No lists found" shows exactly when lists are loaded, the query is non-empty and no title or category contains it |
| ListsScreen.OnUserChanged | app/src/main/java/com/example/to_do_list_app/ui/screens/lists/ListsScreen.kt:63-67 | Lists are loaded for the signed-in user, and only when there is one |
| ListsScreen.ListsScreenState.constructor | app/src/main/java/com/example/to_do_list_app/ui/screens/lists/ListsScreen.kt:48-53 | Empty query, search closed, empty title, category "Personal", dialogs closed |
| ListsScreen.ListsScreenState.ClearSearch | app/src/main/java/com/example/to_do_list_app/ui/screens/lists/ListsScreen.kt:83-89 | A non-empty query is emptied and search stays open. An already empty query closes search |
| ListsScreen.ListsScreenState.DismissNewListDialog | app/src/main/java/com/example/to_do_list_app/ui/screens/lists/ListsScreen.kt:238-241 | The dialog closes and the title resets; the chosen category is kept |
| ListsScreen.ListsScreenState.CreateList | app/src/main/java/com/example/to_do_list_app/ui/screens/lists/ListsScreen.kt:242-252 | Reachable only with a non-empty title (line 517). `createList` is called only when a user is signed in, with the title and the selected category. Then the dialog closes and the title resets |
| ListsScreen.ListsScreenState.CreateTask | app/src/main/java/com/example/to_do_list_app/ui/screens/lists/ListsScreen.kt:273-276 | The sheet's callback calls `createTask` with its arguments, then closes the sheet |
| TaskBottomSheet.InitialSelection | app/src/main/java/com/example/to_do_list_app/ui/components/TaskBottomSheet.kt:38 | The first list's id, or -1 when there are no lists |
| TaskBottomSheet.SelectedList | app/src/main/java/com/example/to_do_list_app/ui/components/TaskBottomSheet.kt:41 | None exactly when no list has the id; otherwise the first list with it |
| TaskBottomSheet.SelectionLabel | app/src/main/java/com/example/to_do_list_app/ui/components/TaskBottomSheet.kt:196 | The selected list's title, or "Select a list" when no list has the id |
| TaskBottomSheet.ViewOf | app/src/main/java/com/example/to_do_list_app/ui/components/TaskBottomSheet.kt:42 | Create is enabled exactly when the description is not blank and the id is positive. The helper text shows exactly when Create is disabled (line 313) |
| TaskBottomSheet.TaskSheet.constructor | app/src/main/java/com/example/to_do_list_app/ui/components/TaskBottomSheet.kt:37-39 | Empty description, initial selection, drop-down closed |
| TaskBottomSheet.TaskSheet.PickList | app/src/main/java/com/example/to_do_list_app/ui/components/TaskBottomSheet.kt:240-243 | Picking selects that list's id and closes the drop-down; the description is kept |
| TaskBottomSheet.TaskSheet.Create | app/src/main/java/com/example/to_do_list_app/ui/components/TaskBottomSheet.kt:270-274 | When enabled, `onCreateTask(description, id)` then `onDismiss`; otherwise nothing |
| TaskBottomSheet.TaskSheet.Details | app/src/main/java/com/example/to_do_list_app/ui/components/TaskBottomSheet.kt:139-147 | Navigation comes before dismissal |
| ProfileScreen.ValidateNewPassword | app/src/main/java/com/example/to_do_list_app/ui/screens/profile/ProfileScreen.kt:190-196 | Under 6 characters: "Password must be at least 6 characters", whatever the confirmation. Otherwise a difference gives "Passwords don't match". No message exactly when both checks pass |
| ProfileScreen.ProfileScreenState.ConfirmChange | app/src/main/java/com/example/to_do_list_app/ui/screens/profile/ProfileScreen.kt:189-210 | The message becomes the check's result. `changePassword(current, new)` is called exactly when it passes, after the message is cleared. The fields are untouched |
| ProfileScreen.ProfileScreenState.PasswordChanged | app/src/main/java/com/example/to_do_list_app/ui/screens/profile/ProfileScreen.kt:202-207 | The success callback resets the three fields and closes the dialog |
| ProfileScreen.ProfileScreenState.CloseDialog | app/src/main/java/com/example/to_do_list_app/ui/screens/profile/ProfileScreen.kt:134-140 | Dismiss and Cancel (lines 218-224) reset the three fields and the message, and close the dialog |
| ProfileScreen.ProfileScreenState.Logout | app/src/main/java/com/example/to_do_list_app/ui/screens/profile/ProfileScreen.kt:102-104 | `signOut` comes before navigating to login |
| ProfileScreen.ChangeSucceeds | app/src/main/java/com/example/to_do_list_app/ui/screens/profile/ProfileScreen.kt:189-207 | A valid change that succeeds leaves the dialog closed, the fields empty and no message |
| RegisterScreen.MismatchError | app/src/main/java/com/example/to_do_list_app/ui/screens/auth/RegisterScreen.kt:107-113 | "Passwords don't match" exactly when the two differ, otherwise no message |
| RegisterScreen.RegisterForm.EditPassword | app/src/main/java/com/example/to_do_list_app/ui/screens/auth/RegisterScreen.kt:87-95 | The match is re-checked against the new password only when a confirmation is typed; the form's consistency is kept |
| RegisterScreen.RegisterForm.EditConfirmation | app/src/main/java/com/example/to_do_list_app/ui/screens/auth/RegisterScreen.kt:107-113 | The message is always recomputed from the password and the new confirmation; the form's consistency is kept |
| RegisterScreen.RegisterForm.Submit | app/src/main/java/com/example/to_do_list_app/ui/screens/auth/RegisterScreen.kt:129-138 | Reachable only when enabled: not loading, email, password and name non-empty, password equal to its confirmation. It calls `register` with the fields as they are |
| RegisterScreen.StaleMismatchMessage | app/src/main/java/com/example/to_do_list_app/ui/screens/auth/RegisterScreen.kt:87-113 | After clearing the confirmation and then the password, both are empty yet "Passwords don't match" stays shown; Register stays disabled |
| ListDetailsScreen.OnOpen | app/src/main/java/com/example/to_do_list_app/ui/screens/lists/ListDetailsScreen.kt:76-78 | Opening the screen loads the route's list |
| ListDetailsScreen.Title | app/src/main/java/com/example/to_do_list_app/ui/screens/lists/ListDetailsScreen.kt:96 | The current list's title, or "My Tasks" |
| ListDetailsScreen.CountWhere | app/src/main/java/com/example/to_do_list_app/ui/screens/lists/ListDetailsScreen.kt:106 | The count is the number of items with that completion flag; it is 0 exactly when none has it |
| ListDetailsScreen.CountsAddUp | app/src/main/java/com/example/to_do_list_app/ui/screens/lists/ListDetailsScreen.kt:106 | Active plus completed equals the number of items (lines 224-225) |
| ListDetailsScreen.OnToggleComplete | app/src/main/java/com/example/to_do_list_app/ui/screens/lists/ListDetailsScreen.kt:246-256 | `updateItem` gets a copy that differs only in `isCompleted`, negated. The completion message shows exactly when the item was incomplete |
| ListDetailsScreen.ToggleTwiceRestores | app/src/main/java/com/example/to_do_list_app/ui/screens/lists/ListDetailsScreen.kt:247 | Toggling the toggled copy gives back the original, and exactly one of the two toggles shows the message |
| ListDetailsScreen.DeleteWithUndo | app/src/main/java/com/example/to_do_list_app/ui/screens/lists/ListDetailsScreen.kt:257-268 | Delete, then Undo's `addItem(listId, description)` on the coordinator. The new row has a fresh id (never the deleted one), is not completed, and takes a position from the loaded count. That count is after the Flow emission between the delete and Undo, when one is given. The old row is not restored. A missing list gives the foreign-key error |
| ListDetailsScreen.SheetLists | app/src/main/java/com/example/to_do_list_app/ui/screens/lists/ListDetailsScreen.kt:278 | The sheet is offered the current list alone, or nothing |
| ListDetailsScreen.OnSheetCreate | app/src/main/java/com/example/to_do_list_app/ui/screens/lists/ListDetailsScreen.kt:280-282 | The sheet's create goes to `addItem`, not `createTask` |
| ListDetailsScreen.SheetPreselectsCurrentList | app/src/main/java/com/example/to_do_list_app/ui/screens/lists/ListDetailsScreen.kt:278 | The sheet preselects the current list; without one it cannot create |

## Left out

- **Compose layout.** Styling, animation, snackbar display, scrolling and navigation are left out as presentation. So are `HomeScreen.kt`, `MainActivity.kt`, `AppNavigation.kt`, `LoginScreen.kt` and `TaskDetailsScreen.kt`: layout, one enable expression, and a result its caller discards.
- **Firebase SDKs.** Auth and the realtime database are foreign code:
  - `push().key` is an optional key;
  - `setValue`, `removeValue`, `reauthenticate` and `updatePassword` are outcomes;
  - `get()`, sign-up and sign-in come in as `Result` values;
  - the remote database is a map with whole-node overwrite.

  Their protocol, offline caching and listeners are not modelled.
- **Empty keys.** `child("")` addresses the collection itself, and the mirror models it that way. A row whose key or write failed keeps an empty `firebaseId`. If that item is later toggled or deleted, the write overwrites or removes every remote item. `TodoViewModel.TodoCoordinator.UpdateItem` and `DeleteItem` state this.
- **Key generation.** A generated key and an account uid are never empty. The model states this as a precondition on the key parameter of `CreateList`, `AddItem` and `CreateTask`, and on the uid returned to `Register`, `Login` and the session's constructor. The SDK's uniqueness guarantee for generated keys is not modelled.
- **Room runtime and `AppDatabase.kt`.** The singleton and its locking are concurrency plumbing; only the DAO contract is modelled.
- **Disk failures** inside Room are not modelled. So the `catch` blocks of `loadItems`, `loadLists` and `searchLists` cannot be reached in the model. The foreign-key failure is modelled.
- **Coroutines.** Each operation runs to completion, in sequence. Interleaving, cancellation and the order of emissions relative to writes are not modelled. Later Flow emissions happen when the environment calls `TodoCoordinator.Emit`.
- TodoDao.LocalStore.InsertList: ids are unbounded integers; the 64-bit `Long` limit on AUTOINCREMENT ids is not modelled.
- **The clock.** `Date()` and `System.currentTimeMillis()` become a `createdAt` parameter.
- **Floating point.** The progress fraction on the list details screen is not modelled.
- **Unicode.** Case folding and white space are restricted to ASCII, and string length counts characters rather than UTF-16 units.
- AuthViewModel.AuthSession.constructor, AuthViewModel.AuthSession.Login: a stored profile that fails to convert is excluded by the `ProfilesConvert` invariant instead of being modelled as an exception. The session only ever writes convertible profiles.
- **Handler plumbing.** These are plain assignments, modelled as methods without table rows:
  - text-field edits;
  - the task sheet's drop-down toggle;
  - dialog and sheet open/close buttons;
  - the register form's email and name fields.
- **`searchItems`** from the DAO is modelled as a query, but no screen calls it.
