/**
 * The entities of the app (model/TodoList.kt, model/TodoItem.kt, model/User.kt)
 * with their default field values and the projections written to the remote
 * mirror.
 */
module Model {
  import opened Wrappers
  import opened Primitives
  import opened DateConverter

  /** The category a list gets when none is chosen. */
  const DefaultCategory: string := "Personal"

  /**
   * A row of `todo_lists`. `id` is generated on insert (0 before it);
   * `firebaseId` is the remote key, "" until the list has been mirrored.
   * `createdAt` has no default here: Kotlin's default reads the clock.
   */
  datatype TodoList = TodoList(
    id: int := 0,
    title: string := "",
    userId: string := "",
    createdAt: Date,
    category: string := DefaultCategory,
    firebaseId: string := "")

  /**
   * A row of `todo_items`; `listId` references `todo_lists.id` with ON DELETE
   * CASCADE (enforced by TodoDao.LocalStore).
   */
  datatype TodoItem = TodoItem(
    id: int := 0,
    listId: int := 0,
    description: string := "",
    isCompleted: bool := false,
    createdAt: Date,
    position: Int32 := 0,
    firebaseId: string := "")

  /** A user profile as stored under `users/{id}`. */
  datatype User = User(id: string := "", email: string := "", displayName: string := "")

  /** The no-argument constructor `TodoList()` required by the remote mirror's deserialiser. */
  function EmptyTodoList(createdAt: Date): TodoList {
    TodoList(0, "", "", createdAt, "Personal", "")
  }

  /** The no-argument constructor `TodoItem()`. */
  function EmptyTodoItem(createdAt: Date): TodoItem {
    TodoItem(0, 0, "", false, createdAt, 0, "")
  }

  /** The no-argument constructor `User()`. */
  function EmptyUser(): User {
    User("", "", "")
  }

  /** The secondary constructors agree with the defaults of the primary ones. */
  lemma NoArgConstructorsUseDefaults(d: Date)
    ensures EmptyTodoList(d) == TodoList(createdAt := d)
    ensures EmptyTodoItem(d) == TodoItem(createdAt := d)
    ensures EmptyUser() == User()
    ensures TodoList(createdAt := d).category == "Personal" && TodoList(createdAt := d).firebaseId == ""
    ensures var i := TodoItem(createdAt := d); i.id == 0 && !i.isCompleted && i.position == 0 && i.firebaseId == ""
  {
  }

  // ---------------------------------------------------------------------------
  // Remote projections
  // ---------------------------------------------------------------------------

  /** A value the remote mirror stores under a field name. */
  datatype FieldValue = Text(text: string) | Flag(flag: bool) | Number(number: int)

  /** A remote node: field name to value. */
  type RemoteNode = map<string, FieldValue>

  /** `TodoList.toMap()`. */
  function ListToMap(l: TodoList): (r: RemoteNode)
    ensures r.Keys == {"title", "userId", "createdAt", "category"}
  {
    map["title" := Text(l.title), "userId" := Text(l.userId),
        "createdAt" := Number(l.createdAt.time), "category" := Text(l.category)]
  }

  /** `TodoItem.toMap()`. */
  function ItemToMap(i: TodoItem): (r: RemoteNode)
    ensures r.Keys == {"description", "isCompleted", "createdAt", "position"}
  {
    map["description" := Text(i.description), "isCompleted" := Flag(i.isCompleted),
        "createdAt" := Number(i.createdAt.time), "position" := Number(i.position)]
  }

  /** Neither projection carries a local id, a remote key or (for items) the parent list. */
  lemma ProjectionsOmitIds(l: TodoList, i: TodoItem)
    ensures "id" !in ListToMap(l) && "firebaseId" !in ListToMap(l)
    ensures "id" !in ItemToMap(i) && "listId" !in ItemToMap(i) && "firebaseId" !in ItemToMap(i)
  {
  }

  /** A list's projection is exactly its projected fields: equal projections mean equal fields, and the ids do not matter. */
  lemma ListToMapDeterminesFields(a: TodoList, b: TodoList)
    ensures ListToMap(a) == ListToMap(b) <==>
      a.title == b.title && a.userId == b.userId && a.createdAt == b.createdAt && a.category == b.category
  {
    if ListToMap(a) == ListToMap(b) {
      assert ListToMap(a)["title"] == ListToMap(b)["title"];
      assert ListToMap(a)["userId"] == ListToMap(b)["userId"];
      assert ListToMap(a)["createdAt"] == ListToMap(b)["createdAt"];
      assert ListToMap(a)["category"] == ListToMap(b)["category"];
    }
  }

  /** An item's projection is exactly its projected fields. */
  lemma ItemToMapDeterminesFields(a: TodoItem, b: TodoItem)
    ensures ItemToMap(a) == ItemToMap(b) <==>
      a.description == b.description && a.isCompleted == b.isCompleted
      && a.createdAt == b.createdAt && a.position == b.position
  {
    if ItemToMap(a) == ItemToMap(b) {
      assert ItemToMap(a)["description"] == ItemToMap(b)["description"];
      assert ItemToMap(a)["isCompleted"] == ItemToMap(b)["isCompleted"];
      assert ItemToMap(a)["createdAt"] == ItemToMap(b)["createdAt"];
      assert ItemToMap(a)["position"] == ItemToMap(b)["position"];
    }
  }

  // ---------------------------------------------------------------------------
  // The user profile under users/{id}
  // ---------------------------------------------------------------------------

  /** What `setValue(user)` stores: the three bean properties. */
  function UserToNode(u: User): (r: RemoteNode)
    ensures r.Keys == {"id", "email", "displayName"}
  {
    map["id" := Text(u.id), "email" := Text(u.email), "displayName" := Text(u.displayName)]
  }

  /** Reading a text property: absent means the no-argument constructor's "", a non-text value cannot be converted. */
  function TextField(node: RemoteNode, name: string): (r: Option<string>)
    ensures r.None? <==> name in node && !node[name].Text?
    ensures name !in node ==> r == Some("")
    ensures name in node && node[name].Text? ==> r == Some(node[name].text)
  {
    if name !in node then Some("")
    else match node[name]
      case Text(t) => Some(t)
      case _ => None
  }

  /** `getValue(User::class.java)` on a present node: start from `User()` and set each property found; None when a property is not text. */
  function UserFromNode(node: RemoteNode): (r: Option<User>)
    ensures r.Some? ==> forall f :: f in node && f in {"id", "email", "displayName"} ==> node[f].Text?
    ensures r.None? ==> exists f :: f in node && f in {"id", "email", "displayName"} && !node[f].Text?
  {
    var id := TextField(node, "id");
    var email := TextField(node, "email");
    var name := TextField(node, "displayName");
    if id.Some? && email.Some? && name.Some? then Some(User(id.value, email.value, name.value))
    else None
  }

  /** A stored profile reads back unchanged. */
  lemma UserRoundTrip(u: User)
    ensures UserFromNode(UserToNode(u)) == Some(u)
  {
  }
}
