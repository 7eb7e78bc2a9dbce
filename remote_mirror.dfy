/**
 * The remote mirror as the app sees it: a tree of three collections
 * (`lists`, `items`, `users`) whose children are nodes keyed by a generated
 * key (or, for users, the account id). `setValue` overwrites a whole node,
 * `removeValue` deletes it; either may fail, and the caller then sees the
 * failure message. Key generation (`push().key`) and the outcome of each
 * write are supplied by the caller of the model.
 *
 * `child("")` does not name a child: the path is the collection itself. A
 * write under the empty key therefore acts on the whole collection.
 */
module RemoteMirror {
  import opened Wrappers
  import opened Primitives
  import opened Model

  datatype Collection = Lists | Items | Users

  /** `database.child(collection).child(key)`. */
  datatype Path = Path(collection: Collection, key: string)

  /** The message the app throws when `push()` yields no key. */
  const KeyFailed: string := "Failed to generate Firebase key"

  /** The nodes outside collection `c`. */
  function WithoutCollection(nodes: map<Path, RemoteNode>, c: Collection): (r: map<Path, RemoteNode>)
    ensures forall p :: p in r <==> p in nodes && p.collection != c
    ensures forall p :: p in r ==> r[p] == nodes[p]
  {
    map p | p in nodes && p.collection != c :: nodes[p]
  }

  class Mirror {
    var nodes: map<Path, RemoteNode>

    /** An empty database. */
    constructor ()
      ensures nodes == map[]
    {
      nodes := map[];
    }

    /**
     * `setValue(node)`: on success the node at `path` is exactly `node`,
     * whatever was there before. Under the empty key the collection itself is
     * overwritten: its children become the node's fields, which are values
     * and not nodes, so no node of the collection is left.
     */
    method SetValue(path: Path, node: RemoteNode, outcome: Outcome<Message>)
      modifies this
      ensures outcome.Pass? && path.key != "" ==> nodes == old(nodes)[path := node]
      ensures outcome.Pass? && path.key == "" ==> nodes == WithoutCollection(old(nodes), path.collection)
      ensures outcome.Fail? ==> nodes == old(nodes)
    {
      if outcome.Pass? {
        if path.key == "" {
          nodes := WithoutCollection(nodes, path.collection);
        } else {
          nodes := nodes[path := node];
        }
      }
    }

    /** `removeValue()`: on success nothing is left at `path`; under the empty key the whole collection goes. */
    method RemoveValue(path: Path, outcome: Outcome<Message>)
      modifies this
      ensures outcome.Pass? && path.key != "" ==> nodes == old(nodes) - {path}
      ensures outcome.Pass? && path.key == "" ==> nodes == WithoutCollection(old(nodes), path.collection)
      ensures outcome.Fail? ==> nodes == old(nodes)
    {
      if outcome.Pass? {
        if path.key == "" {
          nodes := WithoutCollection(nodes, path.collection);
        } else {
          nodes := nodes - {path};
        }
      }
    }

    /** `get()` on `path`: the node, or None when nothing is stored there. */
    function Get(path: Path): (r: Option<RemoteNode>)
      reads this
      ensures r.Some? <==> path in nodes
      ensures r.Some? ==> r.value == nodes[path]
    {
      if path in nodes then Some(nodes[path]) else None
    }
  }

}
