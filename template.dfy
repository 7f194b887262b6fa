/** The parsed Synapse Formation template: a tree of typed resource nodes.
    A node is a `Project` or `Folder` mapping (with its ACL entries, its
    `children` and the `id` slot the walk fills in) or a plain list of
    sibling nodes. Strings, mappings with another `type`, numbers,
    booleans and null are not nodes: the walk iterates a string or such a
    mapping as a list of characters or keys (an empty one is skipped, a
    non-empty one ends in a RecursionError) and raises a TypeError on the
    others, so the datatype leaves them out. */
module Template {

  datatype Option<+T> = None | Some(value: T)

  /** A Synapse entity id such as "syn123". */
  type Id = string

  /** One entry of a node's `acl` list. */
  datatype AclEntry = AclEntry(principalId: string, accessType: string)

  /** A template node. A missing `acl` is the empty list, and a missing
      `children` is the empty list node `List([])`. `id` is `None` until
      the walk writes the created entity's id into it. */
  datatype Node =
    | Project(name: string, acl: seq<AclEntry>, children: Node, id: Option<Id>)
    | Folder(name: string, acl: seq<AclEntry>, children: Node, id: Option<Id>)
    | List(items: seq<Node>)
  {
    /** A node that denotes one remote entity. */
    predicate IsResource() {
      Project? || Folder?
    }
  }

  /** The number of Project and Folder nodes in a tree. */
  function Resources(n: Node): nat
  {
    match n
    case Project(_, _, children, _) => 1 + Resources(children)
    case Folder(_, _, children, _) => 1 + Resources(children)
    case List(items) => ResourcesOf(items)
  }

  function ResourcesOf(items: seq<Node>): nat
  {
    if items == [] then 0
    else ResourcesOf(items[..|items| - 1]) + Resources(items[|items| - 1])
  }

  /** The tree with every `id` slot cleared: what the template author wrote,
      apart from ids. */
  function Erase(n: Node): Node
  {
    match n
    case Project(name, acl, children, _) => Project(name, acl, Erase(children), None)
    case Folder(name, acl, children, _) => Folder(name, acl, Erase(children), None)
    case List(items) => List(EraseAll(items))
  }

  function EraseAll(items: seq<Node>): seq<Node>
  {
    if items == [] then []
    else EraseAll(items[..|items| - 1]) + [Erase(items[|items| - 1])]
  }

  /** Every Project and Folder node of the tree carries an id. */
  predicate Annotated(n: Node)
  {
    match n
    case Project(_, _, children, id) => id.Some? && Annotated(children)
    case Folder(_, _, children, id) => id.Some? && Annotated(children)
    case List(items) => AllAnnotated(items)
  }

  predicate AllAnnotated(items: seq<Node>)
  {
    if items == [] then true
    else AllAnnotated(items[..|items| - 1]) && Annotated(items[|items| - 1])
  }

  /** The ids of an annotated tree, parent before children, siblings in
      declared order. */
  function Ids(n: Node): seq<Id>
    requires Annotated(n)
  {
    match n
    case Project(_, _, children, id) => [id.value] + Ids(children)
    case Folder(_, _, children, id) => [id.value] + Ids(children)
    case List(items) => IdsOf(items)
  }

  function IdsOf(items: seq<Node>): seq<Id>
    requires AllAnnotated(items)
  {
    if items == [] then []
    else IdsOf(items[..|items| - 1]) + Ids(items[|items| - 1])
  }

  /** The ids present in a tree, parent before children, siblings in
      declared order; nodes without an id contribute nothing. */
  function SetIds(n: Node): seq<Id>
  {
    match n
    case Project(_, _, children, id) => (if id.Some? then [id.value] else []) + SetIds(children)
    case Folder(_, _, children, id) => (if id.Some? then [id.value] else []) + SetIds(children)
    case List(items) => SetIdsOf(items)
  }

  function SetIdsOf(items: seq<Node>): seq<Id>
  {
    if items == [] then []
    else SetIdsOf(items[..|items| - 1]) + SetIds(items[|items| - 1])
  }
}
