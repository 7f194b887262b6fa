/** The template walk of synapseformation/client.py.

    `Walk` and `WalkList` are the specification: the calls the walk makes,
    the annotated tree it leaves and how many oracle replies it consumes,
    as functions of the template, the parent id and the replies. The
    methods `AddAcl`, `CreateResources`, `CreateEach` and
    `CreateSynapseResources` are the walk itself, driving a
    `SynapseCreation` object, and are proved to do exactly what the
    specification says. */
module Client {
  import opened Template
  import opened Creation

  /** The outcome of walking a node or a list of nodes: the annotated
      value, the remote calls made, how many replies the create calls
      consumed, and whether the walk ran to the end (false: a remote call
      failed and the walk aborted there). */
  datatype Run<T> = Run(value: T, events: seq<Event>, used: nat, ok: bool)

  /** The grants `_add_acl` issues for `acl` on the entity `entityId`. */
  function Grants(entityId: Id, acl: seq<AclEntry>): (r: seq<Event>)
    ensures |r| == |acl|
    ensures forall e :: e in r ==> e.Grant? && e.entityId == entityId
  {
    if acl == [] then []
    else
      var e := acl[|acl| - 1];
      Grants(entityId, acl[..|acl| - 1]) + [Grant(entityId, e.principalId, e.accessType)]
  }

  /** `_create_synapse_resources(config, creation_cls, parentid)`:
      a Project node makes one `get_or_create_project` call (the parent is
      not passed on), a Folder node one `get_or_create_folder` call under
      `parent`; the returned id is written into the node, the ACL entries
      are granted on it, and the children are walked under it. A list node
      walks its items in order under the same parent. */
  function Walk(n: Node, parent: Option<Id>, replies: seq<Id>): (r: Run<Node>)
    ensures r.used <= |replies|
    ensures n.IsResource() ==> r.events != [] && r.events[0] == CreateCall(n, parent)
  {
    match n
    case Project(name, acl, children, _) =>
      if replies == [] then Run(n, [CreateProject(name)], 0, false)
      else
        var id := replies[0];
        var sub := Walk(children, Some(id), replies[1..]);
        Run(Project(name, acl, sub.value, Some(id)),
            [CreateProject(name)] + Grants(id, acl) + sub.events, 1 + sub.used, sub.ok)
    case Folder(name, acl, children, _) =>
      if replies == [] then Run(n, [CreateFolder(name, parent)], 0, false)
      else
        var id := replies[0];
        var sub := Walk(children, Some(id), replies[1..]);
        Run(Folder(name, acl, sub.value, Some(id)),
            [CreateFolder(name, parent)] + Grants(id, acl) + sub.events, 1 + sub.used, sub.ok)
    case List(items) =>
      var r := WalkList(items, parent, replies);
      Run(List(r.value), r.events, r.used, r.ok)
  }

  /** The `for` loop over the items of a list node: each item is walked
      under `parent` with the replies its predecessors left; after a
      failure the remaining items are left as they were. */
  function WalkList(items: seq<Node>, parent: Option<Id>, replies: seq<Id>): (r: Run<seq<Node>>)
    ensures r.used <= |replies|
    ensures |r.value| == |items|
  {
    if items == [] then Run([], [], 0, true)
    else
      var k := |items| - 1;
      var pre := WalkList(items[..k], parent, replies);
      if !pre.ok then Run(pre.value + [items[k]], pre.events, pre.used, false)
      else
        var last := Walk(items[k], parent, replies[pre.used..]);
        Run(pre.value + [last.value], pre.events + last.events, pre.used + last.used, last.ok)
  }

  /** Once a prefix of the list has failed, the rest of the list makes no
      calls and is left untouched. */
  lemma {:induction false} WalkListAbort(items: seq<Node>, i: nat, parent: Option<Id>, replies: seq<Id>)
    requires i <= |items|
    requires !WalkList(items[..i], parent, replies).ok
    ensures var pre := WalkList(items[..i], parent, replies);
            WalkList(items, parent, replies) == Run(pre.value + items[i..], pre.events, pre.used, false)
  {
    if i < |items| {
      var k := |items| - 1;
      assert items[..k][..i] == items[..i];
      WalkListAbort(items[..k], i, parent, replies);
      var pre := WalkList(items[..i], parent, replies);
      var front := WalkList(items[..k], parent, replies);
      assert front.value + [items[k]] == pre.value + items[i..] by {
        assert items[..k][i..] + [items[k]] == items[i..];
      }
    } else {
      assert items[..i] == items;
      var pre := WalkList(items, parent, replies);
      assert pre.value + items[i..] == pre.value;
    }
  }

  lemma AppendAssoc(a: seq<Event>, b: seq<Event>, c: seq<Event>)
    ensures a + b + c == a + (b + c)
  {
  }

  /** The create call the walk issues for a resource node under `parent`. */
  function CreateCall(n: Node, parent: Option<Id>): (e: Event)
    requires n.IsResource()
    ensures e.IsCreate() && e.name == n.name
    ensures e.CreateFolder? <==> n.Folder?
  {
    if n.Project? then CreateProject(n.name) else CreateFolder(n.name, parent)
  }

  /** One step of the walk on a resource node that the platform answers. */
  lemma WalkResourceStep(n: Node, parent: Option<Id>, replies: seq<Id>)
    requires n.IsResource() && replies != []
    ensures var sub := Walk(n.children, Some(replies[0]), replies[1..]);
            Walk(n, parent, replies)
              == Run(n.(children := sub.value, id := Some(replies[0])),
                     [CreateCall(n, parent)] + Grants(replies[0], n.acl) + sub.events, 1 + sub.used, sub.ok)
  {
  }

  /** Walking one more item of a list whose prefix completed. */
  lemma WalkListStep(items: seq<Node>, i: nat, parent: Option<Id>, replies: seq<Id>)
    requires i < |items|
    requires WalkList(items[..i], parent, replies).ok
    ensures var pre := WalkList(items[..i], parent, replies);
            var last := Walk(items[i], parent, replies[pre.used..]);
            WalkList(items[..i + 1], parent, replies)
              == Run(pre.value + [last.value], pre.events + last.events, pre.used + last.used, last.ok)
  {
    assert items[..i + 1][..i] == items[..i];
  }

  /** `_add_acl(syn, entity, acl_config)`: one `setPermissions` call per
      entry, in declared order. */
  method AddAcl(syn: SynapseCreation, entityId: Id, acl: seq<AclEntry>)
    modifies syn
    ensures syn.trace == old(syn.trace) + Grants(entityId, acl)
    ensures syn.replies == old(syn.replies)
  {
    for i := 0 to |acl|
      invariant syn.trace == old(syn.trace) + Grants(entityId, acl[..i])
      invariant syn.replies == old(syn.replies)
    {
      syn.SetPermissions(entityId, acl[i].principalId, acl[i].accessType);
      assert acl[..i + 1][..i] == acl[..i];
    }
    assert acl[..|acl|] == acl;
  }

  /** `_create_synapse_resources`: returns the node with the created ids
      written in (partially, when `ok` is false). */
  method CreateResources(config: Node, creation: SynapseCreation, parentId: Option<Id>)
    returns (annotated: Node, ok: bool)
    modifies creation
    decreases config
    ensures var r := Walk(config, parentId, old(creation.replies));
            annotated == r.value && ok == r.ok &&
            creation.trace == old(creation.trace) + r.events &&
            creation.replies == old(creation.replies)[r.used..]
  {
    if config.List? {
      var items;
      items, ok := CreateEach(config.items, creation, parentId);
      annotated := List(items);
      return;
    }
    var entity: Option<Id>;
    if config.Project? {
      entity := creation.GetOrCreateProject(config.name);
    } else {
      entity := creation.GetOrCreateFolder(config.name, parentId);
    }
    if entity.None? {
      return config, false;
    }
    var id := entity.value;
    WalkResourceStep(config, parentId, old(creation.replies));
    ghost var created := creation.trace;
    assert created == old(creation.trace) + [CreateCall(config, parentId)];
    annotated := config.(id := Some(id));
    AddAcl(creation, id, config.acl);
    ghost var granted := creation.trace;
    var children, childrenOk := CreateResources(config.children, creation, Some(id));
    ghost var sub := Walk(config.children, Some(id), old(creation.replies)[1..]);
    assert creation.trace == granted + sub.events;
    AppendAssoc(old(creation.trace), [CreateCall(config, parentId)], Grants(id, config.acl));
    AppendAssoc(old(creation.trace), [CreateCall(config, parentId)] + Grants(id, config.acl), sub.events);
    assert creation.replies == old(creation.replies)[1 + sub.used..];
    annotated := annotated.(children := children);
    ok := childrenOk;
  }

  /** The `for` loop of `_create_synapse_resources` over a list of sibling
      nodes, all walked under the same parent; a failure ends the loop. */
  method CreateEach(items: seq<Node>, creation: SynapseCreation, parentId: Option<Id>)
    returns (annotated: seq<Node>, ok: bool)
    modifies creation
    decreases items
    ensures var r := WalkList(items, parentId, old(creation.replies));
            annotated == r.value && ok == r.ok &&
            creation.trace == old(creation.trace) + r.events &&
            creation.replies == old(creation.replies)[r.used..]
  {
    annotated := [];
    ok := true;
    var i := 0;
    while i < |items| && ok
      invariant i <= |items|
      invariant var r := WalkList(items[..i], parentId, old(creation.replies));
                annotated == r.value && ok == r.ok &&
                creation.trace == old(creation.trace) + r.events &&
                creation.replies == old(creation.replies)[r.used..]
    {
      ghost var used := WalkList(items[..i], parentId, old(creation.replies)).used;
      ghost var traceBefore := creation.trace;
      var child, childOk := CreateResources(items[i], creation, parentId);
      WalkListStep(items, i, parentId, old(creation.replies));
      ghost var last := Walk(items[i], parentId, old(creation.replies)[used..]);
      assert creation.trace == traceBefore + last.events;
      AppendAssoc(old(creation.trace), WalkList(items[..i], parentId, old(creation.replies)).events, last.events);
      assert creation.replies == old(creation.replies)[used + last.used..];
      annotated := annotated + [child];
      ok := childOk;
      i := i + 1;
    }
    if !ok {
      WalkListAbort(items, i, parentId, old(creation.replies));
      annotated := annotated + items[i..];
    } else {
      assert items[..i] == items;
    }
  }

  /** `create_synapse_resources` after login and template loading: every
      top-level resource of the template is walked with no parent. */
  method CreateSynapseResources(config: seq<Node>, creation: SynapseCreation)
    returns (annotated: seq<Node>, ok: bool)
    modifies creation
    ensures var r := WalkList(config, None, old(creation.replies));
            annotated == r.value && ok == r.ok &&
            creation.trace == old(creation.trace) + r.events &&
            creation.replies == old(creation.replies)[r.used..]
  {
    annotated, ok := CreateEach(config, creation, None);
  }
}
