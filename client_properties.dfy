/** What the walk of synapseformation/client.py guarantees, stated about
    the specification `Client.Walk` (which the methods are proved to
    follow) against definitions that do not mention the walk: the
    pre-order listing of an annotated tree, the number of resource nodes,
    and the template with its ids erased. */
module ClientProperties {
  import opened Template
  import opened Creation
  import opened Client

  /** The remote calls that materialise an annotated tree under `parent`,
      read off the tree alone: each resource node's create call (a Folder's
      under the id of its enclosing node), then its grants, then the calls
      of its children; siblings left to right. */
  function PreOrder(t: Node, parent: Option<Id>): seq<Event>
    requires Annotated(t)
  {
    match t
    case Project(name, acl, children, id) =>
      [CreateProject(name)] + Grants(id.value, acl) + PreOrder(children, id)
    case Folder(name, acl, children, id) =>
      [CreateFolder(name, parent)] + Grants(id.value, acl) + PreOrder(children, id)
    case List(items) => PreOrderOf(items, parent)
  }

  function PreOrderOf(items: seq<Node>, parent: Option<Id>): seq<Event>
    requires AllAnnotated(items)
  {
    if items == [] then []
    else PreOrderOf(items[..|items| - 1], parent) + PreOrder(items[|items| - 1], parent)
  }

  /** The number of create calls in a trace. */
  function CountCreates(events: seq<Event>): nat
  {
    if events == [] then 0
    else CountCreates(events[..|events| - 1]) + (if events[|events| - 1].IsCreate() then 1 else 0)
  }

  // ---------------------------------------------------------------------
  // _add_acl

  /** One grant per ACL entry, in declared order, each on the same entity
      with that entry's principal and access type. */
  lemma {:induction false} GrantsFollowAcl(entityId: Id, acl: seq<AclEntry>)
    ensures |Grants(entityId, acl)| == |acl|
    ensures forall k :: 0 <= k < |acl| ==>
              Grants(entityId, acl)[k] == Grant(entityId, acl[k].principalId, acl[k].accessType)
  {
    if acl != [] {
      GrantsFollowAcl(entityId, acl[..|acl| - 1]);
    }
  }

  // ---------------------------------------------------------------------
  // Success and reply consumption

  /** The walk runs to the end exactly when the platform answers every
      create call, i.e. when there is one reply per Project and Folder
      node; otherwise it uses up every reply. */
  lemma {:induction false} WalkSucceedsIff(n: Node, parent: Option<Id>, replies: seq<Id>)
    ensures Walk(n, parent, replies).ok <==> Resources(n) <= |replies|
    ensures Walk(n, parent, replies).used == if Resources(n) <= |replies| then Resources(n) else |replies|
    decreases n
  {
    match n
    case Project(_, _, children, _) =>
      if replies != [] { WalkSucceedsIff(children, Some(replies[0]), replies[1..]); }
    case Folder(_, _, children, _) =>
      if replies != [] { WalkSucceedsIff(children, Some(replies[0]), replies[1..]); }
    case List(items) =>
      WalkListSucceedsIff(items, parent, replies);
  }

  lemma {:induction false} WalkListSucceedsIff(items: seq<Node>, parent: Option<Id>, replies: seq<Id>)
    ensures WalkList(items, parent, replies).ok <==> ResourcesOf(items) <= |replies|
    ensures WalkList(items, parent, replies).used == if ResourcesOf(items) <= |replies| then ResourcesOf(items) else |replies|
    decreases items
  {
    if items != [] {
      var k := |items| - 1;
      WalkListSucceedsIff(items[..k], parent, replies);
      var pre := WalkList(items[..k], parent, replies);
      if pre.ok {
        WalkSucceedsIff(items[k], parent, replies[pre.used..]);
      }
    }
  }

  // ---------------------------------------------------------------------
  // The trace of a completed walk

  /** A completed walk writes an id into every Project and Folder node. */
  lemma {:induction false} WalkAnnotates(n: Node, parent: Option<Id>, replies: seq<Id>)
    requires Walk(n, parent, replies).ok
    ensures Annotated(Walk(n, parent, replies).value)
    decreases n
  {
    match n
    case Project(_, _, children, _) =>
      WalkAnnotates(children, Some(replies[0]), replies[1..]);
    case Folder(_, _, children, _) =>
      WalkAnnotates(children, Some(replies[0]), replies[1..]);
    case List(items) =>
      WalkListAnnotates(items, parent, replies);
  }

  lemma {:induction false} WalkListAnnotates(items: seq<Node>, parent: Option<Id>, replies: seq<Id>)
    requires WalkList(items, parent, replies).ok
    ensures AllAnnotated(WalkList(items, parent, replies).value)
    decreases items
  {
    if items != [] {
      var k := |items| - 1;
      var pre := WalkList(items[..k], parent, replies);
      WalkListAnnotates(items[..k], parent, replies);
      var last := Walk(items[k], parent, replies[pre.used..]);
      WalkAnnotates(items[k], parent, replies[pre.used..]);
      var all := pre.value + [last.value];
      assert all[..|all| - 1] == pre.value;
    }
  }

  /** The calls of a completed walk are exactly the pre-order listing of
      the annotated tree:
      each node's create call comes before its grants, which come before
      every call of its descendants; every Folder is created under the id
      just written into its enclosing node (or under `parent` at the top);
      siblings are handled in declared order. */
  lemma {:induction false} WalkTraceIsPreOrder(n: Node, parent: Option<Id>, replies: seq<Id>)
    requires Walk(n, parent, replies).ok
    ensures Annotated(Walk(n, parent, replies).value)
    ensures Walk(n, parent, replies).events == PreOrder(Walk(n, parent, replies).value, parent)
    decreases n
  {
    WalkAnnotates(n, parent, replies);
    match n
    case Project(_, _, children, _) =>
      WalkTraceIsPreOrder(children, Some(replies[0]), replies[1..]);
    case Folder(_, _, children, _) =>
      WalkTraceIsPreOrder(children, Some(replies[0]), replies[1..]);
    case List(items) =>
      WalkListTraceIsPreOrder(items, parent, replies);
  }

  lemma {:induction false} WalkListTraceIsPreOrder(items: seq<Node>, parent: Option<Id>, replies: seq<Id>)
    requires WalkList(items, parent, replies).ok
    ensures AllAnnotated(WalkList(items, parent, replies).value)
    ensures WalkList(items, parent, replies).events == PreOrderOf(WalkList(items, parent, replies).value, parent)
    decreases items
  {
    WalkListAnnotates(items, parent, replies);
    if items != [] {
      var k := |items| - 1;
      var pre := WalkList(items[..k], parent, replies);
      WalkListTraceIsPreOrder(items[..k], parent, replies);
      var last := Walk(items[k], parent, replies[pre.used..]);
      WalkTraceIsPreOrder(items[k], parent, replies[pre.used..]);
      var all := pre.value + [last.value];
      assert all[..|all| - 1] == pre.value;
    }
  }

  /** The ids a completed walk writes into the tree, read in pre-order, are
      the platform's replies in the order they were given: each node holds
      the id returned by its own create call. */
  lemma {:induction false} WalkInjectsReplies(n: Node, parent: Option<Id>, replies: seq<Id>)
    requires Walk(n, parent, replies).ok
    ensures Annotated(Walk(n, parent, replies).value)
    ensures Ids(Walk(n, parent, replies).value) == replies[..Walk(n, parent, replies).used]
    ensures n.IsResource() ==> Walk(n, parent, replies).value.id == Some(replies[0])
    decreases n
  {
    WalkAnnotates(n, parent, replies);
    match n
    case Project(_, _, children, _) =>
      WalkInjectsReplies(children, Some(replies[0]), replies[1..]);
      ReplyPrefix(replies, Walk(children, Some(replies[0]), replies[1..]).used);
    case Folder(_, _, children, _) =>
      WalkInjectsReplies(children, Some(replies[0]), replies[1..]);
      ReplyPrefix(replies, Walk(children, Some(replies[0]), replies[1..]).used);
    case List(items) =>
      WalkListInjectsReplies(items, parent, replies);
  }

  lemma {:induction false} WalkListInjectsReplies(items: seq<Node>, parent: Option<Id>, replies: seq<Id>)
    requires WalkList(items, parent, replies).ok
    ensures AllAnnotated(WalkList(items, parent, replies).value)
    ensures IdsOf(WalkList(items, parent, replies).value) == replies[..WalkList(items, parent, replies).used]
    decreases items
  {
    WalkListAnnotates(items, parent, replies);
    if items != [] {
      var k := |items| - 1;
      var pre := WalkList(items[..k], parent, replies);
      var rest := replies[pre.used..];
      var last := Walk(items[k], parent, rest);
      WalkListInjectsReplies(items[..k], parent, replies);
      WalkInjectsReplies(items[k], parent, rest);
      var all := pre.value + [last.value];
      assert all[..|all| - 1] == pre.value;
      assert IdsOf(all) == IdsOf(pre.value) + Ids(last.value);
      SliceConcat(replies, pre.used, last.used);
    }
  }

  /** On every outcome, aborted walks included, the ids the walk leaves in
      a template that had none are the replies it used, in the order given,
      read parent before children and siblings left to right: an aborted
      walk's tree shows exactly how far it got. */
  lemma {:induction false} WalkRecordsReplies(n: Node, parent: Option<Id>, replies: seq<Id>)
    requires SetIds(n) == []
    ensures SetIds(Walk(n, parent, replies).value) == replies[..Walk(n, parent, replies).used]
    decreases n
  {
    match n
    case Project(_, _, children, id) =>
      if replies != [] {
        assert SetIds(children) == [];
        var sub := Walk(children, Some(replies[0]), replies[1..]);
        WalkRecordsReplies(children, Some(replies[0]), replies[1..]);
        ReplyPrefix(replies, sub.used);
      }
    case Folder(_, _, children, id) =>
      if replies != [] {
        assert SetIds(children) == [];
        var sub := Walk(children, Some(replies[0]), replies[1..]);
        WalkRecordsReplies(children, Some(replies[0]), replies[1..]);
        ReplyPrefix(replies, sub.used);
      }
    case List(items) =>
      WalkListRecordsReplies(items, parent, replies);
  }

  lemma {:induction false} WalkListRecordsReplies(items: seq<Node>, parent: Option<Id>, replies: seq<Id>)
    requires SetIdsOf(items) == []
    ensures SetIdsOf(WalkList(items, parent, replies).value) == replies[..WalkList(items, parent, replies).used]
    decreases items
  {
    if items != [] {
      var k := |items| - 1;
      assert |SetIdsOf(items[..k]) + SetIds(items[k])| == 0;
      var pre := WalkList(items[..k], parent, replies);
      WalkListRecordsReplies(items[..k], parent, replies);
      if pre.ok {
        var last := Walk(items[k], parent, replies[pre.used..]);
        WalkRecordsReplies(items[k], parent, replies[pre.used..]);
        SetIdsOfAppend(pre.value, last.value);
        SliceConcat(replies, pre.used, last.used);
      } else {
        SetIdsOfAppend(pre.value, items[k]);
      }
    }
  }

  lemma SetIdsOfAppend(items: seq<Node>, n: Node)
    ensures SetIdsOf(items + [n]) == SetIdsOf(items) + SetIds(n)
  {
    assert (items + [n])[..|items|] == items;
  }

  lemma SliceConcat(s: seq<Id>, a: nat, b: nat)
    requires a + b <= |s|
    ensures s[..a] + s[a..][..b] == s[..a + b]
  {
  }

  lemma ReplyPrefix(replies: seq<Id>, u: nat)
    requires 0 < |replies| && u < |replies|
    ensures [replies[0]] + replies[1..][..u] == replies[..1 + u]
  {
  }

  /** The walk changes nothing in the template but the `id` slots, also
      when it aborts. */
  lemma {:induction false} WalkKeepsTemplate(n: Node, parent: Option<Id>, replies: seq<Id>)
    ensures Erase(Walk(n, parent, replies).value) == Erase(n)
    decreases n
  {
    match n
    case Project(_, _, children, _) =>
      if replies != [] { WalkKeepsTemplate(children, Some(replies[0]), replies[1..]); }
    case Folder(_, _, children, _) =>
      if replies != [] { WalkKeepsTemplate(children, Some(replies[0]), replies[1..]); }
    case List(items) =>
      WalkListKeepsTemplate(items, parent, replies);
  }

  lemma {:induction false} WalkListKeepsTemplate(items: seq<Node>, parent: Option<Id>, replies: seq<Id>)
    ensures EraseAll(WalkList(items, parent, replies).value) == EraseAll(items)
    decreases items
  {
    if items != [] {
      var k := |items| - 1;
      var pre := WalkList(items[..k], parent, replies);
      WalkListKeepsTemplate(items[..k], parent, replies);
      var lastValue := if pre.ok then Walk(items[k], parent, replies[pre.used..]).value else items[k];
      if pre.ok {
        WalkKeepsTemplate(items[k], parent, replies[pre.used..]);
      }
      var all := pre.value + [lastValue];
      assert all[..|all| - 1] == pre.value;
    }
  }

  // ---------------------------------------------------------------------
  // One create call per resource node

  lemma {:induction false} CountCreatesAppend(a: seq<Event>, b: seq<Event>)
    ensures CountCreates(a + b) == CountCreates(a) + CountCreates(b)
    decreases |b|
  {
    if b != [] {
      var k := |b| - 1;
      CountCreatesAppend(a, b[..k]);
      assert (a + b)[..|a + b| - 1] == a + b[..k];
    } else {
      assert a + b == a;
    }
  }

  lemma {:induction false} GrantsCreateNothing(entityId: Id, acl: seq<AclEntry>)
    ensures CountCreates(Grants(entityId, acl)) == 0
  {
    if acl != [] {
      var k := |acl| - 1;
      GrantsCreateNothing(entityId, acl[..k]);
      var e := acl[k];
      CountCreatesAppend(Grants(entityId, acl[..k]), [Grant(entityId, e.principalId, e.accessType)]);
    }
  }

  /** The pre-order listing of a tree holds one create call per Project
      and Folder node. */
  lemma {:induction false} PreOrderCreatesOncePerResource(t: Node, parent: Option<Id>)
    requires Annotated(t)
    ensures CountCreates(PreOrder(t, parent)) == Resources(t)
    decreases t
  {
    match t
    case Project(name, acl, children, id) =>
      PreOrderCreatesOncePerResource(children, id);
      GrantsCreateNothing(id.value, acl);
      CountCreatesAppend([CreateProject(name)], Grants(id.value, acl));
      CountCreatesAppend([CreateProject(name)] + Grants(id.value, acl), PreOrder(children, id));
      assert CountCreates([CreateProject(name)]) == 1 by {
        assert [CreateProject(name)][..0] == [];
      }
    case Folder(name, acl, children, id) =>
      PreOrderCreatesOncePerResource(children, id);
      GrantsCreateNothing(id.value, acl);
      CountCreatesAppend([CreateFolder(name, parent)], Grants(id.value, acl));
      CountCreatesAppend([CreateFolder(name, parent)] + Grants(id.value, acl), PreOrder(children, id));
      assert CountCreates([CreateFolder(name, parent)]) == 1 by {
        assert [CreateFolder(name, parent)][..0] == [];
      }
    case List(items) =>
      PreOrderOfCreatesOncePerResource(items, parent);
  }

  lemma {:induction false} PreOrderOfCreatesOncePerResource(items: seq<Node>, parent: Option<Id>)
    requires AllAnnotated(items)
    ensures CountCreates(PreOrderOf(items, parent)) == ResourcesOf(items)
    decreases items
  {
    if items != [] {
      var k := |items| - 1;
      PreOrderOfCreatesOncePerResource(items[..k], parent);
      PreOrderCreatesOncePerResource(items[k], parent);
      CountCreatesAppend(PreOrderOf(items[..k], parent), PreOrder(items[k], parent));
    }
  }

  /** A completed walk makes exactly one create call per Project and Folder
      node of the template, and consumes one reply for each. */
  lemma WalkCreatesOncePerResource(n: Node, parent: Option<Id>, replies: seq<Id>)
    requires Walk(n, parent, replies).ok
    ensures CountCreates(Walk(n, parent, replies).events) == Resources(n)
    ensures Walk(n, parent, replies).used == Resources(n)
  {
    var r := Walk(n, parent, replies);
    WalkSucceedsIff(n, parent, replies);
    WalkTraceIsPreOrder(n, parent, replies);
    PreOrderCreatesOncePerResource(r.value, parent);
    WalkKeepsTemplate(n, parent, replies);
    EraseKeepsResources(n);
    EraseKeepsResources(r.value);
  }

  lemma {:induction false} EraseKeepsResources(n: Node)
    ensures Resources(Erase(n)) == Resources(n)
    decreases n
  {
    match n
    case Project(_, _, children, _) => EraseKeepsResources(children);
    case Folder(_, _, children, _) => EraseKeepsResources(children);
    case List(items) => EraseAllKeepsResources(items);
  }

  lemma {:induction false} EraseAllKeepsResources(items: seq<Node>)
    ensures ResourcesOf(EraseAll(items)) == ResourcesOf(items)
    decreases items
  {
    if items != [] {
      var k := |items| - 1;
      EraseAllKeepsResources(items[..k]);
      EraseKeepsResources(items[k]);
      var all := EraseAll(items[..k]) + [Erase(items[k])];
      assert all[..|all| - 1] == EraseAll(items[..k]);
    }
  }

  // ---------------------------------------------------------------------
  // Aborting on a remote failure

  /** Every create call but a failing one consumes one reply, and a walk
      that aborts stops at the create call the platform could not answer:
      that call is the last one made, and no grant or child call follows
      it. */
  lemma {:induction false} WalkStopsAtFailingCreate(n: Node, parent: Option<Id>, replies: seq<Id>)
    ensures var r := Walk(n, parent, replies);
            CountCreates(r.events) == r.used + (if r.ok then 0 else 1)
    ensures var r := Walk(n, parent, replies);
            !r.ok ==> r.events != [] && r.events[|r.events| - 1].IsCreate() && r.used == |replies|
    decreases n
  {
    WalkSucceedsIff(n, parent, replies);
    match n
    case Project(name, acl, children, _) =>
      CountCreatesOne(CreateProject(name));
      if replies != [] {
        var sub := Walk(children, Some(replies[0]), replies[1..]);
        WalkStopsAtFailingCreate(children, Some(replies[0]), replies[1..]);
        CountCreatesOfStep(CreateProject(name), replies[0], acl, sub.events);
      }
    case Folder(name, acl, children, _) =>
      CountCreatesOne(CreateFolder(name, parent));
      if replies != [] {
        var sub := Walk(children, Some(replies[0]), replies[1..]);
        WalkStopsAtFailingCreate(children, Some(replies[0]), replies[1..]);
        CountCreatesOfStep(CreateFolder(name, parent), replies[0], acl, sub.events);
      }
    case List(items) =>
      WalkListStopsAtFailingCreate(items, parent, replies);
  }

  lemma {:induction false} WalkListStopsAtFailingCreate(items: seq<Node>, parent: Option<Id>, replies: seq<Id>)
    ensures var r := WalkList(items, parent, replies);
            CountCreates(r.events) == r.used + (if r.ok then 0 else 1)
    ensures var r := WalkList(items, parent, replies);
            !r.ok ==> r.events != [] && r.events[|r.events| - 1].IsCreate() && r.used == |replies|
    decreases items
  {
    WalkListSucceedsIff(items, parent, replies);
    if items != [] {
      var k := |items| - 1;
      var pre := WalkList(items[..k], parent, replies);
      WalkListStopsAtFailingCreate(items[..k], parent, replies);
      if pre.ok {
        var last := Walk(items[k], parent, replies[pre.used..]);
        WalkStopsAtFailingCreate(items[k], parent, replies[pre.used..]);
        CountCreatesAppend(pre.events, last.events);
      }
    }
  }

  lemma CountCreatesOne(e: Event)
    requires e.IsCreate()
    ensures CountCreates([e]) == 1
  {
    assert [e][..0] == [];
  }

  /** The create calls of one resource step: its own, none among its
      grants, then those of its children. */
  lemma CountCreatesOfStep(create: Event, id: Id, acl: seq<AclEntry>, rest: seq<Event>)
    requires create.IsCreate()
    ensures CountCreates([create] + Grants(id, acl) + rest) == 1 + CountCreates(rest)
  {
    CountCreatesOne(create);
    GrantsCreateNothing(id, acl);
    CountCreatesAppend([create], Grants(id, acl));
    CountCreatesAppend([create] + Grants(id, acl), rest);
  }

  /** A walk that the platform cuts short made exactly the first calls of
      the walk it would have made with more replies, and a walk that
      completed is not affected by replies left over. */
  lemma {:induction false} WalkIsPrefixOfLongerWalk(n: Node, parent: Option<Id>, replies: seq<Id>, more: seq<Id>)
    ensures Walk(n, parent, replies).events <= Walk(n, parent, replies + more).events
    ensures Walk(n, parent, replies).ok ==> Walk(n, parent, replies + more) == Walk(n, parent, replies)
    decreases n
  {
    match n
    case Project(_, _, children, _) =>
      if replies != [] {
        assert (replies + more)[1..] == replies[1..] + more;
        WalkIsPrefixOfLongerWalk(children, Some(replies[0]), replies[1..], more);
      }
    case Folder(_, _, children, _) =>
      if replies != [] {
        assert (replies + more)[1..] == replies[1..] + more;
        WalkIsPrefixOfLongerWalk(children, Some(replies[0]), replies[1..], more);
      }
    case List(items) =>
      WalkListIsPrefixOfLongerWalk(items, parent, replies, more);
  }

  lemma {:induction false} WalkListIsPrefixOfLongerWalk(items: seq<Node>, parent: Option<Id>, replies: seq<Id>, more: seq<Id>)
    ensures WalkList(items, parent, replies).events <= WalkList(items, parent, replies + more).events
    ensures WalkList(items, parent, replies).ok ==> WalkList(items, parent, replies + more) == WalkList(items, parent, replies)
    decreases items
  {
    if items != [] {
      var k := |items| - 1;
      WalkListIsPrefixOfLongerWalk(items[..k], parent, replies, more);
      var pre := WalkList(items[..k], parent, replies);
      var pre' := WalkList(items[..k], parent, replies + more);
      if pre.ok {
        assert (replies + more)[pre.used..] == replies[pre.used..] + more;
        WalkIsPrefixOfLongerWalk(items[k], parent, replies[pre.used..], more);
      } else {
        assert pre'.events <= WalkList(items, parent, replies + more).events;
      }
    }
  }

  // ---------------------------------------------------------------------
  // Single steps

  /** The parent a Project node is walked under makes no difference. */
  lemma ProjectIgnoresParent(name: string, acl: seq<AclEntry>, children: Node, id: Option<Id>,
                             parent: Option<Id>, other: Option<Id>, replies: seq<Id>)
    ensures Walk(Project(name, acl, children, id), parent, replies)
         == Walk(Project(name, acl, children, id), other, replies)
  {
  }

  /** A template with a Project "P" holding a Folder "F": two create calls,
      the Folder's under the Project's id. */
  lemma ProjectWithFolder(p: Id, f: Id)
    ensures var t := List([Project("P", [], List([Folder("F", [], List([]), None)]), None)]);
            var r := Walk(t, None, [p, f]);
            r.ok && r.events == [CreateProject("P"), CreateFolder("F", Some(p))]
  {
    var folder := Folder("F", [], List([]), None);
    var project := Project("P", [], List([folder]), None);
    var folderDone := Folder("F", [], List([]), Some(f));
    var projectDone := Project("P", [], List([folderDone]), Some(p));
    assert Walk(List([]), Some(f), []) == Run(List([]), [], 0, true);
    assert Walk(folder, Some(p), [f]) == Run(folderDone, [CreateFolder("F", Some(p))], 1, true);
    assert [folder][..0] == [] && [f][0..] == [f];
    assert WalkList([folder], Some(p), [f]) == Run([] + [folderDone], [] + [CreateFolder("F", Some(p))], 0 + 1, true);
    assert [] + [folderDone] == [folderDone] && [] + [CreateFolder("F", Some(p))] == [CreateFolder("F", Some(p))];
    assert Walk(List([folder]), Some(p), [f]) == Run(List([folderDone]), [CreateFolder("F", Some(p))], 1, true);
    assert [p, f][1..] == [f] && Grants(p, []) == [];
    assert Walk(project, None, [p, f]) == Run(projectDone, [CreateProject("P"), CreateFolder("F", Some(p))], 2, true);
    assert [project][..0] == [] && [p, f][0..] == [p, f];
    assert WalkList([project], None, [p, f]) == Run([] + [projectDone], [] + [CreateProject("P"), CreateFolder("F", Some(p))], 0 + 2, true);
    assert [] + [CreateProject("P"), CreateFolder("F", Some(p))] == [CreateProject("P"), CreateFolder("F", Some(p))];
  }
}
