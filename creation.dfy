/** The remote side of the walk: the `SynapseCreation` object the walker
    calls, together with the `setPermissions` call of its Synapse session.
    How the platform decides whether to create or to fetch an entity is
    not modelled; the object is an oracle that hands out, in order, the
    ids in `replies`, and records every call it receives in `trace`.
    A create call that finds `replies` exhausted is a failing remote call:
    it is recorded, returns no id, and the caller aborts. */
module Creation {
  import opened Template

  /** One remote call, as issued by the walker. */
  datatype Event =
    | CreateProject(name: string)
    | CreateFolder(name: string, parentId: Option<Id>)
    | Grant(entityId: Id, principalId: string, accessType: string)
  {
    predicate IsCreate() {
      CreateProject? || CreateFolder?
    }
  }

  class SynapseCreation {
    /** The ids the platform returns to the coming create calls, in order. */
    var replies: seq<Id>
    /** Every remote call made so far, oldest first. */
    var trace: seq<Event>

    constructor (replies: seq<Id>)
      ensures this.replies == replies && trace == []
    {
      this.replies := replies;
      trace := [];
    }

    /** `get_or_create_project(name=...)`: one call, no parent. */
    method GetOrCreateProject(name: string) returns (id: Option<Id>)
      modifies this
      ensures trace == old(trace) + [CreateProject(name)]
      ensures old(replies) == [] ==> id == None && replies == []
      ensures old(replies) != [] ==> id == Some(old(replies)[0]) && replies == old(replies)[1..]
    {
      trace := trace + [CreateProject(name)];
      if replies == [] {
        id := None;
      } else {
        id := Some(replies[0]);
        replies := replies[1..];
      }
    }

    /** `get_or_create_folder(name=..., parentId=...)`: one call under the
        given parent (which may be None at the top of a template). */
    method GetOrCreateFolder(name: string, parentId: Option<Id>) returns (id: Option<Id>)
      modifies this
      ensures trace == old(trace) + [CreateFolder(name, parentId)]
      ensures old(replies) == [] ==> id == None && replies == []
      ensures old(replies) != [] ==> id == Some(old(replies)[0]) && replies == old(replies)[1..]
    {
      trace := trace + [CreateFolder(name, parentId)];
      if replies == [] {
        id := None;
      } else {
        id := Some(replies[0]);
        replies := replies[1..];
      }
    }

    /** `setPermissions(entity, principalId, accessType)` on the session. */
    method SetPermissions(entityId: Id, principalId: string, accessType: string)
      modifies this
      ensures trace == old(trace) + [Grant(entityId, principalId, accessType)]
      ensures replies == old(replies)
    {
      trace := trace + [Grant(entityId, principalId, accessType)];
    }
  }
}
