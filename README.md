# Synapse Formation template walk, in Dafny

Synapse Formation reads a template that describes a project's resources on
the Synapse platform and creates them. It handles Projects, Folders, their
access-control entries and their child resources. The template is a tree.
A node is either a `Project` or `Folder` mapping with a `name`, an optional
`acl` list and optional `children`, or a plain list of sibling nodes.
`_create_synapse_resources` walks this tree:

- For a Project node it asks the platform to get or create the project.
- For a Folder node it asks the platform to get or create the folder under
  the current parent id.
- It writes the returned entity id into the node as `id`.
- It grants each ACL entry on that entity, in order (`_add_acl`).
- It then walks the node's `children` with the new id as their parent.
- A list node walks its items left to right under the same parent.
- `create_synapse_resources` walks each top-level resource with no parent.

The model has four modules:

- `Template` (template.dfy): the template tree `Node`. Each Project and
  Folder has an `id` slot for the walk to fill. The module also defines
  the number of resource nodes, the ids present in a tree in pre-order
  (`SetIds`; `Ids` for a fully annotated tree), and the tree with its ids
  erased.
- `Creation` (creation.dfy): the remote side, as the class
  `SynapseCreation`. It hands out entity ids from the list `replies`, in
  order, and records every call it receives in `trace` as an `Event`:
  `CreateProject(name)`, `CreateFolder(name, parentId)` or
  `Grant(entityId, principalId, accessType)`. A create call that finds no
  reply left is a failing remote call. The walk aborts there, as the
  Python walk does when the call raises.
- `Client` (client.dfy): the walk.
  - The functions `Walk` and `WalkList` say which calls the walk makes,
    which annotated tree it leaves and how many replies it uses.
  - The methods `AddAcl`, `CreateResources`, `CreateEach` and
    `CreateSynapseResources` are the walk's loops and recursion, driving a
    `SynapseCreation` object.
  - Each method is proved to produce exactly the trace, tree and remaining
    replies its specification function gives.
- `ClientProperties` (client_properties.dfy): what the walk guarantees. A
  completed walk's trace is the pre-order listing `PreOrder` of the tree
  it annotated. That listing is read off the tree alone: the create call,
  then the grants, then the children, with each Folder created under its
  enclosing node's id. The module also proves:
  - the walk completes exactly when the platform answers every create call;
  - an aborted walk's last call is the create call that failed;
  - for a template that carries no ids yet, the ids the walk writes into
    the tree are the replies it used, in order, whether it completes or
    aborts;
  - the walk changes nothing but `id` slots;
  - there is one create call per resource node;
  - a walk cut short made exactly the first calls of the full walk.

The tree is modelled as a value. The walk returns the annotated copy
instead of writing into the caller's dictionaries. When the walk aborts,
the copy is annotated up to the point of failure, as the Python tree is
after the exception: its ids are exactly the replies used before the
failing call (`ClientProperties.WalkRecordsReplies`).

Two behaviours of the code are easy to misread; the model follows the code:

- Bare strings are not Folders. Anything that is not a Project or Folder
  mapping goes to the `else` branch and is iterated
  (synapseformation/client.py:67-72). A string is iterated character by
  character, and each character is a one-character string that iterates to
  itself. So any non-empty string recurses until Python raises
  `RecursionError`, which aborts the walk after the calls already made. The
  empty string is skipped. The shorthand that turns a string into a Folder
  exists only in the commented-out `expand_config`
  (synapseformation/client.py:9-39).
- Other values do not simply fall through. A mapping whose `type` is
  missing or is neither "Project" nor "Folder" is iterated over its keys,
  each walked as above: a non-empty mapping with string keys ends in
  `RecursionError`, and an empty one is skipped. Numbers, booleans and null
  raise `TypeError` at the `for` loop (synapseformation/client.py:69). So
  does an `acl:` or `children:` key with an empty YAML value
  (synapseformation/client.py:44, 69). That error comes after the node's
  create call and id write.

## Model

| member | source | states |
|---|---|---|
| `Client.AddAcl` | synapseformation/client.py:42-46 | the calls made are exactly `Grants(entityId, acl)` appended to the trace, and no reply is consumed |
| `Client.Grants` | synapseformation/client.py:44-46 | the grants for an ACL list number one per entry, and every one is on the given entity |
| `ClientProperties.GrantsFollowAcl` | synapseformation/client.py:44-46 | there is one grant per ACL entry, in declared order, each on the same entity with that entry's principal and access type |
| `Creation.SynapseCreation.GetOrCreateProject` | synapseformation/client.py:60-61 | records one `CreateProject(name)` call with no parent, and returns the next reply (consuming it), or no id when the platform fails |
| `Creation.SynapseCreation.GetOrCreateFolder` | synapseformation/client.py:62-66 | records one `CreateFolder(name, parentId)` call under the given parent, and returns the next reply (consuming it), or no id when the platform fails |
| `Creation.SynapseCreation.SetPermissions` | synapseformation/client.py:45-46 | records one `Grant(entityId, principalId, accessType)` call and consumes no reply |
| `Client.Walk` | synapseformation/client.py:59-83 | a walk consumes at most the replies it is given, and a Project or Folder node's first call is its own create call (a Project's with no parent, a Folder's under `parent`); its further properties are the `ClientProperties` lemmas below |
| `Client.WalkList` | synapseformation/client.py:67-72 | the walk of a sibling list returns one node per item and consumes at most the replies it is given; its order and abort behaviour are stated by `Client.WalkListAbort` and the `ClientProperties` lemmas |
| `Client.CreateResources` | synapseformation/client.py:49-83 | the returned tree, the ok flag, the calls appended to the trace and the replies left are exactly those of `Walk(config, parentId, replies)` |
| `Client.CreateEach` | synapseformation/client.py:67-72 | the loop over sibling nodes under one parent gives exactly `WalkList(items, parentId, replies)`, stopping at the first failure |
| `Client.CreateSynapseResources` | synapseformation/client.py:98-99 | the top-level loop walks every resource of the template with no parent, giving exactly `WalkList(config, None, replies)` |
| `Client.WalkListAbort` | synapseformation/client.py:69-72 | once a sibling's walk fails, the later siblings make no calls and are returned unchanged |
| `ClientProperties.WalkSucceedsIff` | synapseformation/client.py:59-83 | the walk completes if and only if there is a reply for every Project and Folder node; it uses one reply per resource node when it completes, and all the replies when it does not |
| `ClientProperties.WalkStopsAtFailingCreate` | synapseformation/client.py:59-83 | every create call but a failing one consumes one reply; an aborted walk has used every reply, and its last call is the create call that failed, with no grant or child call after it |
| `ClientProperties.WalkAnnotates` | synapseformation/client.py:73-75 | after a completed walk, every Project and Folder node carries an id |
| `ClientProperties.WalkTraceIsPreOrder` | synapseformation/client.py:59-83 | a completed walk's calls are the pre-order listing of the annotated tree: create call, then grants, then all descendants' calls, siblings in declared order, each Folder created under its enclosing node's injected id (the walk's parent at the top) |
| `ClientProperties.WalkInjectsReplies` | synapseformation/client.py:73-75 | after a completed walk, the ids of the annotated tree, read in pre-order, are the platform's replies in the order given; a resource root holds the id returned by its own create call |
| `ClientProperties.WalkRecordsReplies` | synapseformation/client.py:73-75 | on every outcome, aborted walks included, the ids the walk leaves in a template that had none, read in pre-order, are exactly the replies it used, in the order given |
| `ClientProperties.WalkKeepsTemplate` | synapseformation/client.py:73-83 | the walk changes only `id` slots, also when it aborts |
| `ClientProperties.PreOrderCreatesOncePerResource` | synapseformation/client.py:60-66 | the pre-order listing of a tree holds exactly one create call per Project or Folder node |
| `ClientProperties.WalkCreatesOncePerResource` | synapseformation/client.py:59-83 | a completed walk makes exactly one create call per Project or Folder node, and consumes exactly that many replies |
| `ClientProperties.WalkIsPrefixOfLongerWalk` | synapseformation/client.py:59-83 | a walk cut short by a failing remote call made exactly the first calls of the walk with more replies; a completed walk does not depend on leftover replies |
| `ClientProperties.ProjectIgnoresParent` | synapseformation/client.py:60-61 | walking a Project node gives the same result under any parent |
| `ClientProperties.ProjectWithFolder` | synapseformation/client.py:59-83 | a Project "P" holding a Folder "F" gives exactly two create calls, and the Folder is created under the Project's id |

## Left out

- Login, reading the YAML or JSON template, and the `print` calls
  (synapseformation/client.py:63, 86-100) are I/O. The model starts from
  the parsed template and a `SynapseCreation` object.
- The get-or-create policy is not modelled. It decides between creating and
  fetching, handles `only_create` and raises on conflicts, and lives in
  synapseformation/create.py, which is not part of this model. The platform
  is an oracle that returns any sequence of ids, duplicates included. A
  failing call, for any reason, is a create call with no reply left.
- A `get_or_create_project` or `get_or_create_folder` call that returns
  `None` instead of raising is not modelled. On such a return the Python
  walk skips that node's `id` write, its grants and its children, and goes
  on with the next sibling (synapseformation/client.py:73). The model's
  creation object always either returns an id or fails, and a failure
  aborts the walk.
- Creation.SynapseCreation.SetPermissions: always succeeds. A failing
  `setPermissions` call on the platform, which would abort the walk, is
  not modelled.
- The no-op `config.get('acl', [])` at synapseformation/client.py:77 has no
  effect and is not modelled.
- In-place mutation is modelled as a returned annotated copy. Aliasing is
  therefore not captured: a mapping shared between two places of the
  template (a YAML anchor) would have its `id` overwritten by the later
  visit. In the model, each occurrence keeps its own id. Also, the order
  of the `id` write and the grants cannot be observed in the model.
- Templates with values the datatype cannot express are left out. These
  are strings, mappings without a "Project" or "Folder" `type`, numbers,
  booleans, null, and empty `acl:` or `children:` values. On them the
  Python walk raises `RecursionError` or `TypeError`, or skips an empty
  string or mapping (see above). The model does not capture the calls made
  before such an error, or the skip. The commented-out `expand_config`
  (synapseformation/client.py:9-39) is dead code and is not modelled.
- Missing `name`, `principal_id` or `access_type` keys raise `KeyError` in
  the Python code. In the model, these fields always exist.
- The `entity` object passed to `setPermissions` is represented by its id.
