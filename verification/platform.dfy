/** The chat-platform objects the handlers read and edit: permission overwrites,
    members, channels and the guild around them. Only the parts that influence a
    handler's decision or its effect are kept. */
module Platform {

  type UserId = string
  type RoleId = string
  type ChannelId = string

  datatype Option<T> = None | Some(value: T)

  /** Channel permission flags; the four named ones are those the handlers set,
      any other flag copied from a category is kept by name. */
  datatype Perm =
    | ViewChannel
    | SendMessages
    | AttachFiles
    | ReadMessageHistory
    | OtherPerm(name: string)

  /** One overwrite entry: the flags explicitly allowed and explicitly denied. */
  datatype Overwrite = Overwrite(allow: set<Perm>, deny: set<Perm>)

  /** A channel's overwrite list, keyed by the user or role it applies to. */
  type Overwrites = map<string, Overwrite>

  /** The entry an identity gets when a grant is layered on top of `ow`. */
  predicate Grants(ow: Overwrites, id: string, perms: set<Perm>) {
    id in ow && perms <= ow[id].allow && ow[id].deny * perms == {}
  }

  /** The entry `id` holds once `perms` are granted on top of its entry in
      `ow`: the flags join the allow set and leave the deny set, and an
      identity without an entry gets one allowing exactly `perms`. */
  function GrantedEntry(ow: Overwrites, id: string, perms: set<Perm>): Overwrite {
    if id in ow then Overwrite(ow[id].allow + perms, ow[id].deny - perms) else Overwrite(perms, {})
  }

  /** `permissionOverwrites.edit(id, {P: true, ...})`: the flags are added to the
      entry's allow set and removed from its deny set; an identity without an
      entry gets a fresh one. Every other entry is kept. */
  function EditOverwrite(ow: Overwrites, id: string, perms: set<Perm>): (r: Overwrites)
    ensures r.Keys == ow.Keys + {id}
    ensures Grants(r, id, perms)
    ensures id in ow ==> r[id].allow == ow[id].allow + perms && r[id].deny == ow[id].deny - perms
    ensures id !in ow ==> r[id] == Overwrite(perms, {})
    ensures r[id] == GrantedEntry(ow, id, perms)
    ensures forall k :: k in ow && k != id ==> r[k] == ow[k]
  {
    var existing := if id in ow then ow[id] else Overwrite({}, {});
    ow[id := Overwrite(existing.allow + perms, existing.deny - perms)]
  }

  /** `permissionOverwrites.delete(id)` with its rejection swallowed: removing an
      absent entry changes nothing. */
  function DeleteOverwrite(ow: Overwrites, id: string): (r: Overwrites)
    ensures r.Keys == ow.Keys - {id}
    ensures forall k :: k in r ==> r[k] == ow[k]
    ensures id !in ow ==> r == ow
  {
    ow - {id}
  }

  /** Granting the same flags twice is the same as granting them once. */
  lemma EditIdempotent(ow: Overwrites, id: string, perms: set<Perm>)
    ensures EditOverwrite(EditOverwrite(ow, id, perms), id, perms) == EditOverwrite(ow, id, perms)
  {
    var once := EditOverwrite(ow, id, perms);
    var twice := EditOverwrite(once, id, perms);
    assert twice.Keys == once.Keys;
    assert twice[id] == once[id];
  }

  /** Deleting an entry undoes any edit of it: the result is as if the edit
      had never happened. */
  lemma DeleteUndoesEdit(ow: Overwrites, id: string, perms: set<Perm>)
    ensures DeleteOverwrite(EditOverwrite(ow, id, perms), id) == DeleteOverwrite(ow, id)
  {
  }

  /** The member invoking a command: the ids of their roles and the two
      permission flags the handlers consult. */
  datatype Actor = Actor(id: UserId, roles: set<RoleId>, administrator: bool, manageChannels: bool)

  /** `roles.cache.some(r => list.includes(r.id))`. */
  predicate HasAnyRole(a: Actor, list: set<RoleId>) {
    a.roles * list != {}
  }

  /** `permissions.has(ManageChannels)`: the platform's check also answers yes
      for an Administrator. */
  predicate HasManageChannels(a: Actor) {
    a.administrator || a.manageChannels
  }

  datatype Member = Member(id: UserId, tag: string, bot: bool)

  /** A fetched message: the author's tag and the text, absent for messages
      that only carry embeds or attachments. */
  datatype Message = Message(authorTag: string, content: Option<string>)

  /** A ticket channel: its name, its parent category's id if any, its own
      overwrites and its message history, oldest first. */
  datatype Channel = Channel(
    id: ChannelId,
    name: string,
    parentId: Option<ChannelId>,
    overwrites: Overwrites,
    history: seq<Message>)

  /** The guild: its members in the order the platform lists them, and the
      overwrite lists of the categories in its channel cache. */
  datatype Guild = Guild(members: seq<Member>, categories: map<ChannelId, Overwrites>)

  predicate IsMember(g: Guild, id: UserId) {
    exists i :: 0 <= i < |g.members| && g.members[i].id == id
  }

  /** `Guild.channels.cache.get(Channel.parentId)`, as an overwrite list. */
  function ParentOverwrites(g: Guild, c: Channel): (r: Option<Overwrites>)
    ensures r.Some? <==> c.parentId.Some? && c.parentId.value in g.categories
    ensures r.Some? ==> r.value == g.categories[c.parentId.value]
  {
    match c.parentId
    case None => None
    case Some(p) => if p in g.categories then Some(g.categories[p]) else None
  }
}
