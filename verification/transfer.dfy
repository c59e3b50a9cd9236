/** The `/transfer` command: hands a ticket to a new owner and rebuilds the
    channel's overwrites from its category. */
module Transfer {
  import opened Platform
  import opened TicketStore

  /** The roles that may transfer a ticket (besides Administrator). */
  const AllowedRoles: set<RoleId> := {
    "1403777886661644398",
    "1403777609522745485",
    "1403777335416848537",
    "1403777452517494784",
    "1403777162460397649",
    "1423280211239243826"
  }

  /** What a ticket owner is granted on their channel. */
  const OwnerGrant: set<Perm> := {ViewChannel, SendMessages, AttachFiles}

  predicate CanTransfer(a: Actor) {
    a.administrator || HasAnyRole(a, AllowedRoles)
  }

  /** The overwrite rebuild: replace the channel's list by the category's,
      grant the new owner, then drop the old owner's entry. When the owners
      differ, the new owner ends with its category entry merged with the
      grant, the old owner with no entry, and every other identity with
      exactly its category entry. */
  function ResyncOverwrites(category: Overwrites, newOwner: UserId, oldOwner: UserId): (r: Overwrites)
    requires newOwner != oldOwner
    ensures Grants(r, newOwner, OwnerGrant)
    ensures r[newOwner] == GrantedEntry(category, newOwner, OwnerGrant)
    ensures oldOwner !in r
    ensures r.Keys == category.Keys + {newOwner} - {oldOwner}
    ensures forall k :: k != newOwner && k != oldOwner ==> (k in r <==> k in category)
    ensures forall k :: k in r && k != newOwner ==> r[k] == category[k]
  {
    DeleteOverwrite(EditOverwrite(category, newOwner, OwnerGrant), oldOwner)
  }

  /** Applying the rebuild a second time changes nothing. */
  lemma ResyncIdempotent(category: Overwrites, newOwner: UserId, oldOwner: UserId)
    requires newOwner != oldOwner
    ensures var once := ResyncOverwrites(category, newOwner, oldOwner);
            ResyncOverwrites(once, newOwner, oldOwner) == once
  {
    var once := ResyncOverwrites(category, newOwner, oldOwner);
    var twice := ResyncOverwrites(once, newOwner, oldOwner);
    assert twice.Keys == once.Keys;
    assert twice[newOwner] == once[newOwner];
  }

  /** `execute`: the permission check, the document read, then the guards
      in order (a ticket channel, a member of the guild, not already the owner),
      the write of the new owner, and, when the parent category is in the
      cache, the overwrite rebuild. Only a write that throws is noticed; one
      the service rejects with an error status still leads to the rebuild and
      the success reply. The direct messages are best-effort and
      have no effect here. */
  function TransferTicket(w: World, io: Io, actor: Actor, newOwner: UserId): (r: Step)
    ensures !CanTransfer(actor) ==> r == Step(NoPermission, w)
    ensures CanTransfer(actor) && io.fetch.FetchFailed? ==> r == Step(LoadFailed, w)
    ensures CanTransfer(actor) && !io.fetch.FetchFailed? && w.channel.id !in Snapshot(w.store, io.fetch) ==>
              r == Step(NotATicket, w)
    ensures CanTransfer(actor) && io.fetch.Fetched? && w.channel.id in w.store && !IsMember(w.guild, newOwner) ==>
              r == Step(NotInServer, w)
    ensures CanTransfer(actor) && io.fetch.Fetched? && w.channel.id in w.store && IsMember(w.guild, newOwner)
            && newOwner == w.store[w.channel.id].ownerId ==>
              r == Step(AlreadyOwner, w)
    ensures r.reply.Transferred? <==>
              && CanTransfer(actor) && io.fetch.Fetched? && w.channel.id in w.store
              && IsMember(w.guild, newOwner) && newOwner != w.store[w.channel.id].ownerId
              && !io.save.SaveThrew?
    // a write that throws is reported and changes nothing
    ensures CanTransfer(actor) && io.fetch.Fetched? && w.channel.id in w.store && IsMember(w.guild, newOwner)
            && newOwner != w.store[w.channel.id].ownerId && io.save.SaveThrew? ==>
              r == Step(SaveFailed, w)
    ensures r.reply.Transferred? ==> r.reply.newOwner == newOwner
    // a stored write changes only this record's owner
    ensures r.reply.Transferred? && io.save.Saved? ==>
              && r.world.store.Keys == w.store.Keys
              && r.world.store[w.channel.id] == w.store[w.channel.id].(ownerId := newOwner)
              && (forall k :: k in w.store && k != w.channel.id ==> r.world.store[k] == w.store[k])
    // the overwrites are rebuilt exactly when the parent category is known
    ensures r.reply.Transferred? ==>
              var oldOwner := w.store[w.channel.id].ownerId;
              match ParentOverwrites(w.guild, w.channel)
              case None => r.world.channel == w.channel
              case Some(cat) =>
                && r.world.channel == w.channel.(overwrites := r.world.channel.overwrites)
                && Grants(r.world.channel.overwrites, newOwner, OwnerGrant)
                && r.world.channel.overwrites[newOwner] == GrantedEntry(cat, newOwner, OwnerGrant)
                && oldOwner !in r.world.channel.overwrites
                && (forall k :: k != newOwner && k != oldOwner ==>
                      (k in r.world.channel.overwrites <==> k in cat))
                && (forall k :: k in r.world.channel.overwrites && k != newOwner ==>
                      r.world.channel.overwrites[k] == cat[k])
    // a rejected write goes unnoticed: the reply and the rebuild happen, the document keeps the old owner
    ensures !(r.reply.Transferred? && io.save.Saved?) ==> r.world.store == w.store
    ensures !r.reply.Transferred? ==> r.world == w
    ensures r.world.guild == w.guild && r.world.archive == w.archive
  {
    if !CanTransfer(actor) then Step(NoPermission, w)
    else if io.fetch.FetchFailed? then Step(LoadFailed, w)
    else
      var tickets := Snapshot(w.store, io.fetch);
      var id := w.channel.id;
      if id !in tickets then Step(NotATicket, w)
      else if !IsMember(w.guild, newOwner) then Step(NotInServer, w)
      else if newOwner == tickets[id].ownerId then Step(AlreadyOwner, w)
      else
        var oldOwner := tickets[id].ownerId;
        var updated := tickets[id := tickets[id].(ownerId := newOwner)];
        if io.save.SaveThrew? then Step(SaveFailed, w)
        else
          var channel :=
            match ParentOverwrites(w.guild, w.channel)
            case None => w.channel
            case Some(cat) => w.channel.(overwrites := ResyncOverwrites(cat, newOwner, oldOwner));
          var stored := if io.save.Saved? then updated else w.store;
          Step(Transferred(newOwner), w.(store := stored, channel := channel))
  }

  /** A transfer to the current owner is refused, whatever else holds, and the
      owner stays the same. */
  lemma TransferToOwnerRefused(w: World, io: Io, actor: Actor)
    requires w.channel.id in w.store
    ensures var r := TransferTicket(w, io, actor, w.store[w.channel.id].ownerId);
            !r.reply.Transferred? && r.world.store == w.store
  {
  }

  /** Transferring A to B and then B back to A restores the document. */
  lemma TransferBackRestoresStore(w: World, io: Io, actor: Actor, newOwner: UserId)
    requires io.fetch.Fetched? && io.save.Saved? && CanTransfer(actor)
    requires w.channel.id in w.store
    requires IsMember(w.guild, newOwner) && IsMember(w.guild, w.store[w.channel.id].ownerId)
    requires newOwner != w.store[w.channel.id].ownerId
    ensures var r1 := TransferTicket(w, io, actor, newOwner);
            var r2 := TransferTicket(r1.world, io, actor, w.store[w.channel.id].ownerId);
            r2.reply.Transferred? && r2.world.store == w.store
  {
    var r1 := TransferTicket(w, io, actor, newOwner);
    var r2 := TransferTicket(r1.world, io, actor, w.store[w.channel.id].ownerId);
    assert r2.world.store.Keys == w.store.Keys;
  }
}
