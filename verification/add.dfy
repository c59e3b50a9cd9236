/** The `/add` command: grants a user access to the ticket channel. */
module Add {
  import opened Platform
  import opened Text
  import opened TicketStore

  /** The roles that may add a user; there is no Administrator or owner path. */
  const AllowedRoles: set<RoleId> := {
    "1403777162460397649",
    "1235182843487981669",
    "1423280211239243826",
    "1402693639486046278"
  }

  /** What an added user is allowed on the channel. */
  const AddGrant: set<Perm> := {ViewChannel, SendMessages, AttachFiles, ReadMessageHistory}

  /** `execute`: read the document (a failure throws before any check), require
      a ticket-named channel and one of the allowed roles, then grant the target
      the four flags on top of any entry they already have. The document is
      never written. */
  function AddUser(w: World, io: Io, actor: Actor, target: UserId): (r: Step)
    ensures io.fetch.FetchFailed? ==> r == Step(Aborted, w)
    ensures !io.fetch.FetchFailed? && !StartsWith(w.channel.name, TicketPrefix) ==> r == Step(NotTicketChannel, w)
    ensures !io.fetch.FetchFailed? && StartsWith(w.channel.name, TicketPrefix) && !HasAnyRole(actor, AllowedRoles) ==>
              r == Step(NoPermission, w)
    ensures r.reply.Added? <==>
              !io.fetch.FetchFailed? && StartsWith(w.channel.name, TicketPrefix) && HasAnyRole(actor, AllowedRoles)
    ensures r.reply.Added? ==>
              && r.reply.user == target
              && r.world.channel == w.channel.(overwrites := r.world.channel.overwrites)
              && Grants(r.world.channel.overwrites, target, AddGrant)
              && r.world.channel.overwrites[target] == GrantedEntry(w.channel.overwrites, target, AddGrant)
              && r.world.channel.overwrites.Keys == w.channel.overwrites.Keys + {target}
              && (forall k :: k in w.channel.overwrites && k != target ==>
                    r.world.channel.overwrites[k] == w.channel.overwrites[k])
    ensures !r.reply.Added? ==> r.world == w
    ensures r.world.store == w.store && r.world.guild == w.guild && r.world.archive == w.archive
    ensures r.reply in {Aborted, NotTicketChannel, NoPermission, Added(target)}
  {
    if io.fetch.FetchFailed? then Step(Aborted, w)
    else if !StartsWith(w.channel.name, TicketPrefix) then Step(NotTicketChannel, w)
    else if !HasAnyRole(actor, AllowedRoles) then Step(NoPermission, w)
    else
      var channel := w.channel.(overwrites := EditOverwrite(w.channel.overwrites, target, AddGrant));
      Step(Added(target), w.(channel := channel))
  }
}
