/** The `/remove` command and its member autocompletion. */
module Remove {
  import opened Platform
  import opened Text
  import opened TicketStore

  /** The most suggestions the platform accepts in one autocompletion reply. */
  const MaxChoices: nat := 25

  /** The actor may remove someone when they can manage channels or own this
      channel's ticket record. */
  predicate CanRemove(a: Actor, tickets: Store, id: ChannelId) {
    HasManageChannels(a) || (id in tickets && tickets[id].ownerId == a.id)
  }

  /** `execute`: read the document (a failure throws before any check), require
      a ticket-named channel, require staff or the owner, then delete the
      target's overwrite. The document is never written. */
  function RemoveUser(w: World, io: Io, actor: Actor, target: UserId): (r: Step)
    ensures io.fetch.FetchFailed? ==> r == Step(Aborted, w)
    ensures !io.fetch.FetchFailed? && !StartsWith(w.channel.name, TicketPrefix) ==> r == Step(NotTicketChannel, w)
    ensures !io.fetch.FetchFailed? && StartsWith(w.channel.name, TicketPrefix)
            && !CanRemove(actor, Snapshot(w.store, io.fetch), w.channel.id) ==>
              r == Step(StaffOrOwnerOnly, w)
    ensures r.reply.Removed? <==>
              && !io.fetch.FetchFailed? && StartsWith(w.channel.name, TicketPrefix)
              && (HasManageChannels(actor)
                  || (io.fetch.Fetched? && w.channel.id in w.store
                      && w.store[w.channel.id].ownerId == actor.id))
    ensures r.reply.Removed? ==>
              && r.reply.user == target
              && r.world.channel == w.channel.(overwrites := r.world.channel.overwrites)
              && r.world.channel.overwrites.Keys == w.channel.overwrites.Keys - {target}
              && (forall k :: k in r.world.channel.overwrites ==>
                    r.world.channel.overwrites[k] == w.channel.overwrites[k])
    ensures !r.reply.Removed? ==> r.world == w
    ensures r.world.store == w.store && r.world.guild == w.guild && r.world.archive == w.archive
    ensures r.reply in {Aborted, NotTicketChannel, StaffOrOwnerOnly, Removed(target)}
  {
    if io.fetch.FetchFailed? then Step(Aborted, w)
    else
      var tickets := Snapshot(w.store, io.fetch);
      if !StartsWith(w.channel.name, TicketPrefix) then Step(NotTicketChannel, w)
      else if !CanRemove(actor, tickets, w.channel.id) then Step(StaffOrOwnerOnly, w)
      else
        var channel := w.channel.(overwrites := DeleteOverwrite(w.channel.overwrites, target));
        Step(Removed(target), w.(channel := channel))
  }

  /** Removing someone without an overwrite entry succeeds and changes nothing. */
  lemma RemoveAbsentIsNoOp(w: World, io: Io, actor: Actor, target: UserId)
    requires target !in w.channel.overwrites
    ensures RemoveUser(w, io, actor, target).world == w
  {
  }

  /** One autocompletion suggestion: the member's tag shown, their id sent. */
  datatype Choice = Choice(name: string, value: UserId)

  /** A member is suggested when they have an overwrite in the channel, are not
      a bot, and their tag contains the typed text, ignoring case. */
  predicate Suggestible(overwrites: Overwrites, m: Member, focused: string) {
    m.id in overwrites && !m.bot && Contains(ToLower(m.tag), ToLower(focused))
  }

  /** The suggestible members, in the guild's order. */
  function Candidates(overwrites: Overwrites, members: seq<Member>, focused: string): (r: seq<Member>)
    ensures |r| <= |members|
    ensures forall i :: 0 <= i < |r| ==> Suggestible(overwrites, r[i], focused)
    ensures forall i :: 0 <= i < |members| && Suggestible(overwrites, members[i], focused) ==>
              members[i] in r
    ensures forall m :: m in r ==> m in members
  {
    if members == [] then []
    else
      var rest := Candidates(overwrites, members[1..], focused);
      assert forall i :: 1 <= i < |members| ==> members[i] == members[1..][i - 1];
      if Suggestible(overwrites, members[0], focused) then [members[0]] + rest else rest
  }

  /** A single member is a candidate exactly when it is suggestible. */
  lemma CandidatesOfOne(overwrites: Overwrites, m: Member, focused: string)
    ensures Candidates(overwrites, [m], focused) == if Suggestible(overwrites, m, focused) then [m] else []
  {
  }

  /** Filtering keeps the guild's order: the candidates of two member lists
      joined are the candidates of the first followed by those of the second. */
  lemma {:induction false} CandidatesAppend(overwrites: Overwrites, xs: seq<Member>, ys: seq<Member>, focused: string)
    ensures Candidates(overwrites, xs + ys, focused)
         == Candidates(overwrites, xs, focused) + Candidates(overwrites, ys, focused)
    decreases |xs|
  {
    if xs == [] {
      assert xs + ys == ys;
    } else {
      assert (xs + ys)[0] == xs[0];
      assert (xs + ys)[1..] == xs[1..] + ys;
      CandidatesAppend(overwrites, xs[1..], ys, focused);
    }
  }

  /** `autocomplete`: no reply at all outside a ticket-named channel; otherwise
      the first 25 candidates, each as its tag and id. */
  function Autocomplete(channel: Channel, members: seq<Member>, focused: string): (r: Option<seq<Choice>>)
    ensures r.None? <==> !StartsWith(channel.name, TicketPrefix)
    ensures r.Some? ==>
              var cands := Candidates(channel.overwrites, members, focused);
              && |r.value| == (if |cands| < MaxChoices then |cands| else MaxChoices)
              && (forall i :: 0 <= i < |r.value| ==> r.value[i] == Choice(cands[i].tag, cands[i].id))
  {
    if !StartsWith(channel.name, TicketPrefix) then None
    else
      var cands := Candidates(channel.overwrites, members, focused);
      var choices := seq(|cands|, i requires 0 <= i < |cands| => Choice(cands[i].tag, cands[i].id));
      Some(if |choices| <= MaxChoices then choices else choices[..MaxChoices])
  }

  /** The choice stands for a suggestible guild member. */
  ghost predicate NamesCandidate(overwrites: Overwrites, members: seq<Member>, focused: string, c: Choice) {
    exists m :: m in members && Suggestible(overwrites, m, focused) && c == Choice(m.tag, m.id)
  }

  /** Every suggestion names a suggestible guild member, and when at most 25
      members qualify every one of them is suggested. */
  lemma AutocompleteSound(channel: Channel, members: seq<Member>, focused: string)
    requires StartsWith(channel.name, TicketPrefix)
    ensures var r := Autocomplete(channel, members, focused).value;
            && |r| <= MaxChoices
            && (forall i :: 0 <= i < |r| ==> NamesCandidate(channel.overwrites, members, focused, r[i]))
            && (|Candidates(channel.overwrites, members, focused)| <= MaxChoices ==>
                  forall m :: m in members && Suggestible(channel.overwrites, m, focused) ==>
                    Choice(m.tag, m.id) in r)
  {
  }
}
