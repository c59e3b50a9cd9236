/** The routing half of the interaction handler: a chat command goes to the
    registered command of that name, a button to the close flow, and any other
    interaction is ignored. */
module Dispatch {
  import opened Platform
  import opened Text
  import opened TicketStore
  import opened InteractionCreate
  import Transfer
  import Add
  import Remove
  import Rename

  /** The ticket commands, with the option each one reads. */
  datatype Command =
    | CloseCommand
    | TransferCommand(newOwner: UserId)
    | AddCommand(user: UserId)
    | RemoveCommand(user: UserId)
    | RenameCommand(name: string)

  datatype Interaction =
    | ChatCommand(command: Command)
    | Button(customId: string)
    | OtherInteraction

  /** The two ways of reaching `CloseTicket`. */
  predicate ReachesClose(i: Interaction) {
    i == ChatCommand(CloseCommand) || i == Button("confirm_close_yes")
  }

  /** `execute` of the interaction event, with each command's handler. Across
      every interaction: no ticket is ever created, only the invoked channel's
      record can change, only a close removes it, and the claimer, creation
      time, category and number of a record never change. */
  function Execute(w: World, io: Io, actor: Actor, cfg: Config, i: Interaction): (r: Step)
    ensures r.world.store.Keys <= w.store.Keys
    ensures forall k :: k in w.store && k != w.channel.id ==> k in r.world.store && r.world.store[k] == w.store[k]
    ensures r.world.store.Keys != w.store.Keys ==> ReachesClose(i)
    ensures forall k :: k in r.world.store ==> SameFixedFields(w.store[k], r.world.store[k])
    ensures r.world.guild == w.guild
    ensures i.OtherInteraction? ==> r == Step(NoResponse, w)
  {
    match i
    case ChatCommand(CloseCommand) => CloseTicket(w, io, actor, cfg)
    case ChatCommand(TransferCommand(u)) => Transfer.TransferTicket(w, io, actor, u)
    case ChatCommand(AddCommand(u)) => Add.AddUser(w, io, actor, u)
    case ChatCommand(RemoveCommand(u)) => Remove.RemoveUser(w, io, actor, u)
    case ChatCommand(RenameCommand(n)) => Rename.RenameTicket(w, io, actor, n)
    case Button(id) => OnButton(w, io, actor, cfg, id)
    case OtherInteraction => Step(NoResponse, w)
  }

  /** `/close` and the confirming button behave identically. */
  lemma CloseRoutesAgree(w: World, io: Io, actor: Actor, cfg: Config)
    ensures Execute(w, io, actor, cfg, ChatCommand(CloseCommand))
         == Execute(w, io, actor, cfg, Button("confirm_close_yes"))
  {
  }

  /** Pressing the close button and then cancelling leaves everything as it was;
      the prompt alone never reaches the store. */
  lemma PromptThenCancelChangesNothing(w: World, io: Io, actor: Actor, cfg: Config)
    ensures var r1 := Execute(w, io, actor, cfg, Button("close_ticket"));
            var r2 := Execute(r1.world, io, actor, cfg, Button("confirm_close_no"));
            r1.reply == ConfirmPrompt && r2.reply == CloseCancelled && r2.world == w
  {
  }

  /** `/add` and `/remove` undo each other: adding someone who had no entry
      and then removing them leaves the world exactly as it was. */
  lemma AddThenRemoveRestores(w: World, io: Io, actor: Actor, cfg: Config, target: UserId)
    requires !io.fetch.FetchFailed? && StartsWith(w.channel.name, TicketPrefix)
    requires HasAnyRole(actor, Add.AllowedRoles)
    requires Remove.CanRemove(actor, Snapshot(w.store, io.fetch), w.channel.id)
    requires target !in w.channel.overwrites
    ensures var r1 := Execute(w, io, actor, cfg, ChatCommand(AddCommand(target)));
            var r2 := Execute(r1.world, io, actor, cfg, ChatCommand(RemoveCommand(target)));
            r1.reply == Added(target) && r2.reply == Removed(target) && r2.world == w
  {
  }
}
