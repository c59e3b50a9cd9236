/** The shared ticket document, the outcome of reading it, and the world a
    handler runs against. Every handler reads the whole document, decides, and
    may write the whole document back. */
module TicketStore {
  import opened Platform

  /** Every ticket channel's name starts with this. */
  const TicketPrefix: string := "ticket-"

  /** One ticket record. Fields the handlers never touch are carried through. */
  datatype Ticket = Ticket(
    ownerId: UserId,
    claimerId: Option<UserId>,
    createdAt: int,
    categoryType: string,
    ticketNumber: Option<int>,
    customName: Option<string>)

  /** The document: channel id to ticket record. */
  type Store = map<ChannelId, Ticket>

  /** What a read of the document produced: the request failed, the reply had
      no `record` field, or it carried the document. */
  datatype Fetch = FetchFailed | NoRecord | Fetched

  /** What a write of the document produced: it was stored, the service
      answered with an error status (the request itself resolved, so the
      handler cannot tell and carries on), or the request threw. */
  datatype Save = Saved | Rejected | SaveThrew

  /** The outcomes of the remote calls a handler makes, supplied from outside:
      the document read, the transcript upload, the closure post to the log
      channel (`1417526499761979412`) and the document write. */
  datatype Io = Io(fetch: Fetch, uploadOk: bool, logOk: bool, save: Save)

  /** `data.record || {}`: the tickets a successful read hands to the handler. */
  function Snapshot(persisted: Store, f: Fetch): (r: Store)
    requires !f.FetchFailed?
    ensures f.Fetched? ==> r == persisted
    ensures f.NoRecord? ==> r == map[]
  {
    if f.NoRecord? then map[] else persisted
  }

  /** Everything a handler can observe or change: the persisted document, the
      channel it was invoked in, the guild, and the public transcript bucket
      (object key to HTML body). */
  datatype World = World(store: Store, channel: Channel, guild: Guild, archive: map<string, string>)

  /** What the actor is told. */
  datatype Reply =
    | TicketDataNotFound
    | NoPermission
    | NotTicketChannel
    | StaffOrOwnerOnly
    | LoadFailed
    | NotATicket
    | NotInServer
    | AlreadyOwner
    | SaveFailed
    | Transferred(newOwner: UserId)
    // "Ticket closed."; the transcript address is what the log post links to
    | Closed(transcriptUrl: string)
    | Renamed(channelName: string)
    | Added(user: UserId)
    | Removed(user: UserId)
    | ConfirmPrompt
    | CloseCancelled
    | Aborted
    | NoResponse

  /** A handler's result: the reply and the world afterwards. `Aborted` stands
      for an exception that ended the handler without a reply. */
  datatype Step = Step(reply: Reply, world: World)

  /** The ticket fields no modelled handler may change. */
  predicate SameFixedFields(a: Ticket, b: Ticket) {
    a.claimerId == b.claimerId && a.createdAt == b.createdAt
    && a.categoryType == b.categoryType && a.ticketNumber == b.ticketNumber
  }
}
