# Ticket handling of a support-ticket chat bot, in Dafny

This project models the decision logic of a support-ticket bot for a chat
community server. Each ticket is a private channel; a shared JSON document
maps each ticket channel's id to its record (owner, claimer, creation time,
category, number, custom name). The model covers the handlers that act on an
existing ticket:

- closing, by `/close` or by the two-step confirmation buttons;
- transferring ownership;
- adding and removing a participant;
- renaming;
- the pure helpers: category classification, the HTML transcript, the
  transcript address, and the member autocompletion of `/remove`.

Every handler is a pure function from a `World` (the persisted ticket
document, the invoking channel with its overwrites and message history, the
guild's members and category overwrites, and the public transcript bucket),
an `Io` value (the outcomes of the remote calls: the document read, the
transcript upload, the log-channel post, the document write), the acting
member and the command's argument. It returns a `Step`: the reply and the
world afterwards. The contracts state, for each handler:

- the guard order and the reply of every rejection;
- that a rejection leaves the world unchanged;
- exactly what a success changes, and that nothing else changes.

Files, one module each:

- `text.dfy` (`Text`): prefix and suffix tests, ASCII lower-casing, the `\s`
  character class of JavaScript regular expressions, `includes`, and string
  concatenation.
- `platform.dfy` (`Platform`): permission overwrites and the platform's
  edit/delete semantics, actors, members, channels, the guild.
- `store.dfy` (`TicketStore`): the ticket record, the document, read outcomes,
  `World`, `Reply`, `Step`.
- `interaction_create.dfy` (`InteractionCreate`): category classification,
  transcript rendering and address, `CloseTicket`, the button flow.
- `transfer.dfy`, `add.dfy`, `remove.dfy`, `rename.dfy`: one command each.
- `dispatch.dfy` (`Dispatch`): the router, and the invariants that hold
  across every interaction.

Points where the code is modelled as written:

- The platform's `permissions.has(ManageChannels)` also answers yes for an
  Administrator. So an Administrator passes the staff test of `/remove`.
  `/add` and `/rename` test roles only, so there an Administrator gets no
  bypass.
- `permissionOverwrites.edit` merges into an existing entry. The granted
  flags join the allow set and leave the deny set.
- `/add` and `/remove` read the ticket document before their channel-name
  guard. A failed read therefore aborts them even outside a ticket channel.
- `/rename` renames the channel and replies before it reads the document. A
  failed read or write afterwards leaves the channel renamed and the document
  unchanged. The reply shows the raw input (`ticket-` + input), not the
  normalised name.
- A read whose reply lacks a `record` field counts as an empty document
  (`data.record || {}`). Every handler then finds no record for the channel.
- Nothing is trimmed when renaming: `"  Billing   Issue "` becomes
  `ticket--billing-issue-` (`Rename.RenameExample`).
- The transcript holds only each message's author tag and text, with no
  timestamps or attachments. The messages come from one fetch of at most
  100, newest first, which is then reversed.

## Model

| member | source | states |
|---|---|---|
| InteractionCreate.GetCategoryType | events/interactionCreate.js:57-62 | an id equal to the Report, Appeal or Inquiry setting gives that type, tested in that order so an earlier match wins; any other id gives Unknown |
| InteractionCreate.CategoryRoundTrip | events/interactionCreate.js:57-62 | with three distinct settings, classifying a type's configured id returns that type |
| InteractionCreate.LineRoundTrip | events/interactionCreate.js:53-67 | a message's paragraph reads back as exactly its author tag and its text (missing text as ""), since escaping is the identity; this holds whenever the tag itself contains no `</b>: ` |
| InteractionCreate.AppendLinesIsConcat | events/interactionCreate.js:66-68 | appending one paragraph per message to the document yields the document followed by the paragraphs, in order |
| InteractionCreate.GenerateTranscriptHtml | events/interactionCreate.js:64-71 | the document is the heading with the channel name, then exactly one paragraph per fetched message from the last fetched to the first, then the closing tags |
| InteractionCreate.Reverse | events/interactionCreate.js:66 | the reversed list has the same length, and position i holds the element at position length-1-i |
| InteractionCreate.FetchRecent | events/interactionCreate.js:89 | at most 100 messages are fetched: the newest ones, newest first |
| InteractionCreate.TranscriptOfRecentHistory | events/interactionCreate.js:89-90 | a closing ticket's transcript lists the newest (at most 100) messages of its history, oldest first |
| InteractionCreate.TranscriptBodySplits | events/interactionCreate.js:66-68 | the transcript body of two message lists joined is the two bodies joined |
| InteractionCreate.TranscriptKey | events/interactionCreate.js:41 | the object key is the channel id followed by `.html` and nothing else (it starts with the id, ends with `.html`, and is exactly five characters longer than the id) |
| InteractionCreate.TranscriptUrl | events/interactionCreate.js:50 | the address starts with the public base and `/` and ends with `.html` |
| InteractionCreate.TranscriptUrlRoundTrip | events/interactionCreate.js:41-50 | the channel id can be read back from its transcript address, so different channels get different addresses |
| InteractionCreate.CloseTicket | events/interactionCreate.js:73-119 | a failed read aborts; a channel without a record gets "Ticket data not found." before any permission check; only Administrator or the seven moderation roles may close (ownership does not count); the "Ticket closed." reply comes exactly when the read, upload and log post succeed and the write does not throw; the transcript address it carries, `<base>/<id>.html`, is the one linked from the log post and the owner's message (the reply text itself is only "Ticket closed."); the document loses exactly this channel's key when the write is stored and is unchanged otherwise, including after a write the service rejects; once uploaded, the transcript of the newest 100 messages stays under `<id>.html` even if the log post or the write fails, and the bucket is untouched otherwise |
| InteractionCreate.RejectedCloseKeepsRecord | events/interactionCreate.js:32-38 | a write rejected with an error status is not noticed: the close still reports success while the record stays in the document |
| InteractionCreate.OnButton | events/interactionCreate.js:130-150 | `close_ticket` only posts the prompt and `confirm_close_no` only cancels, both with no change; only `confirm_close_yes` reaches `CloseTicket`; other buttons get no response |
| Dispatch.Execute | events/interactionCreate.js:123-151 | whatever the interaction, no record is created, only the invoked channel's record can change, a key disappears only through `/close` or `confirm_close_yes`, and a record's claimer, creation time, category and number never change |
| Dispatch.CloseRoutesAgree | commands/close.js:8-10 | `/close` and the confirming button behave identically |
| Dispatch.PromptThenCancelChangesNothing | events/interactionCreate.js:130-150 | pressing close and then cancel replies with the prompt and the cancellation and leaves the world unchanged |
| Transfer.ResyncOverwrites | commands/transfer.js:71-85 | the rebuilt overwrites give the new owner exactly its category entry merged with View, Send and Attach (or an entry allowing just those three when the category has none), give the old owner no entry, and give every other identity exactly its category entry |
| Transfer.ResyncIdempotent | commands/transfer.js:71-85 | rebuilding the overwrites twice gives the same overwrites as once |
| Transfer.TransferTicket | commands/transfer.js:14-98 | the guards run in order (Administrator or one of the six roles; a successful read; a record for the channel; the new owner is a guild member; the new owner is not already the owner), each rejection changing nothing; a write that throws gives "Failed to save ticket data." and changes nothing; the success reply comes exactly when the guards pass and the write does not throw; a stored write changes only this record's `ownerId`, to the new owner, while a write the service rejects leaves the document unchanged despite the success reply; the overwrites are rebuilt from the parent category when it is cached (the new owner's entry being exactly the category entry merged with the owner grant) and untouched otherwise |
| Transfer.TransferToOwnerRefused | commands/transfer.js:54-55 | a transfer to the current owner never succeeds and leaves the document unchanged |
| Transfer.TransferBackRestoresStore | commands/transfer.js:57-59 | transferring to another member and back restores the document exactly |
| Remove.RemoveUser | commands/remove.js:47-68 | a failed read aborts; outside a `ticket-` channel it is refused; an actor who can neither manage channels nor owns this channel's record gets "Only staff or the ticket owner" with no change; it succeeds if and only if the actor can manage channels or owns this channel's record; on success only the target's overwrite entry is removed; the document is never written |
| Remove.RemoveAbsentIsNoOp | commands/remove.js:66 | removing someone without an overwrite entry changes nothing |
| Remove.Candidates | commands/remove.js:31-38 | the candidates are exactly the non-bot members with an overwrite entry whose tag contains the typed text ignoring case |
| Remove.CandidatesOfOne | commands/remove.js:31-38 | a single member is a candidate exactly when it passes both filters |
| Remove.CandidatesAppend | commands/remove.js:31-38 | filtering keeps the guild's order: the candidates of two member lists joined are the first list's candidates followed by the second's |
| Remove.Autocomplete | commands/remove.js:24-45 | no response outside a `ticket-` channel; otherwise the first min(25, candidates) candidates, each as its tag and id |
| Remove.AutocompleteSound | commands/remove.js:31-44 | at most 25 suggestions, each naming a qualifying member, and every qualifying member is suggested when at most 25 qualify |
| Text.Contains | commands/remove.js:37 | `includes` holds if and only if the text occurs at some position |
| Add.AddUser | commands/add.js:29-53 | a failed read aborts; outside a `ticket-` channel it is refused; an actor without one of the four allowed roles gets "You do not have permission" with no change (no Administrator or owner path); on success the target's entry is exactly its old entry merged with View, Send, Attach and ReadMessageHistory (or an entry allowing just those four when it had none) and no other entry changes; the document is never written |
| Dispatch.AddThenRemoveRestores | commands/add.js:44-49 | adding someone who had no entry and then removing them replies "added" then "removed" and leaves the world exactly as it was |
| TicketStore.Snapshot | events/interactionCreate.js:26-30 | a successful read yields the persisted document, and a reply without a `record` field yields the empty document |
| Platform.EditOverwrite | commands/add.js:44-49 | `edit` adds the flags to the identity's allow set and removes them from its deny set, creates an entry allowing exactly the flags when there was none, and keeps every other entry |
| Platform.EditIdempotent | commands/transfer.js:79-83 | granting the same flags twice is the same as granting them once |
| Platform.DeleteOverwrite | commands/remove.js:66 | `delete` with its rejection swallowed removes exactly that identity's entry; deleting an absent entry changes nothing |
| Platform.DeleteUndoesEdit | commands/remove.js:66 | deleting an identity's entry after editing it, as `/remove` after `/add` (commands/add.js:44-49) does, gives the same list as deleting it without the edit |
| Rename.ReplaceSpaceRuns | commands/rename.js:41 | the result has no whitespace, is no longer than the input, and has no upper case when the input has none |
| Rename.ReplaceIsPositionwise | commands/rename.js:41 | the replacement equals the position-wise description: non-whitespace kept, the first character of each whitespace run turned into `-`, the rest of the run dropped |
| Rename.WordIsCopied | commands/rename.js:41 | a run of non-whitespace characters is copied unchanged |
| Rename.RunBecomesOneDash | commands/rename.js:41 | a maximal whitespace run becomes exactly one `-` |
| Rename.ReplaceKeepsSpaceFree | commands/rename.js:41 | text without whitespace is left unchanged |
| Rename.RenamedChannelName | commands/rename.js:41 | the new name starts with `ticket-` and its suffix has no whitespace and no upper case |
| Rename.NormalizeIdempotent | commands/rename.js:41 | normalising a normalised suffix returns it unchanged |
| Rename.RenameFixedPoint | commands/rename.js:34-41 | the renamed channel passes the `ticket-` guard again, and renaming it to its own suffix reproduces the same name |
| Rename.RenameExample | commands/rename.js:41 | `"  Billing   Issue "` becomes `ticket--billing-issue-`: nothing is trimmed |
| Rename.RenameTicket | commands/rename.js:29-53 | outside a `ticket-` channel it is refused; only the four allowed roles authorise (no Administrator bypass); on success the channel takes the normalised name and the reply shows the raw input; `customName` is set to the raw input only when a record exists, the read succeeds and the write is stored, with nothing else changing; otherwise (including a write that throws or is rejected) the document is unchanged |

## Left out

- Remote I/O: the HTTP calls to the document service and the object-storage upload. Their outcomes are the `Io` values: a read fails, lacks a `record` field, or succeeds; a write is stored, rejected with an error status (which the code never checks), or throws. The bucket is a key-to-body map.
- Platform plumbing: embeds, reply texts beyond the `Reply` kind, deferred replies, and the content of the log-channel post.
- Best-effort direct messages to owners: their failures are swallowed, so they have no effect on the model.
- The channel deletion scheduled two seconds after a close: it is timer-based and fire-and-forget.
- Concurrency: overlapping reads and writes of the shared document (last writer wins) are not modelled. Each handler sees one consistent document.
- Bootstrap (`index.js`, `events/ready.js`) and the commands outside the ticket core (`ban`, `kick`, `appeal`, `setup`, `ping`, `clear`): these are thin wrappers over platform calls.
- `move.js`: it only builds a menu, and the handler that performs a move is not part of this model. `Dispatch.Execute` ignores select-menu and autocomplete interactions, as the event handler does.
- Ticket creation, claiming, numbering and elapsed-day computation are not part of this model: no modelled handler performs them.
- `Remove.Autocomplete` is modelled on its own. The event handler (`events/interactionCreate.js`) never routes autocomplete interactions to it.
- Text.ToLower: maps only ASCII `A`–`Z`. JavaScript lower-cases all of Unicode, and some characters expand into several.
- The platform's own server-side adjustments to channel names are not modelled.
- Transfer.TransferTicket: assumes the three overwrite calls succeed. A failure of `set` or `edit` would throw after the document write.
- Add.AddUser: assumes the overwrite edit succeeds. A failure would throw without a reply.
- Rename.RenameTicket: assumes the channel rename succeeds. A failure would throw before the reply.
- InteractionCreate.CloseTicket: assumes the member fetch and the message fetch (`channel.messages.fetch`) succeed. Failures of the log-channel fetch and post are folded into one flag.
- A guild owner's implicit permissions are represented by the Administrator flag.
