/** The interaction event handler: category classification, transcript
    rendering and publishing, ticket closing, and the close-button flow. */
module InteractionCreate {
  import opened Platform
  import opened Text
  import opened TicketStore

  /** The roles that may close a ticket (besides Administrator). */
  const ModerationRoles: set<RoleId> := {
    "1403777886661644398",
    "1403777609522745485",
    "1403777335416848537",
    "1403777452517494784",
    "1403777162460397649",
    "1423280211239243826",
    "1459193961808658534"
  }

  /** How many of the newest messages a closed ticket's transcript captures. */
  const FetchLimit: nat := 100

  /** Environment settings the handlers read. */
  datatype Config = Config(
    reportCategory: ChannelId,
    appealCategory: ChannelId,
    inquiryCategory: ChannelId,
    r2PublicBase: string)

  datatype CategoryType = Report | Appeal | Inquiry | Unknown

  // ---------------------------------------------------------------------------
  // Category classification
  // ---------------------------------------------------------------------------

  /** Classifies a category id, testing Report, then Appeal, then Inquiry. */
  function GetCategoryType(cfg: Config, categoryId: ChannelId): (r: CategoryType)
    ensures r == Report <==> categoryId == cfg.reportCategory
    ensures r == Appeal <==> categoryId != cfg.reportCategory && categoryId == cfg.appealCategory
    ensures r == Inquiry <==>
              categoryId != cfg.reportCategory && categoryId != cfg.appealCategory
              && categoryId == cfg.inquiryCategory
    ensures r == Unknown <==>
              categoryId !in {cfg.reportCategory, cfg.appealCategory, cfg.inquiryCategory}
  {
    if categoryId == cfg.reportCategory then Report
    else if categoryId == cfg.appealCategory then Appeal
    else if categoryId == cfg.inquiryCategory then Inquiry
    else Unknown
  }

  /** The configured category id of each known type. */
  function CategoryIdOf(cfg: Config, t: CategoryType): ChannelId
    requires t != Unknown
  {
    match t
    case Report => cfg.reportCategory
    case Appeal => cfg.appealCategory
    case Inquiry => cfg.inquiryCategory
  }

  predicate DistinctCategories(cfg: Config) {
    && cfg.reportCategory != cfg.appealCategory
    && cfg.reportCategory != cfg.inquiryCategory
    && cfg.appealCategory != cfg.inquiryCategory
  }

  /** With three distinct configured ids, classification inverts the
      configuration. */
  lemma CategoryRoundTrip(cfg: Config, t: CategoryType)
    requires DistinctCategories(cfg)
    requires t != Unknown
    ensures GetCategoryType(cfg, CategoryIdOf(cfg, t)) == t
  {
  }

  // ---------------------------------------------------------------------------
  // Transcript rendering
  // ---------------------------------------------------------------------------

  /** The escaping hook the transcript uses; it returns its input unchanged. */
  function EscapeHtml(text: string): string {
    text
  }

  /** `Msg.content || ""`. */
  function ContentText(m: Message): (r: string)
    ensures m.content.None? ==> r == ""
    ensures m.content.Some? ==> r == m.content.value
  {
    match m.content
    case None => ""
    case Some(c) => c
  }

  /** The paragraph one message contributes; tag and text appear verbatim. */
  function Line(m: Message): (r: string)
    ensures r == "<p><b>" + m.authorTag + "</b>: " + ContentText(m) + "</p>"
  {
    "<p><b>" + EscapeHtml(m.authorTag) + "</b>: " + EscapeHtml(ContentText(m)) + "</p>"
  }

  /** What separates the author tag from the text in a paragraph. */
  const Separator: string := "</b>: "

  /** The first position at or after `i` where `p` occurs in `t`, if any. */
  function FirstOccurrence(t: string, p: string, i: nat): (r: Option<nat>)
    ensures r.Some? ==> i <= r.value && OccursAt(t, p, r.value)
    ensures r.Some? ==> forall j: nat :: i <= j < r.value ==> !OccursAt(t, p, j)
    ensures r.None? ==> forall j: nat :: i <= j ==> !OccursAt(t, p, j)
    decreases |t| - i
  {
    if |t| < i + |p| then None
    else if OccursAt(t, p, i) then Some(i)
    else FirstOccurrence(t, p, i + 1)
  }

  /** Reads a paragraph back into its author tag and text: the tag runs up to
      the first separator, the text from there to the closing tag. */
  function ParseLine(para: string): Option<(string, string)> {
    if |para| < 10 || !StartsWith(para, "<p><b>") || !EndsWith(para, "</p>") then None
    else
      var inner := para[6..|para| - 4];
      match FirstOccurrence(inner, Separator, 0)
      case None => None
      case Some(k) => Some((inner[..k], inner[k + |Separator|..]))
  }

  /** In `tag + Separator + rest`, when `tag` holds no separator, the first
      separator is the one right after `tag`: no occurrence can straddle the
      tag's end, because `<` appears in the separator only at its start. */
  lemma FirstSeparatorAfterTag(tag: string, rest: string)
    requires !Contains(tag, Separator)
    ensures FirstOccurrence(tag + Separator + rest, Separator, 0) == Some(|tag|)
  {
    var s := tag + Separator + rest;
    assert s[|tag|..|tag| + |Separator|] == Separator;
    assert OccursAt(s, Separator, |tag|);
    forall j: nat | j < |tag|
      ensures !OccursAt(s, Separator, j)
    {
      if j + |Separator| <= |tag| {
        assert !OccursAt(tag, Separator, j);
        assert tag[j..j + |Separator|] == s[j..j + |Separator|];
      } else {
        assert s[|tag|] == '<';
        assert Separator[|tag| - j] != '<';
        if j + |Separator| <= |s| {
          assert s[j..j + |Separator|][|tag| - j] == '<';
        }
      }
    }
  }

  /** Parsing a wrapped `tag + Separator + text` splits it at the separator
      after `tag`. */
  lemma ParseWrapped(tag: string, text: string)
    requires !Contains(tag, Separator)
    ensures ParseLine("<p><b>" + (tag + Separator + text) + "</p>") == Some((tag, text))
  {
    var inner := tag + Separator + text;
    var para := "<p><b>" + inner + "</p>";
    assert para[6..|para| - 4] == inner;
    FirstSeparatorAfterTag(tag, text);
    assert inner[..|tag|] == tag;
    assert inner[|tag| + |Separator|..] == text;
  }

  /** A paragraph reads back as the message's author tag and text, provided
      the tag itself holds no separator (escaping is the identity, so a tag
      that does would be split early). */
  lemma LineRoundTrip(m: Message)
    requires !Contains(m.authorTag, Separator)
    ensures ParseLine(Line(m)) == Some((m.authorTag, ContentText(m)))
  {
    var tag, text := m.authorTag, ContentText(m);
    assert Line(m) == "<p><b>" + (tag + Separator + text) + "</p>";
    ParseWrapped(tag, text);
  }

  function Header(channelName: string): string {
    "<!DOCTYPE html><html><body><h1>" + channelName + "</h1>"
  }

  const Footer: string := "</body></html>"

  function Reverse<T>(s: seq<T>): (r: seq<T>)
    ensures |r| == |s|
    ensures forall i :: 0 <= i < |s| ==> r[i] == s[|s| - 1 - i]
  {
    if s == [] then [] else Reverse(s[1..]) + [s[0]]
  }

  /** One paragraph per message, in the order given. */
  function LinesOf(ms: seq<Message>): (r: seq<string>)
    ensures |r| == |ms|
  {
    seq(|ms|, i requires 0 <= i < |ms| => Line(ms[i]))
  }

  /** The `forEach` that appends one paragraph per message to `html`. */
  function AppendLines(html: string, ms: seq<Message>): string
    decreases |ms|
  {
    if ms == [] then html else AppendLines(html + Line(ms[0]), ms[1..])
  }

  lemma {:induction false} AppendLinesIsConcat(html: string, ms: seq<Message>)
    ensures AppendLines(html, ms) == html + Concat(LinesOf(ms))
    decreases |ms|
  {
    if ms != [] {
      AppendLinesIsConcat(html + Line(ms[0]), ms[1..]);
      assert LinesOf(ms)[1..] == LinesOf(ms[1..]);
      assert LinesOf(ms)[0] == Line(ms[0]);
    }
  }

  /** The transcript document for messages fetched newest first: a heading with
      the channel name, then one paragraph per message from the last fetched
      (the oldest) to the first, then the closing tags. */
  function GenerateTranscriptHtml(channelName: string, fetched: seq<Message>): (html: string)
    ensures html == "<!DOCTYPE html><html><body><h1>" + channelName + "</h1>"
                    + Concat(seq(|fetched|, k requires 0 <= k < |fetched| => Line(fetched[|fetched| - 1 - k])))
                    + "</body></html>"
  {
    var chronological := Reverse(fetched);
    AppendLinesIsConcat(Header(channelName), chronological);
    assert LinesOf(chronological)
        == seq(|fetched|, k requires 0 <= k < |fetched| => Line(fetched[|fetched| - 1 - k]));
    AppendLines(Header(channelName), chronological) + Footer
  }

  /** `channel.messages.fetch({ limit: 100 })`: the newest messages of the
      history (stored oldest first), at most 100 of them, newest first. */
  function FetchRecent(history: seq<Message>): (r: seq<Message>)
    ensures |r| == if |history| < FetchLimit then |history| else FetchLimit
    ensures forall i :: 0 <= i < |r| ==> r[i] == history[|history| - 1 - i]
  {
    var n := if |history| < FetchLimit then |history| else FetchLimit;
    Reverse(history[|history| - n..])
  }

  /** The transcript of a closing ticket lists the newest (at most 100)
      messages of its history, oldest first. */
  lemma TranscriptOfRecentHistory(channelName: string, history: seq<Message>)
    ensures var n := if |history| < FetchLimit then |history| else FetchLimit;
            GenerateTranscriptHtml(channelName, FetchRecent(history))
            == Header(channelName) + Concat(LinesOf(history[|history| - n..])) + Footer
  {
    var n := if |history| < FetchLimit then |history| else FetchLimit;
    var f := FetchRecent(history);
    assert seq(|f|, k requires 0 <= k < |f| => Line(f[|f| - 1 - k])) == LinesOf(history[|history| - n..]);
  }

  /** The transcript body of a concatenated message list is the two bodies
      concatenated: each message contributes exactly its own paragraph. */
  lemma TranscriptBodySplits(a: seq<Message>, b: seq<Message>)
    ensures Concat(LinesOf(a + b)) == Concat(LinesOf(a)) + Concat(LinesOf(b))
  {
    assert LinesOf(a + b) == LinesOf(a) + LinesOf(b);
    ConcatAppend(LinesOf(a), LinesOf(b));
  }

  // ---------------------------------------------------------------------------
  // Transcript publishing
  // ---------------------------------------------------------------------------

  /** The object key a channel's transcript is stored under. */
  function TranscriptKey(id: ChannelId): (key: string)
    ensures EndsWith(key, ".html") && StartsWith(key, id)
    ensures |key| == |id| + 5
  {
    id + ".html"
  }

  /** The public address `UploadTranscript` returns. */
  function TranscriptUrl(base: string, id: ChannelId): (url: string)
    ensures StartsWith(url, base + "/") && EndsWith(url, ".html")
    ensures |url| == |base| + |id| + 6
  {
    base + "/" + TranscriptKey(id)
  }

  /** Reads the channel id back out of a transcript address. */
  function ChannelIdOfUrl(base: string, url: string): Option<ChannelId> {
    if |base| + 6 <= |url| && StartsWith(url, base + "/") && EndsWith(url, ".html")
    then Some(url[|base| + 1..|url| - 5])
    else None
  }

  /** Every channel has its own transcript address. */
  lemma TranscriptUrlRoundTrip(base: string, id: ChannelId)
    ensures ChannelIdOfUrl(base, TranscriptUrl(base, id)) == Some(id)
  {
    var url := TranscriptUrl(base, id);
    assert url[|base| + 1..|url| - 5] == id;
  }

  // ---------------------------------------------------------------------------
  // Closing
  // ---------------------------------------------------------------------------

  /** Who may close: Administrator or one of the moderation roles. */
  predicate CanClose(a: Actor) {
    a.administrator || HasAnyRole(a, ModerationRoles)
  }

  /** `CloseTicket`: read the document, require a record for this channel,
      require a closing actor, render and upload the transcript, post to the
      log channel, then delete the record and write the document back. The
      write's status is never checked, so a rejected write still ends in
      "Ticket closed." with the record left in the document. The owner's
      direct message is best-effort and has no effect here; the delayed
      channel deletion is not modelled. */
  function CloseTicket(w: World, io: Io, actor: Actor, cfg: Config): (r: Step)
    // a failed read throws before anything happens
    ensures io.fetch.FetchFailed? ==> r == Step(Aborted, w)
    // the record check comes before the permission check
    ensures !io.fetch.FetchFailed? && w.channel.id !in Snapshot(w.store, io.fetch) ==>
              r == Step(TicketDataNotFound, w)
    // owning the ticket is not enough
    ensures !io.fetch.FetchFailed? && w.channel.id in Snapshot(w.store, io.fetch) && !CanClose(actor) ==>
              r == Step(NoPermission, w)
    ensures r.reply.Closed? <==>
              io.fetch.Fetched? && w.channel.id in w.store && CanClose(actor)
              && io.uploadOk && io.logOk && !io.save.SaveThrew?
    ensures r.reply.Closed? ==> r.reply.transcriptUrl == TranscriptUrl(cfg.r2PublicBase, w.channel.id)
    // the record goes only when the write is stored
    ensures r.reply.Closed? && io.save.Saved? ==> r.world.store == w.store - {w.channel.id}
    ensures !(r.reply.Closed? && io.save.Saved?) ==> r.world.store == w.store
    // an uploaded transcript stays in the bucket whatever happens afterwards
    ensures io.fetch.Fetched? && w.channel.id in w.store && CanClose(actor) && io.uploadOk ==>
              r.world.archive == w.archive[TranscriptKey(w.channel.id) :=
                                  GenerateTranscriptHtml(w.channel.name, FetchRecent(w.channel.history))]
    ensures !(io.fetch.Fetched? && w.channel.id in w.store && CanClose(actor) && io.uploadOk) ==>
              r.world.archive == w.archive
    ensures r.world.channel == w.channel && r.world.guild == w.guild
    ensures r.reply in {Aborted, TicketDataNotFound, NoPermission}
            || r.reply == Closed(TranscriptUrl(cfg.r2PublicBase, w.channel.id))
  {
    if io.fetch.FetchFailed? then Step(Aborted, w)
    else
      var tickets := Snapshot(w.store, io.fetch);
      var id := w.channel.id;
      if id !in tickets then Step(TicketDataNotFound, w)
      else if !CanClose(actor) then Step(NoPermission, w)
      else
        var html := GenerateTranscriptHtml(w.channel.name, FetchRecent(w.channel.history));
        if !io.uploadOk then Step(Aborted, w)
        else
          var uploaded := w.(archive := w.archive[TranscriptKey(id) := html]);
          var url := TranscriptUrl(cfg.r2PublicBase, id);
          if !io.logOk || io.save.SaveThrew? then Step(Aborted, uploaded)
          else if io.save.Rejected? then Step(Closed(url), uploaded)
          else Step(Closed(url), uploaded.(store := tickets - {id}))
  }

  /** A close whose write the service rejects still reports success while
      the record stays in the document. */
  lemma RejectedCloseKeepsRecord(w: World, io: Io, actor: Actor, cfg: Config)
    requires io.fetch.Fetched? && w.channel.id in w.store && CanClose(actor)
    requires io.uploadOk && io.logOk && io.save.Rejected?
    ensures var r := CloseTicket(w, io, actor, cfg);
            r.reply.Closed? && w.channel.id in r.world.store
  {
  }

  /** The button branches of `execute`: the close button only asks for
      confirmation, cancelling only cancels, and only the confirming button
      closes. Any other button gets no response. */
  function OnButton(w: World, io: Io, actor: Actor, cfg: Config, customId: string): (r: Step)
    ensures customId == "close_ticket" ==> r == Step(ConfirmPrompt, w)
    ensures customId == "confirm_close_no" ==> r == Step(CloseCancelled, w)
    ensures customId == "confirm_close_yes" ==> r == CloseTicket(w, io, actor, cfg)
    ensures r.world != w ==> customId == "confirm_close_yes"
    ensures customId !in {"close_ticket", "confirm_close_yes", "confirm_close_no"} ==>
              r == Step(NoResponse, w)
  {
    if customId == "close_ticket" then Step(ConfirmPrompt, w)
    else if customId == "confirm_close_yes" then CloseTicket(w, io, actor, cfg)
    else if customId == "confirm_close_no" then Step(CloseCancelled, w)
    else Step(NoResponse, w)
  }
}
