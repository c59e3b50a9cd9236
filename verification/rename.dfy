/** The `/rename` command: the channel-name normaliser and the `customName`
    update. */
module Rename {
  import opened Platform
  import opened Text
  import opened TicketStore

  /** The roles that may rename a ticket; Administrator gives no bypass. */
  const AllowedRoles: set<RoleId> := {
    "1403777162460397649",
    "1235182843487981669",
    "1423280211239243826",
    "1402693639486046278"
  }

  // ---------------------------------------------------------------------------
  // Name normalisation
  // ---------------------------------------------------------------------------

  /** `replace(/\s+/g, '-')` scanning left to right: `inRun` says the previous
      character was whitespace, so a further whitespace character is dropped
      rather than starting a new `-`. */
  function ReplaceSpaceRuns(s: string, inRun: bool): (r: string)
    ensures NoSpace(r)
    ensures NoUpper(s) ==> NoUpper(r)
    ensures |r| <= |s|
    decreases |s|
  {
    if s == [] then []
    else
      var rest := ReplaceSpaceRuns(s[1..], IsSpace(s[0]));
      if !IsSpace(s[0]) then [s[0]] + rest
      else if inRun then rest
      else "-" + rest
  }

  /** The lower-cased input with every maximal whitespace run turned into one
      `-`. Nothing is trimmed. */
  function NormalizedSuffix(input: string): string {
    ReplaceSpaceRuns(ToLower(input), false)
  }

  /** The new channel name. */
  function RenamedChannelName(input: string): (name: string)
    ensures StartsWith(name, TicketPrefix)
    ensures NoSpace(name[|TicketPrefix|..]) && NoUpper(name[|TicketPrefix|..])
  {
    TicketPrefix + NormalizedSuffix(input)
  }

  /** What position `i` of `s` contributes, judged from its neighbour alone:
      a non-whitespace character is kept, the first whitespace character of a
      run becomes `-`, and the rest of the run disappears. */
  function Piece(s: string, i: nat): string
    requires i < |s|
  {
    if !IsSpace(s[i]) then [s[i]]
    else if i > 0 && IsSpace(s[i - 1]) then ""
    else "-"
  }

  /** The contributions of positions `i` onward, concatenated. */
  function PiecesFrom(s: string, i: nat): string
    requires i <= |s|
  {
    Concat(seq(|s| - i, j requires 0 <= j < |s| - i => Piece(s, i + j)))
  }

  lemma {:induction false} ReplaceMatchesPiecesFrom(s: string, i: nat)
    requires i <= |s|
    ensures ReplaceSpaceRuns(s[i..], i > 0 && IsSpace(s[i - 1])) == PiecesFrom(s, i)
    decreases |s| - i
  {
    var pieces := seq(|s| - i, j requires 0 <= j < |s| - i => Piece(s, i + j));
    if i == |s| {
      assert s[i..] == [];
      assert pieces == [];
    } else {
      ReplaceMatchesPiecesFrom(s, i + 1);
      assert s[i..][0] == s[i];
      assert s[i..][1..] == s[i + 1..];
      assert pieces[0] == Piece(s, i);
      assert pieces[1..] == seq(|s| - (i + 1), j requires 0 <= j < |s| - (i + 1) => Piece(s, i + 1 + j));
    }
  }

  /** The scan agrees with the position-wise description: the result is the
      concatenation, over every position, of what that position contributes. */
  lemma ReplaceIsPositionwise(s: string)
    ensures ReplaceSpaceRuns(s, false) == PiecesFrom(s, 0)
  {
    ReplaceMatchesPiecesFrom(s, 0);
    assert s[0..] == s;
  }

  /** Text without whitespace passes through the scan unchanged. */
  lemma {:induction false} ReplaceKeepsSpaceFree(s: string, inRun: bool)
    requires NoSpace(s)
    ensures ReplaceSpaceRuns(s, inRun) == s
    decreases |s|
  {
    if s != [] {
      assert NoSpace(s[1..]);
      ReplaceKeepsSpaceFree(s[1..], false);
    }
  }

  /** Normalising a normalised suffix changes nothing. */
  lemma NormalizeIdempotent(input: string)
    ensures NormalizedSuffix(NormalizedSuffix(input)) == NormalizedSuffix(input)
  {
    var once := NormalizedSuffix(input);
    assert NoUpper(ToLower(input));
    assert ToLower(once) == once;
    ReplaceKeepsSpaceFree(once, false);
  }

  /** The renamed channel passes the `ticket-` guard again, and renaming it to
      its own suffix reproduces the same name. */
  lemma RenameFixedPoint(input: string)
    ensures var name := RenamedChannelName(input);
            StartsWith(name, TicketPrefix) && RenamedChannelName(name[|TicketPrefix|..]) == name
  {
    NormalizeIdempotent(input);
    assert RenamedChannelName(input)[|TicketPrefix|..] == NormalizedSuffix(input);
  }

  predicate AllSpace(s: string) {
    forall i :: 0 <= i < |s| ==> IsSpace(s[i])
  }

  /** A word (no whitespace) is copied as it is. */
  lemma {:induction false} WordIsCopied(word: string, t: string, inRun: bool)
    requires NoSpace(word) && word != []
    ensures ReplaceSpaceRuns(word + t, inRun) == word + ReplaceSpaceRuns(t, false)
    decreases |word|
  {
    assert (word + t)[0] == word[0];
    assert (word + t)[1..] == word[1..] + t;
    if |word| > 1 {
      WordIsCopied(word[1..], t, false);
    } else {
      assert word[1..] + t == t;
    }
  }

  /** A whitespace run becomes one `-`, or nothing if a run was already open. */
  lemma {:induction false} RunBecomesOneDash(run: string, t: string, inRun: bool)
    requires AllSpace(run) && run != []
    ensures ReplaceSpaceRuns(run + t, inRun) == (if inRun then "" else "-") + ReplaceSpaceRuns(t, true)
    decreases |run|
  {
    assert (run + t)[0] == run[0];
    assert (run + t)[1..] == run[1..] + t;
    if |run| > 1 {
      RunBecomesOneDash(run[1..], t, true);
    } else {
      assert run[1..] + t == t;
    }
  }

  lemma ExampleNameLiteral()
    ensures TicketPrefix + "-billing-issue-" == "ticket--billing-issue-"
  {
  }

  lemma ExampleLower()
    ensures ToLower("  Billing   Issue ") == "  " + ("billing" + ("   " + ("issue" + " ")))
  {
  }

  lemma ExampleTail()
    ensures ReplaceSpaceRuns("issue" + " ", true) == "issue-"
  {
    RunBecomesOneDash(" ", "", false);
    assert " " + "" == " ";
    assert ReplaceSpaceRuns("", true) == "";
    WordIsCopied("issue", " ", true);
  }

  lemma ExampleMiddle()
    ensures ReplaceSpaceRuns("billing" + ("   " + ("issue" + " ")), true) == "billing-issue-"
  {
    ExampleTail();
    RunBecomesOneDash("   ", "issue" + " ", false);
    assert "-" + "issue-" == "-issue-";
    WordIsCopied("billing", "   " + ("issue" + " "), true);
    assert "billing" + "-issue-" == "billing-issue-";
  }

  lemma ExampleSuffix()
    ensures NormalizedSuffix("  Billing   Issue ") == "-billing-issue-"
  {
    ExampleLower();
    ExampleMiddle();
    RunBecomesOneDash("  ", "billing" + ("   " + ("issue" + " ")), false);
    assert "-" + "billing-issue-" == "-billing-issue-";
  }

  /** Leading and trailing whitespace is not trimmed: each run becomes `-`. */
  lemma RenameExample()
    ensures RenamedChannelName("  Billing   Issue ") == "ticket--billing-issue-"
  {
    ExampleSuffix();
    ExampleNameLiteral();
  }

  // ---------------------------------------------------------------------------
  // The command
  // ---------------------------------------------------------------------------

  /** `execute`: require a ticket-named channel and one of the allowed roles,
      rename the channel and reply (the reply shows the raw input), then read
      the document and, when this channel has a record, store the raw input as
      its `customName` and write the document back. A failed read, or a write
      that throws or is rejected, leaves the channel renamed and the document
      as it was. */
  function RenameTicket(w: World, io: Io, actor: Actor, newName: string): (r: Step)
    ensures !StartsWith(w.channel.name, TicketPrefix) ==> r == Step(NotTicketChannel, w)
    ensures StartsWith(w.channel.name, TicketPrefix) && !HasAnyRole(actor, AllowedRoles) ==> r == Step(NoPermission, w)
    ensures r.reply.Renamed? <==> StartsWith(w.channel.name, TicketPrefix) && HasAnyRole(actor, AllowedRoles)
    ensures r.reply.Renamed? ==>
              && r.reply.channelName == TicketPrefix + newName
              && r.world.channel == w.channel.(name := RenamedChannelName(newName))
              && StartsWith(r.world.channel.name, TicketPrefix)
    // customName is written only for an existing record, and only it changes
    ensures r.reply.Renamed? && io.fetch.Fetched? && w.channel.id in w.store && io.save.Saved? ==>
              r.world.store == w.store[w.channel.id := w.store[w.channel.id].(customName := Some(newName))]
    ensures !(r.reply.Renamed? && io.fetch.Fetched? && w.channel.id in w.store && io.save.Saved?) ==>
              r.world.store == w.store
    ensures !r.reply.Renamed? ==> r.world == w
    ensures r.world.guild == w.guild && r.world.archive == w.archive
  {
    if !StartsWith(w.channel.name, TicketPrefix) then Step(NotTicketChannel, w)
    else if !HasAnyRole(actor, AllowedRoles) then Step(NoPermission, w)
    else
      var renamed := w.(channel := w.channel.(name := RenamedChannelName(newName)));
      var reply := Renamed(TicketPrefix + newName);
      if io.fetch.FetchFailed? then Step(reply, renamed)
      else
        var tickets := Snapshot(w.store, io.fetch);
        var id := w.channel.id;
        if id in tickets && io.save.Saved? then
          Step(reply, renamed.(store := tickets[id := tickets[id].(customName := Some(newName))]))
        else Step(reply, renamed)
  }
}
