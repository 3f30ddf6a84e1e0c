/**
  The moderation cog: `/purge`, `/slowmode` and the listener that deletes
  messages containing spam keywords.
*/
module Moderation {
  import opened PyText
  import opened Chat

  // ---------------------------------------------------------------------------
  // /purge
  // ---------------------------------------------------------------------------

  /** The most messages one purge removes. */
  const MaxPurge: int := 100

  /** The reply to `/purge`. */
  datatype PurgeReply =
    | PurgeOutOfRange                      // amount outside 1..100; nothing deleted
    | Purged(limit: int, reported: int)    // `channel.purge(limit)` ran; `reported` is the count shown

  /**
    `/purge amount`: an amount outside 1..100 is refused. Otherwise the purge
    is asked for one message more than the amount, to take the command's own
    message along, and the reply reports one less than the number deleted.
    `deleted` is the number of messages the channel's purge removed.
  */
  function PurgeCommand(amount: int, deleted: nat): (r: PurgeReply)
    ensures r.PurgeOutOfRange? <==> amount < 1 || amount > MaxPurge
    ensures r.Purged? ==> r.limit == amount + 1 && 2 <= r.limit <= MaxPurge + 1
    ensures r.Purged? ==> r.reported == deleted - 1
  {
    if amount < 1 || amount > MaxPurge then PurgeOutOfRange
    else Purged(amount + 1, deleted - 1)
  }

  /** The text of a purge reply. */
  function PurgeText(r: PurgeReply): (text: string)
    ensures r.Purged? ==> text == "✅ Deleted " + FormatInt(r.reported) + " messages."
    ensures r.PurgeOutOfRange? ==> text == "❌ Please specify a number between 1 and 100."
  {
    match r
    case PurgeOutOfRange => "❌ Please specify a number between 1 and 100."
    case Purged(_, reported) => "✅ Deleted " + FormatInt(reported) + " messages."
  }

  /** When the channel has enough messages to fill the purge, the reply
      reports exactly the amount asked for. */
  lemma PurgeReportsAmount(amount: int, available: nat)
    requires 1 <= amount <= MaxPurge && available >= amount + 1
    ensures var deleted := if available < amount + 1 then available else amount + 1;
      PurgeCommand(amount, deleted) == Purged(amount + 1, amount)
  {
  }

  // ---------------------------------------------------------------------------
  // /slowmode
  // ---------------------------------------------------------------------------

  /** The longest slow mode, six hours in seconds. */
  const MaxSlowmode: int := 21600

  /** The outcome of `/slowmode`. */
  datatype SlowmodeReply =
    | SlowmodeOutOfRange            // refused; the channel is left as it was
    | Disabled                      // the delay is set to 0
    | SetTo(delay: int)             // the delay is set to `delay` seconds

  /** `/slowmode seconds`: a delay outside 0..21600 is refused; 0 switches
      slow mode off; anything else becomes the channel's delay. */
  function SlowmodeCommand(seconds: int): (r: SlowmodeReply)
    ensures r.SlowmodeOutOfRange? <==> seconds < 0 || seconds > MaxSlowmode
    ensures r.Disabled? <==> seconds == 0
    ensures r.SetTo? ==> r.delay == seconds && 0 < r.delay <= MaxSlowmode
  {
    if seconds < 0 || seconds > MaxSlowmode then SlowmodeOutOfRange
    else if seconds == 0 then Disabled
    else SetTo(seconds)
  }

  /** The delay the channel is left with, given the delay it had. */
  function DelayAfter(before: int, r: SlowmodeReply): (after: int)
    ensures r.SlowmodeOutOfRange? ==> after == before
    ensures r.Disabled? ==> after == 0
    ensures r.SetTo? ==> after == r.delay
  {
    match r
    case SlowmodeOutOfRange => before
    case Disabled => 0
    case SetTo(d) => d
  }

  /** After an accepted `/slowmode`, the channel's delay is the one asked for
      and lies within 0..21600. */
  lemma SlowmodeApplied(before: int, seconds: int)
    requires 0 <= seconds <= MaxSlowmode
    ensures DelayAfter(before, SlowmodeCommand(seconds)) == seconds
  {
  }

  // ---------------------------------------------------------------------------
  // Spam filter
  // ---------------------------------------------------------------------------

  /** The keywords whose presence marks a message as spam. */
  const SpamKeywords: seq<string> := ["spam", "scam", "free money", "click here", "http://bit.ly"]

  /** What the listener does with a message, in order. */
  datatype SpamAction =
    | DeleteRefused    // deletion attempted but forbidden; the next keyword is tried
    | Deleted          // the message was deleted
    | Warned           // the author was told why

  /**
    The actions for the keywords `ks` on the lowered text: at the first
    keyword found, the message is deleted and the author warned, and the
    listener stops; when deletion is forbidden it goes on with the next
    keyword.
  */
  function SpamFrom(ks: seq<string>, lowered: string, canDelete: bool): seq<SpamAction>
    decreases |ks|
  {
    if |ks| == 0 then []
    else if Contains(lowered, ks[0]) then
      if canDelete then [Deleted, Warned] else [DeleteRefused] + SpamFrom(ks[1..], lowered, canDelete)
    else SpamFrom(ks[1..], lowered, canDelete)
  }

  /** The listener's actions on a message; messages by bots are ignored. */
  function SpamActions(author: Author, content: string, canDelete: bool): seq<SpamAction>
  {
    if author.isBot then [] else SpamFrom(SpamKeywords, Lower(content), canDelete)
  }

  /** The listener's loop over the keywords. */
  method OnMessage(author: Author, content: string, canDelete: bool) returns (actions: seq<SpamAction>)
    ensures actions == SpamActions(author, content, canDelete)
  {
    actions := [];
    if author.isBot {
      return;
    }
    var lowered := Lower(content);
    var i := 0;
    while i < |SpamKeywords|
      invariant 0 <= i <= |SpamKeywords|
      invariant actions + SpamFrom(SpamKeywords[i..], lowered, canDelete)
                == SpamFrom(SpamKeywords, lowered, canDelete)
    {
      assert SpamKeywords[i..][1..] == SpamKeywords[i + 1..];
      if Contains(lowered, SpamKeywords[i]) {
        if canDelete {
          actions := actions + [Deleted, Warned];
          return;
        }
        actions := actions + [DeleteRefused];
      }
      i := i + 1;
    }
  }

  /** Some deletion is attempted exactly when some keyword occurs. */
  lemma {:induction false} SpamFromActs(ks: seq<string>, lowered: string, canDelete: bool)
    ensures SpamFrom(ks, lowered, canDelete) != [] <==> exists k :: k in ks && Contains(lowered, k)
    decreases |ks|
  {
    if |ks| > 0 {
      SpamFromActs(ks[1..], lowered, canDelete);
      assert forall k :: k in ks <==> k == ks[0] || k in ks[1..];
      if Contains(lowered, ks[0]) {
        assert ks[0] in ks;
      } else {
        assert (exists k :: k in ks && Contains(lowered, k)) <==> (exists k :: k in ks[1..] && Contains(lowered, k));
      }
    }
  }

  /** A deletion that succeeds is the last one: it is followed by exactly one
      warning and nothing else; when deletion is forbidden, no warning is sent
      and one attempt is made per keyword found. */
  lemma {:induction false} SpamFromShape(ks: seq<string>, lowered: string, canDelete: bool)
    ensures var acts := SpamFrom(ks, lowered, canDelete);
      && (canDelete ==> acts == [] || acts == [Deleted, Warned])
      && (!canDelete ==> forall i :: 0 <= i < |acts| ==> acts[i] == DeleteRefused)
      && (!canDelete ==> |acts| == |Found(ks, lowered)|)
    decreases |ks|
  {
    if |ks| > 0 {
      SpamFromShape(ks[1..], lowered, canDelete);
    }
  }

  /** The keywords of `ks` that occur in the text, in order. */
  function Found(ks: seq<string>, lowered: string): (r: seq<string>)
    ensures forall k :: k in r <==> k in ks && Contains(lowered, k)
    decreases |ks|
  {
    if |ks| == 0 then []
    else
      var rest := Found(ks[1..], lowered);
      assert forall k :: k in ks <==> k == ks[0] || k in ks[1..];
      (if Contains(lowered, ks[0]) then [ks[0]] else []) + rest
  }

  /** A human's message is acted on exactly when its lowered text contains a
      spam keyword, and a deleted message is warned about once. */
  lemma SpamFilterSound(author: Author, content: string, canDelete: bool)
    ensures var acts := SpamActions(author, content, canDelete);
      && (acts != [] <==> !author.isBot && exists k :: k in SpamKeywords && Contains(Lower(content), k))
      && (Deleted in acts ==> acts == [Deleted, Warned])
  {
    SpamFromActs(SpamKeywords, Lower(content), canDelete);
    SpamFromShape(SpamKeywords, Lower(content), canDelete);
  }

  /** Matching ignores the case of ASCII letters: lowering again changes
      nothing. */
  lemma LowerIdempotent(s: string)
    ensures Lower(Lower(s)) == Lower(s)
  {
  }
}
