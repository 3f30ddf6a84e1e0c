/**
  The governance cog: `/propose` posts a proposal embed with two vote
  buttons and stores the proposal, `/proposals` lists the ten newest, and a
  button click records one vote per user and refreshes the embed's tallies.

  A click names its proposal only through the embed title
  "🏛️ Proposal #<id>: <title>", which the voting view parses back.
*/
module Governance {
  import opened Wrappers
  import opened PyText
  import opened Database
  import opened Chat

  // ---------------------------------------------------------------------------
  // Embed titles and the id parsed back from them
  // ---------------------------------------------------------------------------

  /** The title of a posted proposal once its id is known. */
  function ProposalTitle(id: int, title: string): string
  {
    "🏛️ Proposal #" + FormatInt(id) + ": " + title
  }

  /** The title the embed carries before the database has assigned an id. */
  function PlaceholderTitle(title: string): string
  {
    "🏛️ Proposal: " + title
  }

  /**
    `int(title.split("#")[1].split(":")[0])` on the first embed's title;
    `None` when there is no embed title, no `#`, or the piece is not an
    integer (each of which raises inside the handler's `try`).
  */
  function ParseProposalId(title: Option<string>): Option<int>
  {
    if title.None? then None
    else
      var pieces := Split(title.value, '#');
      if |pieces| < 2 then None else ParseInt(Split(pieces[1], ':')[0])
  }

  /** Any text without `#`, then `#<id>:`, then anything, parses back to the id. */
  lemma IdRoundTrip(prefix: string, id: int, rest: string)
    requires '#' !in prefix
    ensures ParseProposalId(Some(prefix + "#" + FormatInt(id) + ":" + rest)) == Some(id)
  {
    var digits := FormatInt(id);
    FormatIntChars(id, '#');
    FormatIntChars(id, ':');
    var after := digits + ":" + rest;
    var text := prefix + "#" + digits + ":" + rest;
    assert text == prefix + ['#'] + after;
    SplitAtFirst(prefix, '#', after);
    var pieces := Split(text, '#');
    assert pieces[1] == Split(after, '#')[0];
    assert after == (digits + ":") + rest;
    SplitFirstPiece(digits + ":", '#', rest);
    assert pieces[1] == digits + [':'] + Split(rest, '#')[0];
    SplitAtFirst(digits, ':', Split(rest, '#')[0]);
    ParseFormatInt(id);
  }

  /** The final title of a proposal parses back to its id, whatever its text. */
  lemma TitleRoundTrip(id: int, title: string)
    ensures ParseProposalId(Some(ProposalTitle(id, title))) == Some(id)
  {
    var prefix := "🏛️ Proposal ";
    assert '#' !in prefix;
    assert ProposalTitle(id, title) == prefix + "#" + FormatInt(id) + ":" + (" " + title);
    IdRoundTrip(prefix, id, " " + title);
  }

  /** The placeholder title of a proposal whose text has no `#` parses to nothing. */
  lemma PlaceholderUnparsed(title: string)
    requires '#' !in title
    ensures ParseProposalId(Some(PlaceholderTitle(title))) == None
  {
    var t := PlaceholderTitle(title);
    assert '#' !in "🏛️ Proposal: ";
    assert '#' !in t;
    SplitNoSeparator(t, '#');
  }

  // ---------------------------------------------------------------------------
  // Which proposal a click is counted against
  // ---------------------------------------------------------------------------

  /**
    The proposal a click is counted against by a view holding `cached`: the
    view's own id, or, for a view holding 0, the id parsed from the clicked
    message's title.
  */
  function TargetOf(cached: int, title: Option<string>): (r: Option<int>)
    ensures cached != 0 ==> r == Some(cached)
    ensures cached == 0 ==> r == ParseProposalId(title)
  {
    if cached != 0 then Some(cached) else ParseProposalId(title)
  }

  /** What the view holds after a click: a view holding 0 keeps the first id it parses. */
  function CacheAfter(cached: int, title: Option<string>): (c: int)
    ensures cached != 0 ==> c == cached
    ensures cached == 0 && ParseProposalId(title).None? ==> c == 0
    ensures cached == 0 && ParseProposalId(title).Some? ==> c == ParseProposalId(title).value
  {
    if cached != 0 then cached
    else
      match ParseProposalId(title)
      case Some(n) => n
      case None => 0
  }

  /** The targets of a series of clicks handled by one view, as written: the
      view's id is updated after every click. */
  function AsWrittenTargets(cached: int, titles: seq<Option<string>>): (r: seq<Option<int>>)
    ensures |r| == |titles|
    decreases |titles|
  {
    if |titles| == 0 then []
    else [TargetOf(cached, titles[0])] + AsWrittenTargets(CacheAfter(cached, titles[0]), titles[1..])
  }

  /** The targets of a series of clicks handled by a view whose id never changes. */
  function FixedTargets(cached: int, titles: seq<Option<string>>): (r: seq<Option<int>>)
    ensures |r| == |titles|
    ensures forall i :: 0 <= i < |titles| ==> r[i] == TargetOf(cached, titles[i])
  {
    seq(|titles|, i requires 0 <= i < |titles| => TargetOf(cached, titles[i]))
  }

  /** A view holding a non-zero id counts every click against that id. */
  lemma {:induction false} CachedTargetsConstant(cached: int, titles: seq<Option<string>>)
    requires cached != 0
    ensures forall i :: 0 <= i < |titles| ==> AsWrittenTargets(cached, titles)[i] == Some(cached)
    decreases |titles|
  {
    if |titles| > 0 {
      CachedTargetsConstant(cached, titles[1..]);
      var r := AsWrittenTargets(cached, titles);
      assert r == [Some(cached)] + AsWrittenTargets(cached, titles[1..]);
    }
  }

  /**
    As written, the catch-all view (registered with id 0 at start-up) counts
    every click against the first proposal it was clicked on, whichever
    proposal's message the later clicks come from.
  */
  lemma AsWrittenTargetsStick(first: int, text: string, titles: seq<Option<string>>)
    requires first != 0
    requires |titles| >= 1 && titles[0] == Some(ProposalTitle(first, text))
    ensures forall i :: 0 <= i < |titles| ==> AsWrittenTargets(0, titles)[i] == Some(first)
  {
    TitleRoundTrip(first, text);
    assert CacheAfter(0, titles[0]) == first;
    CachedTargetsConstant(first, titles[1..]);
    assert AsWrittenTargets(0, titles) == [Some(first)] + AsWrittenTargets(first, titles[1..]);
  }

  /** Two clicks after a restart, on proposal `a`'s message and then on
      proposal `b`'s (for instance 1 and 2): as written both are counted
      against `a`; with a view whose id does not change, the second is
      counted against `b`. */
  lemma RestartMisroutesSecondVote(a: int, x: string, b: int, y: string)
    requires a != 0 && a != b
    ensures var titles := [Some(ProposalTitle(a, x)), Some(ProposalTitle(b, y))];
      && AsWrittenTargets(0, titles) == [Some(a), Some(a)]
      && FixedTargets(0, titles) == [Some(a), Some(b)]
  {
    var titles := [Some(ProposalTitle(a, x)), Some(ProposalTitle(b, y))];
    AsWrittenTargetsStick(a, x, titles);
    FixedTargetsFollowClicks([a, b], [x, y], titles);
  }

  /** A view whose id does not change counts each click on a proposal message
      against the proposal that message shows. */
  lemma FixedTargetsFollowClicks(ids: seq<int>, texts: seq<string>, titles: seq<Option<string>>)
    requires |ids| == |titles| == |texts|
    requires forall i :: 0 <= i < |titles| ==> titles[i] == Some(ProposalTitle(ids[i], texts[i]))
    ensures forall i :: 0 <= i < |titles| ==> FixedTargets(0, titles)[i] == Some(ids[i])
  {
    forall i | 0 <= i < |titles|
      ensures FixedTargets(0, titles)[i] == Some(ids[i])
    {
      TitleRoundTrip(ids[i], texts[i]);
    }
  }

  // ---------------------------------------------------------------------------
  // Recording a vote
  // ---------------------------------------------------------------------------

  /** The ephemeral reply to a click. */
  datatype VoteReply = CouldNotIdentify | NotFound | AlreadyVoted | Recorded | VoteFailed

  /**
    The effect of one vote by `uid` of kind `t` on proposal `pid`, from the
    tables before (`ps`, `vs`) to the tables after (`ps2`, `vs2`): an unknown
    proposal or a second vote changes nothing; otherwise the vote row is
    added and the proposal's tally grows by one.
  */
  ghost predicate VoteApplied(ps: map<int, Proposal>, vs: map<(int, int), VoteType>,
                              ps2: map<int, Proposal>, vs2: map<(int, int), VoteType>,
                              pid: int, uid: int, t: VoteType, reply: VoteReply)
  {
    if pid !in ps then
      reply == NotFound && ps2 == ps && vs2 == vs
    else if (pid, uid) in vs then
      reply == AlreadyVoted && ps2 == ps && vs2 == vs
    else
      reply == Recorded && vs2 == vs[(pid, uid) := t] && ps2 == ps[pid := WithVote(ps[pid], t)]
  }

  /** A vote once recorded is never lost: every earlier vote stays, and after
      a vote on an existing proposal the voter is in the ledger. */
  lemma VoteIsPermanent(ps: map<int, Proposal>, vs: map<(int, int), VoteType>,
                        ps2: map<int, Proposal>, vs2: map<(int, int), VoteType>,
                        pid: int, uid: int, t: VoteType, reply: VoteReply)
    requires VoteApplied(ps, vs, ps2, vs2, pid, uid, t, reply)
    ensures forall key :: key in vs ==> key in vs2 && vs2[key] == vs[key]
    ensures pid in ps ==> (pid, uid) in vs2
    ensures ps2.Keys == ps.Keys
  {
  }

  /** A vote keeps the ledger and the tallies in agreement. */
  lemma VoteAppliedKeepsTallies(ps: map<int, Proposal>, vs: map<(int, int), VoteType>,
                                ps2: map<int, Proposal>, vs2: map<(int, int), VoteType>,
                                pid: int, uid: int, t: VoteType, reply: VoteReply)
    requires TalliesMatch(ps, vs)
    requires VoteApplied(ps, vs, ps2, vs2, pid, uid, t, reply)
    ensures TalliesMatch(ps2, vs2)
  {
    if pid in ps && (pid, uid) !in vs {
      VoteKeepsTallies(ps, vs, pid, uid, t);
    }
  }

  /** Once a user's vote on a proposal is recorded, any later vote by the same
      user on it is rejected and changes nothing. */
  lemma SecondVoteRejected(ps: map<int, Proposal>, vs: map<(int, int), VoteType>,
                           ps2: map<int, Proposal>, vs2: map<(int, int), VoteType>,
                           ps3: map<int, Proposal>, vs3: map<(int, int), VoteType>,
                           pid: int, uid: int, t: VoteType, t2: VoteType, reply: VoteReply, reply2: VoteReply)
    requires VoteApplied(ps, vs, ps2, vs2, pid, uid, t, reply) && reply == Recorded
    requires VoteApplied(ps2, vs2, ps3, vs3, pid, uid, t2, reply2)
    ensures reply2 == AlreadyVoted && ps3 == ps2 && vs3 == vs2
  {
  }

  /**
    The part of `register_vote` after the proposal id is known: look the
    proposal up, refuse a second vote, insert the vote row and write the
    tally read before the insert plus one.
  */
  method CastVote(db: Store, pid: int, uid: int, t: VoteType) returns (reply: VoteReply)
    requires db.Valid()
    modifies db
    ensures db.Valid()
    ensures VoteApplied(old(db.proposals), old(db.votes), db.proposals, db.votes, pid, uid, t, reply)
    ensures db.nextId == old(db.nextId) && db.users == old(db.users)
    ensures old(db.TalliesMatchLedger()) ==> db.TalliesMatchLedger()
  {
    ghost var ps, vs := db.proposals, db.votes;
    var proposal := db.GetProposal(pid);
    if proposal.None? {
      return NotFound;
    }
    if db.HasVoted(pid, uid) {
      return AlreadyVoted;
    }
    var ok := db.AddVote(pid, uid, t);
    if ok {
      var p := proposal.value;
      var votesYes := p.votesYes + (if t == Yes then 1 else 0);
      var votesNo := p.votesNo + (if t == No then 1 else 0);
      db.UpdateProposalVotes(pid, votesYes, votesNo);
      reply := Recorded;
      assert db.proposals == ps[pid := WithVote(ps[pid], t)];
      if TalliesMatch(ps, vs) {
        VoteAppliedKeepsTallies(ps, vs, db.proposals, db.votes, pid, uid, t, reply);
      }
    } else {
      assert false;
      reply := VoteFailed;
    }
  }

  /** `PersistentVotingView`: the two vote buttons and the proposal id they act on. */
  class VotingView {
    var proposalId: int

    constructor (proposalId: int)
      ensures this.proposalId == proposalId
    {
      this.proposalId := proposalId;
    }

    /**
      `register_vote` as written: a view holding 0 parses the id from the
      clicked message's title and keeps it for every later click.
    */
    method RegisterVote(db: Store, title: Option<string>, uid: int, t: VoteType) returns (reply: VoteReply)
      requires db.Valid()
      modifies this, db
      ensures db.Valid()
      ensures proposalId == CacheAfter(old(proposalId), title)
      ensures TargetOf(old(proposalId), title).None? ==>
        reply == CouldNotIdentify && db.proposals == old(db.proposals) && db.votes == old(db.votes)
      ensures TargetOf(old(proposalId), title).Some? ==>
        VoteApplied(old(db.proposals), old(db.votes), db.proposals, db.votes,
                    TargetOf(old(proposalId), title).value, uid, t, reply)
      ensures db.nextId == old(db.nextId) && db.users == old(db.users)
      ensures old(db.TalliesMatchLedger()) ==> db.TalliesMatchLedger()
    {
      if proposalId == 0 {
        var parsed := ParseProposalId(title);
        if parsed.None? {
          return CouldNotIdentify;
        }
        proposalId := parsed.value;
      }
      reply := CastVote(db, proposalId, uid, t);
    }

    /**
      `register_vote` with the id left unchanged: a view holding 0 parses the
      clicked message's title on every click, so each vote is counted against
      the proposal whose buttons were pressed.
    */
    method RegisterVoteFixed(db: Store, title: Option<string>, uid: int, t: VoteType) returns (reply: VoteReply)
      requires db.Valid()
      modifies db
      ensures db.Valid()
      ensures TargetOf(proposalId, title).None? ==>
        reply == CouldNotIdentify && db.proposals == old(db.proposals) && db.votes == old(db.votes)
      ensures TargetOf(proposalId, title).Some? ==>
        VoteApplied(old(db.proposals), old(db.votes), db.proposals, db.votes,
                    TargetOf(proposalId, title).value, uid, t, reply)
      ensures db.nextId == old(db.nextId) && db.users == old(db.users)
      ensures old(db.TalliesMatchLedger()) ==> db.TalliesMatchLedger()
    {
      var target := TargetOf(proposalId, title);
      if target.None? {
        return CouldNotIdentify;
      }
      reply := CastVote(db, target.value, uid, t);
    }
  }

  // ---------------------------------------------------------------------------
  // /propose
  // ---------------------------------------------------------------------------

  /** The value of a tally field. */
  function VoteField(n: int): string
  {
    FormatInt(n) + " votes"
  }

  /** The number at the head of a tally field is the tally. */
  lemma VoteFieldShowsCount(n: int)
    ensures ParseInt(Split(VoteField(n), ' ')[0]) == Some(n)
  {
    FormatIntChars(n, ' ');
    assert VoteField(n) == FormatInt(n) + [' '] + "votes";
    SplitAtFirst(FormatInt(n), ' ', "votes");
    ParseFormatInt(n);
  }

  /** The two tally fields of a proposal embed. */
  function TallyFields(votesYes: int, votesNo: int): (fields: seq<Field>)
    ensures |fields| == 2
    ensures fields[0].name == "✅ For" && fields[1].name == "❌ Against"
  {
    [Field("✅ For", VoteField(votesYes)), Field("❌ Against", VoteField(votesNo))]
  }

  /** The outcome of `/propose`. */
  datatype ProposeReply =
    | NotAdmin
    | NoGovernanceChannel
    | Created(id: int, posted: Embed, edited: Embed, reply: string)

  /**
    `/propose title description`: administrators only; needs a channel named
    "governance"; posts the embed under a placeholder title, stores the
    proposal with the posted message's id, then retitles the embed with the
    new id.
  */
  method ProposeCommand(db: Store, isAdmin: bool, channels: seq<Channel>, author: Author,
                        title: string, description: string, messageId: int, now: int)
    returns (r: ProposeReply)
    requires db.Valid()
    modifies db
    ensures db.Valid()
    ensures !isAdmin ==> r == NotAdmin
    ensures isAdmin && FindChannel(channels, "governance").None? ==> r == NoGovernanceChannel
    ensures isAdmin && FindChannel(channels, "governance").Some? ==> r.Created?
    ensures !r.Created? ==> db.proposals == old(db.proposals) && db.nextId == old(db.nextId)
    ensures r.Created? ==>
      && isAdmin && FindChannel(channels, "governance").Some?
      && r.id == old(db.nextId) && r.id !in old(db.proposals)
      && db.proposals == old(db.proposals)[r.id := Proposal(r.id, title, description, author.id, author.name,
                                                            0, 0, messageId,
                                                            FindChannel(channels, "governance").value.id, now)]
      && r.posted == Embed(PlaceholderTitle(title), description, TallyFields(0, 0), "Proposed by " + author.name)
      && r.edited == r.posted.(title := ProposalTitle(r.id, title))
      && ParseProposalId(Some(r.edited.title)) == Some(r.id)
      && r.reply == "✅ Proposal #" + FormatInt(r.id) + " created!"
    ensures db.votes == old(db.votes) && db.users == old(db.users)
    ensures old(db.TalliesMatchLedger()) ==> db.TalliesMatchLedger()
  {
    if !isAdmin {
      return NotAdmin;
    }
    var channel := FindChannel(channels, "governance");
    if channel.None? {
      return NoGovernanceChannel;
    }
    var posted := Embed(PlaceholderTitle(title), description, TallyFields(0, 0), "Proposed by " + author.name);
    var id := db.CreateProposal(title, description, author.id, author.name, messageId, channel.value.id, now);
    var edited := posted.(title := ProposalTitle(id, title));
    TitleRoundTrip(id, title);
    r := Created(id, posted, edited, "✅ Proposal #" + FormatInt(id) + " created!");
  }

  // ---------------------------------------------------------------------------
  // /proposals
  // ---------------------------------------------------------------------------

  /** The status mark of a proposal: green when more for, red when more
      against, white on a tie. */
  function Status(votesYes: int, votesNo: int): (mark: string)
    ensures mark == "🟢" <==> votesYes > votesNo
    ensures mark == "🔴" <==> votesNo > votesYes
    ensures mark == "⚪" <==> votesYes == votesNo
  {
    if votesYes > votesNo then "🟢" else if votesNo > votesYes then "🔴" else "⚪"
  }

  /** The listing field of one proposal. */
  function ProposalField(p: Proposal): Field
  {
    Field("#" + FormatInt(p.id) + ": " + p.title,
          Status(p.votesYes, p.votesNo) + " ✅" + FormatInt(p.votesYes) + " | ❌" + FormatInt(p.votesNo))
  }

  /** A listing field's name parses back to the proposal's id. */
  lemma ProposalFieldNamesId(p: Proposal)
    ensures ParseProposalId(Some(ProposalField(p).name)) == Some(p.id)
  {
    assert ProposalField(p).name == "" + "#" + FormatInt(p.id) + ":" + (" " + p.title);
    IdRoundTrip("", p.id, " " + p.title);
  }

  /** The outcome of `/proposals`. */
  datatype ProposalsReply = NoProposals | Listed(shown: seq<Proposal>, fields: seq<Field>)

  /** How many proposals the listing shows. */
  const ListingSize: nat := 10

  /**
    `/proposals`: the ten newest proposals (all of them when fewer), newest
    first, one field each; no proposal left out is newer than one shown.
  */
  method ProposalsCommand(db: Store) returns (r: ProposalsReply)
    requires db.Valid()
    ensures r.NoProposals? <==> |db.proposals| == 0
    ensures r.Listed? ==>
      && |r.shown| == (if |db.proposals| < ListingSize then |db.proposals| else ListingSize)
      && |r.fields| == |r.shown|
      && (forall i :: 0 <= i < |r.shown| ==> r.fields[i] == ProposalField(r.shown[i]))
      && (forall i :: 0 <= i < |r.shown| ==>
            r.shown[i].id in db.proposals && db.proposals[r.shown[i].id] == r.shown[i])
      && (forall i, j :: 0 <= i < j < |r.shown| ==> r.shown[i].id != r.shown[j].id)
      && NonIncreasing(r.shown, CreatedAt)
      && (forall id, i :: id in db.proposals && id !in ProposalIds(r.shown) && 0 <= i < |r.shown| ==>
            db.proposals[id].createdAt <= r.shown[i].createdAt)
  {
    var all := db.GetAllProposals();
    if |all| == 0 {
      return NoProposals;
    }
    var n := if |all| < ListingSize then |all| else ListingSize;
    var shown := all[..n];
    PrefixOfListing(db.proposals, all, n);
    var fields := ListingFields(shown);
    r := Listed(shown, fields);
  }

  /** The first `n` proposals of a complete listing ordered newest first
      are stored proposals, distinct, still newest first, and no proposal
      outside them is newer than one of them. */
  lemma PrefixOfListing(proposals: map<int, Proposal>, all: seq<Proposal>, n: nat)
    requires n <= |all|
    requires forall i :: 0 <= i < |all| ==> all[i].id in proposals && proposals[all[i].id] == all[i]
    requires forall i, j :: 0 <= i < j < |all| ==> all[i].id != all[j].id
    requires NonIncreasing(all, CreatedAt)
    requires forall id :: id in proposals ==> id in ProposalIds(all)
    ensures forall i :: 0 <= i < n ==> all[..n][i].id in proposals && proposals[all[..n][i].id] == all[..n][i]
    ensures forall i, j :: 0 <= i < j < n ==> all[..n][i].id != all[..n][j].id
    ensures NonIncreasing(all[..n], CreatedAt)
    ensures forall id, i :: id in proposals && id !in ProposalIds(all[..n]) && 0 <= i < n ==>
              proposals[id].createdAt <= all[..n][i].createdAt
  {
    forall id, k | id in proposals && id !in ProposalIds(all[..n]) && 0 <= k < n
      ensures proposals[id].createdAt <= all[k].createdAt
    {
      var j :| 0 <= j < |all| && ProposalIds(all)[j] == id;
      assert j >= n by {
        assert forall i :: 0 <= i < n ==> ProposalIds(all[..n])[i] == all[i].id;
      }
      assert all[j] == proposals[id];
    }
  }

  /** The loop adding one field per proposal shown. */
  method ListingFields(shown: seq<Proposal>) returns (fields: seq<Field>)
    ensures |fields| == |shown|
    ensures forall i :: 0 <= i < |shown| ==> fields[i] == ProposalField(shown[i])
  {
    fields := [];
    var i := 0;
    while i < |shown|
      invariant 0 <= i <= |shown|
      invariant |fields| == i
      invariant forall k :: 0 <= k < i ==> fields[k] == ProposalField(shown[k])
    {
      fields := fields + [ProposalField(shown[i])];
      i := i + 1;
    }
  }

  // ---------------------------------------------------------------------------
  // Refreshing a proposal embed
  // ---------------------------------------------------------------------------

  /** The outcome of `update_proposal_embed`. */
  datatype EmbedUpdate = Skipped | Edited(embed: Embed) | LoggedError

  /**
    `update_proposal_embed`: for a stored proposal, rewrite the first two
    fields of the fetched message's first embed with the current tallies.
    `fetched` is that embed, or `None` when the channel, the message or the
    embed cannot be had; an embed with fewer than two fields makes
    `set_field_at` raise. Every failure is logged and nothing is edited.
  */
  function UpdateProposalEmbed(proposal: Option<Proposal>, fetched: Option<Embed>): (u: EmbedUpdate)
    ensures proposal.None? <==> u.Skipped?
    ensures u.LoggedError? <==> proposal.Some? && (fetched.None? || |fetched.value.fields| < 2)
    ensures u.Edited? ==>
      && u.embed == fetched.value.(fields := u.embed.fields)
      && |u.embed.fields| == |fetched.value.fields|
      && u.embed.fields[..2] == TallyFields(proposal.value.votesYes, proposal.value.votesNo)
      && u.embed.fields[2..] == fetched.value.fields[2..]
  {
    if proposal.None? then Skipped
    else if fetched.None? || |fetched.value.fields| < 2 then LoggedError
    else
      var p := proposal.value;
      var e := fetched.value;
      var tally := TallyFields(p.votesYes, p.votesNo);
      Edited(e.(fields := e.fields[0 := tally[0]][1 := tally[1]]))
  }
}
