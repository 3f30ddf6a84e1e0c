/**
  The leaderboard cog: every message and every reaction by a human is meant
  to earn XP in `user_stats`. As written, the listeners' call to
  `update_user_stats` always fails, so nothing is recorded; the `Fixed`
  listeners use the corrected upsert. `/leaderboard` shows the ten users with
  the most XP and `/rank` shows one user's rank and counters.
*/
module Leaderboard {
  import opened Wrappers
  import opened PyText
  import opened Database
  import opened Chat

  // ---------------------------------------------------------------------------
  // Activity tracking
  // ---------------------------------------------------------------------------

  /** `on_message` as written: a message by a human calls `update_user_stats`,
      which always raises the binding error, so nothing is recorded; bots are
      ignored. */
  method OnMessage(db: Store, author: Author, now: int) returns (r: Result<(), DbError>)
    ensures author.isBot ==> r == Ok(())
    ensures !author.isBot ==> r == Err(BindingCountMismatch(UpsertPlaceholders, 5))
  {
    if author.isBot {
      return Ok(());
    }
    r := db.UpdateUserStats(author.id, author.name, 1, 0, 0, now);
  }

  /** `on_reaction_add` as written: a reaction by a human calls
      `update_user_stats`, which always raises, so nothing is recorded; bots
      are ignored. */
  method OnReactionAdd(db: Store, user: Author, now: int) returns (r: Result<(), DbError>)
    ensures user.isBot ==> r == Ok(())
    ensures !user.isBot ==> r == Err(BindingCountMismatch(UpsertPlaceholders, 5))
  {
    if user.isBot {
      return Ok(());
    }
    r := db.UpdateUserStats(user.id, user.name, 0, 1, 0, now);
  }

  /** `on_message` over the corrected upsert: a message by a human counts one
      message for its author; bots are ignored. */
  method OnMessageFixed(db: Store, author: Author, now: int)
    requires db.Valid()
    modifies db
    ensures db.Valid()
    ensures author.isBot ==> db.users == old(db.users)
    ensures !author.isBot ==> db.users == Upsert(old(db.users), author.id, author.name, 1, 0, 0, now)
    ensures db.proposals == old(db.proposals) && db.votes == old(db.votes) && db.nextId == old(db.nextId)
    ensures old(XpConsistent(db.users)) ==> XpConsistent(db.users)
  {
    if author.isBot {
      return;
    }
    db.RecordActivity(author.id, author.name, 1, 0, 0, now);
  }

  /** `on_reaction_add` over the corrected upsert: a reaction by a human
      counts one reaction for the user who reacted; bots are ignored. */
  method OnReactionAddFixed(db: Store, user: Author, now: int)
    requires db.Valid()
    modifies db
    ensures db.Valid()
    ensures user.isBot ==> db.users == old(db.users)
    ensures !user.isBot ==> db.users == Upsert(old(db.users), user.id, user.name, 0, 1, 0, now)
    ensures db.proposals == old(db.proposals) && db.votes == old(db.votes) && db.nextId == old(db.nextId)
    ensures old(XpConsistent(db.users)) ==> XpConsistent(db.users)
  {
    if user.isBot {
      return;
    }
    db.RecordActivity(user.id, user.name, 0, 1, 0, now);
  }

  /** A user's XP after some messages and reactions, starting from no row: ten
      per message and five per reaction. */
  lemma {:induction false} ActivityEarnsXp(users: map<int, UserStats>, uid: int, name: string,
                                           messages: nat, reactions: nat, now: int)
    requires uid !in users
    ensures var r := Upsert(Upsert(users, uid, name, messages, 0, 0, now), uid, name, 0, reactions, 0, now);
      && r[uid].messageCount == messages && r[uid].reactionCount == reactions
      && r[uid].xp == 10 * messages + 5 * reactions
  {
    UpsertAccumulates(users, uid, name, messages, 0, 0, now, name, 0, reactions, 0, now);
  }

  /** Messages and reactions never touch referral counts: every user keeps
      the count they had, and a new user starts at zero. */
  lemma ActivityKeepsReferrals(users: map<int, UserStats>, uid: int, name: string,
                               messages: int, reactions: int, now: int)
    ensures var r := Upsert(users, uid, name, messages, reactions, 0, now);
      forall id :: id in r ==> r[id].referralCount == (if id in users then users[id].referralCount else 0)
  {
  }

  // ---------------------------------------------------------------------------
  // /leaderboard
  // ---------------------------------------------------------------------------

  /** How many users the board shows. */
  const BoardSize: nat := 10

  /** The medal of each position on the board: gold, silver and bronze for
      the first three, a sports medal for the other seven. */
  function Medal(i: nat): string
    requires i < BoardSize
  {
    if i == 0 then "🥇" else if i == 1 then "🥈" else if i == 2 then "🥉" else "🏅"
  }

  /** The footer, stating the XP weights. */
  const Footer: string := "XP: Messages=" + "10" + ", Reactions=" + "5" + ", Referrals=" + "50"

  /** The footer states the weights the upsert uses. */
  lemma FooterStatesWeights()
    ensures Footer == "XP: Messages=" + FormatInt(MessageXp) + ", Reactions=" + FormatInt(ReactionXp)
                      + ", Referrals=" + FormatInt(ReferralXp)
  {
    assert DigitChar(0) == '0' && DigitChar(1) == '1' && DigitChar(5) == '5';
    assert FormatInt(MessageXp) == Decimal(1) + [DigitChar(0)] == "10";
    assert FormatInt(ReactionXp) == [DigitChar(5)] == "5";
    assert FormatInt(ReferralXp) == Decimal(5) + [DigitChar(0)] == "50";
  }

  /** The first line of a board entry: medal and bold name. */
  function NameLine(i: nat, u: UserStats): string
    requires i < BoardSize
  {
    Medal(i) + " **" + u.username + "**"
  }

  /** The second line of a board entry: XP, messages and reactions. */
  function StatsLine(u: UserStats): string
  {
    "   XP: `" + FormatInt(u.xp) + "` | 💬 " + FormatInt(u.messageCount) + " | 👍 " + FormatInt(u.reactionCount)
  }

  /** The two lines of each listed user, by position. */
  function EntryLines(rows: seq<UserStats>): (pairs: seq<(string, string)>)
    requires |rows| <= BoardSize
    ensures |pairs| == |rows|
    ensures forall i :: 0 <= i < |rows| ==> pairs[i] == (NameLine(i, rows[i]), StatsLine(rows[i]))
  {
    seq(|rows|, i requires 0 <= i < |rows| => (NameLine(i, rows[i]), StatsLine(rows[i])))
  }

  /** One entry: its two lines, each ended by a newline. */
  function EntryText(pair: (string, string)): string
  {
    pair.0 + "\n" + pair.1 + "\n"
  }

  /** The text of entries, one after the other. */
  function Entries(pairs: seq<(string, string)>): string
    decreases |pairs|
  {
    if |pairs| == 0 then "" else EntryText(pairs[0]) + Entries(pairs[1..])
  }

  /** The lines of entries, in order. */
  function Lines(pairs: seq<(string, string)>): (lines: seq<string>)
    ensures |lines| == 2 * |pairs|
    decreases |pairs|
  {
    if |pairs| == 0 then [] else [pairs[0].0, pairs[0].1] + Lines(pairs[1..])
  }

  /** The description of the board: the entries of the listed users. */
  function BoardDescription(rows: seq<UserStats>): string
    requires |rows| <= BoardSize
  {
    Entries(EntryLines(rows))
  }

  /** Appending one entry to the text of the entries before it. */
  lemma {:induction false} EntriesSnoc(pairs: seq<(string, string)>, p: (string, string))
    ensures Entries(pairs + [p]) == Entries(pairs) + EntryText(p)
    decreases |pairs|
  {
    if |pairs| == 0 {
      assert Entries([p]) == EntryText(p) + Entries([]);
    } else {
      assert (pairs + [p])[1..] == pairs[1..] + [p];
      EntriesSnoc(pairs[1..], p);
      var x, y, z := EntryText(pairs[0]), Entries(pairs[1..]), EntryText(p);
      assert Entries(pairs + [p]) == x + (y + z);
      assert x + (y + z) == (x + y) + z;
    }
  }

  /** The entries of a prefix one longer: one more entry at the end. */
  lemma EntriesPrefix(pairs: seq<(string, string)>, i: nat)
    requires i < |pairs|
    ensures Entries(pairs[..i + 1]) == Entries(pairs[..i]) + EntryText(pairs[i])
  {
    assert pairs[..i + 1] == pairs[..i] + [pairs[i]];
    EntriesSnoc(pairs[..i], pairs[i]);
  }

  /** No board line holds a newline when no listed name does. */
  lemma LinesHaveNoNewline(i: nat, u: UserStats)
    requires i < BoardSize && '\n' !in u.username
    ensures '\n' !in NameLine(i, u) && '\n' !in StatsLine(u)
  {
    FormatIntChars(u.xp, '\n');
    FormatIntChars(u.messageCount, '\n');
    FormatIntChars(u.reactionCount, '\n');
    assert '\n' !in Medal(i);
  }

  /** Entry text splits at its newlines into its lines, in order, followed by
      the empty piece after the last newline. */
  lemma {:induction false} EntriesSplit(pairs: seq<(string, string)>)
    requires forall i :: 0 <= i < |pairs| ==> '\n' !in pairs[i].0 && '\n' !in pairs[i].1
    ensures Split(Entries(pairs), '\n') == Lines(pairs) + [""]
    decreases |pairs|
  {
    if |pairs| > 0 {
      EntriesSplit(pairs[1..]);
      assert Entries(pairs) == pairs[0].0 + ['\n'] + pairs[0].1 + ['\n'] + Entries(pairs[1..]);
      SplitTwoPieces(pairs[0].0, pairs[0].1, '\n', Entries(pairs[1..]));
    }
  }

  /** The board description splits into each listed user's name line and
      stats line, in order, when no listed name holds a newline. */
  lemma BoardLines(rows: seq<UserStats>)
    requires |rows| <= BoardSize
    requires forall i :: 0 <= i < |rows| ==> '\n' !in rows[i].username
    ensures var lines := Split(BoardDescription(rows), '\n');
      && |lines| == 2 * |rows| + 1
      && (forall i :: 0 <= i < |rows| ==> lines[2 * i] == NameLine(i, rows[i]) && lines[2 * i + 1] == StatsLine(rows[i]))
      && lines[2 * |rows|] == ""
  {
    var pairs := EntryLines(rows);
    forall i | 0 <= i < |pairs|
      ensures '\n' !in pairs[i].0 && '\n' !in pairs[i].1
    {
      LinesHaveNoNewline(i, rows[i]);
    }
    EntriesSplit(pairs);
    LinesAt(pairs);
  }

  /** Position `2i` of the lines is the first line of entry `i`, `2i + 1` its
      second. */
  lemma {:induction false} LinesAt(pairs: seq<(string, string)>)
    ensures forall i :: 0 <= i < |pairs| ==> Lines(pairs)[2 * i] == pairs[i].0 && Lines(pairs)[2 * i + 1] == pairs[i].1
    decreases |pairs|
  {
    if |pairs| > 0 {
      LinesAt(pairs[1..]);
      var rest := Lines(pairs[1..]);
      assert Lines(pairs) == [pairs[0].0, pairs[0].1] + rest;
      forall i | 1 <= i < |pairs|
        ensures Lines(pairs)[2 * i] == pairs[i].0 && Lines(pairs)[2 * i + 1] == pairs[i].1
      {
        assert pairs[1..][i - 1] == pairs[i];
        assert Lines(pairs)[2 * i] == rest[2 * (i - 1)];
        assert Lines(pairs)[2 * i + 1] == rest[2 * (i - 1) + 1];
      }
    }
  }

  /** The reply to `/leaderboard`. */
  datatype BoardReply = NoData | Board(rows: seq<UserStats>, embed: Embed)

  /**
    `/leaderboard`: the ten users with the most XP (all when fewer), largest
    first, two lines each, medals by position; no user left out has more XP
    than a user shown.
  */
  method LeaderboardCommand(db: Store) returns (r: BoardReply)
    requires db.Valid()
    ensures r.NoData? <==> |db.users| == 0
    ensures r.Board? ==>
      && |r.rows| == (if |db.users| < BoardSize then |db.users| else BoardSize)
      && (forall i :: 0 <= i < |r.rows| ==> r.rows[i].userId in db.users && db.users[r.rows[i].userId] == r.rows[i])
      && (forall i, j :: 0 <= i < j < |r.rows| ==> r.rows[i].userId != r.rows[j].userId)
      && NonIncreasing(r.rows, Xp)
      && (forall uid, i :: uid in db.users && uid !in UserIds(r.rows) && 0 <= i < |r.rows| ==>
            db.users[uid].xp <= r.rows[i].xp)
      && r.embed.title == "🏆 Community Leaderboard"
      && r.embed.description == BoardDescription(r.rows)
      && r.embed.footer == Footer
  {
    var rows := db.GetLeaderboard(BoardSize);
    if |rows| == 0 {
      return NoData;
    }
    var text := BoardText(rows);
    r := Board(rows, Embed("🏆 Community Leaderboard", text, [], Footer));
  }

  /** The board text built entry by entry, as the command's loop does. */
  method BoardText(rows: seq<UserStats>) returns (text: string)
    requires |rows| <= BoardSize
    ensures text == BoardDescription(rows)
  {
    var pairs := EntryLines(rows);
    text := "";
    var i := 0;
    while i < |rows|
      invariant 0 <= i <= |rows|
      invariant text == Entries(pairs[..i])
    {
      EntriesPrefix(pairs, i);
      text := text + EntryText(pairs[i]);
      i := i + 1;
    }
    assert pairs[..i] == pairs;
  }

  // ---------------------------------------------------------------------------
  // /rank
  // ---------------------------------------------------------------------------

  /** The reply to `/rank`. */
  datatype RankReply = NoXpYet | Stats(fields: seq<Field>)

  /** `/rank`: the caller's rank and counters, or a hint to start chatting
      when the caller has no row. */
  function RankCommand(db: Store, uid: int): (r: RankReply)
    reads db
    ensures r.NoXpYet? <==> uid !in db.users
    ensures r.Stats? ==>
      && |r.fields| == 5
      && r.fields[0] == Field("🏆 Rank", "#" + FormatInt(Rank(db.users, uid)))
      && 1 <= Rank(db.users, uid) <= |db.users|
      && r.fields[1] == Field("⭐ XP", FormatInt(db.users[uid].xp))
      && r.fields[2] == Field("💬 Messages", FormatInt(db.users[uid].messageCount))
      && r.fields[3] == Field("👍 Reactions", FormatInt(db.users[uid].reactionCount))
      && r.fields[4] == Field("👥 Referrals", FormatInt(db.users[uid].referralCount))
  {
    var rankAndStats := db.GetUserRank(uid);
    var rank := rankAndStats.0;
    var stats := rankAndStats.1;
    if stats.None? then NoXpYet
    else
      var u := stats.value;
      Stats([Field("🏆 Rank", "#" + FormatInt(rank)),
             Field("⭐ XP", FormatInt(u.xp)),
             Field("💬 Messages", FormatInt(u.messageCount)),
             Field("👍 Reactions", FormatInt(u.reactionCount)),
             Field("👥 Referrals", FormatInt(u.referralCount))])
  }
}
