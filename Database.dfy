/**
  The bot's persistent store: the `proposals`, `votes` and `user_stats` tables
  and the functions that read and write them.

  Each table becomes a map keyed by its primary or unique key; the SQLite
  engine, its connections and its `CURRENT_TIMESTAMP` are not modelled: a
  timestamp is an abstract clock reading `now` handed to the operations that
  stamp a row.
*/
module Database {
  import opened Wrappers

  // ---------------------------------------------------------------------------
  // Rows
  // ---------------------------------------------------------------------------

  datatype VoteType = Yes | No

  /** A row of `proposals`; `votesYes`/`votesNo` cache the vote tally. */
  datatype Proposal = Proposal(
    id: int,
    title: string,
    description: string,
    authorId: int,
    authorName: string,
    votesYes: int,
    votesNo: int,
    messageId: int,
    channelId: int,
    createdAt: int)

  /** A row of `user_stats`. */
  datatype UserStats = UserStats(
    userId: int,
    username: string,
    messageCount: int,
    reactionCount: int,
    referralCount: int,
    xp: int,
    lastActive: int)

  /** A value bound to a `?` placeholder of a statement. */
  datatype SqlValue = SqlInt(i: int) | SqlText(s: string)

  /** sqlite3's `ProgrammingError: Incorrect number of bindings supplied`. */
  datatype DbError = BindingCountMismatch(placeholders: nat, supplied: nat)

  function CreatedAt(p: Proposal): int { p.createdAt }

  function Xp(u: UserStats): int { u.xp }

  // ---------------------------------------------------------------------------
  // XP weights and the user_stats upsert
  // ---------------------------------------------------------------------------

  const MessageXp: int := 10
  const ReactionXp: int := 5
  const ReferralXp: int := 50

  /** The XP earned by the given numbers of messages, reactions and referrals. */
  function XpFor(messages: int, reactions: int, referrals: int): int
  {
    messages * MessageXp + reactions * ReactionXp + referrals * ReferralXp
  }

  /** Every row's `xp` is the weighted sum of its three counters. */
  ghost predicate XpConsistent(users: map<int, UserStats>)
  {
    forall uid :: uid in users ==>
      users[uid].xp == XpFor(users[uid].messageCount, users[uid].reactionCount, users[uid].referralCount)
  }

  /**
    The upsert of `update_user_stats`: a new user gets the deltas as its
    counters and the XP they are worth; an existing user (ON CONFLICT) gets the
    deltas added to its counters and their XP added to its `xp`. The name and
    the activity time are overwritten either way; no other row changes.
  */
  function Upsert(users: map<int, UserStats>, uid: int, name: string,
                  messages: int, reactions: int, referrals: int, now: int): (r: map<int, UserStats>)
    ensures r.Keys == users.Keys + {uid}
    ensures forall other :: other in users && other != uid ==> r[other] == users[other]
    ensures r[uid].userId == uid && r[uid].username == name && r[uid].lastActive == now
    ensures uid !in users ==>
      r[uid] == UserStats(uid, name, messages, reactions, referrals, XpFor(messages, reactions, referrals), now)
    ensures uid in users ==>
      && r[uid].messageCount == users[uid].messageCount + messages
      && r[uid].reactionCount == users[uid].reactionCount + reactions
      && r[uid].referralCount == users[uid].referralCount + referrals
      && r[uid].xp == users[uid].xp + messages * 10 + reactions * 5 + referrals * 50
  {
    if uid in users then
      var u := users[uid];
      users[uid := UserStats(uid, name,
                             u.messageCount + messages,
                             u.reactionCount + reactions,
                             u.referralCount + referrals,
                             u.xp + XpFor(messages, reactions, referrals),
                             now)]
    else
      users[uid := UserStats(uid, name, messages, reactions, referrals, XpFor(messages, reactions, referrals), now)]
  }

  /** The upsert keeps every row's `xp` equal to the weighted sum of its counters. */
  lemma UpsertKeepsXpConsistent(users: map<int, UserStats>, uid: int, name: string,
                                messages: int, reactions: int, referrals: int, now: int)
    requires XpConsistent(users)
    ensures XpConsistent(Upsert(users, uid, name, messages, reactions, referrals, now))
  {
    var r := Upsert(users, uid, name, messages, reactions, referrals, now);
    forall k | k in r
      ensures r[k].xp == XpFor(r[k].messageCount, r[k].reactionCount, r[k].referralCount)
    {
      if k == uid && uid in users {
        var u := users[uid];
        assert r[k].xp == u.xp + XpFor(messages, reactions, referrals);
        assert u.xp == XpFor(u.messageCount, u.reactionCount, u.referralCount);
      }
    }
  }

  /** Two upserts for one user equal one upsert with the summed deltas and the
      later name and time. */
  lemma {:induction false} UpsertAccumulates(users: map<int, UserStats>, uid: int,
                                             name1: string, m1: int, r1: int, f1: int, t1: int,
                                             name2: string, m2: int, r2: int, f2: int, t2: int)
    ensures Upsert(Upsert(users, uid, name1, m1, r1, f1, t1), uid, name2, m2, r2, f2, t2)
         == Upsert(users, uid, name2, m1 + m2, r1 + r2, f1 + f2, t2)
  {
    var once := Upsert(users, uid, name1, m1, r1, f1, t1);
    var twice := Upsert(once, uid, name2, m2, r2, f2, t2);
    var summed := Upsert(users, uid, name2, m1 + m2, r1 + r2, f1 + f2, t2);
    assert XpFor(m1, r1, f1) + XpFor(m2, r2, f2) == XpFor(m1 + m2, r1 + r2, f1 + f2);
    assert twice[uid] == summed[uid];
    assert twice.Keys == summed.Keys;
  }

  /** With non-negative deltas no counter and no XP ever decreases. */
  lemma UpsertMonotone(users: map<int, UserStats>, uid: int, name: string,
                       messages: nat, reactions: nat, referrals: nat, now: int)
    requires uid in users
    ensures var r := Upsert(users, uid, name, messages, reactions, referrals, now);
      && r[uid].messageCount >= users[uid].messageCount
      && r[uid].reactionCount >= users[uid].reactionCount
      && r[uid].referralCount >= users[uid].referralCount
      && r[uid].xp >= users[uid].xp
  {
  }

  /** The placeholders of the upsert statement: user_id, username, the three
      counters and xp (last_active is CURRENT_TIMESTAMP). */
  const UpsertPlaceholders: nat := 6

  /** The values the call binds to them: no value for xp. */
  function UpsertBindings(uid: int, name: string, messages: int, reactions: int, referrals: int): seq<SqlValue>
  {
    [SqlInt(uid), SqlText(name), SqlInt(messages), SqlInt(reactions), SqlInt(referrals)]
  }

  /** sqlite3 refuses to run a statement whose placeholder count differs from
      the number of values supplied. */
  function Bind(placeholders: nat, values: seq<SqlValue>): (r: Option<DbError>)
    ensures r.None? <==> |values| == placeholders
  {
    if |values| == placeholders then None else Some(BindingCountMismatch(placeholders, |values|))
  }

  /** `update_user_stats` as written: the statement is executed only if its
      bindings are accepted, and then performs the upsert. */
  function UpsertAsWritten(users: map<int, UserStats>, uid: int, name: string,
                           messages: int, reactions: int, referrals: int, now: int): Result<map<int, UserStats>, DbError>
  {
    match Bind(UpsertPlaceholders, UpsertBindings(uid, name, messages, reactions, referrals))
    case Some(e) => Err(e)
    case None => Ok(Upsert(users, uid, name, messages, reactions, referrals, now))
  }

  /** Every call of `update_user_stats` as written fails with a binding-count
      error (six placeholders, five values) and leaves `user_stats` as it was. */
  lemma UpsertAsWrittenAlwaysFails(users: map<int, UserStats>, uid: int, name: string,
                                   messages: int, reactions: int, referrals: int, now: int)
    ensures UpsertAsWritten(users, uid, name, messages, reactions, referrals, now) == Err(BindingCountMismatch(6, 5))
  {
  }

  // ---------------------------------------------------------------------------
  // ORDER BY ... DESC
  // ---------------------------------------------------------------------------

  /** `s` is ordered by `key`, largest first. */
  predicate NonIncreasing<T>(s: seq<T>, key: T -> int)
  {
    forall i, j :: 0 <= i < j < |s| ==> key(s[i]) >= key(s[j])
  }

  /** How many leading elements of an ordered list have a key above `x`'s:
      where `x` goes so that the list stays ordered. */
  function InsertPosition<T>(s: seq<T>, x: T, key: T -> int): (k: nat)
    requires NonIncreasing(s, key)
    ensures k <= |s|
    ensures forall i :: 0 <= i < k ==> key(s[i]) > key(x)
    ensures forall i :: k <= i < |s| ==> key(s[i]) <= key(x)
    decreases |s|
  {
    if |s| == 0 || key(s[0]) <= key(x) then 0
    else 1 + InsertPosition(s[1..], x, key)
  }

  /** Insert `x` into a list ordered largest-key first, keeping the order. */
  function InsertDesc<T>(s: seq<T>, x: T, key: T -> int): (r: seq<T>)
    requires NonIncreasing(s, key)
    ensures NonIncreasing(r, key)
    ensures multiset(r) == multiset(s) + multiset{x}
  {
    var k := InsertPosition(s, x, key);
    InsertAtKeepsOrder(s, x, key, k);
    InsertAtMultiset(s, x, k);
    s[..k] + [x] + s[k..]
  }

  /** Putting `x` after the larger keys and before the others keeps the list
      ordered. */
  lemma InsertAtKeepsOrder<T>(s: seq<T>, x: T, key: T -> int, k: nat)
    requires NonIncreasing(s, key) && k <= |s|
    requires forall i :: 0 <= i < k ==> key(s[i]) > key(x)
    requires forall i :: k <= i < |s| ==> key(s[i]) <= key(x)
    ensures NonIncreasing(s[..k] + [x] + s[k..], key)
  {
    var r := s[..k] + [x] + s[k..];
    assert forall i :: 0 <= i < k ==> r[i] == s[i];
    assert r[k] == x;
    assert forall i :: k < i < |r| ==> r[i] == s[i - 1];
    forall i, j | 0 <= i < j < |r|
      ensures key(r[i]) >= key(r[j])
    {
      if j < k {
      } else if j == k {
      } else if i < k {
      } else if i == k {
      } else {
      }
    }
  }

  /** Putting `x` anywhere adds exactly one `x`. */
  lemma InsertAtMultiset<T>(s: seq<T>, x: T, k: nat)
    requires k <= |s|
    ensures multiset(s[..k] + [x] + s[k..]) == multiset(s) + multiset{x}
  {
    assert s == s[..k] + s[k..];
  }

  /** The rows of a table ordered by `key`, largest first: every row exactly
      once; rows with equal keys come in no particular order. */
  method SortDesc<T>(rows: set<T>, key: T -> int) returns (s: seq<T>)
    ensures NonIncreasing(s, key)
    ensures multiset(s) == multiset(rows)
  {
    s := [];
    var remaining := rows;
    while remaining != {}
      invariant remaining <= rows
      invariant NonIncreasing(s, key)
      invariant multiset(s) + multiset(remaining) == multiset(rows)
      decreases |remaining|
    {
      var x :| x in remaining;
      assert multiset(remaining) == multiset(remaining - {x}) + multiset{x};
      s := InsertDesc(s, x, key);
      remaining := remaining - {x};
    }
  }

  /** A listing holding each element of `rows` once: as long as `rows`, every
      entry drawn from `rows`, no entry twice. */
  lemma ListingOfSet<T>(s: seq<T>, rows: set<T>)
    requires multiset(s) == multiset(rows)
    ensures |s| == |rows|
    ensures forall i :: 0 <= i < |s| ==> s[i] in rows
    ensures forall i, j :: 0 <= i < j < |s| ==> s[i] != s[j]
  {
    assert |multiset(s)| == |s|;
    assert |multiset(rows)| == |rows|;
    forall i | 0 <= i < |s|
      ensures s[i] in rows
    {
      assert s[i] in multiset(s);
    }
    forall i, j | 0 <= i < j < |s|
      ensures s[i] != s[j]
    {
      assert s == s[..i] + [s[i]] + s[i + 1..j] + [s[j]] + s[j + 1..];
      assert multiset(s)[s[i]] == 1;
    }
  }

  /** The rows of `m` under the keys `ids`, in that order. */
  function RowsAt<V>(m: map<int, V>, ids: seq<int>): (rows: seq<V>)
    requires forall i :: 0 <= i < |ids| ==> ids[i] in m
    ensures |rows| == |ids|
    ensures forall i :: 0 <= i < |ids| ==> rows[i] == m[ids[i]]
  {
    seq(|ids|, i requires 0 <= i < |ids| => m[ids[i]])
  }

  // ---------------------------------------------------------------------------
  // Counting votes and ranking users
  // ---------------------------------------------------------------------------

  /** The proposal ids of a listing, in order. */
  function ProposalIds(rows: seq<Proposal>): (ids: seq<int>)
    ensures |ids| == |rows|
    ensures forall i :: 0 <= i < |rows| ==> ids[i] == rows[i].id
  {
    seq(|rows|, i requires 0 <= i < |rows| => rows[i].id)
  }

  /** The user ids of a listing, in order. */
  function UserIds(rows: seq<UserStats>): (ids: seq<int>)
    ensures |ids| == |rows|
    ensures forall i :: 0 <= i < |rows| ==> ids[i] == rows[i].userId
  {
    seq(|rows|, i requires 0 <= i < |rows| => rows[i].userId)
  }

  /** The number of `vote_type` rows of the vote table for a proposal. */
  function CountVotes(votes: map<(int, int), VoteType>, pid: int, t: VoteType): nat
  {
    |set k | k in votes && k.0 == pid && votes[k] == t|
  }

  /** Recording a fresh vote adds one to its own count and to no other. */
  lemma CountAfterVote(votes: map<(int, int), VoteType>, pid: int, uid: int, t: VoteType, qid: int, q: VoteType)
    requires (pid, uid) !in votes
    ensures CountVotes(votes[(pid, uid) := t], qid, q)
         == CountVotes(votes, qid, q) + (if qid == pid && q == t then 1 else 0)
  {
    var after := votes[(pid, uid) := t];
    var before := set k | k in votes && k.0 == qid && votes[k] == q;
    var now := set k | k in after && k.0 == qid && after[k] == q;
    if qid == pid && q == t {
      assert now == before + {(pid, uid)};
    } else {
      assert now == before;
    }
  }

  /** A proposal no vote row refers to has no votes of either kind. */
  lemma CountWithoutVotes(votes: map<(int, int), VoteType>, pid: int, t: VoteType)
    requires forall k :: k in votes ==> k.0 != pid
    ensures CountVotes(votes, pid, t) == 0
  {
    assert (set k | k in votes && k.0 == pid && votes[k] == t) == {};
  }

  /** Every vote row names an existing proposal, and each proposal's cached
      tallies are the numbers of its yes and no rows. */
  ghost predicate TalliesMatch(proposals: map<int, Proposal>, votes: map<(int, int), VoteType>)
  {
    && (forall k :: k in votes ==> k.0 in proposals)
    && (forall pid :: pid in proposals ==>
          && proposals[pid].votesYes == CountVotes(votes, pid, Yes)
          && proposals[pid].votesNo == CountVotes(votes, pid, No))
  }

  /** A proposal with one more vote of kind `t` on its tally. */
  function WithVote(p: Proposal, t: VoteType): (q: Proposal)
    ensures q == p.(votesYes := q.votesYes, votesNo := q.votesNo)
    ensures t == Yes ==> q.votesYes == p.votesYes + 1 && q.votesNo == p.votesNo
    ensures t == No ==> q.votesNo == p.votesNo + 1 && q.votesYes == p.votesYes
  {
    p.(votesYes := p.votesYes + (if t == Yes then 1 else 0),
       votesNo := p.votesNo + (if t == No then 1 else 0))
  }

  /** Recording a fresh vote on an existing proposal together with one more on
      its tally keeps the ledger and the tallies in agreement. */
  lemma VoteKeepsTallies(proposals: map<int, Proposal>, votes: map<(int, int), VoteType>,
                         pid: int, uid: int, t: VoteType)
    requires TalliesMatch(proposals, votes)
    requires pid in proposals && (pid, uid) !in votes
    ensures TalliesMatch(proposals[pid := WithVote(proposals[pid], t)], votes[(pid, uid) := t])
  {
    var ps := proposals[pid := WithVote(proposals[pid], t)];
    var vs := votes[(pid, uid) := t];
    forall q | q in ps
      ensures ps[q].votesYes == CountVotes(vs, q, Yes) && ps[q].votesNo == CountVotes(vs, q, No)
    {
      CountAfterVote(votes, pid, uid, t, q, Yes);
      CountAfterVote(votes, pid, uid, t, q, No);
    }
  }

  /** A new proposal with zero tallies under an unused id keeps the ledger and
      the tallies in agreement. */
  lemma NewProposalKeepsTallies(proposals: map<int, Proposal>, votes: map<(int, int), VoteType>, p: Proposal)
    requires TalliesMatch(proposals, votes)
    requires p.id !in proposals && p.votesYes == 0 && p.votesNo == 0
    ensures TalliesMatch(proposals[p.id := p], votes)
  {
    CountWithoutVotes(votes, p.id, Yes);
    CountWithoutVotes(votes, p.id, No);
  }

  /** The users whose XP is strictly above `threshold`. */
  function Above(users: map<int, UserStats>, threshold: int): set<int>
  {
    set k | k in users && users[k].xp > threshold
  }

  /**
    `get_user_rank`'s count: one more than the number of users whose XP exceeds
    the user's own. For a user without a row the subquery yields NULL, the
    comparison is never true and the rank is 1.
  */
  function Rank(users: map<int, UserStats>, uid: int): (rank: int)
    ensures rank >= 1
    ensures uid !in users ==> rank == 1
    ensures uid in users ==> rank <= |users|
  {
    if uid in users then
      var above := Above(users, users[uid].xp);
      assert above <= users.Keys - {uid};
      assert |users.Keys - {uid}| == |users| - 1;
      SubsetCard(above, users.Keys - {uid});
      |above| + 1
    else 1
  }

  lemma SubsetCard<T>(a: set<T>, b: set<T>)
    requires a <= b
    ensures |a| <= |b|
  {
    assert b == a + (b - a);
  }

  lemma StrictSubsetCard<T>(a: set<T>, b: set<T>)
    requires a < b
    ensures |a| < |b|
  {
    assert b == a + (b - a);
    assert b - a != {};
  }

  /** Users with equal XP share a rank; strictly more XP means a strictly
      better (smaller) rank. */
  lemma RankOrder(users: map<int, UserStats>, a: int, b: int)
    requires a in users && b in users
    ensures users[a].xp == users[b].xp ==> Rank(users, a) == Rank(users, b)
    ensures users[a].xp > users[b].xp ==> Rank(users, a) < Rank(users, b)
  {
    if users[a].xp > users[b].xp {
      var above := Above(users, users[a].xp);
      assert a !in above && a in Above(users, users[b].xp);
      assert above < Above(users, users[b].xp);
      StrictSubsetCard(above, Above(users, users[b].xp));
    }
  }

  /** A user with the top XP has rank 1. */
  lemma RankOfTop(users: map<int, UserStats>, uid: int)
    requires uid in users
    requires forall k :: k in users ==> users[k].xp <= users[uid].xp
    ensures Rank(users, uid) == 1
  {
    forall k
      ensures k !in Above(users, users[uid].xp)
    {
      if k in users {
        assert users[k].xp <= users[uid].xp;
      }
    }
  }

  // ---------------------------------------------------------------------------
  // The store
  // ---------------------------------------------------------------------------

  class Store {
    /** `proposals`, keyed by `id`. */
    var proposals: map<int, Proposal>
    /** The AUTOINCREMENT counter of `proposals`: the id the next row gets. */
    var nextId: int
    /** `votes`, keyed by its UNIQUE(proposal_id, user_id) pair. */
    var votes: map<(int, int), VoteType>
    /** `user_stats`, keyed by `user_id`. */
    var users: map<int, UserStats>

    /** Rows carry their own keys, and proposal ids are below the counter. */
    ghost predicate Valid()
      reads this
    {
      && nextId >= 1
      && (forall id :: id in proposals ==> proposals[id].id == id && 1 <= id < nextId)
      && (forall uid :: uid in users ==> users[uid].userId == uid)
    }

    /**
      The vote ledger and the cached tallies agree: every vote row names an
      existing proposal, and each proposal's `votes_yes`/`votes_no` are the
      numbers of its yes/no rows.
    */
    ghost predicate TalliesMatchLedger()
      reads this
    {
      TalliesMatch(proposals, votes)
    }

    /** `init_db` on a fresh database: three empty tables. */
    constructor ()
      ensures Valid() && TalliesMatchLedger() && XpConsistent(users)
      ensures proposals == map[] && votes == map[] && users == map[] && nextId == 1
    {
      proposals := map[];
      nextId := 1;
      votes := map[];
      users := map[];
    }

    /** `create_proposal`: a new row under an id no proposal has, with zero tallies. */
    method CreateProposal(title: string, description: string, authorId: int, authorName: string,
                          messageId: int, channelId: int, now: int) returns (id: int)
      requires Valid()
      modifies this
      ensures Valid()
      ensures id == old(nextId) && id !in old(proposals) && id >= 1
      ensures proposals == old(proposals)[id := Proposal(id, title, description, authorId, authorName,
                                                         0, 0, messageId, channelId, now)]
      ensures nextId == id + 1
      ensures votes == old(votes) && users == old(users)
      ensures old(TalliesMatchLedger()) ==> TalliesMatchLedger()
    {
      id := nextId;
      if TalliesMatch(proposals, votes) {
        NewProposalKeepsTallies(proposals, votes, Proposal(id, title, description, authorId, authorName,
                                                           0, 0, messageId, channelId, now));
      }
      proposals := proposals[id := Proposal(id, title, description, authorId, authorName,
                                            0, 0, messageId, channelId, now)];
      nextId := nextId + 1;
    }

    /** `get_proposal`: the row with this id, or `None`. */
    function GetProposal(id: int): (r: Option<Proposal>)
      reads this
      ensures r.Some? <==> id in proposals
      ensures r.Some? ==> r.value == proposals[id]
      ensures Valid() && r.Some? ==> r.value.id == id
    {
      if id in proposals then Some(proposals[id]) else None
    }

    /** `update_proposal_votes`: overwrite the two tallies of one row; an
        unknown id updates nothing. */
    method UpdateProposalVotes(id: int, votesYes: int, votesNo: int)
      requires Valid()
      modifies this
      ensures Valid()
      ensures id in old(proposals) ==>
        proposals == old(proposals)[id := old(proposals)[id].(votesYes := votesYes, votesNo := votesNo)]
      ensures id !in old(proposals) ==> proposals == old(proposals)
      ensures nextId == old(nextId) && votes == old(votes) && users == old(users)
    {
      if id in proposals {
        proposals := proposals[id := proposals[id].(votesYes := votesYes, votesNo := votesNo)];
      }
    }

    /** `get_all_proposals`: every proposal once, newest `created_at` first. */
    method GetAllProposals() returns (rows: seq<Proposal>)
      requires Valid()
      ensures |rows| == |proposals|
      ensures forall i :: 0 <= i < |rows| ==> rows[i].id in proposals && proposals[rows[i].id] == rows[i]
      ensures forall i, j :: 0 <= i < j < |rows| ==> rows[i].id != rows[j].id
      ensures NonIncreasing(rows, CreatedAt)
      ensures forall id :: id in proposals ==> id in ProposalIds(rows)
    {
      var ps := proposals;
      var key := (id: int) => if id in ps then ps[id].createdAt else 0;
      var ids := SortDesc(ps.Keys, key);
      ListingOfSet(ids, ps.Keys);
      rows := RowsAt(ps, ids);
      assert forall i :: 0 <= i < |rows| ==> rows[i].id == ids[i] && rows[i].createdAt == key(ids[i]);
      assert ProposalIds(rows) == ids;
      forall id | id in proposals
        ensures id in ids
      {
        assert id in multiset(ids);
      }
    }

    /** `add_vote`: insert the row unless the (proposal, user) pair already has
        one. The proposal's existence is not checked (foreign keys are off). */
    method AddVote(pid: int, uid: int, t: VoteType) returns (ok: bool)
      requires Valid()
      modifies this
      ensures Valid()
      ensures ok <==> (pid, uid) !in old(votes)
      ensures votes == if ok then old(votes)[(pid, uid) := t] else old(votes)
      ensures proposals == old(proposals) && nextId == old(nextId) && users == old(users)
    {
      if (pid, uid) in votes {
        ok := false;
      } else {
        votes := votes[(pid, uid) := t];
        ok := true;
      }
    }

    /** `has_voted`: whether the pair has a vote row. */
    function HasVoted(pid: int, uid: int): (r: bool)
      reads this
      ensures r <==> (pid, uid) in votes
    {
      (pid, uid) in votes
    }

    /** `update_user_stats` as written: the statement never runs, the call
        raises, and `user_stats` is untouched. */
    method UpdateUserStats(uid: int, name: string, messages: int, reactions: int, referrals: int, now: int)
      returns (r: Result<(), DbError>)
      ensures r == Err(BindingCountMismatch(UpsertPlaceholders, 5))
    {
      match UpsertAsWritten(users, uid, name, messages, reactions, referrals, now)
      case Err(e) =>
        r := Err(e);
      case Ok(_) =>
        assert false;
        r := Ok(());
    }

    /** `update_user_stats` with the xp value bound: the upsert on `user_stats`. */
    method RecordActivity(uid: int, name: string, messages: int, reactions: int, referrals: int, now: int)
      requires Valid()
      modifies this
      ensures Valid()
      ensures users == Upsert(old(users), uid, name, messages, reactions, referrals, now)
      ensures old(XpConsistent(users)) ==> XpConsistent(users)
      ensures proposals == old(proposals) && nextId == old(nextId) && votes == old(votes)
    {
      if XpConsistent(users) {
        UpsertKeepsXpConsistent(users, uid, name, messages, reactions, referrals, now);
      }
      users := Upsert(users, uid, name, messages, reactions, referrals, now);
    }

    /** Every row of `user_stats` once, largest XP first. */
    method UsersByXp() returns (all: seq<UserStats>)
      requires Valid()
      ensures |all| == |users|
      ensures forall i :: 0 <= i < |all| ==> all[i].userId in users && users[all[i].userId] == all[i]
      ensures forall i, j :: 0 <= i < j < |all| ==> all[i].userId != all[j].userId
      ensures NonIncreasing(all, Xp)
      ensures forall uid :: uid in users ==> uid in UserIds(all)
    {
      var us := users;
      var key := (id: int) => if id in us then us[id].xp else 0;
      var ids := SortDesc(us.Keys, key);
      ListingOfSet(ids, us.Keys);
      all := RowsAt(us, ids);
      assert forall i :: 0 <= i < |all| ==> all[i].userId == ids[i] && all[i].xp == key(ids[i]);
      assert UserIds(all) == ids;
      forall uid | uid in users
        ensures uid in ids
      {
        assert uid in multiset(ids);
      }
    }

    /** `get_leaderboard(limit)`: the first `limit` users by XP, largest first
        (a negative LIMIT means no limit in SQLite); no user left out has more
        XP than a user listed. */
    method GetLeaderboard(limit: int) returns (rows: seq<UserStats>)
      requires Valid()
      ensures |rows| == if 0 <= limit < |users| then limit else |users|
      ensures forall i :: 0 <= i < |rows| ==> rows[i].userId in users && users[rows[i].userId] == rows[i]
      ensures forall i, j :: 0 <= i < j < |rows| ==> rows[i].userId != rows[j].userId
      ensures NonIncreasing(rows, Xp)
      ensures forall uid, i :: uid in users && uid !in UserIds(rows) && 0 <= i < |rows| ==> users[uid].xp <= rows[i].xp
    {
      var all := UsersByXp();
      rows := if 0 <= limit < |all| then all[..limit] else all;
      forall uid, i | uid in users && uid !in UserIds(rows) && 0 <= i < |rows|
        ensures users[uid].xp <= rows[i].xp
      {
        var j :| 0 <= j < |all| && UserIds(all)[j] == uid;
        assert all[j] == users[uid];
      }
    }

    /** `get_user_rank`: the user's rank and row; an unknown user gets rank 1
        and no row. */
    function GetUserRank(uid: int): (r: (int, Option<UserStats>))
      reads this
      ensures r.0 >= 1
      ensures r.1.None? <==> uid !in users
      ensures r.1.Some? ==> r.1.value == users[uid] && r.0 <= |users|
      ensures uid !in users ==> r.0 == 1
    {
      (Rank(users, uid), if uid in users then Some(users[uid]) else None)
    }
  }
}
