# Thronos bot core in Dafny

This project models the core of the Thronos Discord bot:

- **The store.** A SQLite file holds governance proposals, a vote ledger with a first-vote-wins uniqueness constraint, and per-user engagement statistics. The statistics feed XP with the fixed weights 10 per message, 5 per reaction and 50 per referral.
- **The cogs that drive the store:**
  - proposing and voting through persistent buttons;
  - the leaderboard and rank commands;
  - the message and reaction listeners that count activity.
- **The selection and formatting rules around them:**
  - the locale table and its lookup;
  - the role-based language choice of the help and info commands;
  - the roadmap and whitepaper embeds of the server setup, with the rule that refreshes a channel's bot message;
  - the range checks and the keyword spam filter of the moderation cog.

The store is a class `Database.Store` whose fields are the three tables as maps, plus the next proposal id. Each table-changing query is a method with a `modifies` clause. Each read is a function over the fields or a read-only method. The class keeps two invariants:

- `Valid`: every proposal is stored under its own id, and ids below `nextId` are used;
- `TalliesMatchLedger`: every proposal's cached yes/no counters equal the number of yes/no rows for it in the vote ledger.

Every command and listener that can change the store is proved to keep both invariants.

Modules, one per file:

- `Wrappers`: `Option` and `Result`.
- `PyText`: the Python string rules the bot relies on:
  - `str.split` and `str.join`;
  - the substring test;
  - `str(int)` and `int(str)`;
  - `str.strip`;
  - ASCII `str.lower`.
- `Chat`: the Discord values the cogs read and build: authors, channels, embeds, fields.
- `Database`, `Governance`, `Leaderboard`, `Locales`, `Info`, `HelpCommand`, `ServerSetup`, `Moderation`: one per source file.

## Model

| member | source | states |
|---|---|---|
| Database.Store.constructor | database.py:16-64 | a fresh store has empty tables, next id 1, and satisfies both invariants |
| Database.Store.CreateProposal | database.py:67-77 | the new id was unused; the new row has zero tallies and the given fields; other tables unchanged; tallies stay in agreement with the ledger |
| Database.Store.GetProposal | database.py:79-85 | the row of an existing id, none otherwise; the row carries that id |
| Database.Store.UpdateProposalVotes | database.py:87-94 | only the two counters of the given id change; an absent id changes nothing |
| Database.Store.GetAllProposals | database.py:96-102 | every proposal exactly once, newest creation time first |
| Database.Store.AddVote | database.py:105-117 | succeeds and inserts iff the (proposal, user) pair has no row; does not check that the proposal exists; otherwise nothing changes |
| Database.Store.HasVoted | database.py:119-125 | true exactly when the pair has a row |
| Database.Upsert | database.py:134-140 | adds exactly the deltas to the three counters and 10m+5r+50f to xp, replaces the name, leaves other users untouched, creates a missing user with the deltas |
| Database.UpsertKeepsXpConsistent | database.py:136-139 | every user's xp stays 10·messages + 5·reactions + 50·referrals |
| Database.UpsertAccumulates | database.py:134-140 | two upserts for a user add up to one upsert of the summed deltas |
| Database.UpsertMonotone | database.py:136-139 | with non-negative deltas no counter and no xp decreases |
| Database.Bind | database.py:131-141 | binding fails exactly when the number of values differs from the number of placeholders |
| Database.UpsertAsWrittenAlwaysFails | database.py:131-141 | the upsert as written fails with 6 placeholders against 5 values for every input |
| Database.Store.UpdateUserStats | database.py:128-143 | as written: always a binding error; no table changes |
| Database.Store.RecordActivity | database.py:128-143 | the intended upsert: the user table becomes the upsert; xp consistency is kept |
| Database.InsertPosition | database.py:150 | the first position whose key is not larger than the new row's key |
| Database.InsertDesc | database.py:150 | insertion keeps the listing non-increasing and adds exactly that row |
| Database.InsertAtKeepsOrder | database.py:150 | a row placed after the larger keys and before the others keeps the listing non-increasing |
| Database.InsertAtMultiset | database.py:150 | placing a row adds exactly that row and loses none |
| Database.SortDesc | database.py:150 | the listing is non-increasing in the key and a permutation of the rows |
| Database.ListingOfSet | database.py:148-154 | a permutation of a set lists each row once |
| Database.Store.UsersByXp | database.py:148-154 | every user exactly once, largest xp first |
| Database.Store.GetLeaderboard | database.py:145-154 | min(limit, users) rows; a negative limit means all; non-increasing xp; no user left out has more xp than any row returned |
| Database.Rank | database.py:159-163 | 1 + the number of users with strictly more xp; 1 for an unknown user; at most the number of users |
| Database.RankOrder | database.py:159-163 | equal xp gives equal rank; more xp gives a strictly smaller rank |
| Database.RankOfTop | database.py:159-163 | a user with the most xp has rank 1 |
| Database.SubsetCard | database.py:160-161 | helper of Rank: a subset of the users is no larger than the users, which bounds the rank by the user count |
| Database.StrictSubsetCard | database.py:160-161 | helper of RankOrder: a strict subset is strictly smaller, which makes more xp give a strictly smaller rank |
| Database.Store.GetUserRank | database.py:156-167 | (rank, row) for a known user; (1, none) for an unknown user |
| Database.CountAfterVote | database.py:105-117 | a new vote adds one to exactly its own proposal and kind |
| Database.CountWithoutVotes | database.py:44-45 | a proposal with no ledger rows has zero votes of each kind |
| Database.WithVote | cogs/governance.py:140-141 | only the tallies change: the chosen one by +1, the other stays |
| Database.VoteKeepsTallies | cogs/governance.py:139-142 | inserting a new vote and bumping its tally keeps every tally equal to the ledger count |
| Database.NewProposalKeepsTallies | database.py:67-77 | a new proposal with zero tallies keeps every tally equal to the ledger count |
| Governance.IdRoundTrip | cogs/governance.py:122 | text of the form prefix#id:rest, with no '#' in the prefix, parses to id |
| Governance.TitleRoundTrip | cogs/governance.py:50 | the title written for a proposal parses back to its id |
| Governance.PlaceholderUnparsed | cogs/governance.py:27 | the placeholder title does not parse when the title text has no '#' |
| Governance.TargetOf | cogs/governance.py:119-125 | a cached id is used as is; otherwise the id parsed from the title |
| Governance.CacheAfter | cogs/governance.py:119-122 | a cached id stays; an uncached one becomes the parsed id when there is one |
| Governance.AsWrittenTargets | cogs/governance.py:13 | the ids a sequence of clicks on one view resolves to, as written (one per click) |
| Governance.FixedTargets | cogs/governance.py:119-122 | the ids a sequence of clicks resolves to when each click is read from its own message |
| Governance.CachedTargetsConstant | cogs/governance.py:119 | once an id is cached every later click goes to it |
| Governance.AsWrittenTargetsStick | cogs/governance.py:13 | after a restart every click goes to the first proposal clicked |
| Governance.RestartMisroutesSecondVote | cogs/governance.py:13 | as written two clicks on different proposals both go to the first; fixed they go to their own |
| Governance.FixedTargetsFollowClicks | cogs/governance.py:50 | with the fix every click goes to the proposal whose message was clicked |
| Governance.VoteIsPermanent | database.py:119-125 | no vote is ever removed or changed, and after a vote on an existing proposal the voter has voted |
| Governance.VoteAppliedKeepsTallies | cogs/governance.py:127-148 | one vote step keeps tallies equal to ledger counts |
| Governance.SecondVoteRejected | cogs/governance.py:134-136 | a second vote by the same user is rejected with nothing changed |
| Governance.CastVote | cogs/governance.py:127-148 | missing proposal: nothing changes; repeat voter: nothing changes; otherwise vote inserted and its tally +1; tallies stay equal to the ledger |
| Governance.VotingView.constructor | cogs/governance.py:103-106 | the view holds the given proposal id |
| Governance.VotingView.RegisterVote | cogs/governance.py:116-148 | as written: resolves the id from the cache or the title, caches it, then votes as CastVote; an unparsable title records nothing |
| Governance.VotingView.RegisterVoteFixed | cogs/governance.py:116-148 | the corrected click: the id comes from the clicked message, the view is not changed |
| Governance.VoteFieldShowsCount | cogs/governance.py:31-32 | a tally field's value reads back as the count |
| Governance.TallyFields | cogs/governance.py:31-32 | the two tally fields "✅ For" and "❌ Against" with the counts |
| Governance.ProposeCommand | cogs/governance.py:15-55 | refused iff not an admin or no governance channel; otherwise always created: a zero-tally proposal under a fresh id, the posted embed (placeholder title, description, two zero tallies, author footer), the same embed retitled with the id, which parses back to it, and the reply |
| Governance.Status | cogs/governance.py:72 | green iff more for, red iff more against, white iff tied |
| Governance.ProposalFieldNamesId | cogs/governance.py:74 | a listing field's name parses to the proposal's id |
| Governance.ProposalsCommand | cogs/governance.py:57-79 | min(10, n) proposals, newest first, each once; none left out is newer; one field each |
| Governance.PrefixOfListing | cogs/governance.py:60-71 | the first ten of the full listing are stored, distinct, newest first, and no proposal left out is newer |
| Governance.ListingFields | cogs/governance.py:71-76 | one field per proposal shown, in order |
| Governance.UpdateProposalEmbed | cogs/governance.py:81-97 | a missing proposal is skipped; a failure is logged and nothing is edited; otherwise only the first two fields are rewritten |
| Leaderboard.OnMessage | cogs/leaderboard.py:14-24 | as written: a bot's message is ignored; a human's message ends in the binding error; the store is not modified either way |
| Leaderboard.OnReactionAdd | cogs/leaderboard.py:26-36 | as written: a bot's reaction is ignored; a human's reaction ends in the binding error; the store is not modified either way |
| Leaderboard.OnMessageFixed | cogs/leaderboard.py:14-24 | with the corrected upsert: bots change nothing; a human's message is the upsert (1, 0, 0); xp consistency is kept |
| Leaderboard.OnReactionAddFixed | cogs/leaderboard.py:26-36 | with the corrected upsert: bots change nothing; a human's reaction is the upsert (0, 1, 0); xp consistency is kept |
| Leaderboard.ActivityEarnsXp | cogs/leaderboard.py:20-36 | m messages and r reactions earn 10m + 5r xp |
| Leaderboard.ActivityKeepsReferrals | cogs/leaderboard.py:14-36 | no listener changes any referral count |
| Leaderboard.FooterStatesWeights | cogs/leaderboard.py:61 | the footer's weights are the ones the upsert applies |
| Leaderboard.EntryLines | cogs/leaderboard.py:56-58 | one (name line, stats line) pair per row, in rank order |
| Leaderboard.Lines | cogs/leaderboard.py:56-58 | two lines per listed user |
| Leaderboard.EntriesSnoc | cogs/leaderboard.py:56-58 | the text grows by one entry per loop step |
| Leaderboard.EntriesPrefix | cogs/leaderboard.py:56-58 | the text of the first i+1 entries is that of the first i followed by entry i |
| Leaderboard.LinesHaveNoNewline | cogs/leaderboard.py:57-58 | no board line holds a newline when the name has none |
| Leaderboard.EntriesSplit | cogs/leaderboard.py:55-58 | the board text splits into each user's name line and stats line, in order |
| Leaderboard.LinesAt | cogs/leaderboard.py:56-58 | line 2i is entry i's name line and line 2i+1 its stats line |
| Leaderboard.BoardLines | cogs/leaderboard.py:55-60 | the description splits into 2n+1 lines: for each rank the medal-and-name line, then the stats line; last line empty |
| Leaderboard.LeaderboardCommand | cogs/leaderboard.py:38-63 | no data iff no users; at most 10 rows, largest xp first, none left out above a row shown; medals indexed within range |
| Leaderboard.BoardText | cogs/leaderboard.py:55-58 | the loop builds exactly the entries' text |
| Leaderboard.RankCommand | cogs/leaderboard.py:65-85 | a hint iff the user has no row; otherwise rank (between 1 and the user count) and the four counters |
| Locales.LocaleOf | utils/locales.py:1-2 | a code names a locale only when it is that locale's code |
| Locales.CodeRoundTrip | utils/locales.py:1-72 | the five codes and the locales correspond one to one |
| Locales.KeyOf | utils/locales.py:3-14 | a key string names a key only when it is that key's name |
| Locales.KeyRoundTrip | utils/locales.py:3-14 | the twelve key names and the keys correspond one to one |
| Locales.ChosenLocale | utils/locales.py:77-78 | a missing or unknown code falls back to GR |
| Locales.GetText | utils/locales.py:76-79 | a defined key gives its text in the chosen locale; an unknown key is returned as is; never fails |
| Locales.FallsBackToDefault | utils/locales.py:74-78 | a missing or unknown code gives the same text as GR |
| Locales.UnknownKeyIsEchoed | utils/locales.py:79 | a key no locale defines is returned unchanged |
| Locales.KnownKeyTranslated | utils/locales.py:79 | a defined key in a known locale gives that locale's text |
| Info.InfoLang | cogs/info.py:14-22 | fixed priority Greek > English > Spanish > Russian > Japanese; GR with no language role |
| Info.InfoLangOrderFree | cogs/info.py:16-21 | the choice does not depend on the order of the roles |
| Info.InfoLangNeverFallsBack | cogs/info.py:17-22 | every code chosen is a locale code, so the lookup never falls back |
| Info.DocumentCommand | cogs/info.py:24-42 | the description in the chosen language, with the file when it exists, otherwise with the missing-file note |
| Info.WebsiteCommand | cogs/info.py:44-48 | the description in the chosen language followed by a space and the site address |
| HelpCommand.HelpLang | cogs/help_command.py:16-30 | always one of the help codes; EN with no language role |
| HelpCommand.FirstLanguageRoleWins | cogs/help_command.py:26-28 | the first language role in role order decides |
| HelpCommand.HelpLanguageOf | cogs/help_command.py:38-89 | a code names a language only when it is that language's key; none iff it is not one of the five keys |
| HelpCommand.HelpTextsDefined | cogs/help_command.py:38-89 | every code the language choice can return has help texts |
| HelpCommand.HelpFor | cogs/help_command.py:91 | the texts of the code, or the English ones when the code has none |
| HelpCommand.FallbackIsEnglish | cogs/help_command.py:91 | the fallback texts are those stored under "EN" |
| HelpCommand.HelpLangHasTexts | cogs/help_command.py:91 | the fallback to EN is never taken |
| HelpCommand.CommandsListedInOrder | cogs/help_command.py:99-105 | the commands field splits into setup, stats, help, lang, verify in that order |
| HelpCommand.HelpReply | cogs/help_command.py:93-107 | the embed carries the chosen language's title, description, commands field and footer |
| Chat.FindChannel | cogs/governance.py:19 | the first channel with the name; none iff no channel has it |
| ServerSetup.Filter | cogs/server_setup.py:42-43 | keeps exactly the elements that satisfy the test, in order |
| ServerSetup.FilterSnoc | cogs/server_setup.py:33-37 | one more element adds itself when kept |
| ServerSetup.FilterFilter | cogs/server_setup.py:36-43 | filtering the roadmap items by a stronger test is filtering all items by it |
| ServerSetup.CollectRoadmapItems | cogs/server_setup.py:32-37 | the kept items are exactly the list items with ✅, ⏳ or 🔄, in page order |
| ServerSetup.PartitionByMark | cogs/server_setup.py:42-43 | completed = the items with ✅, in progress = the items with ⏳, in page order |
| ServerSetup.SyncingOnlyItemNotShown | cogs/server_setup.py:36-43 | an item with only 🔄 is kept but in neither list |
| ServerSetup.Chunks | cogs/server_setup.py:46-47 | each chunk has between 1 and size items |
| ServerSetup.ChunksCover | cogs/server_setup.py:46-47 | the chunks concatenate back to the data; all but the last are full |
| ServerSetup.ChunkList | cogs/server_setup.py:46-47 | size 0 raises; a negative size gives no chunks; a positive size gives the chunks |
| ServerSetup.Truncate | cogs/server_setup.py:54 | at most 1024 characters; a longer value keeps its first 1021 and ends in "..." (length exactly 1024); a shorter one is unchanged |
| ServerSetup.TruncateIdempotent | cogs/server_setup.py:59 | cutting a cut value changes nothing |
| ServerSetup.CompletedFieldName | cogs/server_setup.py:52 | the first completed field's name and the later one |
| ServerSetup.CompletedFields | cogs/server_setup.py:49-55 | one field per chunk, named by its position, holding the chunk's lines cut to 1024 |
| ServerSetup.InProgressFields | cogs/server_setup.py:57-60 | no field without in-progress items; otherwise one, holding their lines cut to 1024 |
| ServerSetup.FieldListShape | cogs/server_setup.py:49-60 | the completed fields come first, then at most one in-progress field |
| ServerSetup.RoadmapFieldsShape | cogs/server_setup.py:39-60 | the chunks hold the completed items in order, eight per field but the last; names by position; the in-progress field iff such items exist; every value within 1024 |
| ServerSetup.AddCompletedFields | cogs/server_setup.py:49-55 | the loop adds exactly the completed fields |
| ServerSetup.RoadmapFields | cogs/server_setup.py:39-60 | the fields built are exactly the roadmap field list |
| ServerSetup.BodyExtends | cogs/server_setup.py:94-100 | the section text only grows |
| ServerSetup.ShortParagraphsIgnored | cogs/server_setup.py:97 | paragraphs of 30 characters or fewer add nothing |
| ServerSetup.SectionsWellFormed | cogs/server_setup.py:89-104 | at most 6 sections; no section has a navigation header or an empty text |
| ServerSetup.WhitepaperSections | cogs/server_setup.py:88-104 | the loops collect exactly the sections the walk defines |
| ServerSetup.WhitepaperEmbed | cogs/server_setup.py:80-113 | nothing iff unfetched; the fallback notice iff no section is found; otherwise the summary heading and one "🔹 " field per section with its cut text |
| ServerSetup.SetupPermission | cogs/server_setup.py:137-148 | proceeds iff administrator, "The Creator" or "Admins"; otherwise the refusal |
| ServerSetup.BotIds | cogs/server_setup.py:246-248 | exactly the ids of the bot's messages |
| ServerSetup.CollectBotIds | cogs/server_setup.py:246-248 | the loop collects exactly the bot's message ids, in order |
| ServerSetup.BotIdsSnoc | cogs/server_setup.py:246-248 | one more message adds its id when the bot wrote it |
| ServerSetup.Deletes | cogs/server_setup.py:253-254 | one deletion per bot message, in order |
| ServerSetup.DeleteAll | cogs/server_setup.py:253-254 | the loop issues exactly those deletions |
| ServerSetup.RefreshOutcome | cogs/server_setup.py:250-267 | ends in exactly one send or edit; edits iff one bot message and no file; deletes exactly the bot messages otherwise |
| ServerSetup.UpdateChannelContent | cogs/server_setup.py:232-267 | nothing for a missing channel; topic edit when needed; then the refresh over the ten newest messages |
| ServerSetup.TopicPart | cogs/server_setup.py:327-333 | flag, space, at most 50 characters of the description |
| ServerSetup.JoinBound | cogs/server_setup.py:334 | a joined text is bounded by its parts and separators |
| ServerSetup.EcosystemTopicFits | cogs/server_setup.py:327-336 | five such parts never reach 1024, so the topic is never cut |
| Moderation.PurgeCommand | cogs/moderation.py:16-26 | refused iff amount outside 1..100; otherwise purges amount+1 and reports deleted-1 |
| Moderation.PurgeText | cogs/moderation.py:19-26 | the refusal and the report texts |
| Moderation.PurgeReportsAmount | cogs/moderation.py:24-26 | with enough messages the report is exactly the amount |
| Moderation.SlowmodeCommand | cogs/moderation.py:31-42 | refused iff outside 0..21600; 0 means disabled; otherwise that delay |
| Moderation.DelayAfter | cogs/moderation.py:37 | a refusal keeps the delay; otherwise the new delay |
| Moderation.SlowmodeApplied | cogs/moderation.py:33-37 | an accepted value becomes the channel's delay |
| Moderation.OnMessage | cogs/moderation.py:46-67 | the loop does exactly the actions of the keyword rule |
| Moderation.SpamFromActs | cogs/moderation.py:53-57 | some deletion is attempted iff some keyword occurs |
| Moderation.SpamFromShape | cogs/moderation.py:56-67 | a successful delete is followed by one warning and stops; a forbidden one continues, one attempt per keyword found |
| Moderation.Found | cogs/moderation.py:54-55 | exactly the keywords that occur |
| Moderation.SpamFilterSound | cogs/moderation.py:49-65 | bots are never inspected; a human's message is acted on iff its lowered text holds a keyword; a deleted message gets one warning |
| Moderation.LowerIdempotent | cogs/moderation.py:53 | lowering twice is lowering once |
| PyText.Split | cogs/governance.py:122 | at least one piece; no piece holds the separator |
| PyText.JoinSplit | cogs/governance.py:122 | joining the pieces gives back the text |
| PyText.SplitJoin | cogs/help_command.py:99-105 | splitting a join of separator-free pieces gives back the pieces |
| PyText.SplitAtFirst | cogs/governance.py:122 | the first piece ends at the first separator |
| PyText.SplitTwoPieces | cogs/leaderboard.py:57-58 | two separator-free pieces come out first |
| PyText.SplitFirstPiece | cogs/governance.py:122 | the first piece of a longer text extends the first piece of its tail |
| PyText.SplitNoSeparator | cogs/governance.py:122 | a text with no separator is its own single piece |
| PyText.ContainsAt | cogs/moderation.py:55 | the substring test holds iff the needle occurs at some position |
| PyText.ContainsChar | cogs/server_setup.py:36 | for one character, the substring test is membership |
| PyText.FormatInt | cogs/governance.py:50 | never empty; all digits iff non-negative |
| PyText.FormatIntChars | cogs/leaderboard.py:58 | a formatted number holds no character other than digits and '-' |
| PyText.StripInside | cogs/governance.py:122 | the stripped text is a slice of the original |
| PyText.ParseIntNeedsDigit | cogs/governance.py:122 | a parse succeeds only on text holding a digit |
| PyText.ParseFormatInt | cogs/governance.py:122 | parsing a formatted number gives the number |
| PyText.Lower | cogs/moderation.py:53 | same length; each ASCII capital lowered, other characters kept |

## Left out

- SQLite connections and schema creation. The tables are maps. `init_db` is the store's constructor.
- Timestamps. `created_at` and `last_active` are a `now` parameter. No clock monotonicity is assumed, and proposals created in the same second have no defined order.
- Concurrency. Handlers run one at a time. The read-modify-write of the tally in `register_vote` can lose an update when two clicks interleave, and the model does not capture that. The `Vote failed` branch of `register_vote` is therefore unreachable in the model, because `has_voted` has just been checked.
- Discord API effects. Sending, editing, deleting, purging, the slow-mode edit and role creation appear only as values the functions return: replies, embeds and actions. Permission decorators are parameters such as `isAdmin`.
- `ServerSetup.UpdateChannelContent`: the `delete()` calls on old bot messages (cogs/server_setup.py:253-254) are not inside a `try`, so one failed deletion would end the rest of `setup_server` through its outer handler. The model assumes every deletion succeeds.
- HTTP fetches and HTML parsing. The roadmap page is given as the stripped texts of its list items. The whitepaper page is one flat list of sibling nodes, so headers nested at different depths are not modelled. A page that could not be fetched, or whose body is empty (`if html:` at cogs/server_setup.py:28 and :74 treats both alike), is `None`; callers never pass `Some([])` for an empty body.
- `Moderation.OnMessage`: a message's `delete()` is either always allowed or always forbidden (`canDelete`). Discord errors other than `Forbidden` are not modelled.
- `Moderation.OnMessage`: the warning `channel.send` sits inside the same `try` as the delete (cogs/moderation.py:56-67), so a `Forbidden` raised by the send would be caught and the scan would go on to the next keyword. The model assumes the warning is always sent after a successful delete.
- `Moderation.PurgeCommand`: the number of messages the channel purge actually deleted is a parameter.
- `Moderation.LowerIdempotent`, `PyText.Lower`: `str.lower` is modelled on ASCII letters only. Unicode case mapping is not modelled.
- `ServerSetup.UpdateChannelContent`: the file-attached branch inside the single-message case (cogs/server_setup.py:261-263) can never run, because a file already leads to delete-and-send at line 252. The model has no such branch.
- The ecosystem loop calls `update_channel_content` twice per channel (cogs/server_setup.py:338 and 341). The model covers each call on its own. What the second call sees depends on the channel history Discord returns, which is a parameter.
- The rest of `setup_server` is not modelled: creating categories, channels and roles, and the embed texts for the stats and ecosystem channels. It is Discord calls over constant tables.
- The help command's unused `command` argument is not modelled.
- `Governance.ParseProposalId` follows `int()` on the piece between '#' and ':'. It accepts surrounding whitespace (every character Python's `str.isspace` accepts, as `PyText.IsSpace` lists them) and a sign. It does not accept underscores between digits or non-ASCII digits, which `int()` accepts.
- A placeholder title whose text itself contains '#' followed by digits and ':' can parse to an id. `Governance.PlaceholderUnparsed` covers only titles without '#'.

## Findings

| source | as written | input that shows it | evidently intended | confidence | as-written member | corrected member |
|---|---|---|---|---|---|---|
| database.py:131-141 | the INSERT has six `?` placeholders (user_id, username, three counters, xp) but five values are bound | any call, e.g. `update_user_stats(1, "a", messages=1)`: the driver rejects the statement, so every message and reaction listener fails and no statistics are ever recorded | bind the initial xp 10m+5r+50f as the sixth value | high, not executed | Database.UpsertAsWrittenAlwaysFails | Database.Store.RecordActivity |
| cogs/governance.py:116-122 | the one persistent view registered at start-up (line 13) has id 0; on the first click after a restart it parses the id from that message and stores it in itself, and every later click on any proposal's buttons uses the stored id | after a restart, click "Vote For" on proposal #1's message, then on proposal #2's message: both votes are applied to #1 | read the id from the clicked message on every click and never store it in the shared view | medium, not executed | Governance.RestartMisroutesSecondVote | Governance.FixedTargetsFollowClicks |
