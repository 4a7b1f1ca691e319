# Sports data scraper and API: a verified model of the decision logic

This project models the logic of a sports data system that surrounds its I/O. The system has
two halves:

- a scraper that reads scoreboards and boxscores, matches betting odds to games, and collects
  team posts from X;
- an API that serves games and posts to an app, hiding final scores until the user asks for them.

Each piece is written in Dafny in the form the code takes:

- **Pure decisions** are functions over datatypes. These are the reveal/spoiler classifiers,
  the team-name and token matchers, the women's-game heuristic, slugs, cache file names,
  reveal levels and value parsing.
- **Step-by-step code** is a method with loop invariants, proved against a specification
  function. Examples are the right-to-left score scan, stat coercion, the day's game loop,
  the post-saving loop and response flattening.
- **State the code mutates in place** is a class with `modifies` clauses. Examples are the
  512-entry LRU match cache, the log sampler, the odds and games tables, the social-post
  session and the HTML page cache.

Databases are modelled as sequences and maps. The regex engine, `float(str)`, `urlparse`, MD5,
`normalize_team_name`, the clock and every network fetch are parameters of the model.

Modules, one per file: `Wrappers`, `Text` (the Python string operations the code relies on),
`RevealPolicy` (the shared decision procedure), `ScraperRevealFilter`, `ApiRevealFilter`,
`SpoilerFilter`, `OddsPersistence`, `PostCollector`, `Html`, `Parsing`, `HtmlParsing`,
`NcaabScoreboard`, `GamePersistence`, `PageCache`, `ScoreRedaction`, `RevealLevels` and
`Serialization`.

Where the code and its documentation differ, the model follows the code:

- `parse_int` is documented to return `None` for invalid values, but raises `OverflowError`
  on "inf". The NCAAB scraper is modelled with `parse_int` as written
  (`Parsing.ParseIntAsWritten`). A score cell or a tfoot stat that reads as infinity therefore
  raises. The day's loop catches only `ScraperError`, so that exception ends the whole
  `fetch_games_for_date` call, as does an exception from the boxscore fetch, which runs
  outside the `try`. `Parsing.ParseInt` is the documented behaviour. See Findings.
- The `HTMLCache` docstring describes a `{season}` directory, which `_get_cache_path` no
  longer uses. `PageCache.HTMLCache.PathFor` has no season, and the game date plays no part.
- `fetch_games_for_date` declares an `error_count` but never increments it. The model
  returns only the games and the skip count.

## Model

| member | source | states |
|---|---|---|
| RevealPolicy.FirstMatch | scraper/bets_scraper/social/reveal_filter.py:92-107 | the first pattern in list order that matches; `None` exactly when none matches |
| RevealPolicy.Check | scraper/bets_scraper/social/reveal_filter.py:79-107 | empty text reveals nothing; the outcome flag holds iff some score, final or recap pattern matches; score beats final beats recap, and the reason and first matching pattern follow that order |
| RevealPolicy.Classify | scraper/bets_scraper/social/reveal_filter.py:110-132 | no text is risk / `default_no_text`; an outcome match is risk whatever the safe list says; an emoji without an outcome is risk / `score_emoji`; non-risk iff the safe branch is taken, with reason `safe_pattern`; otherwise risk / `default_conservative` |
| RevealPolicy.ContainsOutcome | scraper/bets_scraper/social/reveal_filter.py:135-145 | equals the outcome flag of the check: text is non-empty and some score, final or recap pattern matches |
| RevealPolicy.OutcomeNeverDowngraded | scraper/bets_scraper/social/reveal_filter.py:121-130 | once an outcome pattern matches, the verdict is risk, and replacing the safe list changes nothing |
| ScraperRevealFilter.CheckForReveals | scraper/bets_scraper/social/reveal_filter.py:79-107 | with this copy's patterns: empty text is no reveal; reveal iff an outcome pattern matches; the reason is one of `score`, `final_keyword`, `recap` |
| ScraperRevealFilter.ClassifyRevealRisk | scraper/bets_scraper/social/reveal_filter.py:110-132 | no text is risk / `default_no_text`; safe iff the safe branch is taken; the emoji and default verdicts |
| ScraperRevealFilter.ContainsReveal | scraper/bets_scraper/social/reveal_filter.py:135-145 | true iff the text is non-empty and some score, final or recap pattern of this copy matches |
| ScraperRevealFilter.TrophyEmojiFlagged | scraper/bets_scraper/social/reveal_filter.py:60 | a lineup post carrying a real trophy emoji is risk / `score_emoji`, even though a safe pattern matches it |
| ApiRevealFilter.CheckForReveals | api/app/utils/reveal_filter.py:67-83 | empty text is no reveal; reveal iff an outcome pattern of this copy matches; the reason is one of the three outcome reasons |
| ApiRevealFilter.ClassifyRevealRisk | api/app/utils/reveal_filter.py:86-101 | no text is risk / `default_no_text`; safe iff the safe branch is taken; the emoji and default verdicts |
| ApiRevealFilter.TrophyEmojiMissed | api/app/utils/reveal_filter.py:52 | as written, the mojibake emoji class lets the trophy lineup post through as safe, where the scraper copy flags it |
| SpoilerFilter.CheckForSpoilers | scraper/bets_scraper/social/spoiler_filter.py:77-105 | empty text is no spoiler; spoiler iff an outcome pattern matches; the reason is one of the three outcome reasons |
| SpoilerFilter.ClassifySpoilerRisk | scraper/bets_scraper/social/spoiler_filter.py:108-130 | no text is risk / `default_no_text`; `spoiler_risk` is false iff the safe branch is taken, iff the reason is `safe_pattern` |
| SpoilerFilter.ContainsSpoiler | scraper/bets_scraper/social/spoiler_filter.py:133-143 | true iff the text is non-empty and some score, final or recap pattern matches; emoji and safe patterns play no part |
| SpoilerFilter.TrophyEmojiMissed | scraper/bets_scraper/social/spoiler_filter.py:58 | as written, this copy too classifies the trophy lineup post as safe |
| OddsPersistence.CacheKey | scraper/bets_scraper/persistence/odds.py:350-355 | the key holds the league and day, and the two team ids ordered low then high, as a set equal to {home, away} |
| OddsPersistence.CacheKeySymmetric | scraper/bets_scraper/persistence/odds.py:350-355 | a snapshot and its home/away-swapped twin have the same cache key |
| OddsPersistence.Without | scraper/bets_scraper/persistence/odds.py:44 | removing a key from the recency order keeps every other key and the order's distinctness, and shortens it by one when the key was there |
| OddsPersistence.MoveToEnd | scraper/bets_scraper/persistence/odds.py:44 | `move_to_end` keeps the keys distinct, holds the old keys plus the moved one, and grows only when the key is new |
| OddsPersistence.DropOldest | scraper/bets_scraper/persistence/odds.py:51-52 | `popitem(last=False)` drops only the least recent key and never the one just set |
| OddsPersistence.MatchCache.constructor | scraper/bets_scraper/persistence/odds.py:37-38 | the cache starts empty |
| OddsPersistence.MatchCache.Get | scraper/bets_scraper/persistence/odds.py:41-45 | a miss returns the `False` sentinel and changes nothing; a hit returns the stored `int` or `None` and makes the key most recent |
| OddsPersistence.MatchCache.Set | scraper/bets_scraper/persistence/odds.py:48-52 | the value is stored as most recent; the least recent entry goes only past 512 entries, so the size never exceeds 512 |
| OddsPersistence.PyMod | scraper/bets_scraper/persistence/odds.py:62 | Python's `%`: the remainder has the divisor's sign and lies strictly within it |
| OddsPersistence.LogSampler.constructor | scraper/bets_scraper/persistence/odds.py:55 | no event key has been counted yet |
| OddsPersistence.LogSampler.ShouldLog | scraper/bets_scraper/persistence/odds.py:59-62 | only this key's counter goes up, by one; the answer is whether the new count is 1 modulo the sample |
| OddsPersistence.MultipleBound | scraper/bets_scraper/persistence/odds.py:62 | a non-zero multiple of a positive sample is at least the sample in size |
| OddsPersistence.LoggedCounts | scraper/bets_scraper/persistence/odds.py:59-62 | with a sample of at least 2, the logged counts are exactly 1, sample+1, 2·sample+1, … |
| OddsPersistence.SampleOfOneNeverLogs | scraper/bets_scraper/persistence/odds.py:62 | with a sample of 1 nothing is ever logged |
| OddsPersistence.FirstIndex | scraper/bets_scraper/persistence/odds.py:74-95 | `.scalar()`, read as the first selected row in table order (see Left out); `None` iff no row is selected |
| OddsPersistence.MatchGameByTeamIds | scraper/bets_scraper/persistence/odds.py:65-95 | a game is found iff some in-range game has the teams either way round; when one has them in the exact orientation, that orientation wins |
| OddsPersistence.DbSpelling | scraper/bets_scraper/persistence/odds.py:30-34 | the three St. John's spellings map to "St. John's (NY)"; every other name is kept |
| OddsPersistence.Tokens | scraper/bets_scraper/persistence/odds.py:117-118 | tokens are non-empty, space-free and never stopwords |
| OddsPersistence.SideMatches | scraper/bets_scraper/persistence/odds.py:155-183 | exact or substring agreement matches; token overlap (threshold 1 for ≤2 tokens, else 2, or a subset either way) is tried only when agreement fails |
| OddsPersistence.MatchGameByNamesNcaab | scraper/bets_scraper/persistence/odds.py:98-228 | a game is found iff some in-range game's names match either way round, and the id returned is such a game's |
| OddsPersistence.MatchGameByNamesOther | scraper/bets_scraper/persistence/odds.py:231-299 | a game is found iff some in-range game's names match case-insensitively either way round, and the id returned is such a game's; when some game matches in the snapshot's orientation, the id is one that matches in that orientation |
| OddsPersistence.RowFor | scraper/bets_scraper/persistence/odds.py:570-585 | the row carries the matched game id, and its side is NULL exactly when the snapshot's side is empty |
| OddsPersistence.FirstRow | scraper/bets_scraper/persistence/odds.py:586-587 | the first row in conflict with the new one on the five index columns, under either NULL semantics |
| OddsPersistence.UpsertOddsRowNullsDistinct | api/alembic/versions/20260109_000001_fix_odds_upsert_constraints.py:36-41 | as the index was created, a NULL-side row never conflicts and is always appended |
| OddsPersistence.NullSideRowsPileUp | scraper/bets_scraper/persistence/odds.py:570-598 | as written, upserting the same side-less odds twice leaves two rows |
| OddsPersistence.UpsertOddsRow | scraper/bets_scraper/persistence/odds.py:570-598 | the intended upsert, with NULL sides comparing equal (not the index as created, see Findings): when no row shares the new row's five conflict columns, the row is appended; otherwise one row with that identity is replaced by it and every other index is unchanged; with identities unique, that is exactly the row with the identity |
| OddsPersistence.UpsertOddsRowIdempotent | scraper/bets_scraper/persistence/odds.py:570-598 | the intended upsert keeps one row per identity, and applying it twice is applying it once |
| OddsPersistence.OddsTable.constructor | scraper/bets_scraper/persistence/odds.py:570-598 | the table holds the given rows |
| OddsPersistence.OddsTable.Upsert | scraper/bets_scraper/persistence/odds.py:570-598 | the rows become the intended upsert of the snapshot's row |
| OddsPersistence.MatchGame | scraper/bets_scraper/persistence/odds.py:515-534 | a team-id match wins over name matching; any game returned is in range for the league and day |
| OddsPersistence.UpsertOdds | scraper/bets_scraper/persistence/odds.py:350-600 | a cached answer short-circuits matching; a cached `None` returns False and writes nothing; otherwise the match, `None` included, is cached; odds are written, by the intended upsert, and True returned exactly when a game is known; the key ends most recent: a hit only moves it to the end, a miss appends it and keeps every other entry, except the least recent when that passes 512 |
| PostCollector.ResolveToken | scraper/bets_scraper/social/collector.py:56 | a non-empty given token wins; otherwise the environment's token |
| PostCollector.DefaultStrategy | scraper/bets_scraper/social/collector.py:105 | the browser strategy iff it is available, else the mock |
| PostCollector.CollectPosts | scraper/bets_scraper/social/collector.py:23-86 | the mock and the X API strategy, with or without a token, return no posts; only the browser strategy fetches |
| PostCollector.TeamByAbbreviation | scraper/bets_scraper/social/collector.py:133-135 | the first team whose abbreviation equals the job's ignoring case; `None` iff there is none |
| PostCollector.ById | scraper/bets_scraper/social/collector.py:236-243 | the lookup of a team (`.get`) or a game (`.first()`) by id: a row with that id; `None` iff there is none |
| PostCollector.MediaTypeOf | scraper/bets_scraper/social/collector.py:159 | the post's media type, or "none" when it is missing or empty; never empty |
| PostCollector.Refreshed | scraper/bets_scraper/social/collector.py:152-161 | an update keeps the row's game, team and URL, and takes the post's text, media type and the time |
| PostCollector.Created | scraper/bets_scraper/social/collector.py:162-176 | a new row belongs to the job's game and the found team, under the post's URL |
| PostCollector.ApplyPosts | scraper/bets_scraper/social/collector.py:142-177 | filtered + updated + saved is the number of posts, and the store grows by exactly the saved count |
| PostCollector.ApplyPostsKeys | scraper/bets_scraper/social/collector.py:143-177 | a URL is stored afterwards iff it was before or some unfiltered post has it |
| PostCollector.ApplyPostsKeepsOwners | scraper/bets_scraper/social/collector.py:152-161 | a stored post never changes game or team |
| PostCollector.SpoilersLeaveStoreAlone | scraper/bets_scraper/social/collector.py:144-146 | with filtering on, a batch of spoilers changes nothing and counts every post as filtered |
| PostCollector.RunJobCountsAddUp | scraper/bets_scraper/social/collector.py:126-180 | with the team found, posts_found is the fetched count, the three counts add up to it, the store grows by posts_saved, and a commit happens iff something was saved or updated and the commit succeeds |
| PostCollector.MissingTeamSavesNothing | scraper/bets_scraper/social/collector.py:137-140 | a missing team gives exactly the error "Team not found: <abbr>", nothing saved, no commit |
| PostCollector.SocialDb.constructor | scraper/bets_scraper/social/collector.py:108 | the session starts with the given teams, games and posts, and no commits |
| PostCollector.SocialDb.SavePosts | scraper/bets_scraper/social/collector.py:142-177 | the loop's store and counters are those of `ApplyPosts`; teams, games and commits are unchanged |
| PostCollector.RunJobsSpec | scraper/bets_scraper/social/collector.py:274-288 | jobs run in turn over one session: one result per job, for that job, and at most one commit per job |
| PostCollector.RunJobsSnoc | scraper/bets_scraper/social/collector.py:286-288 | a further job runs over the posts and commits the earlier jobs left, and its result is appended |
| PostCollector.EachJobSeesThoseBefore | scraper/bets_scraper/social/collector.py:274-288 | the k-th result is `run_job` of the k-th job over the posts and commits that jobs 0..k-1 left |
| PostCollector.RunJobKeepsOwners | scraper/bets_scraper/social/collector.py:126-180 | one job never drops a stored post nor moves it to another game or team, whether the fetch fails, the team is missing or the commit fails |
| PostCollector.RunJobsKeepOwners | scraper/bets_scraper/social/collector.py:274-288 | across a game's jobs, every stored post stays stored under its game and team |
| PostCollector.XPostCollector.constructor | scraper/bets_scraper/social/collector.py:97-106 | a given strategy is kept; otherwise the default strategy |
| PostCollector.XPostCollector.RunJob | scraper/bets_scraper/social/collector.py:108-210 | the result, the counters, the stored posts and the commits are exactly the job specification's, including the fetch-failure, missing-team and commit-failure paths |
| PostCollector.XPostCollector.CollectForGame | scraper/bets_scraper/social/collector.py:212-290 | a missing game or team gives [], no post changed and no commit; otherwise the results, the stored posts and the commit count are those of running the jobs of the home and then the away team (those with a handle) in turn; at most two results |
| PostCollector.XPostCollector.RunTeamJobs | scraper/bets_scraper/social/collector.py:274-288 | the loop over the teams: the results, posts and commits are those of the jobs for the teams with a handle, in order |
| PostCollector.JobsFor | scraper/bets_scraper/social/collector.py:274-288 | at most one job per team, each for the game and with a non-empty handle |
| PostCollector.JobsForPrefix | scraper/bets_scraper/social/collector.py:274-288 | each team adds its job, or nothing without a handle, after those of the teams before it |
| PostCollector.HomeJobFirst | scraper/bets_scraper/social/collector.py:274 | when the home team has a handle, the first job is the home team's |
| Parsing.Trunc | scraper/bets_scraper/utils/parsing.py:42 | `int(x)` truncates toward zero |
| Parsing.ParseIntAsWritten | scraper/bets_scraper/utils/parsing.py:25-44 | as written, the call raises exactly when the float is infinite |
| Parsing.ParseInt | scraper/bets_scraper/utils/parsing.py:25-44 | sentinels give `None`; a result exists iff the text parses to a finite float, and it is that float truncated toward zero |
| Parsing.ParseIntAgreesUnlessInfinite | scraper/bets_scraper/utils/parsing.py:39-44 | the corrected parser and the code agree on every input whose float is not infinite |
| Parsing.InfinityRaises | scraper/bets_scraper/utils/parsing.py:41-44 | "inf" raises `OverflowError` as written, and gives `None` as documented |
| Parsing.ParseFloat | scraper/bets_scraper/utils/parsing.py:47-71 | sentinels give `None`; text without ':' is `float(value)`; text with two parts around ':' is minutes plus seconds/60, `None` unless both parse; text with more parts is `float(value)` |
| Parsing.ParseTimeToMinutes | scraper/bets_scraper/utils/parsing.py:74-95 | sentinels give `None`; "MM:SS" as in `parse_float`; "HH:MM:SS" gives a value iff all three parts parse, and it is hours·60 + minutes + seconds/60; any other number of parts is `float(value)` |
| Parsing.HmsExample | scraper/bets_scraper/utils/parsing.py:74-95 | "1:02:30" is 62.5 minutes, while `parse_float` gives `None` for it |
| Parsing.ParseIntSettlesWithoutInfinity | scraper/bets_scraper/utils/parsing.py:39-44 | when no text reads as infinity, `parse_int` never raises |
| Parsing.ParseFloatFiniteWithoutInfinity | scraper/bets_scraper/utils/parsing.py:47-71 | when no text reads as infinity, `parse_float` never yields an infinite float |
| Parsing.SplitWithoutSeparator | scraper/bets_scraper/utils/parsing.py:65-66 | text without ':' splits into one part |
| Parsing.ParseFloatAgreesWithTime | scraper/bets_scraper/utils/parsing.py:61-95 | the two duration parsers agree on everything except "HH:MM:SS" |
| Parsing.ClockExample | scraper/bets_scraper/utils/parsing.py:81 | "32:45" reads as 32.75 minutes under both parsers |
| Parsing.GetStatFromRow | scraper/bets_scraper/utils/parsing.py:8-22 | a value is the non-empty stripped text of a cell carrying the stat; no such cell gives `None` |
| Parsing.StatsOf | scraper/bets_scraper/utils/parsing.py:109-114 | every key is a non-empty `data-stat` |
| Parsing.StatsOfKeys | scraper/bets_scraper/utils/parsing.py:110-113 | a stat is present iff some `td` carries it |
| Parsing.StatsOfLastWins | scraper/bets_scraper/utils/parsing.py:113 | a stat holds the stripped text of the last cell that carries it |
| Parsing.GetStatAgreesWithStats | scraper/bets_scraper/utils/parsing.py:18-21 | for a stat carried by one cell, the row lookup and the row's stats give the same text, `None` when it is empty |
| Parsing.GetStatFirst | scraper/bets_scraper/utils/parsing.py:18-21 | the lookup reads the first cell that carries the stat |
| Parsing.ExtractAllStatsFromRow | scraper/bets_scraper/utils/parsing.py:98-114 | the loop's dictionary is the row's stats |
| HtmlParsing.TableWithId | scraper/bets_scraper/utils/html_parsing.py:21 | the first table in document order with that id; `None` iff no table has it |
| HtmlParsing.FindTableById | scraper/bets_scraper/utils/html_parsing.py:10-32 | the primary id's table wins whenever it exists; otherwise the first alternate in order that exists; `None` iff none exists |
| HtmlParsing.FindPlayerTable | scraper/bets_scraper/utils/html_parsing.py:72-83 | the same lookup as `find_table_by_id`: the primary id's table whenever it exists; otherwise the first alternate in order that exists; `None` iff none |
| HtmlParsing.ExtractTeamStatsFromTable | scraper/bets_scraper/utils/html_parsing.py:35-69 | {} without a tfoot; otherwise the tfoot row's stats (stripped text, a later duplicate winning) |
| HtmlParsing.GetTableIdsOnPage | scraper/bets_scraper/utils/html_parsing.py:86-97 | at most `limit` ids, in document order, "no-id" for a table without one |
| NcaabScoreboard.ScoreTexts | scraper/bets_scraper/scrapers/ncaab_sportsref.py:64-65 | each cell's text, stripped |
| NcaabScoreboard.LastSettling | scraper/bets_scraper/scrapers/ncaab_sportsref.py:64-68 | the rightmost cell whose `parse_int` does not return `None` (it returns a value or raises); `None` iff every cell gives `None` |
| NcaabScoreboard.NoTextIsUnknown | scraper/bets_scraper/scrapers/ncaab_sportsref.py:70-74 | no cells, or an empty leftmost cell, gives `invalid_score_value:unknown` |
| NcaabScoreboard.IdentityOf | scraper/bets_scraper/scrapers/ncaab_sportsref.py:76-82 | the league is NCAAB, the short name is the name, and an external ref exists iff there is an abbreviation |
| NcaabScoreboard.TeamRowOutcome | scraper/bets_scraper/scrapers/ncaab_sportsref.py:49-83 | no link fails with "Missing team link"; with no settling cell, the marker or invalid-value error; otherwise the rightmost settling cell decides: the row raises exactly when its `parse_int` raises, else it parses with that score; a parsed row carries the link's identity |
| NcaabScoreboard.ScanScore | scraper/bets_scraper/scrapers/ncaab_sportsref.py:62-68 | the loop's score is `parse_int` of the rightmost settling cell, raise included; with none, no score, and the last text looked at is the leftmost |
| NcaabScoreboard.ParseTeamRow | scraper/bets_scraper/scrapers/ncaab_sportsref.py:49-83 | the method's outcome, raise included, is `TeamRowOutcome`'s |
| NcaabScoreboard.MarkerOnlyIsPending | scraper/bets_scraper/scrapers/ncaab_sportsref.py:70-73 | a row whose only cell is a status marker fails with `score_unavailable_status:<MARKER>` |
| NcaabScoreboard.InfiniteScoreRaises | scraper/bets_scraper/scrapers/ncaab_sportsref.py:62-68 | a row whose rightmost cell reads as infinity raises `OverflowError` instead of failing with a parse error, whatever the cells to its left |
| NcaabScoreboard.ReasonNames | scraper/bets_scraper/scrapers/ncaab_sportsref.py:425-440 | each reason maps to its logged name, in order |
| NcaabScoreboard.FiredAmong | scraper/bets_scraper/scrapers/ncaab_sportsref.py:425-440 | a reason is kept iff it is a candidate whose test holds |
| NcaabScoreboard.FiredAmongInOrder | scraper/bets_scraper/scrapers/ncaab_sportsref.py:425-440 | filtering keeps the order in which the tests run |
| NcaabScoreboard.ReasonsOf | scraper/bets_scraper/scrapers/ncaab_sportsref.py:422-440 | a reason is listed iff its test holds, in test order |
| NcaabScoreboard.IsProbableWomensGame | scraper/bets_scraper/scrapers/ncaab_sportsref.py:406-442 | flagged iff at least one reason fired; the second part is the reason names joined by "," |
| NcaabScoreboard.WKeyFiresTwoReasons | scraper/bets_scraper/scrapers/ncaab_sportsref.py:433-436 | a key starting with "w" is flagged, with `game_key_not_numeric` before `game_key_starts_with_w` |
| NcaabScoreboard.MensGameNotFlagged | scraper/bets_scraper/scrapers/ncaab_sportsref.py:422-442 | a numeric key, a plain link, no "women" in the names and no `gender-f` class gives (False, "") |
| NcaabScoreboard.Slugify | scraper/bets_scraper/scrapers/ncaab_sportsref.py:94-98 | a slug has only `[a-z0-9-]`, no double hyphen and no hyphen at either end, and keeps exactly the lower-cased name's `[a-z0-9]` characters, in order |
| NcaabScoreboard.BoxScoreTables | scraper/bets_scraper/scrapers/ncaab_sportsref.py:105 | exactly the tables whose id starts "box-score-basic-", the first of them first |
| NcaabScoreboard.BoxScoreTablesAppend | scraper/bets_scraper/scrapers/ncaab_sportsref.py:105 | the selection keeps document order: selecting from two runs of tables is selecting from each, in turn |
| NcaabScoreboard.FirstMatchingTable | scraper/bets_scraper/scrapers/ncaab_sportsref.py:107-112 | the first table whose slug matches the team's slug or its alternate; `None` iff none matches |
| NcaabScoreboard.TeamTable | scraper/bets_scraper/scrapers/ncaab_sportsref.py:105-118 | a slug match wins; without one, `tables[1]` for the home team when there are two or more, else `tables[0]`; `None` iff there are no tables |
| NcaabScoreboard.Coerce | scraper/bets_scraper/scrapers/ncaab_sportsref.py:135-143 | `parse_int` raising makes the coercion raise `OverflowError`; an int iff `parse_int` returns one, that int; a float iff it returns `None` and `parse_float` succeeds, that float; otherwise the raw text |
| NcaabScoreboard.CoercedStats | scraper/bets_scraper/scrapers/ncaab_sportsref.py:131-143 | raises `OverflowError` iff some non-empty value's `parse_int` raises; otherwise exactly the non-empty values are kept, each coerced |
| NcaabScoreboard.TeamStats | scraper/bets_scraper/scrapers/ncaab_sportsref.py:85-144 | no box-score table gives {}; otherwise the chosen table's tfoot stats: raises iff one of them raises on coercion, else the non-empty ones |
| NcaabScoreboard.CoerceStats | scraper/bets_scraper/scrapers/ncaab_sportsref.py:131-144 | the loop's dictionary, or its raise, is `CoercedStats`'s |
| NcaabScoreboard.MatchTeamTable | scraper/bets_scraper/scrapers/ncaab_sportsref.py:106-116 | the loop and the fallback pick the specified table |
| NcaabScoreboard.ExtractTeamStats | scraper/bets_scraper/scrapers/ncaab_sportsref.py:85-144 | the method returns, or raises, what `TeamStats` specifies |
| NcaabScoreboard.FirstLink | scraper/bets_scraper/scrapers/ncaab_sportsref.py:493-498 | the href of the first link in scope whose href contains the needle; `None` iff no link in scope has one |
| NcaabScoreboard.SlashedNeedleContainsBare | scraper/bets_scraper/scrapers/ncaab_sportsref.py:494-497 | "/boxscores/" contains "boxscores", so any link the first and third selectors find, the second and fourth find too |
| NcaabScoreboard.BoxscoreHref | scraper/bets_scraper/scrapers/ncaab_sportsref.py:493-498 | the four selectors in priority order: `p.links` with "/boxscores/", `p.links` with "boxscores", any link with "/boxscores/", any link with "boxscores"; `None` iff no href contains "boxscores" |
| NcaabScoreboard.SourceGameKey | scraper/bets_scraper/scrapers/ncaab_sportsref.py:516 | the key is the last "/" segment with ".html" removed, so it holds no "/" |
| NcaabScoreboard.StatToInt | scraper/bets_scraper/scrapers/ncaab_sportsref.py:400-402 | `parse_int` of a coerced stat: an int is kept; a finite float truncates toward zero; an infinite float raises, NaN gives `None`; text is parsed again; a missing stat gives `None` |
| NcaabScoreboard.StatToIntOfCoerce | scraper/bets_scraper/scrapers/ncaab_sportsref.py:131-143 | for a stat without ':', `parse_int` of its coerced value equals `parse_int` of its raw text, raise included |
| NcaabScoreboard.ClockStatTruncates | scraper/bets_scraper/scrapers/ncaab_sportsref.py:131-143 | a "32:45" stat coerces to the float 32.75, so the boxscore counts 32 where the raw text would give `None` |
| NcaabScoreboard.BuildTeamBoxscore | scraper/bets_scraper/scrapers/ncaab_sportsref.py:395-404 | raises iff `parse_int` of the trb, ast or tov stat raises; otherwise the team, home flag, score and raw stats it was given, with rebounds, assists and turnovers the `parse_int` of those stats |
| NcaabScoreboard.CountFromTotals | scraper/bets_scraper/scrapers/ncaab_sportsref.py:131-143 | a count read from the coerced totals equals `parse_int` of the raw tfoot text for that key |
| NcaabScoreboard.BoxscoreCountsFromTotals | scraper/bets_scraper/scrapers/ncaab_sportsref.py:395-404 | with coercion succeeding, the boxscore is built and its three counts are `parse_int` of the raw tfoot texts |
| NcaabScoreboard.AssembleGame | scraper/bets_scraper/scrapers/ncaab_sportsref.py:561-585 | raises iff either boxscore raises; otherwise a completed game with the away boxscore first and then the home one, each on its team with points equal to its score, the identity from the day, teams and key, and each team's stats kept |
| NcaabScoreboard.GameFromPage | scraper/bets_scraper/scrapers/ncaab_sportsref.py:542-585 | from a fetched page: the away stats, then the home stats, then the game; any game has the key, the teams and the scores it was given, and is well formed |
| NcaabScoreboard.GameFromPageRaises | scraper/bets_scraper/scrapers/ncaab_sportsref.py:542-573 | an exception from the away stats wins; then one from the home stats; otherwise the page raises iff a boxscore raises |
| NcaabScoreboard.GameFromLink | scraper/bets_scraper/scrapers/ncaab_sportsref.py:515-585 | any game produced is well formed, keyed by the link, with the rows' teams and scores |
| NcaabScoreboard.GameFromLinkNone | scraper/bets_scraper/scrapers/ncaab_sportsref.py:518-537 | the iteration skips the game exactly when the women's heuristic flags it |
| NcaabScoreboard.GameFromLinkRaises | scraper/bets_scraper/scrapers/ncaab_sportsref.py:539-585 | an unflagged game whose boxscore fetch raises ends with that exception; a fetched page that raises while the game is built ends with that exception |
| NcaabScoreboard.GameFromDiv | scraper/bets_scraper/scrapers/ncaab_sportsref.py:457-585 | any game produced is well formed |
| NcaabScoreboard.GameFromDivSkipped | scraper/bets_scraper/scrapers/ncaab_sportsref.py:457-537 | a summary yields no game exactly when it has fewer than two rows, a row fails with a ScraperError, there is no boxscore link, or the women's heuristic flags it |
| NcaabScoreboard.GameFromDivRowRaises | scraper/bets_scraper/scrapers/ncaab_sportsref.py:469-490 | an exception that is not a ScraperError from the away row, or from the home row after the away row parses, escapes the iteration; a ScraperError from the away row skips it |
| NcaabScoreboard.GameFromDivTeams | scraper/bets_scraper/scrapers/ncaab_sportsref.py:469-585 | a game produced comes from two parsed rows and a boxscore link: row 0 is the away team, row 1 the home team, with their scores, and the key is the link's |
| NcaabScoreboard.RunDay | scraper/bets_scraper/scrapers/ncaab_sportsref.py:457-594 | the loop over the day: it raises iff some iteration raises, with the first such iteration's exception and every earlier one returning; otherwise it holds at most one game per summary, and a game is in it iff some iteration produced it |
| NcaabScoreboard.RunDayAppend | scraper/bets_scraper/scrapers/ncaab_sportsref.py:457-594 | the loop over two runs of summaries is the loop over the first, then over the second, their games concatenated in order, unless the first raises |
| NcaabScoreboard.RunDayOne | scraper/bets_scraper/scrapers/ncaab_sportsref.py:457-594 | one summary gives its exception, no game, or its one game |
| NcaabScoreboard.RunDayPrefixRaises | scraper/bets_scraper/scrapers/ncaab_sportsref.py:457-594 | once the summaries so far raise, the later ones change nothing |
| NcaabScoreboard.RunDayLoop | scraper/bets_scraper/scrapers/ncaab_sportsref.py:457-594 | the imperative loop returns, or raises, exactly what `RunDay` specifies, and when it returns every item either gave one output or was counted as skipped |
| NcaabScoreboard.RunDayPrefixStep | scraper/bets_scraper/scrapers/ncaab_sportsref.py:457-594 | one more summary adds its exception, nothing, or its game after the games so far |
| NcaabScoreboard.GamesFrom | scraper/bets_scraper/scrapers/ncaab_sportsref.py:446-594 | every game of the day is well formed |
| NcaabScoreboard.GamesFromSnoc | scraper/bets_scraper/scrapers/ncaab_sportsref.py:457-594 | the day in order: a further summary runs only when the earlier ones raised nothing, and its game, if any, comes after theirs |
| NcaabScoreboard.WKeyGameSkipped | scraper/bets_scraper/scrapers/ncaab_sportsref.py:518-537 | a summary whose boxscore key starts with "w" yields no game |
| NcaabScoreboard.CoercedStatsSettle | scraper/bets_scraper/scrapers/ncaab_sportsref.py:131-143 | if no text reads as infinity, coercion never raises and yields no infinite float |
| NcaabScoreboard.BoxscoreSettles | scraper/bets_scraper/scrapers/ncaab_sportsref.py:395-404 | if no text reads as infinity and no stat is an infinite float, the boxscore is built |
| NcaabScoreboard.RowSettles | scraper/bets_scraper/scrapers/ncaab_sportsref.py:469-471 | if no text reads as infinity, a team row never raises |
| NcaabScoreboard.StatsSettle | scraper/bets_scraper/scrapers/ncaab_sportsref.py:542-573 | if no text reads as infinity, a team's stats and boxscore never raise |
| NcaabScoreboard.GameFromPageSettles | scraper/bets_scraper/scrapers/ncaab_sportsref.py:542-585 | if no text reads as infinity, building a game from a fetched page never raises |
| NcaabScoreboard.GameFromDivSettles | scraper/bets_scraper/scrapers/ncaab_sportsref.py:457-585 | if no text reads as infinity and every fetch succeeds, an iteration never raises |
| NcaabScoreboard.DayCompletesWithoutInfinity | scraper/bets_scraper/scrapers/ncaab_sportsref.py:446-594 | if no text reads as infinity and every boxscore fetch succeeds, the day returns its games |
| NcaabScoreboard.InfiniteScoreAbortsDay | scraper/bets_scraper/scrapers/ncaab_sportsref.py:469-472 | as written, an away score cell reading "inf" raises `OverflowError`, which the handler for ScraperError does not catch, so the day ends with that exception whatever summaries came before; as documented, `parse_int` would give `None` |
| NcaabScoreboard.ParseLinkedGame | scraper/bets_scraper/scrapers/ncaab_sportsref.py:515-585 | the iteration after the link is found returns, or raises, what `GameFromLink` specifies |
| NcaabScoreboard.ParseGameDiv | scraper/bets_scraper/scrapers/ncaab_sportsref.py:457-585 | one iteration returns, or raises, what `GameFromDiv` specifies |
| NcaabScoreboard.FetchGamesForDate | scraper/bets_scraper/scrapers/ncaab_sportsref.py:446-594 | the method returns, or raises, what `GamesFrom` specifies; when it returns, the games plus the skipped count are all the summaries |
| GamePersistence.Coalesce | scraper/bets_scraper/persistence/games.py:34 | SQL `coalesce`: the first value when present, else the second |
| GamePersistence.Inserted | scraper/bets_scraper/persistence/games.py:37-52 | a fresh row has `scrape_version` 1, the given key and source key, and the scrape time; the insert sets no `updated_at`, and the model assumes the column has no default (see Left out) |
| GamePersistence.Updated | scraper/bets_scraper/persistence/games.py:25-35 | scores, status and venue are overwritten; the version goes up by exactly 1; a stored source key is kept and only a missing one is filled |
| GamePersistence.RowWithKey | scraper/bets_scraper/persistence/games.py:56-59 | the row whose identity conflicts; `None` iff no row has that identity |
| GamePersistence.UpsertKeepsInvariant | scraper/bets_scraper/persistence/games.py:56-63 | the upsert keeps one row per identity with distinct ids, and the returned id is that identity's row |
| GamePersistence.UpsertTwice | scraper/bets_scraper/persistence/games.py:16-63 | the same game seen twice gives one row with the same id, version 2, the second call's scores, and the first source key unless it had none |
| GamePersistence.GamesTable.constructor | scraper/bets_scraper/persistence/games.py:16 | the table starts empty and valid |
| GamePersistence.GamesTable.UpsertGame | scraper/bets_scraper/persistence/games.py:16-63 | the table becomes the specified upsert and stays valid, and the returned id is the id of the row holding the game's identity |
| PageCache.LastPathSegment | scraper/bets_scraper/utils/cache.py:35 | the last segment of the path, slashes at either end removed, holds no "/" |
| PageCache.CacheFileName | scraper/bets_scraper/utils/cache.py:34-48 | every file name ends in ".html" |
| PageCache.BoxscorePagesShareFile | scraper/bets_scraper/utils/cache.py:38-40 | a boxscore URL whose last segment ends in ".html" is cached under that segment, whatever precedes it |
| PageCache.ScoreboardFileName | scraper/bets_scraper/utils/cache.py:41-44 | a boxscore query gives "scoreboard_…" with no "&" or "=" left |
| PageCache.CachedPage | scraper/bets_scraper/utils/cache.py:53-73 | a miss gives `None`; a forced refresh gives `None` even on a hit; otherwise the stored page |
| PageCache.PutThenGet | scraper/bets_scraper/utils/cache.py:53-81 | after a put, an unforced get of that path returns the page, and other paths are unchanged |
| PageCache.HTMLCache.constructor | scraper/bets_scraper/utils/cache.py:23-26 | the directory, league and refresh flag are kept |
| PageCache.HTMLCache.PathFor | scraper/bets_scraper/utils/cache.py:28-51 | the path is cache_dir/league/filename, the file name ends in ".html", and the game date plays no part |
| PageCache.HTMLCache.Get | scraper/bets_scraper/utils/cache.py:53-73 | the answer is `CachedPage` at the URL's path |
| PageCache.HTMLCache.Put | scraper/bets_scraper/utils/cache.py:75-81 | the page is written at the URL's path, which is returned; nothing else changes |
| ScoreRedaction.ContainsExplicitScore | api/app/utils/score_redaction.py:15-19 | false for `None` or empty text; otherwise true iff some score pattern matches |
| ScoreRedaction.NormalizeWhitespace | api/app/utils/score_redaction.py:29 | the result has no whitespace at either end and only single spaces inside, and its other characters are exactly the input's non-whitespace characters, in order |
| ScoreRedaction.StripNormalizes | api/app/utils/score_redaction.py:29 | stripping collapsed text leaves it normalized and keeps its non-whitespace characters |
| ScoreRedaction.NormalizeIdempotent | api/app/utils/score_redaction.py:29 | normalizing twice is normalizing once |
| ScoreRedaction.SubstituteAll | api/app/utils/score_redaction.py:27-28 | the patterns are substituted in list order, the last one applied last |
| ScoreRedaction.Redacted | api/app/utils/score_redaction.py:22-30 | empty text is returned unchanged; any other result has normalized whitespace |
| ScoreRedaction.RedactScores | api/app/utils/score_redaction.py:22-30 | the loop applies the dash/colon pattern, then the "to/at" pattern, then normalizes whitespace |
| ScoreRedaction.RedactWithoutScores | api/app/utils/score_redaction.py:22-30 | with nothing to replace, redaction only normalizes whitespace, and a second pass changes nothing |
| RevealLevels.ParseRevealLevel | api/app/services/reveal_levels.py:15-20 | a level exists iff the text is exactly "pre" or "post", and its value is that text; anything else is `None` |
| RevealLevels.ValueRoundTrip | api/app/services/reveal_levels.py:8-18 | every level parses back from its value, and distinct levels have distinct values |
| RevealLevels.CaseMatters | api/app/services/reveal_levels.py:17-20 | "PRE" and "Post" are not levels |
| Serialization.SerializeOptional | api/app/utils/serialization.py:9-14 | `None` iff the datetime is `None`; otherwise its ISO text |
| Serialization.SerializeJsonbField | api/app/utils/serialization.py:17-18 | a missing field is {}; a present one is returned unchanged |
| Serialization.FlattenStatsForResponse | api/app/utils/serialization.py:21-28 | `None` or {} gives {}; otherwise exactly the listed keys present in the stats, with their values, plus "raw_stats" holding the stats |
| Text.Strip | scraper/bets_scraper/utils/parsing.py:20 | `str.strip()` removes whitespace at both ends and nothing else |
| Text.StripChar | scraper/bets_scraper/utils/cache.py:35 | `str.strip(c)` returns the slice after the leading run of `c`; every character dropped at the end is `c`, and the result neither starts nor ends with `c` |
| Text.DropRun | scraper/bets_scraper/utils/parsing.py:20 | `lstrip`: the longest prefix of class characters is dropped and nothing else |
| Text.TrimRight | scraper/bets_scraper/utils/parsing.py:20 | `rstrip`: the longest suffix of whitespace is dropped and nothing else |
| Text.TrailingRun | scraper/bets_scraper/utils/cache.py:35 | the length of the longest suffix of `c` |
| Text.SubRunsForm | api/app/utils/score_redaction.py:29 | `re.sub(class+, fill)` with a fill in the class: afterwards every class character is the fill and no two are adjacent |
| Text.SubRunsKept | api/app/utils/score_redaction.py:29 | the same substitution keeps exactly the characters outside the class, in order |
| Text.SubRunsNormal | api/app/utils/score_redaction.py:29 | the substitution leaves text already in that form unchanged |
| Text.SubRunsAppend | scraper/bets_scraper/scrapers/ncaab_sportsref.py:97 | substituting in two pieces that do not split a run is substituting in the whole |
| Text.KeptAppend | scraper/bets_scraper/scrapers/ncaab_sportsref.py:97 | the characters outside the class of two pieces are those of each, in turn |
| Text.KeptSlice | scraper/bets_scraper/scrapers/ncaab_sportsref.py:98 | cutting class characters off both ends keeps the other characters |
| Text.ContainsOffset | scraper/bets_scraper/scrapers/ncaab_sportsref.py:494-497 | `needle in hay` (the selector's `*=`) holds iff the needle occurs at some offset |
| Text.ContainsTransitive | scraper/bets_scraper/scrapers/ncaab_sportsref.py:494-497 | a text containing one that contains a needle contains the needle |
| Text.PyPrefix | scraper/bets_scraper/utils/html_parsing.py:97 | `s[:n]`, with a negative `n` counting from the end |
| Text.ReplaceRemovesChar | scraper/bets_scraper/utils/cache.py:44 | replacing every `c` with text that has no `c` leaves no `c` |
| Text.ReplaceKeepsAbsent | scraper/bets_scraper/utils/cache.py:44 | replacing never adds a character that neither the text nor the replacement has |

## Left out

- Network, browser and file I/O are parameters of the model: `fetch_html`, `urljoin`, the Playwright collector, the X API calls and the cache's `mkdir`/`read_text`/`write_text`. The cache's files are a map.
- Regex matching and substitution are left to the engine, as the `search` and `sub` parameters. The one exception is the emoji character classes, whose characters are modelled exactly.
- `float(str)`, `urlparse`, MD5, `normalize_team_name`, `_normalize_ncaab_name_for_matching`, `_NCAAB_STOPWORDS`, the season of a date and the clock are parameters. Their code is not part of this model.
- `Text.Lower`, `Text.Upper` and `Text.IsDigit` cover ASCII only. Python's full Unicode case mapping and `isdigit` are not modelled.
- Floating-point rounding is not modelled. Finite floats are held as reals; infinities and NaN are kept distinct.
- `_find_player_table_by_position` and `_extract_player_stats` (player boxscores) are not modelled, so emitted games carry no player boxscores. The model assumes player extraction never raises. Its own `parse_int` calls on "inf" would also end the day.
- `fetch_html` in `base.py` is not part of this model. The boxscore fetch is the parameter `Sources.boxscorePage`, which returns a page or raises.
- NcaabScoreboard.CoercedStats: the dictionary's iteration order is not modelled. Whichever value raises first, the exception is the same `OverflowError`, so the outcome does not depend on it.
- OddsPersistence.FirstIndex: the matching queries have no `ORDER BY`, so `.scalar()` may return any selected row. The model picks the first in table order. This is a modelling choice, and the contracts that name a particular game hold only for that choice; whether a game is found does not depend on it.
- GamePersistence.Inserted: the model assumes `updated_at` has no server default, so a freshly inserted row has no update time.
- `get_league_id`, `_upsert_team` and `_find_team_by_name` are not modelled. League and team ids arrive resolved.
- GamePersistence.GameKey: the columns of `uq_game_identity` are not shown in the source, so they are taken to be the inserted identity columns (league, season, season type, date, home and away team).
- GamePersistence.GamesTable: ids come from a counter, so sequence gaps from failed inserts are not modelled.
- `collect_for_game`'s Eastern-time window is a parameter (`window`). Time-zone arithmetic is not modelled.
- PostCollector.XPostCollector.RunJob: an exception raised inside the post loop (a failing query) is not modelled. Only the fetch and the commit can fail. The session's pending changes after a failed commit are kept, as the code does not roll back.
- PostCollector.TeamByAbbreviation: `ilike` is modelled as ASCII case-insensitive equality, so `%` and `_` wildcards in an abbreviation are not interpreted.
- NcaabScoreboard.FetchGamesForDate: logging, and the `error_count` that is never incremented, are left out.
- NcaabScoreboard.FetchGamesForDate: the loop (`RunDayLoop`) evaluates each iteration as the function `GameFromDiv`; `ParseGameDiv`, the step-by-step form of one iteration, is proved equal to that function but is not what the loop calls.
- OddsPersistence.UpsertOdds: the steps before the cache key (league lookup and team upserts) and the log calls are not modelled. `_should_log` is modelled on its own as `LogSampler.ShouldLog`.
- OddsPersistence.OddsRow: `created_at`/`updated_at` timestamps are not modelled, so an update replaces the row's values wholesale.
- Logging (structlog), FastAPI routers, Celery tasks, Alembic migrations other than the odds index, `compact_mode_thresholds` and `game_metadata/scoring` are outside the modelled core.

## Findings

| source | as written | input that shows it | evidently intended | confidence | as-written member | corrected member |
|---|---|---|---|---|---|---|
| api/app/utils/reveal_filter.py:52 | the emoji class holds UTF-8 bytes decoded as cp1252 ('ð', 'Ÿ', '†', …), not the emoji | a lineup post with the trophy emoji U+1F3C6 and no outcome words: risk in the scraper copy, safe here | the same real emoji as scraper/bets_scraper/social/reveal_filter.py:60, which the file says to keep in sync | not executed | ApiRevealFilter.TrophyEmojiMissed | ScraperRevealFilter.TrophyEmojiFlagged |
| scraper/bets_scraper/social/spoiler_filter.py:58 | the same mojibake emoji class | the same trophy lineup post is classified `safe_pattern` | the real emoji class | not executed | SpoilerFilter.TrophyEmojiMissed | ScraperRevealFilter.TrophyEmojiFlagged |
| scraper/bets_scraper/persistence/odds.py:570-598 | an empty side is stored as NULL, and the unique index created in api/alembic/versions/20260109_000001_fix_odds_upsert_constraints.py:36-41 treats NULLs as distinct, so such a row never conflicts | the same snapshot with no side upserted twice leaves two rows | one row per (game, book, market, side, closing) with NULL side included | not executed | OddsPersistence.NullSideRowsPileUp | OddsPersistence.UpsertOddsRowIdempotent |
| scraper/bets_scraper/utils/parsing.py:41-44 | `int(float("inf"))` raises `OverflowError`, which the `except` does not catch; a score or stat cell reading "inf" aborts the whole NCAAB day | `parse_int("inf")`; a summary whose away score cell reads "inf" | `None` for any value that is not a finite number, as the docstring says | not executed | NcaabScoreboard.InfiniteScoreAbortsDay | Parsing.ParseInt |
