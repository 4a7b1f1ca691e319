/**
 * Odds persistence: matching an odds snapshot to a stored game and upserting the odds row.
 *
 * The module-level `_MATCH_CACHE` (an LRU `OrderedDict`) and `_LOG_COUNTERS` become the classes
 * `MatchCache` and `LogSampler`; the `sports_games` table is a sequence of rows in the order the
 * database returns them, and `sports_game_odds` a sequence of rows held by `OddsTable`.
 */
module OddsPersistence {
  import opened Wrappers
  import opened Text

  // ---------------------------------------------------------------------------------------
  // The LRU match cache

  const MatchCacheMax: nat := 512

  /** `(league_code, game_day, min(home_team_id, away_team_id), max(home_team_id, away_team_id))`. */
  datatype MatchKey = MatchKey(leagueCode: string, gameDay: int, lowTeamId: int, highTeamId: int)

  /** `_cache_get`'s answer: `False` on a miss, otherwise the cached `int | None`. */
  datatype Lookup = Miss | Hit(gameId: Option<int>)

  /** The cache key of `upsert_odds`: it does not depend on which team is home. */
  function CacheKey(leagueCode: string, gameDay: int, homeTeamId: int, awayTeamId: int): (k: MatchKey)
    ensures k.leagueCode == leagueCode && k.gameDay == gameDay
    ensures k.lowTeamId <= k.highTeamId
    ensures {k.lowTeamId, k.highTeamId} == {homeTeamId, awayTeamId}
  {
    if homeTeamId <= awayTeamId then MatchKey(leagueCode, gameDay, homeTeamId, awayTeamId)
    else MatchKey(leagueCode, gameDay, awayTeamId, homeTeamId)
  }

  /** A snapshot and its home/away-swapped twin share one cache entry. */
  lemma CacheKeySymmetric(leagueCode: string, gameDay: int, homeTeamId: int, awayTeamId: int)
    ensures CacheKey(leagueCode, gameDay, homeTeamId, awayTeamId) == CacheKey(leagueCode, gameDay, awayTeamId, homeTeamId)
  {
  }

  predicate NoDuplicates<T(==)>(s: seq<T>) {
    forall i, j :: 0 <= i < j < |s| ==> s[i] != s[j]
  }

  /** `s` with every occurrence of `x` taken out, the rest in order. */
  function Without(s: seq<MatchKey>, x: MatchKey): (r: seq<MatchKey>)
    ensures forall y :: y in r <==> y in s && y != x
    ensures NoDuplicates(s) ==> NoDuplicates(r)
    ensures NoDuplicates(s) && x in s ==> |r| == |s| - 1
    ensures x !in s ==> r == s
  {
    if s == [] then []
    else if s[0] == x then Without(s[1..], x)
    else
      var rest := Without(s[1..], x);
      assert NoDuplicates(s) ==> s[0] !in s[1..];
      assert NoDuplicates(s) ==> forall i :: 0 <= i < |rest| ==> rest[i] != s[0];
      [s[0]] + rest
  }

  /** Moving a key to the most recent end keeps the keys distinct and adds at most one. */
  lemma MoveToEnd(order: seq<MatchKey>, key: MatchKey)
    requires NoDuplicates(order)
    ensures NoDuplicates(Without(order, key) + [key])
    ensures forall y :: y in Without(order, key) + [key] <==> y in order || y == key
    ensures |Without(order, key) + [key]| == if key in order then |order| else |order| + 1
  {
    var moved := Without(order, key) + [key];
    forall i, j | 0 <= i < j < |moved| ensures moved[i] != moved[j] {
      if j == |moved| - 1 {
        assert moved[i] in Without(order, key);
      }
    }
  }

  /** Evicting the least recently used key of a distinct order keeps the rest, the newest included. */
  lemma DropOldest(moved: seq<MatchKey>)
    requires NoDuplicates(moved) && |moved| >= 2
    ensures moved[0] != moved[|moved| - 1]
    ensures NoDuplicates(moved[1..])
    ensures forall y :: y in moved[1..] <==> y in moved && y != moved[0]
  {
  }

  class MatchCache {
    /** The keys from least to most recently used: the `OrderedDict`'s order. */
    var order: seq<MatchKey>
    var entries: map<MatchKey, Option<int>>

    ghost predicate Valid()
      reads this
    {
      && NoDuplicates(order)
      && (forall k :: k in order <==> k in entries)
      && |order| <= MatchCacheMax
    }

    constructor ()
      ensures Valid() && order == [] && entries == map[]
    {
      order := [];
      entries := map[];
    }

    /** `_cache_get`: a hit returns the stored value (possibly `None`) and makes the key most recent. */
    method Get(key: MatchKey) returns (r: Lookup)
      requires Valid()
      modifies this
      ensures Valid()
      ensures entries == old(entries)
      ensures key !in old(entries) ==> r == Miss && order == old(order)
      ensures key in old(entries) ==> r == Hit(old(entries)[key]) && order == Without(old(order), key) + [key]
    {
      if key in entries {
        order := Without(order, key) + [key];
        r := Hit(entries[key]);
      } else {
        r := Miss;
      }
    }

    /**
     * `_cache_set`: stores the value as most recent; when that makes 513 entries, the least
     * recently used one is evicted, so the cache never holds more than 512.
     */
    method Set(key: MatchKey, value: Option<int>)
      requires Valid()
      modifies this
      ensures Valid()
      ensures key in entries && entries[key] == value
      ensures var moved := Without(old(order), key) + [key];
        if |moved| > MatchCacheMax
        then moved[0] != key && order == moved[1..] && entries == old(entries)[key := value] - {moved[0]}
        else order == moved && entries == old(entries)[key := value]
    {
      var moved := Without(order, key) + [key];
      MoveToEnd(order, key);
      entries := entries[key := value];
      if |moved| > MatchCacheMax {
        DropOldest(moved);
        entries := entries - {moved[0]};
        order := moved[1..];
      } else {
        order := moved;
      }
    }
  }

  // ---------------------------------------------------------------------------------------
  // Sampled logging

  /** Python's `a % b`: the remainder takes the sign of the divisor. */
  function PyMod(a: int, b: int): (r: int)
    requires b != 0
    ensures b > 0 ==> 0 <= r < b
    ensures b < 0 ==> b < r <= 0
  {
    if b > 0 then a % b else -((-a) % (-b))
  }

  class LogSampler {
    /** `_LOG_COUNTERS`: how often each event key has been seen. */
    var counters: map<string, int>

    constructor ()
      ensures counters == map[]
    {
      counters := map[];
    }

    /** `_should_log`: bumps this key's counter, and only it, and logs on `count % sample == 1`. */
    method ShouldLog(eventKey: string, sample: int) returns (log: bool)
      requires sample != 0
      modifies this
      ensures var count := (if eventKey in old(counters) then old(counters)[eventKey] else 0) + 1;
        counters == old(counters)[eventKey := count] && (log <==> PyMod(count, sample) == 1)
    {
      var count := (if eventKey in counters then counters[eventKey] else 0) + 1;
      counters := counters[eventKey := count];
      log := PyMod(count, sample) == 1;
    }
  }

  /** A non-zero multiple of a positive number is at least that number in size. */
  lemma MultipleBound(d: int, b: int)
    requires b > 0
    ensures d >= 1 ==> d * b >= b
    ensures d <= -1 ==> d * b <= -b
  {
    if d >= 1 {
      assert d * b == (d - 1) * b + b;
    } else if d <= -1 {
      assert d * b == (d + 1) * b - b;
    }
  }

  /** With a sample of at least 2, the logged counts are exactly 1, sample + 1, 2 * sample + 1, ... */
  lemma LoggedCounts(count: int, sample: int)
    requires count >= 1 && sample >= 2
    ensures PyMod(count, sample) == 1 <==> exists k: nat :: count == k * sample + 1
  {
    var q, r := count / sample, count % sample;
    assert count == q * sample + r;
    if r == 1 {
      MultipleBound(q, sample);
      assert q >= 0;
      assert count == q * sample + 1;
    }
    if exists k: nat :: count == k * sample + 1 {
      var k: nat :| count == k * sample + 1;
      assert (k - q) * sample == r - 1;
      MultipleBound(k - q, sample);
    }
  }

  /** With a sample of 1 the remainder is always 0, so nothing is ever logged. */
  lemma SampleOfOneNeverLogs(count: int)
    ensures PyMod(count, 1) != 1
  {
  }

  // ---------------------------------------------------------------------------------------
  // Matching a snapshot to a stored game

  /** A `sports_games` row as the matching queries see it; `gameDate` in microseconds since the epoch, UTC. */
  datatype GameRow = GameRow(id: int, leagueId: int, homeTeamId: int, awayTeamId: int, gameDate: int)

  const MicrosPerDay: int := 86_400_000_000

  /** `day_start`: midnight UTC of the day before the game day (days since the epoch). */
  function DayStart(gameDay: int): int { (gameDay - 1) * MicrosPerDay }

  /** `day_end`: 23:59:59.999999 UTC of the day after the game day. */
  function DayEnd(gameDay: int): int { (gameDay + 2) * MicrosPerDay - 1 }

  predicate InRange(g: GameRow, leagueId: int, dayStart: int, dayEnd: int) {
    g.leagueId == leagueId && dayStart <= g.gameDate <= dayEnd
  }

  /** `session.execute(stmt).scalar()`: the first row, in table order, that the query selects. */
  function FirstIndex(games: seq<GameRow>, selects: GameRow -> bool): (r: Option<nat>)
    ensures r.None? <==> forall i :: 0 <= i < |games| ==> !selects(games[i])
    ensures r.Some? ==> r.value < |games| && selects(games[r.value])
    ensures r.Some? ==> forall j :: 0 <= j < r.value ==> !selects(games[j])
  {
    if games == [] then None
    else if selects(games[0]) then Some(0)
    else match FirstIndex(games[1..], selects)
      case None => None
      case Some(k) => Some(k + 1)
  }

  function FirstId(games: seq<GameRow>, selects: GameRow -> bool): Option<int> {
    match FirstIndex(games, selects)
    case None => None
    case Some(i) => Some(games[i].id)
  }

  predicate Oriented(g: GameRow, leagueId: int, homeTeamId: int, awayTeamId: int, dayStart: int, dayEnd: int) {
    InRange(g, leagueId, dayStart, dayEnd) && g.homeTeamId == homeTeamId && g.awayTeamId == awayTeamId
  }

  predicate EitherWay(g: GameRow, leagueId: int, homeTeamId: int, awayTeamId: int, dayStart: int, dayEnd: int) {
    Oriented(g, leagueId, homeTeamId, awayTeamId, dayStart, dayEnd) || Oriented(g, leagueId, awayTeamId, homeTeamId, dayStart, dayEnd)
  }

  /** `_match_game_by_team_ids`: the exact orientation first; the swapped one only if that finds nothing. */
  function MatchGameByTeamIds(games: seq<GameRow>, leagueId: int, homeTeamId: int, awayTeamId: int,
                              dayStart: int, dayEnd: int): (r: Option<int>)
    ensures r.Some? <==> exists i :: 0 <= i < |games| && EitherWay(games[i], leagueId, homeTeamId, awayTeamId, dayStart, dayEnd)
    ensures r.Some? ==> exists i :: 0 <= i < |games| && r == Some(games[i].id) && EitherWay(games[i], leagueId, homeTeamId, awayTeamId, dayStart, dayEnd)
    ensures (exists i :: 0 <= i < |games| && Oriented(games[i], leagueId, homeTeamId, awayTeamId, dayStart, dayEnd)) ==>
              (exists i :: 0 <= i < |games| && r == Some(games[i].id) && Oriented(games[i], leagueId, homeTeamId, awayTeamId, dayStart, dayEnd))
  {
    var exact := FirstIndex(games, g => Oriented(g, leagueId, homeTeamId, awayTeamId, dayStart, dayEnd));
    if exact.Some? then Some(games[exact.value].id)
    else FirstId(games, g => Oriented(g, leagueId, awayTeamId, homeTeamId, dayStart, dayEnd))
  }

  /** `_ODDS_API_TO_DB_MAPPINGS`. */
  const OddsApiToDbMappings: map<string, string> := map[
    "St. John's Red Storm" := "St. John's (NY)",
    "St John's Red Storm" := "St. John's (NY)",
    "St Johns Red Storm" := "St. John's (NY)"
  ]

  function DbSpelling(apiName: string): (r: string)
    ensures apiName in OddsApiToDbMappings ==> r == "St. John's (NY)"
    ensures apiName !in OddsApiToDbMappings ==> r == apiName
  {
    if apiName in OddsApiToDbMappings then OddsApiToDbMappings[apiName] else apiName
  }

  /** `_tokens`: the words of a name, without empty strings and stopwords. */
  function Tokens(s: string, stopwords: set<string>): (r: set<string>)
    ensures "" !in r && r !! stopwords
    ensures forall t :: t in r ==> ' ' !in t
  {
    set t | t in Split(s, ' ') && t != "" && t !in stopwords
  }

  /** Exact or substring agreement between a stored name and the snapshot's names. */
  predicate NamesAgree(dbNorm: string, apiNorm: string, canonicalNorm: string) {
    dbNorm == apiNorm || dbNorm == canonicalNorm || Contains(dbNorm, apiNorm) || Contains(apiNorm, dbNorm)
  }

  function OverlapThreshold(apiTokens: set<string>, dbTokens: set<string>): nat {
    if |apiTokens| <= 2 || |dbTokens| <= 2 then 1 else 2
  }

  /** The token-overlap fallback: enough shared tokens, or one token set inside the other. */
  predicate TokensOverlap(apiTokens: set<string>, dbTokens: set<string>) {
    || |apiTokens * dbTokens| >= OverlapThreshold(apiTokens, dbTokens)
    || apiTokens <= dbTokens
    || dbTokens <= apiTokens
  }

  /** One side of the NCAAB matcher: agreement first, token overlap only when that fails. */
  function SideMatches(dbNorm: string, apiNorm: string, canonicalNorm: string, stopwords: set<string>): (b: bool)
    ensures NamesAgree(dbNorm, apiNorm, canonicalNorm) ==> b
    ensures !NamesAgree(dbNorm, apiNorm, canonicalNorm) ==>
      (b <==> TokensOverlap(Tokens(apiNorm, stopwords), Tokens(dbNorm, stopwords)))
    ensures Tokens(apiNorm, stopwords) == {} ==> b
  {
    if NamesAgree(dbNorm, apiNorm, canonicalNorm) then true
    else
      var apiTokens, dbTokens := Tokens(apiNorm, stopwords), Tokens(dbNorm, stopwords);
      var overlap := |apiTokens * dbTokens|;
      var threshold := if |apiTokens| <= 2 || |dbTokens| <= 2 then 1 else 2;
      overlap >= threshold || apiTokens <= dbTokens || dbTokens <= apiTokens
  }

  /** The snapshot's names after the API-to-database spelling map and `_normalize_ncaab_name_for_matching`. */
  datatype NormalizedNames = NormalizedNames(home: string, away: string, homeCanonical: string, awayCanonical: string)

  function NormalizeNames(normalize: string -> string, homeName: string, awayName: string,
                          homeCanonical: string, awayCanonical: string): NormalizedNames
  {
    NormalizedNames(normalize(DbSpelling(homeName)), normalize(DbSpelling(awayName)),
                    normalize(homeCanonical), normalize(awayCanonical))
  }

  /**
   * A candidate game matches when both sides match in the snapshot's orientation (with the token
   * fallback), or both agree in the swapped orientation (without it).
   */
  predicate NcaabCandidate(q: NormalizedNames, homeDbNorm: string, awayDbNorm: string, stopwords: set<string>) {
    || (SideMatches(homeDbNorm, q.home, q.homeCanonical, stopwords) && SideMatches(awayDbNorm, q.away, q.awayCanonical, stopwords))
    || (NamesAgree(homeDbNorm, q.away, q.awayCanonical) && NamesAgree(awayDbNorm, q.home, q.homeCanonical))
  }

  /** `teams_map.get(team_id, "")`. */
  function NameOf(teamNames: map<int, string>, teamId: int): string {
    if teamId in teamNames then teamNames[teamId] else ""
  }

  predicate NcaabSelects(g: GameRow, leagueId: int, dayStart: int, dayEnd: int, teamNames: map<int, string>,
                         normalize: string -> string, stopwords: set<string>, q: NormalizedNames) {
    && InRange(g, leagueId, dayStart, dayEnd)
    && NcaabCandidate(q, normalize(NameOf(teamNames, g.homeTeamId)), normalize(NameOf(teamNames, g.awayTeamId)), stopwords)
  }

  /** `_match_game_by_names_ncaab`: the first game in range whose names match either way round. */
  function MatchGameByNamesNcaab(games: seq<GameRow>, leagueId: int, dayStart: int, dayEnd: int,
                                 teamNames: map<int, string>, normalize: string -> string,
                                 stopwords: set<string>, q: NormalizedNames): (r: Option<int>)
    ensures r.Some? <==> exists i :: 0 <= i < |games| && NcaabSelects(games[i], leagueId, dayStart, dayEnd, teamNames, normalize, stopwords, q)
    ensures r.Some? ==> exists i :: 0 <= i < |games| && r == Some(games[i].id) && NcaabSelects(games[i], leagueId, dayStart, dayEnd, teamNames, normalize, stopwords, q)
  {
    FirstId(games, g => NcaabSelects(g, leagueId, dayStart, dayEnd, teamNames, normalize, stopwords, q))
  }

  /** `func.lower(a) == func.lower(b)`, with `lower` on ASCII letters. */
  predicate SameNameIgnoringCase(a: string, b: string) { Lower(a) == Lower(b) }

  /**
   * The non-NCAAB name query in one orientation: both teams have a stored name (the joins)
   * that equals, ignoring case, the canonical name or the snapshot's name.
   */
  predicate NamedAs(g: GameRow, leagueId: int, dayStart: int, dayEnd: int, teamNames: map<int, string>,
                    homeCanonical: string, homeName: string, awayCanonical: string, awayName: string) {
    && InRange(g, leagueId, dayStart, dayEnd)
    && g.homeTeamId in teamNames && g.awayTeamId in teamNames
    && (SameNameIgnoringCase(teamNames[g.homeTeamId], homeCanonical) || SameNameIgnoringCase(teamNames[g.homeTeamId], homeName))
    && (SameNameIgnoringCase(teamNames[g.awayTeamId], awayCanonical) || SameNameIgnoringCase(teamNames[g.awayTeamId], awayName))
  }

  predicate NamedEitherWay(g: GameRow, leagueId: int, dayStart: int, dayEnd: int, teamNames: map<int, string>,
                          homeCanonical: string, homeName: string, awayCanonical: string, awayName: string) {
    || NamedAs(g, leagueId, dayStart, dayEnd, teamNames, homeCanonical, homeName, awayCanonical, awayName)
    || NamedAs(g, leagueId, dayStart, dayEnd, teamNames, awayCanonical, awayName, homeCanonical, homeName)
  }

  /** `_match_game_by_names_non_ncaab`: exact names, then swapped names. */
  function MatchGameByNamesOther(games: seq<GameRow>, leagueId: int, dayStart: int, dayEnd: int,
                                 teamNames: map<int, string>, homeCanonical: string, homeName: string,
                                 awayCanonical: string, awayName: string): (r: Option<int>)
    ensures r.Some? <==> exists i :: 0 <= i < |games| && NamedEitherWay(games[i], leagueId, dayStart, dayEnd, teamNames, homeCanonical, homeName, awayCanonical, awayName)
    ensures r.Some? ==> exists i :: 0 <= i < |games| && r == Some(games[i].id) && NamedEitherWay(games[i], leagueId, dayStart, dayEnd, teamNames, homeCanonical, homeName, awayCanonical, awayName)
    ensures (exists i :: 0 <= i < |games| && NamedAs(games[i], leagueId, dayStart, dayEnd, teamNames, homeCanonical, homeName, awayCanonical, awayName)) ==>
              (exists i :: 0 <= i < |games| && r == Some(games[i].id) && NamedAs(games[i], leagueId, dayStart, dayEnd, teamNames, homeCanonical, homeName, awayCanonical, awayName))
  {
    var direct := FirstIndex(games, g => NamedAs(g, leagueId, dayStart, dayEnd, teamNames, homeCanonical, homeName, awayCanonical, awayName));
    if direct.Some? then Some(games[direct.value].id)
    else FirstId(games, g => NamedAs(g, leagueId, dayStart, dayEnd, teamNames, awayCanonical, awayName, homeCanonical, homeName))
  }

  // ---------------------------------------------------------------------------------------
  // Odds rows and upsert_odds

  datatype OddsSnapshot = OddsSnapshot(
    leagueCode: string, homeTeamName: string, awayTeamName: string, gameDay: int,
    book: string, marketType: string, side: Option<string>, line: Option<real>, price: Option<real>,
    isClosingLine: bool, observedAt: int, sourceKey: string, rawPayload: string)

  datatype OddsRow = OddsRow(
    gameId: int, book: string, marketType: string, side: Option<string>, isClosingLine: bool,
    line: Option<real>, price: Option<real>, observedAt: int, sourceKey: string, rawPayload: string)

  /** The row `upsert_odds` writes for a matched game; an empty side is stored as NULL. */
  function RowFor(gameId: int, s: OddsSnapshot): (row: OddsRow)
    ensures row.gameId == gameId
    ensures row.side.Some? <==> s.side.Some? && s.side.value != ""
  {
    var side := if s.side.Some? && s.side.value != "" then s.side else None;
    OddsRow(gameId, s.book, s.marketType, side, s.isClosingLine, s.line, s.price, s.observedAt, s.sourceKey, s.rawPayload)
  }

  /** The five conflict columns, with NULL compared as a value. */
  predicate SameOddsIdentity(a: OddsRow, b: OddsRow) {
    a.gameId == b.gameId && a.book == b.book && a.marketType == b.marketType
    && a.side == b.side && a.isClosingLine == b.isClosingLine
  }

  /** The same under the unique index as created, where a NULL `side` never equals anything. */
  predicate SameOddsIdentityNullsDistinct(a: OddsRow, b: OddsRow) {
    SameOddsIdentity(a, b) && a.side.Some?
  }

  function FirstRow(rows: seq<OddsRow>, row: OddsRow, nullsDistinct: bool): (r: Option<nat>)
    ensures r.Some? ==> (r.value < |rows|
      && (if nullsDistinct then SameOddsIdentityNullsDistinct(rows[r.value], row) else SameOddsIdentity(rows[r.value], row)))
    ensures r.Some? ==> forall j :: 0 <= j < r.value ==> !SameOddsIdentity(rows[j], row) || (nullsDistinct && row.side.None?)
    ensures r.None? ==> forall j :: 0 <= j < |rows| ==> !SameOddsIdentity(rows[j], row) || (nullsDistinct && row.side.None?)
  {
    if rows == [] then None
    else if SameOddsIdentity(rows[0], row) && (!nullsDistinct || row.side.Some?) then Some(0)
    else match FirstRow(rows[1..], row, nullsDistinct)
      case None => None
      case Some(k) => Some(k + 1)
  }

  /**
   * `INSERT ... ON CONFLICT (game_id, book, market_type, side, is_closing_line) DO UPDATE` as the
   * index was created: a row whose side is NULL never conflicts, so it is always inserted.
   */
  function UpsertOddsRowNullsDistinct(rows: seq<OddsRow>, row: OddsRow): (r: seq<OddsRow>)
    ensures row.side.None? ==> r == rows + [row]
  {
    match FirstRow(rows, row, true)
    case Some(i) => rows[i := row]
    case None => rows + [row]
  }

  /** Upserting the same side-less odds twice leaves two rows where one was meant. */
  lemma NullSideRowsPileUp(rows: seq<OddsRow>, row: OddsRow)
    requires row.side.None?
    ensures UpsertOddsRowNullsDistinct(UpsertOddsRowNullsDistinct(rows, row), row) == rows + [row, row]
  {
  }

  /** The upsert as intended: the conflict columns identify one row, NULL side included. */
  function UpsertOddsRow(rows: seq<OddsRow>, row: OddsRow): (r: seq<OddsRow>)
    ensures row in r
    ensures (forall j :: 0 <= j < |rows| ==> !SameOddsIdentity(rows[j], row)) ==> r == rows + [row]
    ensures (exists j :: 0 <= j < |rows| && SameOddsIdentity(rows[j], row)) ==>
      exists i :: 0 <= i < |rows| && SameOddsIdentity(rows[i], row) && r == rows[i := row]
    ensures IdentitiesUnique(rows) ==> forall i :: 0 <= i < |rows| && SameOddsIdentity(rows[i], row) ==> r == rows[i := row]
  {
    match FirstRow(rows, row, false)
    case Some(i) => assert rows[i := row][i] == row; rows[i := row]
    case None => rows + [row]
  }

  predicate IdentitiesUnique(rows: seq<OddsRow>) {
    forall i, j :: 0 <= i < j < |rows| ==> !SameOddsIdentity(rows[i], rows[j])
  }

  /** Upserting keeps one row per identity and is idempotent. */
  lemma {:induction false} UpsertOddsRowIdempotent(rows: seq<OddsRow>, row: OddsRow)
    ensures IdentitiesUnique(rows) ==> IdentitiesUnique(UpsertOddsRow(rows, row))
    ensures UpsertOddsRow(UpsertOddsRow(rows, row), row) == UpsertOddsRow(rows, row)
  {
    var once := UpsertOddsRow(rows, row);
    match FirstRow(rows, row, false)
    case Some(i) =>
      assert SameOddsIdentity(once[i], row);
      assert FirstRow(once, row, false) == Some(i);
      assert once[i := row] == once;
    case None =>
      assert SameOddsIdentity(once[|rows|], row);
      assert FirstRow(once, row, false) == Some(|rows|);
      assert once[|rows| := row] == once;
  }

  class OddsTable {
    /** `sports_game_odds`. */
    var rows: seq<OddsRow>

    constructor (rows0: seq<OddsRow>)
      ensures rows == rows0
    {
      rows := rows0;
    }

    /** The statement `upsert_odds` executes for a matched game. */
    method Upsert(gameId: int, s: OddsSnapshot)
      modifies this
      ensures rows == UpsertOddsRow(old(rows), RowFor(gameId, s))
    {
      rows := UpsertOddsRow(rows, RowFor(gameId, s));
    }
  }

  /**
   * What the matching queries read, and the collaborators they call: `normalize_team_name`
   * (canonical names per league), `_normalize_ncaab_name_for_matching` and `_NCAAB_STOPWORDS`.
   */
  datatype MatchContext = MatchContext(
    games: seq<GameRow>,
    teamNames: map<int, string>,
    canonical: (string, string) -> string,
    ncaabNormalize: string -> string,
    stopwords: set<string>)

  /** Team ids first; then names, the normalized matcher for NCAAB and exact names otherwise. */
  function MatchGame(ctx: MatchContext, s: OddsSnapshot, leagueId: int, homeTeamId: int, awayTeamId: int): (r: Option<int>)
    ensures MatchGameByTeamIds(ctx.games, leagueId, homeTeamId, awayTeamId, DayStart(s.gameDay), DayEnd(s.gameDay)).Some? ==>
      r == MatchGameByTeamIds(ctx.games, leagueId, homeTeamId, awayTeamId, DayStart(s.gameDay), DayEnd(s.gameDay))
    ensures r.Some? ==> exists i :: 0 <= i < |ctx.games| && r == Some(ctx.games[i].id) && InRange(ctx.games[i], leagueId, DayStart(s.gameDay), DayEnd(s.gameDay))
  {
    var dayStart, dayEnd := DayStart(s.gameDay), DayEnd(s.gameDay);
    var byIds := MatchGameByTeamIds(ctx.games, leagueId, homeTeamId, awayTeamId, dayStart, dayEnd);
    if byIds.Some? then byIds
    else
      var homeCanonical := ctx.canonical(s.leagueCode, s.homeTeamName);
      var awayCanonical := ctx.canonical(s.leagueCode, s.awayTeamName);
      if s.leagueCode == "NCAAB" then
        var q := NormalizeNames(ctx.ncaabNormalize, s.homeTeamName, s.awayTeamName, homeCanonical, awayCanonical);
        var r := MatchGameByNamesNcaab(ctx.games, leagueId, dayStart, dayEnd, ctx.teamNames, ctx.ncaabNormalize, ctx.stopwords, q);
        assert r.Some? ==> exists i :: 0 <= i < |ctx.games| && r == Some(ctx.games[i].id) && InRange(ctx.games[i], leagueId, dayStart, dayEnd) by {
          if r.Some? {
            var i :| 0 <= i < |ctx.games| && r == Some(ctx.games[i].id)
              && NcaabSelects(ctx.games[i], leagueId, dayStart, dayEnd, ctx.teamNames, ctx.ncaabNormalize, ctx.stopwords, q);
          }
        }
        r
      else
        MatchGameByNamesOther(ctx.games, leagueId, dayStart, dayEnd, ctx.teamNames,
                              homeCanonical, s.homeTeamName, awayCanonical, s.awayTeamName)
  }

  /**
   * `upsert_odds`, from the resolved team ids on: a cached answer short-circuits the matching
   * (a cached `None` returns `False` and writes nothing); otherwise the match is computed and
   * cached, `None` included. Odds are written exactly when a game is known.
   */
  method UpsertOdds(cache: MatchCache, table: OddsTable, ctx: MatchContext, s: OddsSnapshot,
                    leagueId: int, homeTeamId: int, awayTeamId: int) returns (persisted: bool)
    requires cache.Valid()
    modifies cache, table
    ensures cache.Valid()
    ensures var key := CacheKey(s.leagueCode, s.gameDay, homeTeamId, awayTeamId);
      var found := if key in old(cache.entries) then old(cache.entries)[key]
                   else MatchGame(ctx, s, leagueId, homeTeamId, awayTeamId);
      && (persisted <==> found.Some?)
      && table.rows == (if found.Some? then UpsertOddsRow(old(table.rows), RowFor(found.value, s)) else old(table.rows))
      && key in cache.entries && cache.entries[key] == found
      && (key in old(cache.entries) ==> cache.entries == old(cache.entries))
    ensures var key := CacheKey(s.leagueCode, s.gameDay, homeTeamId, awayTeamId);
      |cache.order| > 0 && cache.order[|cache.order| - 1] == key
    ensures var key := CacheKey(s.leagueCode, s.gameDay, homeTeamId, awayTeamId);
      key in old(cache.entries) ==> cache.order == Without(old(cache.order), key) + [key]
    ensures var key := CacheKey(s.leagueCode, s.gameDay, homeTeamId, awayTeamId);
      var grown := old(cache.order) + [key];
      key !in old(cache.entries) ==>
        if |grown| > MatchCacheMax
        then cache.order == grown[1..] && cache.entries == old(cache.entries)[key := cache.entries[key]] - {grown[0]}
        else cache.order == grown && cache.entries == old(cache.entries)[key := cache.entries[key]]
  {
    var key := CacheKey(s.leagueCode, s.gameDay, homeTeamId, awayTeamId);
    var cached := cache.Get(key);
    if cached.Hit? {
      if cached.gameId.None? {
        return false;
      }
      table.Upsert(cached.gameId.value, s);
      return true;
    }
    var gameId := MatchGame(ctx, s, leagueId, homeTeamId, awayTeamId);
    if gameId.None? {
      cache.Set(key, None);
      return false;
    }
    table.Upsert(gameId.value, s);
    cache.Set(key, gameId);
    persisted := true;
  }
}
