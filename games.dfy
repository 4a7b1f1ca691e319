/**
 * `upsert_game`: `INSERT ... ON CONFLICT ON CONSTRAINT uq_game_identity DO UPDATE` on the games
 * table, held as a sequence of rows. League and team ids arrive resolved, and the clock is a
 * parameter.
 */
module GamePersistence {
  import opened Wrappers

  /** The columns of the game identity constraint. */
  datatype GameKey = GameKey(
    leagueId: int, season: int, seasonType: string, gameDate: int, homeTeamId: int, awayTeamId: int)

  /** What one call writes: the identity and the scraped values. */
  datatype GameValues = GameValues(
    key: GameKey, homeScore: Option<int>, awayScore: Option<int>, venue: Option<string>,
    status: string, sourceGameKey: Option<string>)

  /** A row of `sports_games`. */
  datatype GameRecord = GameRecord(
    id: int, key: GameKey, homeScore: Option<int>, awayScore: Option<int>, venue: Option<string>,
    status: string, sourceGameKey: Option<string>, scrapeVersion: int, lastScrapedAt: int,
    updatedAt: Option<int>)

  /** SQL `coalesce(a, b)`. */
  function Coalesce<T>(a: Option<T>, b: Option<T>): (r: Option<T>)
    ensures a.Some? ==> r == a
    ensures a.None? ==> r == b
  {
    if a.Some? then a else b
  }

  /** The row a fresh insert creates: version 1, no update time yet. */
  function Inserted(id: int, v: GameValues, now: int): (r: GameRecord)
    ensures r.id == id && r.key == v.key && r.scrapeVersion == 1
    ensures r.sourceGameKey == v.sourceGameKey && r.lastScrapedAt == now && r.updatedAt.None?
  {
    GameRecord(id, v.key, v.homeScore, v.awayScore, v.venue, v.status, v.sourceGameKey, 1, now, None)
  }

  /**
   * The conflict update: scores, status and venue overwritten, the version bumped by one, a
   * stored source key kept and only a missing one filled.
   */
  function Updated(row: GameRecord, v: GameValues, now: int): (r: GameRecord)
    ensures r.id == row.id && r.key == row.key
    ensures r.homeScore == v.homeScore && r.awayScore == v.awayScore && r.status == v.status && r.venue == v.venue
    ensures r.scrapeVersion == row.scrapeVersion + 1
    ensures row.sourceGameKey.Some? ==> r.sourceGameKey == row.sourceGameKey
    ensures row.sourceGameKey.None? ==> r.sourceGameKey == v.sourceGameKey
    ensures r.lastScrapedAt == now && r.updatedAt == Some(now)
  {
    row.(homeScore := v.homeScore, awayScore := v.awayScore, status := v.status, venue := v.venue,
         scrapeVersion := row.scrapeVersion + 1, lastScrapedAt := now, updatedAt := Some(now),
         sourceGameKey := Coalesce(row.sourceGameKey, v.sourceGameKey))
  }

  /** The row holding `key`, if any. */
  function RowWithKey(rows: seq<GameRecord>, key: GameKey): (r: Option<nat>)
    ensures r.Some? ==> r.value < |rows| && rows[r.value].key == key
    ensures r.None? <==> forall i :: 0 <= i < |rows| ==> rows[i].key != key
  {
    if rows == [] then None
    else if rows[0].key == key then Some(0)
    else match RowWithKey(rows[1..], key)
      case None => None
      case Some(k) => Some(k + 1)
  }

  /** One row per identity, and distinct ids below the next one to hand out. */
  predicate TableInvariant(rows: seq<GameRecord>, nextId: int) {
    && (forall i, j :: 0 <= i < j < |rows| ==> rows[i].key != rows[j].key)
    && (forall i, j :: 0 <= i < j < |rows| ==> rows[i].id != rows[j].id)
    && (forall i :: 0 <= i < |rows| ==> rows[i].id < nextId)
  }

  /** The table after the statement, and the id it returns. */
  datatype Upserted = Upserted(rows: seq<GameRecord>, nextId: int, gameId: int)

  function UpsertGameRows(rows: seq<GameRecord>, nextId: int, v: GameValues, now: int): Upserted {
    match RowWithKey(rows, v.key)
    case Some(i) => Upserted(rows[i := Updated(rows[i], v, now)], nextId, rows[i].id)
    case None => Upserted(rows + [Inserted(nextId, v, now)], nextId + 1, nextId)
  }

  /** The upsert keeps one row per identity, and the returned id is that identity's row's id. */
  lemma UpsertKeepsInvariant(rows: seq<GameRecord>, nextId: int, v: GameValues, now: int)
    requires TableInvariant(rows, nextId)
    ensures var u := UpsertGameRows(rows, nextId, v, now);
      TableInvariant(u.rows, u.nextId)
      && exists i :: 0 <= i < |u.rows| && u.rows[i].key == v.key && u.rows[i].id == u.gameId
  {
    var u := UpsertGameRows(rows, nextId, v, now);
    match RowWithKey(rows, v.key)
    case Some(i) =>
      assert u.rows[i].key == v.key && u.rows[i].id == u.gameId;
    case None =>
      assert u.rows[|rows|].key == v.key && u.rows[|rows|].id == u.gameId;
  }

  /**
   * Seeing the same game twice leaves one row with the same id, version 2 and the second
   * call's values; the first call's source key stays unless it had none.
   */
  lemma {:induction false} UpsertTwice(rows: seq<GameRecord>, nextId: int, first: GameValues, second: GameValues, t1: int, t2: int)
    requires TableInvariant(rows, nextId)
    requires RowWithKey(rows, first.key).None? && second.key == first.key
    ensures var once := UpsertGameRows(rows, nextId, first, t1);
      var twice := UpsertGameRows(once.rows, once.nextId, second, t2);
      && |twice.rows| == |rows| + 1
      && twice.gameId == once.gameId == nextId
      && twice.rows[|rows|].scrapeVersion == 2
      && twice.rows[|rows|].homeScore == second.homeScore && twice.rows[|rows|].awayScore == second.awayScore
      && twice.rows[|rows|].sourceGameKey == Coalesce(first.sourceGameKey, second.sourceGameKey)
  {
    var once := UpsertGameRows(rows, nextId, first, t1);
    assert once.rows[|rows|].key == first.key;
    assert RowWithKey(once.rows, second.key) == Some(|rows|) by {
      assert forall i :: 0 <= i < |rows| ==> once.rows[i].key != first.key;
    }
  }

  class GamesTable {
    var rows: seq<GameRecord>
    var nextId: int

    ghost predicate Valid()
      reads this
    {
      TableInvariant(rows, nextId)
    }

    constructor ()
      ensures rows == [] && Valid()
    {
      rows := [];
      nextId := 1;
    }

    /** `upsert_game`: inserts the game or updates the row with its identity; returns that row's id. */
    method UpsertGame(v: GameValues, now: int) returns (gameId: int)
      requires Valid()
      modifies this
      ensures Valid()
      ensures var u := UpsertGameRows(old(rows), old(nextId), v, now);
        rows == u.rows && nextId == u.nextId && gameId == u.gameId
      ensures exists i :: 0 <= i < |rows| && rows[i].key == v.key && rows[i].id == gameId
    {
      UpsertKeepsInvariant(rows, nextId, v, now);
      var u := UpsertGameRows(rows, nextId, v, now);
      rows, nextId, gameId := u.rows, u.nextId, u.gameId;
    }
  }
}
