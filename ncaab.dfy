/**
 * The NCAA basketball scoreboard scraper: reading a day's scoreboard into games, each with
 * its two team rows, boxscore link and team totals.
 *
 * Fetching pages, `normalize_team_name`, the season of a date and `float(str)` are
 * parameters; player boxscores are not part of this model.
 */
module NcaabScoreboard {
  import opened Wrappers
  import opened Text
  import opened Html
  import opened Parsing
  import opened HtmlParsing

  const LeagueCode: string := "NCAAB"

  /** `_NON_NUMERIC_SCORE_MARKERS`. */
  const NonNumericScoreMarkers: set<string> := {
    "FINAL", "FINAL/OT", "FINAL/2OT", "FINAL/3OT", "OT", "PREVIEW", "POSTPONED",
    "CANCELED", "CANCELLED", "UPCOMING", "TBA", "TBD", "PPD"
  }

  /** A row of a game's `table.teams`: the text of its first link, if any, and the texts of its `td` cells. */
  datatype TeamRow = TeamRow(link: Option<string>, cells: seq<string>)

  datatype TeamIdentity = TeamIdentity(
    leagueCode: string, name: string, shortName: string, abbreviation: string, externalRef: Option<string>)

  /** `normalize_team_name(league_code, name)`: the canonical name and the abbreviation. */
  type TeamNormalizer = (string, string) -> (string, string)

  datatype ParsedTeam = ParsedTeam(identity: TeamIdentity, score: int)

  // ---------------------------------------------------------------------------------------
  // _parse_team_row

  /** The stripped texts of a row's cells. */
  function ScoreTexts(cells: seq<string>): (texts: seq<string>)
    ensures |texts| == |cells| && forall i :: 0 <= i < |cells| ==> texts[i] == Strip(cells[i])
  {
    seq(|cells|, i requires 0 <= i < |cells| => Strip(cells[i]))
  }

  /**
   * `parse_int(text)` ends the right-to-left scan: it returns a number or raises (on a text
   * `float` reads as infinite), rather than returning `None`.
   */
  predicate Settles(parse: FloatParser, text: string) {
    ParseIntAsWritten(parse, Some(text)) != Returned(None)
  }

  /** The rightmost text on which the scan stops. */
  function LastSettling(parse: FloatParser, texts: seq<string>): (r: Option<nat>)
    ensures r.Some? ==> r.value < |texts| && Settles(parse, texts[r.value])
    ensures r.Some? ==> forall j :: r.value < j < |texts| ==> !Settles(parse, texts[j])
    ensures r.None? <==> forall j :: 0 <= j < |texts| ==> !Settles(parse, texts[j])
  {
    if texts == [] then None
    else
      var n := |texts| - 1;
      if Settles(parse, texts[n]) then Some(n)
      else LastSettling(parse, texts[..n])
  }

  /**
   * The error when no text parses: the last text scanned, which is the leftmost one, or
   * "unknown" if there is none or it is empty; a known status marker (upper-cased) is reported
   * as such.
   */
  function ScoreError(texts: seq<string>): string {
    var hint := if texts == [] || texts[0] == "" then "unknown" else texts[0];
    if Upper(hint) in NonNumericScoreMarkers then "score_unavailable_status:" + Upper(hint)
    else "invalid_score_value:" + hint
  }

  /** No text at all, or an empty leftmost one, is an unknown value rather than a status. */
  lemma NoTextIsUnknown(texts: seq<string>)
    requires texts == [] || texts[0] == ""
    ensures ScoreError(texts) == "invalid_score_value:unknown"
  {
    assert Upper("unknown") == "UNKNOWN";
  }

  function IdentityOf(normalize: TeamNormalizer, teamName: string): (t: TeamIdentity)
    ensures t.leagueCode == LeagueCode && t.name == t.shortName
    ensures t.externalRef.Some? <==> t.abbreviation != ""
  {
    var (canonical, abbreviation) := normalize(LeagueCode, teamName);
    TeamIdentity(LeagueCode, canonical, canonical, abbreviation,
                 if abbreviation != "" then Some(Upper(abbreviation)) else None)
  }

  /**
   * What `_parse_team_row` returns (`Success`), the message of the `ScraperError` it raises
   * (`Failure`), or the exception `parse_int` raises through it.
   */
  function TeamRowOutcome(parse: FloatParser, normalize: TeamNormalizer, row: TeamRow): (r: Raising<Result<ParsedTeam, string>>)
    ensures row.link.None? ==> r == Returned(Failure("Missing team link"))
    ensures row.link.Some? ==> var texts := ScoreTexts(row.cells);
      match LastSettling(parse, texts)
      case None => r == Returned(Failure(ScoreError(texts)))
      case Some(k) =>
        (r.Raised? <==> ParseIntAsWritten(parse, Some(texts[k])).Raised?)
        && (r.Returned? ==> r.value.Success? && r.value.value.score == ParseIntAsWritten(parse, Some(texts[k])).value.value)
    ensures r.Returned? && r.value.Success? ==> r.value.value.identity == IdentityOf(normalize, Strip(row.link.value))
  {
    if row.link.None? then Returned(Failure("Missing team link"))
    else
      var texts := ScoreTexts(row.cells);
      match LastSettling(parse, texts)
      case Some(k) =>
        var score := ParseIntAsWritten(parse, Some(texts[k]));
        if score.Raised? then Raised(score.exception)
        else Returned(Success(ParsedTeam(IdentityOf(normalize, Strip(row.link.value)), score.value.value)))
      case None => Returned(Failure(ScoreError(texts)))
  }

  /** The right-to-left scan of `_parse_team_row`: what `parse_int` last gave, and the last text looked at. */
  method ScanScore(parse: FloatParser, texts: seq<string>) returns (score: Raising<Option<int>>, scoreText: Option<string>)
    ensures LastSettling(parse, texts).Some? ==> score == ParseIntAsWritten(parse, Some(texts[LastSettling(parse, texts).value]))
    ensures LastSettling(parse, texts).None? ==> score == Returned(None) && scoreText == if texts == [] then None else Some(texts[0])
  {
    score := Returned(None);
    scoreText := None;
    var i := |texts|;
    while i > 0 && score == Returned(None)
      invariant 0 <= i <= |texts|
      invariant scoreText == if i == |texts| then None else Some(texts[i])
      invariant score == Returned(None) ==> forall j :: i <= j < |texts| ==> !Settles(parse, texts[j])
      invariant score != Returned(None) ==> i < |texts| && score == ParseIntAsWritten(parse, Some(texts[i]))
      invariant score != Returned(None) ==> forall j :: i < j < |texts| ==> !Settles(parse, texts[j])
    {
      i := i - 1;
      scoreText := Some(texts[i]);
      score := ParseIntAsWritten(parse, scoreText);
    }
    if score != Returned(None) {
      assert LastSettling(parse, texts) == Some(i);
    }
  }

  /** `_parse_team_row`. */
  method ParseTeamRow(parse: FloatParser, normalize: TeamNormalizer, row: TeamRow) returns (r: Raising<Result<ParsedTeam, string>>)
    ensures r == TeamRowOutcome(parse, normalize, row)
  {
    if row.link.None? {
      return Returned(Failure("Missing team link"));
    }
    var teamName := Strip(row.link.value);
    var texts := ScoreTexts(row.cells);
    var score, scoreText := ScanScore(parse, texts);
    if score.Raised? {
      return Raised(score.exception);
    }
    if score.value.None? {
      var hint := if scoreText.None? || scoreText.value == "" then "unknown" else scoreText.value;
      var statusHint := Upper(hint);
      if statusHint in NonNumericScoreMarkers {
        return Returned(Failure("score_unavailable_status:" + statusHint));
      }
      return Returned(Failure("invalid_score_value:" + hint));
    }
    r := Returned(Success(ParsedTeam(IdentityOf(normalize, teamName), score.value.value)));
  }

  /** A row whose only cell is a status marker reports that status, not a bad value. */
  lemma MarkerOnlyIsPending(parse: FloatParser, normalize: TeamNormalizer, teamName: string, text: string)
    requires text != "" && !Settles(parse, Strip(text))
    requires Upper(Strip(text)) in NonNumericScoreMarkers
    ensures TeamRowOutcome(parse, normalize, TeamRow(Some(teamName), [text]))
         == Returned(Failure("score_unavailable_status:" + Upper(Strip(text))))
  {
    var texts := ScoreTexts([text]);
    assert LastSettling(parse, texts) == None;
  }

  /**
   * A score cell that `float` reads as infinite raises `OverflowError` out of `_parse_team_row`,
   * even with a good score further left.
   */
  lemma InfiniteScoreRaises(parse: FloatParser, normalize: TeamNormalizer, teamName: string, good: string, bad: string)
    requires Strip(bad) == bad && parse(bad) == Some(PosInf) && bad != "" && bad != "-"
    ensures TeamRowOutcome(parse, normalize, TeamRow(Some(teamName), [good, bad])) == Raised("OverflowError")
  {
    var texts := ScoreTexts([good, bad]);
    assert ParseIntAsWritten(parse, Some(bad)) == Raised("OverflowError");
    assert texts[1] == bad && Settles(parse, texts[1]);
    assert LastSettling(parse, texts) == Some(1);
  }

  // ---------------------------------------------------------------------------------------
  // _is_probable_womens_game

  /** A sign that a scoreboard game is a women's game. */
  datatype WomensReason =
    | GenderFClass | HrefContainsWomen | HrefContainsWDash | HrefSuffixW
    | GameKeyNotNumeric | GameKeyStartsWithW | GameKeySuffixW | TeamNameContainsWomen

  /** The name a reason is logged under. */
  function ReasonName(r: WomensReason): string {
    match r
    case GenderFClass => "gender_f_class"
    case HrefContainsWomen => "href_contains_women"
    case HrefContainsWDash => "href_contains_w_dash"
    case HrefSuffixW => "href_suffix_w"
    case GameKeyNotNumeric => "game_key_not_numeric"
    case GameKeyStartsWithW => "game_key_starts_with_w"
    case GameKeySuffixW => "game_key_suffix_w"
    case TeamNameContainsWomen => "team_name_contains_women"
  }

  function ReasonNames(rs: seq<WomensReason>): (names: seq<string>)
    ensures |names| == |rs| && forall i :: 0 <= i < |rs| ==> names[i] == ReasonName(rs[i])
  {
    seq(|rs|, i requires 0 <= i < |rs| => ReasonName(rs[i]))
  }

  /** The eight tests of `_is_probable_womens_game`, evaluated. */
  datatype WomensSigns = WomensSigns(
    genderF: bool, hrefWomen: bool, hrefWDash: bool, hrefSuffixW: bool,
    keyNotNumeric: bool, keyStartsWithW: bool, keySuffixW: bool, teamWomen: bool)

  function SignsOf(href: string, gameKey: string, homeTeam: string, awayTeam: string, isGenderF: bool): WomensSigns {
    var hrefLower := Lower(href);
    WomensSigns(
      isGenderF,
      Contains(hrefLower, "women"),
      Contains(hrefLower, "/w-") || Contains(hrefLower, "-w-"),
      EndsWith(hrefLower, "_w.html") || Contains(hrefLower, "_w."),
      gameKey != "" && !IsDigit(gameKey[0]),
      StartsWith(gameKey, "w"),
      EndsWith(gameKey, "_w") || EndsWith(gameKey, "-w"),
      Contains(Lower(homeTeam), "women") || Contains(Lower(awayTeam), "women"))
  }

  /** Whether a reason's test holds. */
  predicate Fires(signs: WomensSigns, r: WomensReason) {
    match r
    case GenderFClass => signs.genderF
    case HrefContainsWomen => signs.hrefWomen
    case HrefContainsWDash => signs.hrefWDash
    case HrefSuffixW => signs.hrefSuffixW
    case GameKeyNotNumeric => signs.keyNotNumeric
    case GameKeyStartsWithW => signs.keyStartsWithW
    case GameKeySuffixW => signs.keySuffixW
    case TeamNameContainsWomen => signs.teamWomen
  }

  /** The position of a reason in the order the tests run. */
  function Rank(r: WomensReason): nat {
    match r
    case GenderFClass => 0
    case HrefContainsWomen => 1
    case HrefContainsWDash => 2
    case HrefSuffixW => 3
    case GameKeyNotNumeric => 4
    case GameKeyStartsWithW => 5
    case GameKeySuffixW => 6
    case TeamNameContainsWomen => 7
  }

  predicate InTestOrder(rs: seq<WomensReason>) {
    forall i, j :: 0 <= i < j < |rs| ==> Rank(rs[i]) < Rank(rs[j])
  }

  const AllReasons: seq<WomensReason> := [
    GenderFClass, HrefContainsWomen, HrefContainsWDash, HrefSuffixW,
    GameKeyNotNumeric, GameKeyStartsWithW, GameKeySuffixW, TeamNameContainsWomen]

  /** The candidates whose tests hold, in their order. */
  function FiredAmong(signs: WomensSigns, candidates: seq<WomensReason>): (fired: seq<WomensReason>)
    ensures forall r :: r in fired <==> r in candidates && Fires(signs, r)
  {
    if candidates == [] then []
    else (if Fires(signs, candidates[0]) then [candidates[0]] else []) + FiredAmong(signs, candidates[1..])
  }

  /** Filtering keeps the test order. */
  lemma {:induction false} FiredAmongInOrder(signs: WomensSigns, candidates: seq<WomensReason>)
    requires InTestOrder(candidates)
    ensures InTestOrder(FiredAmong(signs, candidates))
  {
    if candidates != [] {
      var rest := FiredAmong(signs, candidates[1..]);
      FiredAmongInOrder(signs, candidates[1..]);
      forall r | r in rest ensures Rank(candidates[0]) < Rank(r) {
        var k :| 0 <= k < |candidates[1..]| && candidates[1..][k] == r;
        assert candidates[k + 1] == r;
      }
      var fired := FiredAmong(signs, candidates);
      forall i, j | 0 <= i < j < |fired| ensures Rank(fired[i]) < Rank(fired[j]) {
        if Fires(signs, candidates[0]) {
          if i == 0 {
            assert fired[j] == rest[j - 1];
            assert fired[j] in rest;
          } else {
            assert fired[i] == rest[i - 1] && fired[j] == rest[j - 1];
          }
        } else {
          assert fired == rest;
        }
      }
    }
  }

  /** The reasons that fire, in the order they are checked; each is listed exactly when its test holds. */
  function ReasonsOf(signs: WomensSigns): (reasons: seq<WomensReason>)
    ensures forall r :: r in reasons <==> Fires(signs, r)
    ensures InTestOrder(reasons)
  {
    forall r: WomensReason ensures r in AllReasons {
      assert AllReasons[Rank(r)] == r;
    }
    FiredAmongInOrder(signs, AllReasons);
    FiredAmong(signs, AllReasons)
  }

  function WomensReasons(href: string, gameKey: string, homeTeam: string, awayTeam: string, isGenderF: bool): seq<WomensReason> {
    ReasonsOf(SignsOf(href, gameKey, homeTeam, awayTeam, isGenderF))
  }

  /** `_is_probable_womens_game`: flagged exactly when a reason fired; the reason names joined by ",". */
  function IsProbableWomensGame(href: string, gameKey: string, homeTeam: string, awayTeam: string, isGenderF: bool): (r: (bool, string))
    ensures r.0 <==> |WomensReasons(href, gameKey, homeTeam, awayTeam, isGenderF)| > 0
    ensures r.1 == Join(ReasonNames(WomensReasons(href, gameKey, homeTeam, awayTeam, isGenderF)), ",")
  {
    var reasons := WomensReasons(href, gameKey, homeTeam, awayTeam, isGenderF);
    (|reasons| > 0, Join(ReasonNames(reasons), ","))
  }

  /** A key starting with "w" fires two reasons, the non-numeric one first, so the game is skipped. */
  lemma WKeyFiresTwoReasons(href: string, gameKey: string, homeTeam: string, awayTeam: string, isGenderF: bool)
    requires StartsWith(gameKey, "w")
    ensures IsProbableWomensGame(href, gameKey, homeTeam, awayTeam, isGenderF).0
    ensures var reasons := WomensReasons(href, gameKey, homeTeam, awayTeam, isGenderF);
      exists i, j :: 0 <= i < j < |reasons| && reasons[i] == GameKeyNotNumeric && reasons[j] == GameKeyStartsWithW
  {
    assert gameKey[0] == 'w' && !IsDigit('w');
    var reasons := WomensReasons(href, gameKey, homeTeam, awayTeam, isGenderF);
    assert GameKeyNotNumeric in reasons && GameKeyStartsWithW in reasons;
    var i :| 0 <= i < |reasons| && reasons[i] == GameKeyNotNumeric;
    var j :| 0 <= j < |reasons| && reasons[j] == GameKeyStartsWithW;
    assert Rank(reasons[i]) < Rank(reasons[j]);
  }

  /** A numeric key, a plain link, no "women" in either name and no `gender-f` class: not flagged. */
  lemma MensGameNotFlagged(href: string, gameKey: string, homeTeam: string, awayTeam: string)
    requires gameKey != "" && IsDigit(gameKey[0]) && !EndsWith(gameKey, "_w") && !EndsWith(gameKey, "-w")
    requires !Contains(Lower(href), "women") && !Contains(Lower(href), "/w-") && !Contains(Lower(href), "-w-")
    requires !EndsWith(Lower(href), "_w.html") && !Contains(Lower(href), "_w.")
    requires !Contains(Lower(homeTeam), "women") && !Contains(Lower(awayTeam), "women")
    ensures IsProbableWomensGame(href, gameKey, homeTeam, awayTeam, false) == (false, "")
  {
    assert !StartsWith(gameKey, "w") by {
      assert gameKey[0] != 'w';
    }
  }

  // ---------------------------------------------------------------------------------------
  // _extract_team_stats

  predicate IsSlugChar(c: char) {
    ('a' <= c <= 'z') || ('0' <= c <= '9')
  }

  /** Only `[a-z0-9]` and hyphens. */
  predicate SlugAlphabet(s: string) {
    forall i :: 0 <= i < |s| ==> IsSlugChar(s[i]) || s[i] == '-'
  }

  predicate NoDoubleHyphen(s: string) {
    forall i :: 0 <= i < |s| - 1 ==> !(s[i] == '-' && s[i + 1] == '-')
  }

  predicate NotSlugChar(c: char) {
    !IsSlugChar(c)
  }

  /** `re.sub(r"[^a-z0-9]+", "-", s)`: every maximal run outside `[a-z0-9]` becomes one hyphen. */
  function CollapseRuns(s: string): string {
    SubRuns(s, NotSlugChar, '-')
  }

  /** The hyphen-joined form: only `[a-z0-9-]`, and no two hyphens side by side. */
  lemma RunsFilledIsSlugShape(s: string)
    requires RunsFilled(s, NotSlugChar, '-')
    ensures SlugAlphabet(s) && NoDoubleHyphen(s)
  {
  }

  /**
   * `_slugify`: the `[a-z0-9]` characters of the lower-cased name, in order, with every run of
   * other characters between them turned into one hyphen and none at either end.
   */
  function Slugify(name: string): (slug: string)
    ensures SlugAlphabet(slug) && NoDoubleHyphen(slug)
    ensures slug != [] ==> slug[0] != '-' && slug[|slug| - 1] != '-'
    ensures Kept(slug, NotSlugChar) == Kept(Lower(name), NotSlugChar)
  {
    SlugShape(name);
    StripChar(CollapseRuns(Lower(name)), '-')
  }

  /** The shape `Slugify` promises, of the stripped, collapsed, lower-cased name. */
  lemma SlugShape(name: string)
    ensures var slug := StripChar(CollapseRuns(Lower(name)), '-');
      && SlugAlphabet(slug) && NoDoubleHyphen(slug)
      && (slug != [] ==> slug[0] != '-' && slug[|slug| - 1] != '-')
      && Kept(slug, NotSlugChar) == Kept(Lower(name), NotSlugChar)
  {
    var collapsed := CollapseRuns(Lower(name));
    SubRunsForm(Lower(name), NotSlugChar, '-');
    SubRunsKept(Lower(name), NotSlugChar, '-');
    var slug := StripChar(collapsed, '-');
    var k := LeadingRun(collapsed, '-');
    RunsFilledSlice(collapsed, NotSlugChar, '-', k, k + |slug|);
    KeptSlice(collapsed, NotSlugChar, k, k + |slug|);
    RunsFilledIsSlugShape(slug);
  }

  /** The alternate slug: "-state", "-university" and "st-" taken out, in that order. */
  function AltSlug(slug: string): string {
    Replace(Replace(Replace(slug, "-state", ""), "-university", ""), "st-", "")
  }

  const BoxScorePrefix: string := "box-score-basic-"

  predicate IsBoxScoreTable(t: Table) {
    t.id.Some? && StartsWith(t.id.value, BoxScorePrefix)
  }

  /** The tables with an id starting "box-score-basic-", in document order. */
  function BoxScoreTables(tables: seq<Table>): (r: seq<Table>)
    ensures forall i :: 0 <= i < |r| ==> IsBoxScoreTable(r[i])
    ensures forall t :: t in r <==> t in tables && IsBoxScoreTable(t)
    ensures r != [] ==>
      exists i :: 0 <= i < |tables| && tables[i] == r[0]
        && forall j :: 0 <= j < i ==> !IsBoxScoreTable(tables[j])
  {
    if tables == [] then []
    else if IsBoxScoreTable(tables[0]) then [tables[0]] + BoxScoreTables(tables[1..])
    else
      var rest := BoxScoreTables(tables[1..]);
      if rest != [] then
        var i :| 0 <= i < |tables| - 1 && tables[1..][i] == rest[0]
          && forall j :: 0 <= j < i ==> !IsBoxScoreTable(tables[1..][j]);
        assert tables[i + 1] == rest[0];
        assert forall j :: 0 <= j < i + 1 ==> !IsBoxScoreTable(tables[j]) by {
          forall j | 0 <= j < i + 1 ensures !IsBoxScoreTable(tables[j]) {
            if j > 0 { assert tables[j] == tables[1..][j - 1]; }
          }
        }
        rest
      else rest
  }

  /** The selection keeps document order: the tables of a page split in two are those of each part, in turn. */
  lemma {:induction false} BoxScoreTablesAppend(a: seq<Table>, b: seq<Table>)
    ensures BoxScoreTables(a + b) == BoxScoreTables(a) + BoxScoreTables(b)
    decreases |a|
  {
    if a != [] {
      assert (a + b)[1..] == a[1..] + b;
      BoxScoreTablesAppend(a[1..], b);
    } else {
      assert a + b == b;
    }
  }

  /** The team part of a box-score table's id, lower-cased. */
  function TableSlug(t: Table): string
    requires IsBoxScoreTable(t)
  {
    var id := Lower(t.id.value);
    assert id[..|BoxScorePrefix|] == BoxScorePrefix by {
      assert forall k :: 0 <= k < |BoxScorePrefix| ==> id[k] == LowerChar(t.id.value[k]) == t.id.value[k];
    }
    id[|BoxScorePrefix|..]
  }

  /** `c and (c in slug or slug in c)`. */
  predicate SlugMatches(c: string, slug: string) {
    c != "" && (Contains(slug, c) || Contains(c, slug))
  }

  /** The table's slug matches the team's slug or its alternate. */
  predicate TableMatches(t: Table, target: string, alt: string)
    requires IsBoxScoreTable(t)
  {
    SlugMatches(target, TableSlug(t)) || SlugMatches(alt, TableSlug(t))
  }

  function FirstMatchingTable(tables: seq<Table>, target: string, alt: string): (r: Option<nat>)
    requires forall i :: 0 <= i < |tables| ==> IsBoxScoreTable(tables[i])
    ensures r.Some? ==> r.value < |tables| && TableMatches(tables[r.value], target, alt)
    ensures r.Some? ==> forall j :: 0 <= j < r.value ==> !TableMatches(tables[j], target, alt)
    ensures r.None? <==> forall i :: 0 <= i < |tables| ==> !TableMatches(tables[i], target, alt)
  {
    if tables == [] then None
    else if TableMatches(tables[0], target, alt) then Some(0)
    else match FirstMatchingTable(tables[1..], target, alt)
      case None => None
      case Some(k) => Some(k + 1)
  }

  /** The first box-score table whose slug matches the team, else the one at the team's position. */
  function TeamTable(tables: seq<Table>, target: string, alt: string, isHome: bool): (r: Option<Table>)
    requires forall i :: 0 <= i < |tables| ==> IsBoxScoreTable(tables[i])
    ensures r.None? <==> tables == []
    ensures r.Some? ==> r.value in tables
    ensures (forall i :: 0 <= i < |tables| ==> !TableMatches(tables[i], target, alt)) && tables != [] ==>
      r == Some(if isHome && |tables| > 1 then tables[1] else tables[0])
  {
    match FirstMatchingTable(tables, target, alt)
    case Some(i) => Some(tables[i])
    case None =>
      if tables == [] then None
      else Some(if isHome && |tables| > 1 then tables[1] else tables[0])
  }

  /** A coerced stat: `int`, `float` or the raw `str`. */
  datatype StatValue = IntStat(i: int) | FloatStat(f: PyFloat) | TextStat(s: string)

  /**
   * The coercion of one non-empty value: an integer if `parse_int` gives one, else a float if
   * `parse_float` does, else the text; `parse_int` raises on a text `float` reads as infinite.
   */
  function Coerce(parse: FloatParser, val: string): (v: Raising<StatValue>)
    ensures v.Raised? <==> ParseIntAsWritten(parse, Some(val)).Raised?
    ensures v.Raised? ==> v.exception == "OverflowError"
    ensures v.Returned? && v.value.IntStat? <==> ParseIntAsWritten(parse, Some(val)).Returned? && ParseIntAsWritten(parse, Some(val)).value.Some?
    ensures v.Returned? && v.value.IntStat? ==> v.value.i == ParseIntAsWritten(parse, Some(val)).value.value
    ensures v.Returned? && v.value.FloatStat? <==> ParseIntAsWritten(parse, Some(val)) == Returned(None) && ParseFloat(parse, Some(val)).Some?
    ensures v.Returned? && v.value.FloatStat? ==> v.value.f == ParseFloat(parse, Some(val)).value
    ensures v.Returned? && v.value.TextStat? ==> v.value.s == val
  {
    match ParseIntAsWritten(parse, Some(val))
    case Raised(e) => Raised(e)
    case Returned(Some(n)) => Returned(IntStat(n))
    case Returned(None) =>
      match ParseFloat(parse, Some(val))
      case Some(f) => Returned(FloatStat(f))
      case None => Returned(TextStat(val))
  }

  /** Some non-empty value makes `parse_int` raise. */
  predicate SomeStatRaises(parse: FloatParser, stats: map<string, string>) {
    exists k :: k in stats && stats[k] != "" && Coerce(parse, stats[k]).Raised?
  }

  /**
   * The coerced stats: empty values dropped, the rest coerced; `OverflowError` if any value
   * raises, whichever the dictionary order reaches first.
   */
  function CoercedStats(parse: FloatParser, stats: map<string, string>): (parsed: Raising<map<string, StatValue>>)
    ensures parsed.Raised? <==> SomeStatRaises(parse, stats)
    ensures parsed.Raised? ==> parsed.exception == "OverflowError"
    ensures parsed.Returned? ==> forall k :: k in parsed.value <==> k in stats && stats[k] != ""
    ensures parsed.Returned? ==> forall k :: k in parsed.value ==> Coerce(parse, stats[k]) == Returned(parsed.value[k])
  {
    if SomeStatRaises(parse, stats) then Raised("OverflowError")
    else Returned(map k | k in stats && stats[k] != "" :: Coerce(parse, stats[k]).value)
  }

  /**
   * What `_extract_team_stats` returns for one team of a boxscore page: nothing without a
   * box-score table, else the coerced totals of the table it picks, or the exception.
   */
  function TeamStats(parse: FloatParser, page: Page, teamName: string, isHome: bool): (stats: Raising<map<string, StatValue>>)
    ensures (forall i :: 0 <= i < |page.tables| ==> !IsBoxScoreTable(page.tables[i])) ==> stats == Returned(map[])
    ensures var target := Slugify(teamName);
      match TeamTable(BoxScoreTables(page.tables), target, AltSlug(target), isHome)
      case None => stats == Returned(map[])
      case Some(t) =>
        (stats.Raised? <==> SomeStatRaises(parse, TeamStatsOf(t)))
        && (stats.Returned? ==> forall k :: k in stats.value <==> k in TeamStatsOf(t) && TeamStatsOf(t)[k] != "")
  {
    var tables := BoxScoreTables(page.tables);
    assert tables != [] ==> tables[0] in page.tables;
    var target := Slugify(teamName);
    match TeamTable(tables, target, AltSlug(target), isHome)
    case None => Returned(map[])
    case Some(t) => CoercedStats(parse, TeamStatsOf(t))
  }

  /** The coercion loop of `_extract_team_stats`. */
  method CoerceStats(parse: FloatParser, stats: map<string, string>) returns (parsed: Raising<map<string, StatValue>>)
    ensures parsed == CoercedStats(parse, stats)
  {
    var done: map<string, StatValue> := map[];
    var remaining := stats.Keys;
    while remaining != {}
      invariant remaining <= stats.Keys
      invariant forall k :: k in done <==> k in stats && k !in remaining && stats[k] != ""
      invariant forall k :: k in done ==> Coerce(parse, stats[k]) == Returned(done[k])
      invariant forall k :: k in stats && k !in remaining && stats[k] != "" ==> Coerce(parse, stats[k]).Returned?
      decreases |remaining|
    {
      var key :| key in remaining;
      var val := stats[key];
      remaining := remaining - {key};
      if val == "" {
        continue;
      }
      var parsedInt := ParseIntAsWritten(parse, Some(val));
      if parsedInt.Raised? {
        assert Coerce(parse, stats[key]).Raised?;
        return Raised(parsedInt.exception);
      }
      if parsedInt.value.Some? {
        done := done[key := IntStat(parsedInt.value.value)];
        continue;
      }
      var parsedFloat := ParseFloat(parse, Some(val));
      if parsedFloat.Some? {
        done := done[key := FloatStat(parsedFloat.value)];
        continue;
      }
      done := done[key := TextStat(val)];
    }
    parsed := Returned(done);
    assert parsed.value == CoercedStats(parse, stats).value;
  }

  /** The table search of `_extract_team_stats`: slug match first, then position. */
  method MatchTeamTable(tables: seq<Table>, target: string, alt: string, isHome: bool) returns (matched: Option<Table>)
    requires forall i :: 0 <= i < |tables| ==> IsBoxScoreTable(tables[i])
    ensures matched == TeamTable(tables, target, alt, isHome)
  {
    matched := None;
    var i := 0;
    while i < |tables|
      invariant 0 <= i <= |tables|
      invariant forall j :: 0 <= j < i ==> !TableMatches(tables[j], target, alt)
    {
      if TableMatches(tables[i], target, alt) {
        assert FirstMatchingTable(tables, target, alt) == Some(i);
        return Some(tables[i]);
      }
      i := i + 1;
    }
    if tables != [] {
      matched := Some(if isHome && |tables| > 1 then tables[1] else tables[0]);
    }
  }

  /** `_extract_team_stats`. */
  method ExtractTeamStats(parse: FloatParser, page: Page, teamName: string, isHome: bool) returns (stats: Raising<map<string, StatValue>>)
    ensures stats == TeamStats(parse, page, teamName, isHome)
  {
    var tables := BoxScoreTables(page.tables);
    var target := Slugify(teamName);
    var alt := AltSlug(target);
    var matched := MatchTeamTable(tables, target, alt, isHome);
    if matched.None? {
      return Returned(map[]);
    }
    var totals := ExtractTeamStatsFromTable(matched.value);
    stats := CoerceStats(parse, totals);
  }

  // ---------------------------------------------------------------------------------------
  // fetch_games_for_date

  /** A link of a game's summary: its `href`, if any, and whether it sits in the `p.links` paragraph. */
  datatype Link = Link(href: Option<string>, inLinksParagraph: bool)

  /** A `div.game_summary`: its classes, the rows of its `table.teams`, and its links in document order. */
  datatype GameDiv = GameDiv(classes: seq<string>, teamRows: seq<TeamRow>, links: seq<Link>)

  /** `a[href*=needle]`, inside `p.links` when `inLinksOnly`. */
  predicate LinkMatches(link: Link, inLinksOnly: bool, needle: string) {
    link.href.Some? && (link.inLinksParagraph || !inLinksOnly) && Contains(link.href.value, needle)
  }

  /** `select_one`: the `href` of the first link, in document order, that the selector matches. */
  function FirstLink(links: seq<Link>, inLinksOnly: bool, needle: string): (r: Option<string>)
    ensures r.Some? ==> Contains(r.value, needle)
    ensures r.None? <==> forall i :: 0 <= i < |links| ==> !LinkMatches(links[i], inLinksOnly, needle)
    ensures r.Some? ==>
      exists i :: 0 <= i < |links| && LinkMatches(links[i], inLinksOnly, needle) && links[i].href == r
        && forall j :: 0 <= j < i ==> !LinkMatches(links[j], inLinksOnly, needle)
  {
    if links == [] then None
    else if LinkMatches(links[0], inLinksOnly, needle) then links[0].href
    else
      var rest := FirstLink(links[1..], inLinksOnly, needle);
      if rest.Some? then
        var i :| 0 <= i < |links| - 1 && LinkMatches(links[1..][i], inLinksOnly, needle) && links[1..][i].href == rest
          && forall j :: 0 <= j < i ==> !LinkMatches(links[1..][j], inLinksOnly, needle);
        assert links[i + 1] == links[1..][i];
        assert forall j :: 0 <= j < i + 1 ==> !LinkMatches(links[j], inLinksOnly, needle) by {
          forall j | 0 <= j < i + 1 ensures !LinkMatches(links[j], inLinksOnly, needle) {
            if j > 0 { assert links[j] == links[1..][j - 1]; }
          }
        }
        rest
      else rest
  }

  /** "/boxscores/" contains "boxscores". */
  lemma SlashedNeedleContainsBare()
    ensures Contains("/boxscores/", "boxscores")
  {
    var outer := "/boxscores/";
    assert outer[1..10] == "boxscores";
    assert OccursAt(outer, "boxscores", 1);
    ContainsOffset(outer, "boxscores");
  }

  /**
   * The boxscore link's `href`: the first of the four selectors that matches wins, and there is
   * none exactly when no link's `href` contains "boxscores".
   */
  function BoxscoreHref(links: seq<Link>): (r: Option<string>)
    ensures r.Some? ==> Contains(r.value, "boxscores")
    ensures FirstLink(links, true, "/boxscores/").Some? ==> r == FirstLink(links, true, "/boxscores/")
    ensures FirstLink(links, true, "/boxscores/").None? && FirstLink(links, true, "boxscores").Some? ==>
      r == FirstLink(links, true, "boxscores")
    ensures FirstLink(links, true, "boxscores").None? && FirstLink(links, false, "/boxscores/").Some? ==>
      r == FirstLink(links, false, "/boxscores/")
    ensures FirstLink(links, false, "/boxscores/").None? && FirstLink(links, true, "boxscores").None? ==>
      r == FirstLink(links, false, "boxscores")
    ensures r.None? <==> forall i :: 0 <= i < |links| ==> !(links[i].href.Some? && Contains(links[i].href.value, "boxscores"))
  {
    SlashedNeedleContainsBare();
    var first := FirstLink(links, true, "/boxscores/");
    var second := FirstLink(links, true, "boxscores");
    var third := FirstLink(links, false, "/boxscores/");
    var fourth := FirstLink(links, false, "boxscores");
    forall i, inLinksOnly | 0 <= i < |links| && LinkMatches(links[i], inLinksOnly, "/boxscores/")
      ensures LinkMatches(links[i], inLinksOnly, "boxscores")
    {
      ContainsTransitive(links[i].href.value, "/boxscores/", "boxscores");
    }
    assert first.Some? ==> second.Some?;
    if first.Some? then first
    else if second.Some? then second
    else if third.Some? then third
    else fourth
  }

  /** `href.split("/")[-1].replace(".html", "")`. */
  function SourceGameKey(href: string): (key: string)
    ensures '/' !in key
  {
    ReplaceKeepsAbsent(LastSegment(href, '/'), ".html", "", '/');
    Replace(LastSegment(href, '/'), ".html", "")
  }

  datatype GameIdentification = GameIdentification(
    leagueCode: string, season: int, seasonType: string, gameDay: int,
    homeTeam: TeamIdentity, awayTeam: TeamIdentity, sourceGameKey: string)

  datatype TeamBoxscore = TeamBoxscore(
    team: TeamIdentity, isHome: bool, points: int, rebounds: Option<int>, assists: Option<int>,
    turnovers: Option<int>, rawStats: map<string, StatValue>)

  datatype NormalizedGame = NormalizedGame(
    identity: GameIdentification, status: string, homeScore: int, awayScore: int, teamBoxscores: seq<TeamBoxscore>)

  /**
   * `parse_int` applied to an already coerced stat: an `int` comes back as it is, a float is
   * truncated (an infinity raises `OverflowError`, NaN gives `None`), a text is parsed again.
   */
  function StatToInt(parse: FloatParser, v: Option<StatValue>): (r: Raising<Option<int>>)
    ensures v.None? ==> r == Returned(None)
    ensures r.Raised? <==> v.Some? && ((v.value.FloatStat? && !NotInfinite(v.value.f))
                                     || (v.value.TextStat? && ParseIntAsWritten(parse, Some(v.value.s)).Raised?))
    ensures v.Some? && v.value.IntStat? ==> r == Returned(Some(v.value.i))
    ensures v.Some? && v.value.FloatStat? && v.value.f.Finite? ==> r == Returned(Some(Trunc(v.value.f.value)))
  {
    match v
    case None => Returned(None)
    case Some(IntStat(n)) => Returned(Some(n))
    case Some(FloatStat(Finite(x))) => Returned(Some(Trunc(x)))
    case Some(FloatStat(NaN)) => Returned(None)
    case Some(FloatStat(_)) => Raised("OverflowError")
    case Some(TextStat(t)) => ParseIntAsWritten(parse, Some(t))
  }

  /** A total without ':' that coerces reads back as the same number `parse_int` gives on its text. */
  lemma StatToIntOfCoerce(parse: FloatParser, t: string)
    requires t != "" && ':' !in t && Coerce(parse, t).Returned?
    ensures StatToInt(parse, Some(Coerce(parse, t).value)) == ParseIntAsWritten(parse, Some(t))
  {
    if ParseIntAsWritten(parse, Some(t)) == Returned(None) && ParseFloat(parse, Some(t)).Some? {
      assert ParseFloat(parse, Some(t)) == parse(t);
    }
  }

  /** A minutes total "32:45" coerces to 32.75 and then counts as 32, though `parse_int` on the text is `None`. */
  lemma ClockStatTruncates(parse: FloatParser)
    requires parse("32") == Some(Finite(32.0)) && parse("45") == Some(Finite(45.0)) && parse("32:45") == None
    ensures Coerce(parse, "32:45") == Returned(FloatStat(Finite(32.75)))
    ensures StatToInt(parse, Some(FloatStat(Finite(32.75)))) == Returned(Some(32))
    ensures ParseIntAsWritten(parse, Some("32:45")) == Returned(None)
  {
    ClockExample(parse);
    assert Trunc(32.75) == 32;
  }

  function Lookup(stats: map<string, StatValue>, key: string): Option<StatValue> {
    if key in stats then Some(stats[key]) else None
  }

  /** `stats.get(key)` on the raw totals. */
  function RawLookup(totals: map<string, string>, key: string): Option<string> {
    if key in totals then Some(totals[key]) else None
  }

  /**
   * `_build_team_boxscore`: rebounds, assists and turnovers are `parse_int` of the "trb", "ast"
   * and "tov" stats, read in that order; any of them raising raises out of the call.
   */
  function BuildTeamBoxscore(parse: FloatParser, identity: TeamIdentity, isHome: bool, score: int,
                             stats: map<string, StatValue>): (b: Raising<TeamBoxscore>)
    ensures b.Raised? <==> StatToInt(parse, Lookup(stats, "trb")).Raised? || StatToInt(parse, Lookup(stats, "ast")).Raised?
                           || StatToInt(parse, Lookup(stats, "tov")).Raised?
    ensures b.Returned? ==> b.value.team == identity && b.value.isHome == isHome && b.value.points == score && b.value.rawStats == stats
    ensures b.Returned? ==>
      b.value.rebounds == StatToInt(parse, Lookup(stats, "trb")).value
      && b.value.assists == StatToInt(parse, Lookup(stats, "ast")).value
      && b.value.turnovers == StatToInt(parse, Lookup(stats, "tov")).value
  {
    var rebounds := StatToInt(parse, Lookup(stats, "trb"));
    var assists := StatToInt(parse, Lookup(stats, "ast"));
    var turnovers := StatToInt(parse, Lookup(stats, "tov"));
    if rebounds.Raised? then Raised(rebounds.exception)
    else if assists.Raised? then Raised(assists.exception)
    else if turnovers.Raised? then Raised(turnovers.exception)
    else Returned(TeamBoxscore(identity, isHome, score, rebounds.value, assists.value, turnovers.value, stats))
  }

  /** A count read from coerced totals is `parse_int` of the raw total, for a total without ':'. */
  lemma CountFromTotals(parse: FloatParser, totals: map<string, string>, key: string)
    requires CoercedStats(parse, totals).Returned?
    requires key in totals ==> ':' !in totals[key]
    ensures StatToInt(parse, Lookup(CoercedStats(parse, totals).value, key)) == ParseIntAsWritten(parse, RawLookup(totals, key))
  {
    var parsed := CoercedStats(parse, totals).value;
    if key in totals && totals[key] != "" {
      assert key in parsed;
      StatToIntOfCoerce(parse, totals[key]);
    }
  }

  /**
   * The boxscore built from a table's coerced totals carries, as its rebounds, assists and
   * turnovers, `parse_int` of the raw "trb", "ast" and "tov" totals, when none is a clock.
   */
  lemma BoxscoreCountsFromTotals(parse: FloatParser, identity: TeamIdentity, isHome: bool, score: int, totals: map<string, string>)
    requires CoercedStats(parse, totals).Returned?
    requires forall key :: key in totals && key in {"trb", "ast", "tov"} ==> ':' !in totals[key]
    ensures var b := BuildTeamBoxscore(parse, identity, isHome, score, CoercedStats(parse, totals).value);
      b.Returned?
      && b.value.rebounds == ParseIntAsWritten(parse, RawLookup(totals, "trb")).value
      && b.value.assists == ParseIntAsWritten(parse, RawLookup(totals, "ast")).value
      && b.value.turnovers == ParseIntAsWritten(parse, RawLookup(totals, "tov")).value
  {
    CountFromTotals(parse, totals, "trb");
    CountFromTotals(parse, totals, "ast");
    CountFromTotals(parse, totals, "tov");
    forall key | key in {"trb", "ast", "tov"} ensures ParseIntAsWritten(parse, RawLookup(totals, key)).Returned? {
      if key in totals && totals[key] != "" {
        assert !Coerce(parse, totals[key]).Raised?;
      }
    }
  }

  /** The page fetches and collaborators of one day's scrape; a fetch returns the page or raises. */
  datatype Sources = Sources(
    parse: FloatParser,
    normalize: TeamNormalizer,
    boxscorePage: string -> Raising<Page>,
    seasonOf: int -> int)

  /** A game as the scraper emits it: completed, away boxscore first, each boxscore on its own team. */
  predicate WellFormedGame(g: NormalizedGame) {
    g.status == "completed"
    && |g.teamBoxscores| == 2
    && !g.teamBoxscores[0].isHome && g.teamBoxscores[0].team == g.identity.awayTeam
    && g.teamBoxscores[1].isHome && g.teamBoxscores[1].team == g.identity.homeTeam
    && g.teamBoxscores[0].points == g.awayScore && g.teamBoxscores[1].points == g.homeScore
  }

  /** The game assembled from its two parsed rows, its key and the two teams' stats; the boxscores are built away first. */
  function AssembleGame(src: Sources, day: int, away: ParsedTeam, home: ParsedTeam, key: string,
                        awayStats: map<string, StatValue>, homeStats: map<string, StatValue>): (g: Raising<NormalizedGame>)
    ensures g.Raised? <==> BuildTeamBoxscore(src.parse, away.identity, false, away.score, awayStats).Raised?
                           || BuildTeamBoxscore(src.parse, home.identity, true, home.score, homeStats).Raised?
    ensures g.Returned? ==> WellFormedGame(g.value)
    ensures g.Returned? ==> g.value.identity == GameIdentification(LeagueCode, src.seasonOf(day), "regular", day, home.identity, away.identity, key)
    ensures g.Returned? ==> g.value.homeScore == home.score && g.value.awayScore == away.score
    ensures g.Returned? ==> g.value.teamBoxscores[0].rawStats == awayStats && g.value.teamBoxscores[1].rawStats == homeStats
  {
    var identity := GameIdentification(LeagueCode, src.seasonOf(day), "regular", day, home.identity, away.identity, key);
    var awayBox := BuildTeamBoxscore(src.parse, away.identity, false, away.score, awayStats);
    if awayBox.Raised? then Raised(awayBox.exception)
    else
      var homeBox := BuildTeamBoxscore(src.parse, home.identity, true, home.score, homeStats);
      if homeBox.Raised? then Raised(homeBox.exception)
      else Returned(NormalizedGame(identity, "completed", home.score, away.score, [awayBox.value, homeBox.value]))
  }

  /** The women's heuristic applied to a link and its two teams. */
  predicate FlaggedWomens(isGenderF: bool, away: ParsedTeam, home: ParsedTeam, href: string) {
    IsProbableWomensGame(href, SourceGameKey(href), home.identity.name, away.identity.name, isGenderF).0
  }

  /**
   * The game behind a boxscore link: none for a women's game; otherwise the fetch, the two
   * teams' stats and the two boxscores, any of which can raise out of the day.
   */
  /**
   * The game read from a fetched boxscore page: the away team's stats, then the home team's,
   * then the two boxscores, any of which can raise.
   */
  function GameFromPage(src: Sources, day: int, away: ParsedTeam, home: ParsedTeam, key: string, page: Page): (g: Raising<NormalizedGame>)
    ensures g.Returned? ==>
      WellFormedGame(g.value) && g.value.identity.sourceGameKey == key
      && g.value.identity.awayTeam == away.identity && g.value.identity.homeTeam == home.identity
      && g.value.awayScore == away.score && g.value.homeScore == home.score
  {
    var awayStats := TeamStats(src.parse, page, away.identity.name, false);
    if awayStats.Raised? then Raised(awayStats.exception)
    else
      var homeStats := TeamStats(src.parse, page, home.identity.name, true);
      if homeStats.Raised? then Raised(homeStats.exception)
      else AssembleGame(src, day, away, home, key, awayStats.value, homeStats.value)
  }

  /** The game behind a boxscore link: none for a women's game; otherwise the fetch, which can raise, and the page's game. */
  function GameFromLink(src: Sources, day: int, isGenderF: bool, away: ParsedTeam, home: ParsedTeam, href: string): (g: Raising<Option<NormalizedGame>>)
    ensures g.Returned? && g.value.Some? ==>
      var game := g.value.value;
      WellFormedGame(game) && game.identity.sourceGameKey == SourceGameKey(href)
      && game.identity.awayTeam == away.identity && game.identity.homeTeam == home.identity
      && game.awayScore == away.score && game.homeScore == home.score
  {
    if FlaggedWomens(isGenderF, away, home, href) then Returned(None)
    else match src.boxscorePage(href)
      case Raised(e) => Raised(e)
      case Returned(page) =>
        match GameFromPage(src, day, away, home, SourceGameKey(href), page)
        case Raised(e) => Raised(e)
        case Returned(game) => Returned(Some(game))
  }

  /** A link yields nothing exactly for a women's game. */
  lemma GameFromLinkNone(src: Sources, day: int, isGenderF: bool, away: ParsedTeam, home: ParsedTeam, href: string)
    ensures GameFromLink(src, day, isGenderF, away, home, href) == Returned(None) <==> FlaggedWomens(isGenderF, away, home, href)
  {
  }

  /** Past the heuristic, the fetch's exception ends the day, and so does the page's. */
  lemma GameFromLinkRaises(src: Sources, day: int, isGenderF: bool, away: ParsedTeam, home: ParsedTeam, href: string)
    ensures !FlaggedWomens(isGenderF, away, home, href) && src.boxscorePage(href).Raised? ==>
      GameFromLink(src, day, isGenderF, away, home, href) == Raised(src.boxscorePage(href).exception)
    ensures !FlaggedWomens(isGenderF, away, home, href) && src.boxscorePage(href).Returned? ==>
      var game := GameFromPage(src, day, away, home, SourceGameKey(href), src.boxscorePage(href).value);
      game.Raised? ==> GameFromLink(src, day, isGenderF, away, home, href) == Raised(game.exception)
  {
  }

  /** The away team's stats raise first, then the home team's, then the boxscores. */
  lemma GameFromPageRaises(src: Sources, day: int, away: ParsedTeam, home: ParsedTeam, key: string, page: Page)
    ensures var awayStats := TeamStats(src.parse, page, away.identity.name, false);
      awayStats.Raised? ==> GameFromPage(src, day, away, home, key, page) == Raised(awayStats.exception)
    ensures var awayStats := TeamStats(src.parse, page, away.identity.name, false);
      var homeStats := TeamStats(src.parse, page, home.identity.name, true);
      awayStats.Returned? && homeStats.Raised? ==> GameFromPage(src, day, away, home, key, page) == Raised(homeStats.exception)
    ensures var awayStats := TeamStats(src.parse, page, away.identity.name, false);
      var homeStats := TeamStats(src.parse, page, home.identity.name, true);
      awayStats.Returned? && homeStats.Returned? ==>
        (GameFromPage(src, day, away, home, key, page).Raised?
         <==> BuildTeamBoxscore(src.parse, away.identity, false, away.score, awayStats.value).Raised?
              || BuildTeamBoxscore(src.parse, home.identity, true, home.score, homeStats.value).Raised?)
  {
  }

  /** What `_parse_team_row` does with the `k`-th row of a summary. */
  function RowOutcome(src: Sources, div: GameDiv, k: nat): Raising<Result<ParsedTeam, string>>
    requires k < |div.teamRows|
  {
    TeamRowOutcome(src.parse, src.normalize, div.teamRows[k])
  }

  /** The `k`-th row parses. */
  predicate RowParses(src: Sources, div: GameDiv, k: nat) {
    k < |div.teamRows| && RowOutcome(src, div, k).Returned? && RowOutcome(src, div, k).value.Success?
  }

  /** The `k`-th row raises a `ScraperError`, which the loop's handler catches. */
  predicate RowRejected(src: Sources, div: GameDiv, k: nat) {
    k < |div.teamRows| && RowOutcome(src, div, k).Returned? && RowOutcome(src, div, k).value.Failure?
  }

  /** The team the `k`-th row parses to. */
  function RowTeam(src: Sources, div: GameDiv, k: nat): ParsedTeam
    requires RowParses(src, div, k)
  {
    RowOutcome(src, div, k).value.value
  }

  /**
   * A summary is skipped when it has fewer than two team rows, when the away row or then the
   * home row is rejected, when it has no boxscore link, or when the heuristic flags it as a
   * women's game.
   */
  predicate SkippedDiv(src: Sources, div: GameDiv) {
    || |div.teamRows| < 2
    || RowRejected(src, div, 0)
    || (RowParses(src, div, 0) && RowRejected(src, div, 1))
    || (RowParses(src, div, 0) && RowParses(src, div, 1)
        && (BoxscoreHref(div.links).None?
            || FlaggedWomens("gender-f" in div.classes, RowTeam(src, div, 0), RowTeam(src, div, 1), BoxscoreHref(div.links).value)))
  }

  /** One iteration of the day's loop: a game, a skip (`None`), or an exception that ends the day. */
  function GameFromDiv(src: Sources, day: int, div: GameDiv): (g: Raising<Option<NormalizedGame>>)
    ensures g.Returned? && g.value.Some? ==> WellFormedGame(g.value.value)
  {
    if |div.teamRows| < 2 then Returned(None)
    else
      var away := RowOutcome(src, div, 0);
      if away.Raised? then Raised(away.exception)
      else if away.value.Failure? then Returned(None)
      else
        var home := RowOutcome(src, div, 1);
        if home.Raised? then Raised(home.exception)
        else if home.value.Failure? then Returned(None)
        else
          var href := BoxscoreHref(div.links);
          if href.None? then Returned(None)
          else GameFromLink(src, day, "gender-f" in div.classes, away.value.value, home.value.value, href.value)
  }

  /** A summary yields nothing exactly when it is skipped. */
  lemma GameFromDivSkipped(src: Sources, day: int, div: GameDiv)
    ensures GameFromDiv(src, day, div) == Returned(None) <==> SkippedDiv(src, div)
  {
    var g := GameFromDiv(src, day, div);
    if |div.teamRows| < 2 {
      assert g == Returned(None);
    } else if RowOutcome(src, div, 0).Raised? {
      assert g.Raised? && !SkippedDiv(src, div);
    } else if RowRejected(src, div, 0) {
      assert g == Returned(None);
    } else if RowOutcome(src, div, 1).Raised? {
      assert g.Raised? && !SkippedDiv(src, div);
    } else if RowRejected(src, div, 1) {
      assert g == Returned(None);
    } else {
      assert RowParses(src, div, 0) && RowParses(src, div, 1);
      var href := BoxscoreHref(div.links);
      if href.None? {
        assert g == Returned(None);
      } else {
        var away, home := RowTeam(src, div, 0), RowTeam(src, div, 1);
        assert g == GameFromLink(src, day, "gender-f" in div.classes, away, home, href.value);
        GameFromLinkNone(src, day, "gender-f" in div.classes, away, home, href.value);
        assert SkippedDiv(src, div) <==> FlaggedWomens("gender-f" in div.classes, away, home, href.value);
      }
    }
  }

  /**
   * The away row's exception ends the day; so does the home row's once the away row parses
   * (after a rejected away row the home row is not read).
   */
  lemma GameFromDivRowRaises(src: Sources, day: int, div: GameDiv)
    ensures |div.teamRows| >= 2 && RowOutcome(src, div, 0).Raised? ==>
      GameFromDiv(src, day, div) == Raised(RowOutcome(src, div, 0).exception)
    ensures RowParses(src, div, 0) && |div.teamRows| >= 2 && RowOutcome(src, div, 1).Raised? ==>
      GameFromDiv(src, day, div) == Raised(RowOutcome(src, div, 1).exception)
    ensures RowRejected(src, div, 0) && |div.teamRows| >= 2 ==> GameFromDiv(src, day, div) == Returned(None)
  {
  }

  /** A game comes from row 0 as the away team and row 1 as the home team, keyed by the boxscore link. */
  lemma GameFromDivTeams(src: Sources, day: int, div: GameDiv)
    ensures var g := GameFromDiv(src, day, div);
      g.Returned? && g.value.Some? ==>
        RowParses(src, div, 0) && RowParses(src, div, 1) && BoxscoreHref(div.links).Some?
        && var game := g.value.value;
        game.identity.sourceGameKey == SourceGameKey(BoxscoreHref(div.links).value)
        && game.identity.awayTeam == RowTeam(src, div, 0).identity && game.awayScore == RowTeam(src, div, 0).score
        && game.identity.homeTeam == RowTeam(src, div, 1).identity && game.homeScore == RowTeam(src, div, 1).score
  {
  }

  /**
   * A day's loop over its items, each of which yields an item, nothing, or an exception: the
   * items in order, or the first exception, which ends the loop.
   */
  function RunDay<D, G(!new)>(step: D -> Raising<Option<G>>, items: seq<D>): (out: Raising<seq<G>>)
    ensures out.Raised? <==> exists i :: 0 <= i < |items| && step(items[i]).Raised?
    ensures out.Raised? ==>
      exists i :: 0 <= i < |items| && step(items[i]) == Raised(out.exception)
        && forall j :: 0 <= j < i ==> step(items[j]).Returned?
    ensures out.Returned? ==> |out.value| <= |items|
    ensures out.Returned? ==> forall g :: g in out.value <==> exists i :: 0 <= i < |items| && step(items[i]) == Returned(Some(g))
    decreases |items|
  {
    if items == [] then Returned([])
    else
      var n := |items| - 1;
      var init := items[..n];
      var rest := RunDay(step, init);
      assert forall i :: 0 <= i < n ==> init[i] == items[i];
      match rest
      case Raised(e) => Raised(e)
      case Returned(done) =>
        match step(items[n])
        case Raised(e) => Raised(e)
        case Returned(None) => Returned(done)
        case Returned(Some(g)) => Returned(done + [g])
  }

  /** The loop over two runs of items is the first run's output then the second's, unless one raises. */
  lemma {:induction false} RunDayAppend<D, G(!new)>(step: D -> Raising<Option<G>>, a: seq<D>, b: seq<D>)
    ensures RunDay(step, a + b) ==
      match RunDay(step, a)
      case Raised(e) => Raised(e)
      case Returned(ga) =>
        match RunDay(step, b)
        case Raised(e) => Raised(e)
        case Returned(gb) => Returned(ga + gb)
    decreases |b|
  {
    if b == [] {
      assert a + b == a;
      assert RunDay(step, b) == Returned([]);
      if RunDay(step, a).Returned? {
        assert RunDay(step, a).value + [] == RunDay(step, a).value;
      }
    } else {
      var n := |b| - 1;
      assert (a + b)[..|a + b| - 1] == a + b[..n];
      assert (a + b)[|a + b| - 1] == b[n];
      RunDayAppend(step, a, b[..n]);
      if RunDay(step, a).Returned? && RunDay(step, b[..n]).Returned? {
        var ga := RunDay(step, a).value;
        var gb := RunDay(step, b[..n]).value;
        match step(b[n])
        case Returned(Some(g)) => assert ga + (gb + [g]) == (ga + gb) + [g];
        case _ =>
      }
    }
  }

  /** One item alone: its output, nothing, or its exception. */
  lemma RunDayOne<D, G(!new)>(step: D -> Raising<Option<G>>, item: D)
    ensures RunDay(step, [item]) ==
      match step(item)
      case Raised(e) => Raised(e)
      case Returned(None) => Returned([])
      case Returned(Some(g)) => Returned([g])
  {
    assert [item][..0] == [];
    assert RunDay(step, [item][..0]) == Returned([]);
    match step(item)
    case Returned(Some(g)) => assert [] + [g] == [g];
    case _ =>
  }

  /** The loop over one more item of a list: the shorter prefix's output, then that item's. */
  lemma RunDayPrefixStep<D, G(!new)>(step: D -> Raising<Option<G>>, items: seq<D>, i: nat, done: seq<G>)
    requires i < |items| && RunDay(step, items[..i]) == Returned(done)
    ensures RunDay(step, items[..i + 1]) ==
      match step(items[i])
      case Raised(e) => Raised(e)
      case Returned(None) => Returned(done)
      case Returned(Some(g)) => Returned(done + [g])
  {
    assert items[..i + 1][..i] == items[..i];
    assert items[..i + 1][i] == items[i];
  }

  /**
   * The loop of `fetch_games_for_date` over any step: the outputs in order and the number of
   * items that gave none, or the first exception, which ends the loop.
   */
  method RunDayLoop<D, G(!new)>(step: D -> Raising<Option<G>>, items: seq<D>) returns (result: Raising<seq<G>>, skippedCount: nat)
    ensures result == RunDay(step, items)
    ensures result.Returned? ==> skippedCount + |result.value| == |items|
  {
    var outputs: seq<G> := [];
    skippedCount := 0;
    var i := 0;
    while i < |items|
      invariant 0 <= i <= |items|
      invariant RunDay(step, items[..i]) == Returned(outputs)
      invariant skippedCount + |outputs| == i
    {
      var outcome := step(items[i]);
      RunDayPrefixStep(step, items, i, outputs);
      if outcome.Raised? {
        RunDayPrefixRaises(step, items, i + 1);
        return Raised(outcome.exception), skippedCount;
      }
      if outcome.value.None? {
        skippedCount := skippedCount + 1;
      } else {
        outputs := outputs + [outcome.value.value];
      }
      i := i + 1;
    }
    assert items[..|items|] == items;
    result := Returned(outputs);
  }

  /** Once a prefix raises, the rest of the items are never looked at. */
  lemma RunDayPrefixRaises<D, G(!new)>(step: D -> Raising<Option<G>>, items: seq<D>, k: nat)
    requires k <= |items| && RunDay(step, items[..k]).Raised?
    ensures RunDay(step, items) == RunDay(step, items[..k])
  {
    assert items == items[..k] + items[k..];
    RunDayAppend(step, items[..k], items[k..]);
  }

  /** One summary of the day, as a step of the loop. */
  function DivStep(src: Sources, day: int): GameDiv -> Raising<Option<NormalizedGame>> {
    div => GameFromDiv(src, day, div)
  }

  /**
   * The games of a day's summaries, in order, each well formed, or the first exception an
   * iteration raises, which ends `fetch_games_for_date`.
   */
  function GamesFrom(src: Sources, day: int, divs: seq<GameDiv>): (games: Raising<seq<NormalizedGame>>)
    ensures games.Returned? ==> forall i :: 0 <= i < |games.value| ==> WellFormedGame(games.value[i])
  {
    var games := RunDay(DivStep(src, day), divs);
    assert games.Returned? ==> forall i :: 0 <= i < |games.value| ==> WellFormedGame(games.value[i]) by {
      if games.Returned? {
        forall i | 0 <= i < |games.value| ensures WellFormedGame(games.value[i]) {
          var g := games.value[i];
          assert g in games.value;
          var k :| 0 <= k < |divs| && DivStep(src, day)(divs[k]) == Returned(Some(g));
        }
      }
    }
    games
  }

  /**
   * The day in order: a further summary runs only when the ones before it raised nothing, and
   * its game, if any, comes after theirs.
   */
  lemma GamesFromSnoc(src: Sources, day: int, divs: seq<GameDiv>, div: GameDiv)
    ensures GamesFrom(src, day, divs + [div]) ==
      match GamesFrom(src, day, divs)
      case Raised(e) => Raised(e)
      case Returned(games) =>
        match GameFromDiv(src, day, div)
        case Raised(e) => Raised(e)
        case Returned(None) => Returned(games)
        case Returned(Some(g)) => Returned(games + [g])
  {
    RunDayAppend(DivStep(src, day), divs, [div]);
    RunDayOne(DivStep(src, day), div);
    assert DivStep(src, day)(div) == GameFromDiv(src, day, div);
    if GamesFrom(src, day, divs).Returned? && GameFromDiv(src, day, div) == Returned(None) {
      assert GamesFrom(src, day, divs).value + [] == GamesFrom(src, day, divs).value;
    }
  }

  /** A summary whose boxscore key starts with "w" never yields a game. */
  lemma WKeyGameSkipped(src: Sources, day: int, div: GameDiv)
    requires BoxscoreHref(div.links).Some? && StartsWith(SourceGameKey(BoxscoreHref(div.links).value), "w")
    ensures GameFromDiv(src, day, div).Returned? ==> GameFromDiv(src, day, div) == Returned(None)
  {
    if RowParses(src, div, 0) && RowParses(src, div, 1) {
      var away, home, href := RowTeam(src, div, 0), RowTeam(src, div, 1), BoxscoreHref(div.links).value;
      WKeyFiresTwoReasons(href, SourceGameKey(href), home.identity.name, away.identity.name, "gender-f" in div.classes);
      assert FlaggedWomens("gender-f" in div.classes, away, home, href);
    }
  }

  /** Without a text `float` reads as infinite, no stat coercion raises. */
  lemma CoercedStatsSettle(parse: FloatParser, totals: map<string, string>)
    requires NeverInfinite(parse)
    ensures CoercedStats(parse, totals).Returned?
    ensures forall k :: k in CoercedStats(parse, totals).value ==> var v := CoercedStats(parse, totals).value[k];
      (v.FloatStat? ==> NotInfinite(v.f))
  {
    forall k | k in totals && totals[k] != "" ensures Coerce(parse, totals[k]).Returned? {
      ParseIntSettlesWithoutInfinity(parse, Some(totals[k]));
    }
    var parsed := CoercedStats(parse, totals).value;
    forall k | k in parsed ensures parsed[k].FloatStat? ==> NotInfinite(parsed[k].f) {
      ParseFloatFiniteWithoutInfinity(parse, Some(totals[k]));
    }
  }

  /** Without infinite texts, a boxscore built from coerced totals never raises. */
  lemma BoxscoreSettles(parse: FloatParser, identity: TeamIdentity, isHome: bool, score: int, stats: map<string, StatValue>)
    requires NeverInfinite(parse)
    requires forall k :: k in stats && stats[k].FloatStat? ==> NotInfinite(stats[k].f)
    ensures BuildTeamBoxscore(parse, identity, isHome, score, stats).Returned?
  {
    forall key | key in stats && stats[key].TextStat? ensures ParseIntAsWritten(parse, Some(stats[key].s)).Returned? {
      ParseIntSettlesWithoutInfinity(parse, Some(stats[key].s));
    }
  }

  /** Without infinite texts, no score cell raises. */
  lemma RowSettles(src: Sources, div: GameDiv, k: nat)
    requires NeverInfinite(src.parse) && k < |div.teamRows|
    ensures RowOutcome(src, div, k).Returned?
  {
    var texts := ScoreTexts(div.teamRows[k].cells);
    if div.teamRows[k].link.Some? && LastSettling(src.parse, texts).Some? {
      ParseIntSettlesWithoutInfinity(src.parse, Some(texts[LastSettling(src.parse, texts).value]));
    }
  }

  /** Without infinite texts, a fetched page's game never raises. */
  lemma GameFromPageSettles(src: Sources, day: int, away: ParsedTeam, home: ParsedTeam, key: string, page: Page)
    requires NeverInfinite(src.parse)
    ensures GameFromPage(src, day, away, home, key, page).Returned?
  {
    StatsSettle(src, page, away, false);
    StatsSettle(src, page, home, true);
  }

  /** Without infinite texts and with every fetch succeeding, a summary never raises. */
  lemma GameFromDivSettles(src: Sources, day: int, div: GameDiv)
    requires NeverInfinite(src.parse)
    requires forall href :: src.boxscorePage(href).Returned?
    ensures GameFromDiv(src, day, div).Returned?
  {
    var g := GameFromDiv(src, day, div);
    if |div.teamRows| >= 2 {
      RowSettles(src, div, 0);
      RowSettles(src, div, 1);
      if RowRejected(src, div, 0) || RowRejected(src, div, 1) {
        assert g == Returned(None);
      } else {
        assert RowParses(src, div, 0) && RowParses(src, div, 1);
        var href := BoxscoreHref(div.links);
        if href.Some? {
          var away, home := RowTeam(src, div, 0), RowTeam(src, div, 1);
          assert g == GameFromLink(src, day, "gender-f" in div.classes, away, home, href.value);
          if !FlaggedWomens("gender-f" in div.classes, away, home, href.value) {
            var page := src.boxscorePage(href.value).value;
            GameFromPageSettles(src, day, away, home, SourceGameKey(href.value), page);
          }
        }
      }
    }
  }

  /** Without infinite texts, a team's stats never raise and hold no infinite float. */
  lemma StatsSettle(src: Sources, page: Page, team: ParsedTeam, isHome: bool)
    requires NeverInfinite(src.parse)
    ensures var stats := TeamStats(src.parse, page, team.identity.name, isHome);
      stats.Returned? && BuildTeamBoxscore(src.parse, team.identity, isHome, team.score, stats.value).Returned?
  {
    var target := Slugify(team.identity.name);
    var tables := BoxScoreTables(page.tables);
    match TeamTable(tables, target, AltSlug(target), isHome)
    case None =>
      BoxscoreSettles(src.parse, team.identity, isHome, team.score, map[]);
    case Some(t) =>
      CoercedStatsSettle(src.parse, TeamStatsOf(t));
      BoxscoreSettles(src.parse, team.identity, isHome, team.score, CoercedStats(src.parse, TeamStatsOf(t)).value);
  }

  /** Without infinite texts and with every fetch succeeding, the day runs to the end. */
  lemma DayCompletesWithoutInfinity(src: Sources, day: int, divs: seq<GameDiv>)
    requires NeverInfinite(src.parse)
    requires forall href :: src.boxscorePage(href).Returned?
    ensures GamesFrom(src, day, divs).Returned?
  {
    forall i | 0 <= i < |divs| ensures DivStep(src, day)(divs[i]).Returned? {
      GameFromDivSettles(src, day, divs[i]);
    }
  }

  /**
   * A summary whose away score cell reads "inf" ends the whole day with `OverflowError`, where
   * `parse_int`'s documented contract would have made it a skipped row.
   */
  lemma InfiniteScoreAbortsDay(src: Sources, day: int, before: seq<GameDiv>, homeRow: TeamRow, links: seq<Link>)
    requires src.parse("inf") == Some(PosInf)
    requires GamesFrom(src, day, before).Returned?
    ensures var div := GameDiv([], [TeamRow(Some("Duke"), ["inf"]), homeRow], links);
      GamesFrom(src, day, before + [div]) == Raised("OverflowError")
    ensures ParseInt(src.parse, Some("inf")) == None
  {
    var div := GameDiv([], [TeamRow(Some("Duke"), ["inf"]), homeRow], links);
    InfiniteAwayScoreRaises(src, day, homeRow, links);
    RunDayAppend(DivStep(src, day), before, [div]);
    RunDayOne(DivStep(src, day), div);
  }

  /** The summary row of `InfiniteScoreAbortsDay` on its own raises `OverflowError`. */
  lemma InfiniteAwayScoreRaises(src: Sources, day: int, homeRow: TeamRow, links: seq<Link>)
    requires src.parse("inf") == Some(PosInf)
    ensures GameFromDiv(src, day, GameDiv([], [TeamRow(Some("Duke"), ["inf"]), homeRow], links)) == Raised("OverflowError")
  {
    InfiniteRowRaises(src.parse, src.normalize, TeamRow(Some("Duke"), ["inf"]));
  }

  /** A team row whose only score cell reads "inf" raises `OverflowError`. */
  lemma InfiniteRowRaises(parse: FloatParser, normalize: TeamNormalizer, row: TeamRow)
    requires parse("inf") == Some(PosInf)
    requires row.link.Some? && row.cells == ["inf"]
    ensures TeamRowOutcome(parse, normalize, row) == Raised("OverflowError")
  {
    assert !IsSpace('i') && !IsSpace('f');
    StripUnspaced("inf");
    var texts := ScoreTexts(row.cells);
    assert texts == ["inf"];
    assert Settles(parse, texts[0]);
    assert LastSettling(parse, texts) == Some(0);
  }

  /** The part of one iteration after the boxscore link is found. */
  method ParseLinkedGame(src: Sources, day: int, isGenderF: bool, away: ParsedTeam, home: ParsedTeam, href: string)
    returns (game: Raising<Option<NormalizedGame>>)
    ensures game == GameFromLink(src, day, isGenderF, away, home, href)
  {
    var key := SourceGameKey(href);
    var (isWomens, _) := IsProbableWomensGame(href, key, home.identity.name, away.identity.name, isGenderF);
    if isWomens {
      return Returned(None);
    }
    var page := src.boxscorePage(href);
    if page.Raised? {
      return Raised(page.exception);
    }
    var awayStats := ExtractTeamStats(src.parse, page.value, away.identity.name, false);
    if awayStats.Raised? {
      return Raised(awayStats.exception);
    }
    var homeStats := ExtractTeamStats(src.parse, page.value, home.identity.name, true);
    if homeStats.Raised? {
      return Raised(homeStats.exception);
    }
    var built := AssembleGame(src, day, away, home, key, awayStats.value, homeStats.value);
    if built.Raised? {
      return Raised(built.exception);
    }
    game := Returned(Some(built.value));
  }

  /** One iteration of `fetch_games_for_date`'s loop. */
  method ParseGameDiv(src: Sources, day: int, div: GameDiv) returns (game: Raising<Option<NormalizedGame>>)
    ensures game == GameFromDiv(src, day, div)
  {
    if |div.teamRows| < 2 {
      return Returned(None);
    }
    var away := ParseTeamRow(src.parse, src.normalize, div.teamRows[0]);
    if away.Raised? {
      return Raised(away.exception);
    }
    if away.value.Failure? {
      return Returned(None);
    }
    var home := ParseTeamRow(src.parse, src.normalize, div.teamRows[1]);
    if home.Raised? {
      return Raised(home.exception);
    }
    if home.value.Failure? {
      return Returned(None);
    }
    var href := BoxscoreHref(div.links);
    if href.None? {
      return Returned(None);
    }
    game := ParseLinkedGame(src, day, "gender-f" in div.classes, away.value.value, home.value.value, href.value);
  }

  /**
   * `fetch_games_for_date` over the scoreboard's summaries: the games in order and the number
   * skipped, or the exception that ends the day.
   */
  method FetchGamesForDate(src: Sources, day: int, divs: seq<GameDiv>) returns (result: Raising<seq<NormalizedGame>>, skippedCount: nat)
    ensures result == GamesFrom(src, day, divs)
    ensures result.Returned? ==> skippedCount + |result.value| == |divs|
  {
    result, skippedCount := RunDayLoop(DivStep(src, day), divs);
  }
}
