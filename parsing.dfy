/**
 * Value parsing and row-level stat extraction shared by the scrapers.
 *
 * Python's `float(str)` is a parameter (`FloatParser`); its results are Python floats, finite
 * (held exactly as reals), infinite or NaN, and the arithmetic on them follows IEEE 754 on the
 * special values.
 */
module Parsing {
  import opened Wrappers
  import opened Text
  import opened Html

  datatype PyFloat = Finite(value: real) | PosInf | NegInf | NaN

  /** `float(s)` on a string: `None` where it raises `ValueError`. */
  type FloatParser = string -> Option<PyFloat>

  /** A Python call that returns a value or raises an exception the caller does not catch. */
  datatype Raising<T> = Returned(value: T) | Raised(exception: string)

  /** `int(x)` on a finite float: truncation toward zero. */
  function Trunc(x: real): (n: int)
    ensures x >= 0.0 ==> 0 <= n && n as real <= x < n as real + 1.0
    ensures x < 0.0 ==> n <= 0 && n as real - 1.0 < x <= n as real
  {
    if x >= 0.0 then x.Floor else -((-x).Floor)
  }

  /** `value in (None, "", "-")`. */
  predicate IsSentinel(value: Option<string>) {
    value.None? || value == Some("") || value == Some("-")
  }

  /**
   * `parse_int` as written: `int(float(value))` turns NaN into `ValueError`, which is caught,
   * but an infinity into `OverflowError`, which is not.
   */
  function ParseIntAsWritten(parse: FloatParser, value: Option<string>): (r: Raising<Option<int>>)
    ensures r.Raised? <==> !IsSentinel(value) && parse(value.value) in {Some(PosInf), Some(NegInf)}
  {
    if IsSentinel(value) then Returned(None)
    else match parse(value.value)
      case None => Returned(None)
      case Some(Finite(x)) => Returned(Some(Trunc(x)))
      case Some(NaN) => Returned(None)
      case Some(_) => Raised("OverflowError")
  }

  /** `parse_int` as its contract says: the truncated value of a finite float, `None` for anything else. */
  function ParseInt(parse: FloatParser, value: Option<string>): (r: Option<int>)
    ensures IsSentinel(value) ==> r == None
    ensures r.Some? <==> !IsSentinel(value) && parse(value.value).Some? && parse(value.value).value.Finite?
    ensures r.Some? ==> var x := parse(value.value).value.value;
      (x >= 0.0 ==> 0 <= r.value && r.value as real <= x < r.value as real + 1.0)
      && (x < 0.0 ==> r.value <= 0 && r.value as real - 1.0 < x <= r.value as real)
  {
    if IsSentinel(value) then None
    else match parse(value.value)
      case Some(Finite(x)) => Some(Trunc(x))
      case _ => None
  }

  /** The two agree on every input whose float is not infinite. */
  lemma ParseIntAgreesUnlessInfinite(parse: FloatParser, value: Option<string>)
    requires IsSentinel(value) || parse(value.value) !in {Some(PosInf), Some(NegInf)}
    ensures ParseIntAsWritten(parse, value) == Returned(ParseInt(parse, value))
  {
  }

  /** `float` never reads a text as infinite. */
  ghost predicate NeverInfinite(parse: FloatParser) {
    forall s :: parse(s) != Some(PosInf) && parse(s) != Some(NegInf)
  }

  /** Without infinite inputs, `parse_int` never raises. */
  lemma ParseIntSettlesWithoutInfinity(parse: FloatParser, value: Option<string>)
    requires NeverInfinite(parse)
    ensures ParseIntAsWritten(parse, value).Returned?
  {
    if !IsSentinel(value) {
      assert parse(value.value) != Some(PosInf);
    }
  }

  /** `parse_int("inf")` raises instead of returning `None`, as `float("inf")` is infinite. */
  lemma InfinityRaises(parse: FloatParser)
    requires parse("inf") == Some(PosInf)
    ensures ParseIntAsWritten(parse, Some("inf")) == Raised("OverflowError")
    ensures ParseInt(parse, Some("inf")) == None
  {
  }

  function Add(a: PyFloat, b: PyFloat): PyFloat {
    match (a, b)
    case (Finite(x), Finite(y)) => Finite(x + y)
    case (NaN, _) => NaN
    case (_, NaN) => NaN
    case (PosInf, NegInf) => NaN
    case (NegInf, PosInf) => NaN
    case (PosInf, _) => PosInf
    case (_, PosInf) => PosInf
    case (NegInf, _) => NegInf
    case (_, NegInf) => NegInf
  }

  /** Multiplication by a positive constant. */
  function Times(a: PyFloat, k: real): PyFloat
    requires k > 0.0
  {
    match a
    case Finite(x) => Finite(x * k)
    case _ => a
  }

  /** Minutes and seconds as decimal minutes: `m + s / 60`. */
  function ClockMinutes(m: PyFloat, s: PyFloat): PyFloat {
    Add(m, Times(s, 1.0 / 60.0))
  }

  /** `float(a) + float(b) / 60`, `None` if either conversion raises. */
  function ParseClock(parse: FloatParser, a: string, b: string): Option<PyFloat> {
    match (parse(a), parse(b))
    case (Some(m), Some(s)) => Some(ClockMinutes(m, s))
    case _ => None
  }

  /** `parse_float`: sentinels give `None`; "MM:SS" gives decimal minutes; anything else `float(value)`. */
  function ParseFloat(parse: FloatParser, value: Option<string>): (r: Option<PyFloat>)
    ensures IsSentinel(value) ==> r == None
    ensures !IsSentinel(value) && ':' !in value.value ==> r == parse(value.value)
    ensures !IsSentinel(value) && |Split(value.value, ':')| == 2 ==>
      r == ParseClock(parse, Split(value.value, ':')[0], Split(value.value, ':')[1])
    ensures !IsSentinel(value) && |Split(value.value, ':')| != 2 ==> r == parse(value.value)
  {
    if IsSentinel(value) then None
    else
      var parts := Split(value.value, ':');
      if ':' in value.value && |parts| == 2 then ParseClock(parse, parts[0], parts[1])
      else parse(value.value)
  }

  /** Hours, minutes and seconds as decimal minutes: `h * 60 + m + s / 60`. */
  function HmsMinutes(h: PyFloat, m: PyFloat, s: PyFloat): PyFloat {
    Add(Add(Times(h, 60.0), m), Times(s, 1.0 / 60.0))
  }

  /**
   * `parse_time_to_minutes`: "MM:SS" to `m + s / 60`, "HH:MM:SS" to `h * 60 + m + s / 60`
   * (`None` if a part does not convert), any other text `float(value)`.
   */
  function ParseTimeToMinutes(parse: FloatParser, value: Option<string>): (r: Option<PyFloat>)
    ensures IsSentinel(value) ==> r == None
    ensures !IsSentinel(value) && |Split(value.value, ':')| == 2 ==>
      r == ParseClock(parse, Split(value.value, ':')[0], Split(value.value, ':')[1])
    ensures !IsSentinel(value) && |Split(value.value, ':')| == 3 ==>
      var parts := Split(value.value, ':');
      (r.Some? <==> parse(parts[0]).Some? && parse(parts[1]).Some? && parse(parts[2]).Some?)
      && (r.Some? ==> r.value == HmsMinutes(parse(parts[0]).value, parse(parts[1]).value, parse(parts[2]).value))
    ensures !IsSentinel(value) && |Split(value.value, ':')| !in {2, 3} ==> r == parse(value.value)
  {
    if IsSentinel(value) then None
    else
      var parts := Split(value.value, ':');
      if |parts| == 2 then ParseClock(parse, parts[0], parts[1])
      else if |parts| == 3 then
        match (parse(parts[0]), parse(parts[1]), parse(parts[2]))
        case (Some(h), Some(m), Some(s)) => Some(HmsMinutes(h, m, s))
        case _ => None
      else parse(value.value)
  }

  /** A finite float or NaN. */
  predicate NotInfinite(f: PyFloat) {
    f != PosInf && f != NegInf
  }

  /** Without infinite inputs, `parse_float` never returns an infinity, the clock sum included. */
  lemma ParseFloatFiniteWithoutInfinity(parse: FloatParser, value: Option<string>)
    requires NeverInfinite(parse)
    ensures ParseFloat(parse, value).Some? ==> NotInfinite(ParseFloat(parse, value).value)
  {
    if !IsSentinel(value) {
      var parts := Split(value.value, ':');
      if ':' in value.value && |parts| == 2 {
        assert parse(parts[0]) != Some(PosInf) && parse(parts[0]) != Some(NegInf);
        assert parse(parts[1]) != Some(PosInf) && parse(parts[1]) != Some(NegInf);
      } else {
        assert parse(value.value) != Some(PosInf) && parse(value.value) != Some(NegInf);
      }
    }
  }

  /** A text without ':' is one part. */
  lemma {:induction false} SplitWithoutSeparator(s: string, sep: char)
    requires sep !in s
    ensures Split(s, sep) == [s]
    decreases |s|
  {
    if s != [] {
      SplitWithoutSeparator(s[1..], sep);
    }
  }

  /** The two parsers of durations agree except on "HH:MM:SS", which only `parse_time_to_minutes` reads. */
  lemma ParseFloatAgreesWithTime(parse: FloatParser, value: Option<string>)
    requires IsSentinel(value) || |Split(value.value, ':')| != 3
    ensures ParseFloat(parse, value) == ParseTimeToMinutes(parse, value)
  {
    if !IsSentinel(value) && ':' !in value.value {
      SplitWithoutSeparator(value.value, ':');
    }
  }

  /** "32:45" reads as 32.75 minutes. */
  lemma ClockExample(parse: FloatParser)
    requires parse("32") == Some(Finite(32.0)) && parse("45") == Some(Finite(45.0))
    ensures ParseFloat(parse, Some("32:45")) == Some(Finite(32.75))
    ensures ParseTimeToMinutes(parse, Some("32:45")) == Some(Finite(32.75))
  {
    assert Split("32:45", ':') == ["32", "45"] by {
      var s := "32:45";
      assert s[2] == ':' && s[0] != ':' && s[1] != ':';
      assert IndexOf(s, ':') == 2;
      assert s[..2] == "32" && s[3..] == "45";
      SplitWithoutSeparator("45", ':');
    }
  }

  /** A text without the separator, then the separator, is the first part; the rest splits on its own. */
  lemma SplitAfterFirst(a: string, t: string, sep: char)
    requires sep !in a
    ensures Split(a + [sep] + t, sep) == [a] + Split(t, sep)
  {
    var s := a + [sep] + t;
    assert s[..|a|] == a && s[|a|] == sep;
    assert IndexOf(s, sep) == |a|;
    assert s[|a| + 1..] == t;
  }

  /** Three texts without the separator, joined by it, split back into those three. */
  lemma SplitThree(a: string, b: string, c: string, sep: char)
    requires sep !in a && sep !in b && sep !in c
    ensures Split(a + [sep] + (b + [sep] + c), sep) == [a, b, c]
  {
    SplitAfterFirst(a, b + [sep] + c, sep);
    SplitAfterFirst(b, c, sep);
    SplitWithoutSeparator(c, sep);
  }

  /** "1:02:30" splits into three parts. */
  lemma SplitHmsExample()
    ensures Split("1:02:30", ':') == ["1", "02", "30"]
  {
    SplitThree("1", "02", "30", ':');
    assert "1" + [':'] + ("02" + [':'] + "30") == "1:02:30";
  }

  /** "1:02:30" reads as 62.5 minutes; `parse_float` cannot read it. */
  lemma HmsExample(parse: FloatParser)
    requires parse("1") == Some(Finite(1.0)) && parse("02") == Some(Finite(2.0)) && parse("30") == Some(Finite(30.0))
    requires parse("1:02:30") == None
    ensures ParseTimeToMinutes(parse, Some("1:02:30")) == Some(Finite(62.5))
    ensures ParseFloat(parse, Some("1:02:30")) == None
  {
    SplitHmsExample();
    assert HmsMinutes(Finite(1.0), Finite(2.0), Finite(30.0)) == Finite(62.5);
  }

  // ---------------------------------------------------------------------------------------
  // Rows

  /** `get_stat_from_row`: the stripped text of the first `td` with that `data-stat`, `None` if empty or absent. */
  function GetStatFromRow(cells: seq<Cell>, statName: string): (r: Option<string>)
    ensures r.Some? ==> r.value != "" && exists i :: 0 <= i < |cells| && CarriesAt(cells, statName, i) && r.value == Strip(cells[i].text)
    ensures (forall i :: 0 <= i < |cells| ==> !(cells[i].kind == Td && cells[i].dataStat == Some(statName))) ==> r == None
  {
    if cells == [] then None
    else if cells[0].kind == Td && cells[0].dataStat == Some(statName) then
      assert CarriesAt(cells, statName, 0);
      var text := Strip(cells[0].text);
      if text != "" then Some(text) else None
    else
      var r := GetStatFromRow(cells[1..], statName);
      assert r.Some? ==> exists i :: 0 <= i < |cells| && CarriesAt(cells, statName, i) && r.value == Strip(cells[i].text) by {
        if r.Some? {
          var i :| 0 <= i < |cells[1..]| && CarriesAt(cells[1..], statName, i) && r.value == Strip(cells[1..][i].text);
          assert CarriesAt(cells, statName, i + 1);
        }
      }
      r
  }

  /** The `i`-th cell is a `td` whose `data-stat` is `statName` (what `row.find("td", {"data-stat": ...})` looks for). */
  predicate CarriesAt(cells: seq<Cell>, statName: string, i: int) {
    0 <= i < |cells| && cells[i].kind == Td && cells[i].dataStat == Some(statName)
  }

  /** The stats of a row: every `td` with a non-empty `data-stat`, stripped; a later cell overwrites an earlier one. */
  function StatsOf(cells: seq<Cell>): (m: map<string, string>)
    ensures forall k :: k in m ==> k != ""
    decreases |cells|
  {
    if cells == [] then map[]
    else
      var m := StatsOf(cells[..|cells| - 1]);
      var c := cells[|cells| - 1];
      if IsStatCell(c) then m[c.dataStat.value := Strip(c.text)] else m
  }

  predicate Carries(c: Cell, k: string) {
    IsStatCell(c) && c.dataStat.value == k
  }

  /** The `i`-th cell is the last one that carries the stat `k`. */
  predicate LastCarrier(cells: seq<Cell>, k: string, i: int) {
    0 <= i < |cells| && Carries(cells[i], k) && forall j :: i < j < |cells| ==> !Carries(cells[j], k)
  }

  /** A stat is present exactly when some cell carries it. */
  lemma {:induction false} StatsOfKeys(cells: seq<Cell>, k: string)
    ensures k in StatsOf(cells) <==> exists i :: 0 <= i < |cells| && Carries(cells[i], k)
    decreases |cells|
  {
    if cells != [] {
      var init := cells[..|cells| - 1];
      StatsOfKeys(init, k);
      if exists i :: 0 <= i < |cells| && Carries(cells[i], k) {
        var i :| 0 <= i < |cells| && Carries(cells[i], k);
        if i < |cells| - 1 {
          assert init[i] == cells[i];
        }
      }
      if exists i :: 0 <= i < |init| && Carries(init[i], k) {
        var i :| 0 <= i < |init| && Carries(init[i], k);
        assert cells[i] == init[i];
      }
    }
  }

  /** A stat holds the stripped text of the last cell that carries it. */
  lemma {:induction false} StatsOfLastWins(cells: seq<Cell>, k: string)
    requires k in StatsOf(cells)
    ensures exists i :: LastCarrier(cells, k, i) && StatsOf(cells)[k] == Strip(cells[i].text)
    decreases |cells|
  {
    var init := cells[..|cells| - 1];
    var c := cells[|cells| - 1];
    if Carries(c, k) {
      assert LastCarrier(cells, k, |cells| - 1);
    } else {
      StatsOfLastWins(init, k);
      var i :| LastCarrier(init, k, i) && StatsOf(init)[k] == Strip(init[i].text);
      assert cells[i] == init[i];
      forall j | i < j < |cells| ensures !Carries(cells[j], k) {
        if j < |cells| - 1 {
          assert cells[j] == init[j];
        }
      }
      assert LastCarrier(cells, k, i);
    }
  }

  /**
   * `get_stat_from_row` reads the first cell and the row's stats the last, so they agree on a
   * stat that only one cell carries.
   */
  lemma GetStatAgreesWithStats(cells: seq<Cell>, statName: string, i: nat)
    requires statName != ""
    requires i < |cells| && cells[i].kind == Td && cells[i].dataStat == Some(statName)
    requires forall j :: 0 <= j < |cells| && j != i ==> !(cells[j].kind == Td && cells[j].dataStat == Some(statName))
    ensures statName in StatsOf(cells) && StatsOf(cells)[statName] == Strip(cells[i].text)
    ensures GetStatFromRow(cells, statName) == if Strip(cells[i].text) == "" then None else Some(Strip(cells[i].text))
  {
    assert Carries(cells[i], statName);
    StatsOfKeys(cells, statName);
    StatsOfLastWins(cells, statName);
    GetStatFirst(cells, statName, i);
  }

  lemma {:induction false} GetStatFirst(cells: seq<Cell>, statName: string, i: nat)
    requires i < |cells| && cells[i].kind == Td && cells[i].dataStat == Some(statName)
    requires forall j :: 0 <= j < i ==> !(cells[j].kind == Td && cells[j].dataStat == Some(statName))
    ensures GetStatFromRow(cells, statName) == if Strip(cells[i].text) == "" then None else Some(Strip(cells[i].text))
    decreases i
  {
    if i > 0 {
      GetStatFirst(cells[1..], statName, i - 1);
    }
  }

  /** `extract_all_stats_from_row`. */
  method ExtractAllStatsFromRow(cells: seq<Cell>) returns (rawStats: map<string, string>)
    ensures rawStats == StatsOf(cells)
  {
    rawStats := map[];
    var i := 0;
    while i < |cells|
      invariant 0 <= i <= |cells|
      invariant rawStats == StatsOf(cells[..i])
    {
      assert cells[..i + 1][..i] == cells[..i];
      var cell := cells[i];
      if cell.kind == Td && cell.dataStat.Some? && cell.dataStat.value != "" {
        rawStats := rawStats[cell.dataStat.value := Strip(cell.text)];
      }
      i := i + 1;
    }
    assert cells[..|cells|] == cells;
  }
}
