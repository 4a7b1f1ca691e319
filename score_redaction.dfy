/**
 * Detecting and redacting score-like text (`1-0`, `21 to 14`). The two score patterns are
 * held by their source text; the regex engine's `search` and `sub` are parameters. The
 * whitespace pass (`re.sub(r"\s+", " ", s).strip()`) is modelled in full.
 */
module ScoreRedaction {
  import opened Wrappers
  import opened Text
  import opened RevealPolicy

  /** `_SCORE_PATTERNS`, in the order they are applied. */
  const ScorePatterns: seq<Regex> := [
    Regex(@"\b\d{1,3}\s*[-" + "\U{2013}\U{2014}" + @":]\s*\d{1,3}\b", false),
    Regex(@"\b\d{1,3}\s*(?:to|at)\s*\d{1,3}\b", true)
  ]

  /** `pattern.sub(mask, text)`, left to the regex engine. */
  type Substitute = (Regex, string, string) -> string

  /** `contains_explicit_score`: false without text, otherwise whether some score pattern is found. */
  function ContainsExplicitScore(search: Search, text: Option<string>): (r: bool)
    ensures text.None? || text == Some("") ==> !r
    ensures text.Some? && text.value != "" ==> (r <==> exists j :: 0 <= j < |ScorePatterns| && search(ScorePatterns[j], text.value))
  {
    if text.None? || text.value == "" then false
    else AnyMatch(ScorePatterns, search, text.value)
  }

  /** `re.sub(r"\s+", " ", s)`: every maximal whitespace run becomes one space. */
  function CollapseWhitespace(s: string): string {
    SubRuns(s, IsSpace, ' ')
  }

  /** Whitespace as `redact_scores` leaves it: single spaces between words, none at either end. */
  predicate Normalized(s: string) {
    && (s == [] || (!IsSpace(s[0]) && !IsSpace(s[|s| - 1])))
    && RunsFilled(s, IsSpace, ' ')
  }

  /** Stripping text whose whitespace is single spaces leaves it normalized, with the same words. */
  lemma StripNormalizes(c: string)
    requires RunsFilled(c, IsSpace, ' ')
    ensures Normalized(Strip(c)) && Kept(Strip(c), IsSpace) == Kept(c, IsSpace)
  {
    StripSlice(c);
    var k := |c| - |TrimLeft(c)|;
    var r := Strip(c);
    RunsFilledSlice(c, IsSpace, ' ', k, k + |r|);
    KeptSlice(c, IsSpace, k, k + |r|);
  }

  /**
   * `re.sub(r"\s+", " ", s).strip()`: the non-whitespace characters of `s`, in order, with single
   * spaces between words and none at either end.
   */
  function NormalizeWhitespace(s: string): (r: string)
    ensures Normalized(r)
    ensures Kept(r, IsSpace) == Kept(s, IsSpace)
  {
    var collapsed := CollapseWhitespace(s);
    SubRunsForm(s, IsSpace, ' ');
    SubRunsKept(s, IsSpace, ' ');
    StripNormalizes(collapsed);
    Strip(collapsed)
  }

  /** Normalizing twice is normalizing once. */
  lemma NormalizeIdempotent(s: string)
    ensures NormalizeWhitespace(NormalizeWhitespace(s)) == NormalizeWhitespace(s)
  {
    var once := NormalizeWhitespace(s);
    SubRunsNormal(once, IsSpace, ' ');
    assert TrimLeft(once) == once;
    assert TrimRight(once) == once;
  }

  /** Each pattern of `patterns` substituted in turn, the first one first. */
  function SubstituteAll(sub: Substitute, patterns: seq<Regex>, text: string, mask: string): (r: string)
    ensures patterns == [] ==> r == text
    ensures patterns != [] ==> r == sub(patterns[|patterns| - 1], SubstituteAll(sub, patterns[..|patterns| - 1], text, mask), mask)
  {
    if patterns == [] then text
    else sub(patterns[|patterns| - 1], SubstituteAll(sub, patterns[..|patterns| - 1], text, mask), mask)
  }

  /** What `redact_scores` returns: empty text as it is, otherwise the substituted text with its whitespace normalized. */
  function Redacted(sub: Substitute, text: string, mask: string): (r: string)
    ensures text == "" ==> r == ""
    ensures text != "" ==> Normalized(r)
  {
    if text == "" then text
    else NormalizeWhitespace(SubstituteAll(sub, ScorePatterns, text, mask))
  }

  /** `redact_scores`: each score pattern replaced by the mask, in order, then the whitespace normalized. */
  method RedactScores(sub: Substitute, text: string, mask: string) returns (cleaned: string)
    ensures cleaned == Redacted(sub, text, mask)
    ensures text != "" ==> cleaned == NormalizeWhitespace(sub(ScorePatterns[1], sub(ScorePatterns[0], text, mask), mask))
    ensures text != "" ==> Normalized(cleaned)
  {
    if text == "" {
      return text;
    }
    cleaned := text;
    for i := 0 to |ScorePatterns|
      invariant cleaned == SubstituteAll(sub, ScorePatterns[..i], text, mask)
    {
      assert ScorePatterns[..i + 1][..i] == ScorePatterns[..i];
      cleaned := sub(ScorePatterns[i], cleaned, mask);
    }
    assert ScorePatterns[..|ScorePatterns|] == ScorePatterns;
    assert ScorePatterns[..1] == [ScorePatterns[0]] && ScorePatterns[..0] == [];
    cleaned := NormalizeWhitespace(cleaned);
  }

  /** Redacting a text with nothing to replace only normalizes its whitespace, and a second pass changes nothing. */
  lemma RedactWithoutScores(sub: Substitute, text: string, mask: string)
    requires forall p :: p in ScorePatterns ==> forall t :: sub(p, t, mask) == t
    ensures Redacted(sub, text, mask) == (if text == "" then "" else NormalizeWhitespace(text))
    ensures Redacted(sub, Redacted(sub, text, mask), mask) == Redacted(sub, text, mask)
  {
    assert ScorePatterns[0] in ScorePatterns && ScorePatterns[1] in ScorePatterns;
    assert ScorePatterns[..1] == [ScorePatterns[0]] && ScorePatterns[..0] == [];
    if text != "" {
      NormalizeIdempotent(text);
    }
  }
}
