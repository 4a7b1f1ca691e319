/**
 * The reveal classifier's decision procedure, shared by the three copies of the filter
 * (scraper reveal filter, API reveal filter, scraper spoiler filter). Each copy supplies
 * its own `PatternTable`; the regex engine's `search` is left abstract.
 *
 * Order of decision:
 *   outcome check: score patterns, then final keywords, then recap patterns (first hit wins);
 *   classification: no text => risk; outcome => risk; score emoji => risk;
 *                   safe pattern => safe; anything else => risk.
 */
module RevealPolicy {
  import opened Wrappers

  /** A compiled regular expression: its source text (`pattern.pattern`) and whether `re.I` was given. */
  datatype Regex = Regex(source: string, ignoreCase: bool)

  /** `regex.search(text) is not None`, left to the regex engine. */
  type Search = (Regex, string) -> bool

  /**
   * The module-level pattern lists of one copy of the filter. The score-emoji pattern is a
   * single character class, so it is held as the set of characters it accepts.
   */
  datatype PatternTable = PatternTable(
    score: seq<Regex>,
    finalKeywords: seq<Regex>,
    recap: seq<Regex>,
    safe: seq<Regex>,
    emojiClass: set<char>,
    emojiSource: string)

  /** `RevealCheckResult` (`SpoilerCheckResult` in the spoiler copy, whose flag is `is_spoiler`). */
  datatype CheckResult = CheckResult(revealsOutcome: bool, reason: Option<string>, matchedPattern: Option<string>)

  /** `RevealClassification` (`SpoilerClassification`, flag `spoiler_risk`, in the spoiler copy). */
  datatype Classification = Classification(revealRisk: bool, reason: Option<string>, matchedPattern: Option<string>)

  predicate AnyMatch(patterns: seq<Regex>, search: Search, text: string) {
    exists j :: 0 <= j < |patterns| && search(patterns[j], text)
  }

  /** The index of the first pattern, in list order, that `search` finds in `text`. */
  function FirstMatch(patterns: seq<Regex>, search: Search, text: string): (r: Option<nat>)
    ensures r.None? <==> !AnyMatch(patterns, search, text)
    ensures r.Some? ==> r.value < |patterns| && search(patterns[r.value], text)
    ensures r.Some? ==> forall j :: 0 <= j < r.value ==> !search(patterns[j], text)
  {
    if patterns == [] then None
    else if search(patterns[0], text) then Some(0)
    else match FirstMatch(patterns[1..], search, text)
      case None => None
      case Some(k) => Some(k + 1)
  }

  /** The source of the first matching pattern of a group that has a match. */
  function FirstSource(patterns: seq<Regex>, search: Search, text: string): string
    requires AnyMatch(patterns, search, text)
  {
    patterns[FirstMatch(patterns, search, text).value].source
  }

  /** Non-empty text on which some score, final-keyword or recap pattern matches. */
  predicate RevealsOutcome(t: PatternTable, search: Search, text: string) {
    text != "" && (AnyMatch(t.score, search, text) || AnyMatch(t.finalKeywords, search, text)
                   || AnyMatch(t.recap, search, text))
  }

  /** `SCORE_EMOJI_PATTERN.search(text)`: some character of the text is in the class. */
  predicate HasScoreEmoji(t: PatternTable, text: string) {
    exists i :: 0 <= i < |text| && text[i] in t.emojiClass
  }

  /** The one path to a safe classification: text, no outcome, no emoji, some safe pattern. */
  predicate SafeBranch(t: PatternTable, search: Search, text: Option<string>) {
    && text.Some? && text.value != ""
    && !RevealsOutcome(t, search, text.value)
    && !HasScoreEmoji(t, text.value)
    && AnyMatch(t.safe, search, text.value)
  }

  /** `check_for_reveals`: score patterns, then final keywords, then recap; first match wins. */
  function Check(t: PatternTable, search: Search, text: string): (r: CheckResult)
    ensures text == "" ==> r == CheckResult(false, None, None)
    ensures r.revealsOutcome <==> RevealsOutcome(t, search, text)
    ensures !r.revealsOutcome ==> r.reason == None && r.matchedPattern == None
    ensures text != "" && AnyMatch(t.score, search, text) ==>
      r.reason == Some("score") && r.matchedPattern == Some(FirstSource(t.score, search, text))
    ensures text != "" && !AnyMatch(t.score, search, text) && AnyMatch(t.finalKeywords, search, text) ==>
      r.reason == Some("final_keyword") && r.matchedPattern == Some(FirstSource(t.finalKeywords, search, text))
    ensures text != "" && !AnyMatch(t.score, search, text) && !AnyMatch(t.finalKeywords, search, text)
            && AnyMatch(t.recap, search, text) ==>
      r.reason == Some("recap") && r.matchedPattern == Some(FirstSource(t.recap, search, text))
  {
    if text == "" then CheckResult(false, None, None)
    else match FirstMatch(t.score, search, text)
      case Some(k) => CheckResult(true, Some("score"), Some(t.score[k].source))
      case None =>
        match FirstMatch(t.finalKeywords, search, text)
        case Some(k) => CheckResult(true, Some("final_keyword"), Some(t.finalKeywords[k].source))
        case None =>
          match FirstMatch(t.recap, search, text)
          case Some(k) => CheckResult(true, Some("recap"), Some(t.recap[k].source))
          case None => CheckResult(false, None, None)
  }

  /** `classify_reveal_risk`: conservative, reveal risk unless the safe branch is reached. */
  function Classify(t: PatternTable, search: Search, text: Option<string>): (r: Classification)
    ensures text.None? || text.value == "" ==> r == Classification(true, Some("default_no_text"), None)
    ensures text.Some? && RevealsOutcome(t, search, text.value) ==>
      r.revealRisk && r.reason == Check(t, search, text.value).reason
      && r.matchedPattern == Check(t, search, text.value).matchedPattern
    ensures text.Some? && text.value != "" && !RevealsOutcome(t, search, text.value) && HasScoreEmoji(t, text.value) ==>
      r == Classification(true, Some("score_emoji"), Some(t.emojiSource))
    ensures !r.revealRisk <==> SafeBranch(t, search, text)
    ensures !r.revealRisk ==>
      r.reason == Some("safe_pattern") && r.matchedPattern == Some(FirstSource(t.safe, search, text.value))
    ensures text.Some? && text.value != "" && !RevealsOutcome(t, search, text.value)
            && !HasScoreEmoji(t, text.value) && !AnyMatch(t.safe, search, text.value) ==>
      r == Classification(true, Some("default_conservative"), None)
  {
    if text.None? || text.value == "" then Classification(true, Some("default_no_text"), None)
    else
      var outcome := Check(t, search, text.value);
      if outcome.revealsOutcome then Classification(true, outcome.reason, outcome.matchedPattern)
      else if HasScoreEmoji(t, text.value) then Classification(true, Some("score_emoji"), Some(t.emojiSource))
      else match FirstMatch(t.safe, search, text.value)
        case Some(k) => Classification(false, Some("safe_pattern"), Some(t.safe[k].source))
        case None => Classification(true, Some("default_conservative"), None)
  }

  /** `contains_reveal`: the outcome flag alone; emoji and safe patterns play no part. */
  function ContainsOutcome(t: PatternTable, search: Search, text: string): (b: bool)
    ensures b <==> RevealsOutcome(t, search, text)
    ensures b <==> text != "" && exists p :: p in t.score + t.finalKeywords + t.recap && search(p, text)
  {
    var b := Check(t, search, text).revealsOutcome;
    assert (text != "" && exists p :: p in t.score + t.finalKeywords + t.recap && search(p, text)) ==> b by {
      if text != "" && exists p :: p in t.score + t.finalKeywords + t.recap && search(p, text) {
        var p :| p in t.score + t.finalKeywords + t.recap && search(p, text);
        if p in t.score {
          var j :| 0 <= j < |t.score| && t.score[j] == p;
        } else if p in t.finalKeywords {
          var j :| 0 <= j < |t.finalKeywords| && t.finalKeywords[j] == p;
        } else {
          var j :| 0 <= j < |t.recap| && t.recap[j] == p;
        }
      }
    }
    b
  }

  /**
   * Conservativeness: a classification is never safer than the outcome check says, and
   * two tables that differ only in their safe lists agree on every risky verdict driven
   * by an outcome or an emoji.
   */
  lemma OutcomeNeverDowngraded(t: PatternTable, search: Search, text: string)
    requires RevealsOutcome(t, search, text)
    ensures Classify(t, search, Some(text)).revealRisk
    ensures forall safe :: Classify(t.(safe := safe), search, Some(text)) == Classify(t, search, Some(text))
  {
    forall safe ensures Classify(t.(safe := safe), search, Some(text)) == Classify(t, search, Some(text)) {
      assert RevealsOutcome(t.(safe := safe), search, text);
    }
  }
}
