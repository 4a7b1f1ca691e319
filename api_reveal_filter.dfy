/**
 * The API's copy of the reveal filter. Its dash and emoji character classes are the UTF-8 bytes
 * of the intended characters read back as Windows-1252 text, so the en dash, the em dash and the
 * four emoji are not in them; the lists of keywords are the same as in the scraper copy.
 */
module ApiRevealFilter {
  import opened Wrappers
  import opened RevealPolicy
  import ScraperRevealFilter

  /** The dash class as written: 'â', '€', '“', 'â', '€', '”' (the bytes of an en dash and an em dash). */
  const Dashes: string := "\U{00E2}\U{20AC}\U{201C}\U{00E2}\U{20AC}\U{201D}"

  const ScorePatterns: seq<Regex> := [
    Regex(@"\b\d{2,3}\s*[-" + Dashes + @"]\s*\d{2,3}\b", false),
    Regex(@"\b[WL]\s*\d{2,3}\s*[-" + Dashes + @"]\s*\d{2,3}\b", true),
    Regex(@"final\s*:?\s*\d{2,3}\s*[-" + Dashes + @"]\s*\d{2,3}", true)
  ]

  const FinalKeywords: seq<Regex> := [
    Regex(@"\bfinal\b", true),
    Regex(@"\bfinal score\b", true),
    Regex(@"\bend of (game|regulation)\b", true),
    Regex(@"\bgame over\b", true),
    Regex(@"\bwe win\b", true),
    Regex(@"\bwe lose\b", true),
    Regex(@"\bvictory\b", true),
    Regex(@"\bdefeat\b", true),
    Regex(@"\bwin streak\b", true),
    Regex(@"\blose streak\b", true)
  ]

  const RecapPatterns: seq<Regex> := [
    Regex(@"\brecap\b", true),
    Regex(@"\bgame recap\b", true),
    Regex(@"\bpost-?game\b", true),
    Regex(@"\bfull (game )?highlights\b", true),
    Regex(@"\bgame summary\b", true)
  ]

  const SafePatterns: seq<Regex> := [
    Regex(@"\blineup\b", true),
    Regex(@"\bstarting (five|lineup)\b", true),
    Regex(@"\binjury update\b", true),
    Regex(@"\bstatus update\b", true),
    Regex(@"\bwe'?re underway\b", true),
    Regex(@"\bgame time\b", true),
    Regex(@"\btip-?off\b", true),
    Regex(@"\bwarm-?ups\b", true)
  ]

  /** The emoji class as written: 'ð', 'Ÿ', '†', 'â', 'œ', '…', 'Ž', '‰', 'š', '¨'. */
  const EmojiSource: string :=
    "[\U{00F0}\U{0178}\U{2020}\U{00E2}\U{0153}\U{2026}\U{00F0}\U{0178}\U{017D}\U{2030}\U{00F0}\U{0178}\U{0161}\U{00A8}]"

  const ScoreEmoji: set<char> :=
    {'\U{00F0}', '\U{0178}', '\U{2020}', '\U{00E2}', '\U{0153}', '\U{2026}', '\U{017D}', '\U{2030}', '\U{0161}', '\U{00A8}'}

  const Table: PatternTable := PatternTable(
    ScorePatterns, FinalKeywords, RecapPatterns, SafePatterns, ScoreEmoji, EmojiSource)

  /** `check_for_reveals` with this copy's patterns. */
  function CheckForReveals(search: Search, text: string): (r: CheckResult)
    ensures text == "" ==> !r.revealsOutcome
    ensures r.revealsOutcome <==> RevealsOutcome(Table, search, text)
    ensures r.revealsOutcome ==> r.reason in {Some("score"), Some("final_keyword"), Some("recap")}
  {
    Check(Table, search, text)
  }

  /** `classify_reveal_risk` with this copy's patterns. */
  function ClassifyRevealRisk(search: Search, text: Option<string>): (r: Classification)
    ensures text.None? || text == Some("") ==> r.revealRisk && r.reason == Some("default_no_text")
    ensures !r.revealRisk <==> SafeBranch(Table, search, text)
    ensures text.Some? && text.value != "" && !RevealsOutcome(Table, search, text.value)
            && (exists i :: 0 <= i < |text.value| && text.value[i] in ScoreEmoji) ==>
      r.revealRisk && r.reason == Some("score_emoji")
  {
    Classify(Table, search, text)
  }

  /**
   * As written, this copy misses the real trophy emoji: for a regex engine under which neither
   * copy's outcome patterns match the lineup post, the scraper copy classifies it as a
   * reveal risk (`score_emoji`) and this copy classifies it as safe (`safe_pattern`).
   */
  lemma TrophyEmojiMissed(search: Search)
    requires !RevealsOutcome(Table, search, ScraperRevealFilter.TrophyLineup)
    requires !RevealsOutcome(ScraperRevealFilter.Table, search, ScraperRevealFilter.TrophyLineup)
    requires AnyMatch(SafePatterns, search, ScraperRevealFilter.TrophyLineup)
    ensures ClassifyRevealRisk(search, Some(ScraperRevealFilter.TrophyLineup)).reason == Some("safe_pattern")
    ensures !ClassifyRevealRisk(search, Some(ScraperRevealFilter.TrophyLineup)).revealRisk
    ensures ScraperRevealFilter.ClassifyRevealRisk(search, Some(ScraperRevealFilter.TrophyLineup)).revealRisk
  {
    var text := ScraperRevealFilter.TrophyLineup;
    forall i | 0 <= i < |text| ensures text[i] !in Table.emojiClass {
    }
    ScraperRevealFilter.TrophyEmojiFlagged(search);
  }
}
