/**
 * The scraper's spoiler filter: the older copy of the reveal filter, with "spoiler" names.
 * Its character classes carry the same Windows-1252 misreading as the API copy, and its
 * "we're underway" pattern is written with an escaped quote (`we\'?re`), which changes the
 * reported pattern text but not what it matches.
 */
module SpoilerFilter {
  import opened Wrappers
  import opened RevealPolicy
  import ScraperRevealFilter

  const Dashes: string := "\U{00E2}\U{20AC}\U{201C}\U{00E2}\U{20AC}\U{201D}"

  const ScorePatterns: seq<Regex> := [
    Regex(@"\b\d{2,3}\s*[-" + Dashes + @"]\s*\d{2,3}\b", false),
    Regex(@"\b[WL]\s*\d{2,3}\s*[-" + Dashes + @"]\s*\d{2,3}\b", true),
    Regex(@"final\s*:?\s*\d{2,3}\s*[-" + Dashes + @"]\s*\d{2,3}", true)
  ]

  const FinalKeywords: seq<Regex> := [
    Regex(@"\bfinal\b", true),
    Regex(@"\bfinal score\b", true),
    Regex(@"\bend of (game|regulation)\b", true),
    Regex(@"\bgame over\b", true),
    Regex(@"\bwe win\b", true),
    Regex(@"\bwe lose\b", true),
    Regex(@"\bvictory\b", true),
    Regex(@"\bdefeat\b", true),
    Regex(@"\bwin streak\b", true),
    Regex(@"\blose streak\b", true)
  ]

  const RecapPatterns: seq<Regex> := [
    Regex(@"\brecap\b", true),
    Regex(@"\bgame recap\b", true),
    Regex(@"\bpost-?game\b", true),
    Regex(@"\bfull (game )?highlights\b", true),
    Regex(@"\bgame summary\b", true)
  ]

  const SafePatterns: seq<Regex> := [
    Regex(@"\blineup\b", true),
    Regex(@"\bstarting (five|lineup)\b", true),
    Regex(@"\binjury update\b", true),
    Regex(@"\bstatus update\b", true),
    Regex(@"\bwe\'?re underway\b", true),
    Regex(@"\bgame time\b", true),
    Regex(@"\btip-?off\b", true),
    Regex(@"\bwarm-?ups\b", true)
  ]

  const EmojiSource: string :=
    "[\U{00F0}\U{0178}\U{2020}\U{00E2}\U{0153}\U{2026}\U{00F0}\U{0178}\U{017D}\U{2030}\U{00F0}\U{0178}\U{0161}\U{00A8}]"

  const ScoreEmoji: set<char> :=
    {'\U{00F0}', '\U{0178}', '\U{2020}', '\U{00E2}', '\U{0153}', '\U{2026}', '\U{017D}', '\U{2030}', '\U{0161}', '\U{00A8}'}

  const Table: PatternTable := PatternTable(
    ScorePatterns, FinalKeywords, RecapPatterns, SafePatterns, ScoreEmoji, EmojiSource)

  /** `check_for_spoilers`; the result's `revealsOutcome` is the source's `is_spoiler`. */
  function CheckForSpoilers(search: Search, text: string): (r: CheckResult)
    ensures text == "" ==> !r.revealsOutcome
    ensures r.revealsOutcome <==> RevealsOutcome(Table, search, text)
    ensures r.revealsOutcome ==> r.reason in {Some("score"), Some("final_keyword"), Some("recap")}
  {
    Check(Table, search, text)
  }

  /** `classify_spoiler_risk`; the result's `revealRisk` is the source's `spoiler_risk`. */
  function ClassifySpoilerRisk(search: Search, text: Option<string>): (r: Classification)
    ensures text.None? || text == Some("") ==> r.revealRisk && r.reason == Some("default_no_text")
    ensures !r.revealRisk <==> SafeBranch(Table, search, text)
    ensures !r.revealRisk <==> r.reason == Some("safe_pattern")
  {
    Classify(Table, search, text)
  }

  /** `contains_spoiler`: only the outcome patterns decide; emoji and safe patterns play no part. */
  function ContainsSpoiler(search: Search, text: string): (b: bool)
    ensures b <==> text != "" && exists p :: p in ScorePatterns + FinalKeywords + RecapPatterns && search(p, text)
  {
    ContainsOutcome(Table, search, text)
  }

  /**
   * As written, this copy too classifies the trophy lineup post as safe where the scraper's
   * reveal filter, whose emoji class holds the real characters, classifies it as a risk.
   */
  lemma TrophyEmojiMissed(search: Search)
    requires !RevealsOutcome(Table, search, ScraperRevealFilter.TrophyLineup)
    requires !RevealsOutcome(ScraperRevealFilter.Table, search, ScraperRevealFilter.TrophyLineup)
    requires AnyMatch(SafePatterns, search, ScraperRevealFilter.TrophyLineup)
    ensures ClassifySpoilerRisk(search, Some(ScraperRevealFilter.TrophyLineup)).reason == Some("safe_pattern")
    ensures ScraperRevealFilter.ClassifyRevealRisk(search, Some(ScraperRevealFilter.TrophyLineup)).revealRisk
  {
    var text := ScraperRevealFilter.TrophyLineup;
    forall i | 0 <= i < |text| ensures text[i] !in Table.emojiClass {
    }
    ScraperRevealFilter.TrophyEmojiFlagged(search);
  }
}
