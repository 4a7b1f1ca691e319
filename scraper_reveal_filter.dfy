/**
 * The scraper's copy of the reveal filter. Its dash classes hold the real en dash and em dash,
 * and its emoji class the real trophy, check mark, party popper and siren.
 */
module ScraperRevealFilter {
  import opened Wrappers
  import opened RevealPolicy

  /** En dash and em dash, as they appear inside `[-–—]`. */
  const Dashes: string := "\U{2013}\U{2014}"

  const ScorePatterns: seq<Regex> := [
    Regex(@"\b\d{2,3}\s*[-" + Dashes + @"]\s*\d{2,3}\b", false),
    Regex(@"\b[WL]\s*\d{2,3}\s*[-" + Dashes + @"]\s*\d{2,3}\b", true),
    Regex(@"final\s*:?\s*\d{2,3}\s*[-" + Dashes + @"]\s*\d{2,3}", true)
  ]

  const FinalKeywords: seq<Regex> := [
    Regex(@"\bfinal\b", true),
    Regex(@"\bfinal score\b", true),
    Regex(@"\bend of (game|regulation)\b", true),
    Regex(@"\bgame over\b", true),
    Regex(@"\bwe win\b", true),
    Regex(@"\bwe lose\b", true),
    Regex(@"\bvictory\b", true),
    Regex(@"\bdefeat\b", true),
    Regex(@"\bwin streak\b", true),
    Regex(@"\blose streak\b", true)
  ]

  const RecapPatterns: seq<Regex> := [
    Regex(@"\brecap\b", true),
    Regex(@"\bgame recap\b", true),
    Regex(@"\bpost-?game\b", true),
    Regex(@"\bfull (game )?highlights\b", true),
    Regex(@"\bgame summary\b", true)
  ]

  const SafePatterns: seq<Regex> := [
    Regex(@"\blineup\b", true),
    Regex(@"\bstarting (five|lineup)\b", true),
    Regex(@"\binjury update\b", true),
    Regex(@"\bstatus update\b", true),
    Regex(@"\bwe'?re underway\b", true),
    Regex(@"\bgame time\b", true),
    Regex(@"\btip-?off\b", true),
    Regex(@"\bwarm-?ups\b", true)
  ]

  /** Trophy, white heavy check mark, party popper, police-car light. */
  const ScoreEmoji: set<char> := {'\U{1F3C6}', '\U{2705}', '\U{1F389}', '\U{1F6A8}'}

  const Table: PatternTable := PatternTable(
    ScorePatterns, FinalKeywords, RecapPatterns, SafePatterns,
    ScoreEmoji, "[\U{1F3C6}\U{2705}\U{1F389}\U{1F6A8}]")

  /** `check_for_reveals` with this copy's patterns. */
  function CheckForReveals(search: Search, text: string): (r: CheckResult)
    ensures text == "" ==> !r.revealsOutcome
    ensures r.revealsOutcome <==> RevealsOutcome(Table, search, text)
    ensures r.revealsOutcome ==> r.reason in {Some("score"), Some("final_keyword"), Some("recap")}
  {
    Check(Table, search, text)
  }

  /** `classify_reveal_risk` with this copy's patterns. */
  function ClassifyRevealRisk(search: Search, text: Option<string>): (r: Classification)
    ensures text.None? || text == Some("") ==> r.revealRisk && r.reason == Some("default_no_text")
    ensures !r.revealRisk <==> SafeBranch(Table, search, text)
    ensures text.Some? && text.value != "" && !RevealsOutcome(Table, search, text.value)
            && (exists i :: 0 <= i < |text.value| && text.value[i] in ScoreEmoji) ==>
      r.revealRisk && r.reason == Some("score_emoji")
  {
    Classify(Table, search, text)
  }

  /** `contains_reveal`. */
  function ContainsReveal(search: Search, text: string): (b: bool)
    ensures b <==> text != "" && exists p :: p in ScorePatterns + FinalKeywords + RecapPatterns && search(p, text)
  {
    ContainsOutcome(Table, search, text)
  }

  /** A lineup post that carries a real trophy emoji. */
  const TrophyLineup: string := "\U{1F3C6} Starting lineup"

  /**
   * This copy flags the trophy emoji: with no outcome pattern matching, the post is still
   * classified as a reveal risk, whatever safe pattern it matches.
   */
  lemma TrophyEmojiFlagged(search: Search)
    requires !RevealsOutcome(Table, search, TrophyLineup)
    ensures ClassifyRevealRisk(search, Some(TrophyLineup)) ==
      Classification(true, Some("score_emoji"), Some(Table.emojiSource))
  {
    assert TrophyLineup[0] in Table.emojiClass;
  }
}
