/** The reveal levels an app request can ask for, and parsing them from a query string. */
module RevealLevels {
  import opened Wrappers

  /** `RevealLevel`, a string enum. */
  datatype RevealLevel = Pre | Post

  /** The member's value. */
  function Value(level: RevealLevel): string {
    match level
    case Pre => "pre"
    case Post => "post"
  }

  /** `parse_reveal_level`: the level whose value is exactly `value`, `None` for anything else. */
  function ParseRevealLevel(value: string): (r: Option<RevealLevel>)
    ensures r.Some? <==> value == "pre" || value == "post"
    ensures r.Some? ==> Value(r.value) == value
  {
    if value == "pre" then Some(Pre)
    else if value == "post" then Some(Post)
    else None
  }

  /** Every level parses back from its value, and distinct levels have distinct values. */
  lemma ValueRoundTrip(level: RevealLevel, other: RevealLevel)
    ensures ParseRevealLevel(Value(level)) == Some(level)
    ensures Value(level) == Value(other) ==> level == other
  {
  }

  /** Matching is case-sensitive: an upper-case spelling is not a level. */
  lemma CaseMatters()
    ensures ParseRevealLevel("PRE") == None && ParseRevealLevel("Post") == None
  {
  }
}
