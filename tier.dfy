/** The subscription tier (Tier.java). */
module Tiers {
  import opened Wrappers
  import opened Text

  datatype Tier = DEMO | BASIC | PREMIUM

  /** `t.name()`. */
  function Name(t: Tier): string {
    match t
    case DEMO => "DEMO"
    case BASIC => "BASIC"
    case PREMIUM => "PREMIUM"
  }

  /** `Tier.fromString(s)`: trimmed, case-insensitive, BASIC for null and for anything unknown. */
  function FromString(s: Option<string>): Tier {
    if s.None? then BASIC
    else
      match Lower(Trim(s.value))
      case "demo" => DEMO
      case "basic" => BASIC
      case "premium" => PREMIUM
      case _ => BASIC
  }

  /** Only the trimmed, lower-cased spellings "demo" and "premium" select a tier other than BASIC. */
  lemma FromStringCases(s: Option<string>)
    ensures FromString(s) == DEMO <==> s.Some? && Lower(Trim(s.value)) == "demo"
    ensures FromString(s) == PREMIUM <==> s.Some? && Lower(Trim(s.value)) == "premium"
    ensures s.None? ==> FromString(s) == BASIC
  {
  }

  /** `Tier.fromString(t.name()) == t` for every tier. */
  lemma FromStringName(t: Tier)
    ensures FromString(Some(Name(t))) == t
  {
    match t
    case DEMO => assert Lower(Trim("DEMO")) == "demo";
    case BASIC => assert Lower(Trim("BASIC")) == "basic";
    case PREMIUM => assert Lower(Trim("PREMIUM")) == "premium";
  }
}
