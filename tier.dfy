/** `Tier` (src/models/tier.rs): the nine ranked tiers, printed as their upper-case
    wire names and parsed case-insensitively. */
module Tiers {
  import opened Results
  import opened Strings

  datatype Tier = Iron | Bronze | Silver | Gold | Platinum | Diamond | Master | GrandMaster | Challenger

  /** `TierError::InvalidTier`, carrying the text that failed to parse. */
  datatype TierError = InvalidTier(value: string)

  /** `Tier::value`: the canonical wire string, upper-case letters and `_` only. */
  function Value(t: Tier): (r: string)
    ensures |r| > 0
    ensures forall i :: 0 <= i < |r| ==> IsUpperChar(r[i]) || r[i] == '_'
  {
    match t
    case Iron => "IRON"
    case Bronze => "BRONZE"
    case Silver => "SILVER"
    case Gold => "GOLD"
    case Platinum => "PLATINUM"
    case Diamond => "DIAMOND"
    case Master => "MASTER"
    case GrandMaster => "GRAND_MASTER"
    case Challenger => "CHALLENGER"
  }

  /** The nine tiers print as nine different strings. */
  lemma ValueInjective(a: Tier, b: Tier)
    requires Value(a) == Value(b)
    ensures a == b
  {
  }

  lemma GrandMasterValue()
    ensures Value(GrandMaster) == "GRAND_MASTER"
  {
  }

  /** `Tier::from_str`: lower-case the input, then match the nine spellings; any
      other text is an `InvalidTier` error holding the lower-cased input. */
  function FromStr(s: string): (r: Result<Tier, TierError>)
    ensures r.Err? ==> r.error == InvalidTier(Lower(s))
  {
    match Lower(s)
    case "iron" => Ok(Iron)
    case "bronze" => Ok(Bronze)
    case "silver" => Ok(Silver)
    case "gold" => Ok(Gold)
    case "platinum" => Ok(Platinum)
    case "diamond" => Ok(Diamond)
    case "master" => Ok(Master)
    case "grand_master" => Ok(GrandMaster)
    case "challenger" => Ok(Challenger)
    case other => Err(InvalidTier(other))
  }

  /** The lower-case of each wire string is the spelling `from_str` matches. */
  lemma LowerValue(t: Tier)
    ensures Lower(Value(t)) == match t
      case Iron => "iron"
      case Bronze => "bronze"
      case Silver => "silver"
      case Gold => "gold"
      case Platinum => "platinum"
      case Diamond => "diamond"
      case Master => "master"
      case GrandMaster => "grand_master"
      case Challenger => "challenger"
  {
  }

  /** Parsing against printing: `s` parses to `t` exactly when `s` is the wire
      string of `t` up to letter case. */
  lemma FromStrSpec(s: string, t: Tier)
    ensures FromStr(s) == Ok(t) <==> Lower(s) == Lower(Value(t))
  {
    LowerValue(t);
  }

  /** Only the nine spellings parse; everything else is rejected. */
  lemma FromStrAcceptsOnlyTiers(s: string)
    ensures FromStr(s).Ok? <==> exists t: Tier :: Lower(s) == Lower(Value(t))
  {
    if FromStr(s).Ok? {
      FromStrSpec(s, FromStr(s).value);
    } else {
      forall t: Tier ensures Lower(s) != Lower(Value(t)) {
        FromStrSpec(s, t);
      }
    }
  }

  /** Parsing depends only on the lower-cased input. */
  lemma CaseInsensitive(s: string, s': string)
    requires Lower(s) == Lower(s')
    ensures FromStr(s) == FromStr(s')
  {
  }

  lemma FromStrOfLower(s: string)
    ensures FromStr(Lower(s)) == FromStr(s)
  {
    LowerIdempotent(s);
  }

  lemma RoundTrip(t: Tier)
    ensures FromStr(Value(t)) == Ok(t)
  {
    FromStrSpec(Value(t), t);
  }

  /** The spelling without the underscore is not a tier, and the error carries the
      lower-cased text, not the original. */
  lemma GrandmasterRejected()
    ensures FromStr("grandmaster") == Err(InvalidTier("grandmaster"))
    ensures FromStr("GrandMaster") == Err(InvalidTier("grandmaster"))
  {
    assert Lower("grandmaster") == "grandmaster";
    assert Lower("GrandMaster") == "grandmaster";
  }

  /** `Display::fmt` writes `value()`; what it writes parses back. */
  function Display(t: Tier): (r: string)
    ensures r == Value(t) && FromStr(r) == Ok(t)
  {
    RoundTrip(t);
    Value(t)
  }

  /** `Debug::fmt` writes `value()` as well. */
  function Debug(t: Tier): (r: string)
    ensures r == Display(t)
  {
    Value(t)
  }

  /** The `#[fail(display = ...)]` text of a `TierError`. */
  function ErrorMessage(e: TierError): string {
    "invalid tier: " + e.value
  }

  /** `Serialize`: the string `to_string()` gives, i.e. the `Display` text. */
  function Serialize(t: Tier): (r: string)
    ensures r == Value(t)
  {
    Display(t)
  }

  /** `TierVisitor::visit_str` (and `visit_string`, which calls it): parse with
      `from_str`, turning the error into its display text. */
  function Deserialize(s: string): (r: Result<Tier, string>)
    ensures r.Ok? <==> FromStr(s).Ok?
    ensures r.Ok? ==> r.value == FromStr(s).value
    ensures r.Err? ==> r.error == "invalid tier: " + Lower(s)
  {
    match FromStr(s)
    case Ok(t) => Ok(t)
    case Err(e) => Err(ErrorMessage(e))
  }

  /** Serialising and then deserialising gives back every tier. */
  lemma SerdeRoundTrip(t: Tier)
    ensures Deserialize(Serialize(t)) == Ok(t)
  {
    RoundTrip(t);
  }
}
