/** `Rank` (src/constants/rank.rs): the five ranks inside a tier, printed
    as Roman numerals and parsed from Roman numerals in any case or from the digits
    1 to 5. */
module Ranks {
  import opened Results
  import opened Strings

  datatype Rank = I | II | III | IV | V

  /** `RankError::InvalidRank`, carrying the text that failed to parse. */
  datatype RankError = InvalidRank(value: string)

  /** `Rank::value`: the Roman numeral, upper-case. */
  function Value(k: Rank): (r: string)
    ensures 1 <= |r| <= 3
    ensures forall i :: 0 <= i < |r| ==> r[i] in "IVX"
  {
    match k
    case I => "I"
    case II => "II"
    case III => "III"
    case IV => "IV"
    case V => "V"
  }

  /** The digit `from_str` accepts as an alias of the numeral. */
  function Digit(k: Rank): (r: string)
    ensures |r| == 1 && IsDigitChar(r[0])
  {
    match k
    case I => "1"
    case II => "2"
    case III => "3"
    case IV => "4"
    case V => "5"
  }

  lemma ValueInjective(a: Rank, b: Rank)
    requires Value(a) == Value(b)
    ensures a == b
  {
  }

  /** `Rank::from_str`: lower-case the input, then match the five numerals and
      the five digits; any other text is an `InvalidRank` error holding the
      lower-cased input. */
  function FromStr(s: string): (r: Result<Rank, RankError>)
    ensures r.Err? ==> r.error == InvalidRank(Lower(s))
  {
    match Lower(s)
    case "i" => Ok(I)
    case "ii" => Ok(II)
    case "iii" => Ok(III)
    case "iv" => Ok(IV)
    case "v" => Ok(V)
    case "1" => Ok(I)
    case "2" => Ok(II)
    case "3" => Ok(III)
    case "4" => Ok(IV)
    case "5" => Ok(V)
    case other => Err(InvalidRank(other))
  }

  lemma LowerValue(k: Rank)
    ensures Lower(Value(k)) == match k
      case I => "i"
      case II => "ii"
      case III => "iii"
      case IV => "iv"
      case V => "v"
    ensures Lower(Digit(k)) == Digit(k)
  {
  }

  /** Parsing against printing: `s` parses to `k` exactly when it is the numeral of
      `k` in some letter case, or the digit of `k`. */
  lemma FromStrSpec(s: string, k: Rank)
    ensures FromStr(s) == Ok(k) <==> Lower(s) == Lower(Value(k)) || Lower(s) == Digit(k)
  {
    LowerValue(k);
  }

  /** Only numerals and digits parse; everything else is rejected. */
  lemma FromStrAcceptsOnlyRanks(s: string)
    ensures FromStr(s).Ok? <==>
      exists k: Rank :: Lower(s) == Lower(Value(k)) || Lower(s) == Digit(k)
  {
    if FromStr(s).Ok? {
      FromStrSpec(s, FromStr(s).value);
    } else {
      forall k: Rank ensures Lower(s) != Lower(Value(k)) && Lower(s) != Digit(k) {
        FromStrSpec(s, k);
      }
    }
  }

  /** Parsing depends only on the lower-cased input. */
  lemma CaseInsensitive(s: string, s': string)
    requires Lower(s) == Lower(s')
    ensures FromStr(s) == FromStr(s')
  {
  }

  lemma RoundTrip(k: Rank)
    ensures FromStr(Value(k)) == Ok(k)
  {
    FromStrSpec(Value(k), k);
  }

  /** Each digit parses to the same rank as its numeral. */
  lemma DigitAlias(k: Rank)
    ensures FromStr(Digit(k)) == FromStr(Value(k)) == Ok(k)
  {
    FromStrSpec(Digit(k), k);
    RoundTrip(k);
  }

  /** Parsing, printing and parsing again changes nothing. */
  lemma CanonicalIdempotent(s: string)
    requires FromStr(s).Ok?
    ensures FromStr(Value(FromStr(s).value)) == FromStr(s)
  {
    RoundTrip(FromStr(s).value);
  }

  lemma OutOfRangeRejected()
    ensures FromStr("0") == Err(InvalidRank("0"))
    ensures FromStr("6") == Err(InvalidRank("6"))
    ensures FromStr("VI") == Err(InvalidRank("vi"))
  {
    assert Lower("0") == "0";
    assert Lower("6") == "6";
    assert Lower("VI") == "vi";
  }

  /** `Display::fmt` writes `value()`; what it writes parses back. */
  function Display(k: Rank): (r: string)
    ensures r == Value(k) && FromStr(r) == Ok(k)
  {
    RoundTrip(k);
    Value(k)
  }

  /** `Debug::fmt` writes `value()` as well. */
  function Debug(k: Rank): (r: string)
    ensures r == Display(k)
  {
    Value(k)
  }

  /** The `#[fail(display = ...)]` text of a `RankError`. */
  function ErrorMessage(e: RankError): string {
    "invalid rank: " + e.value
  }

  /** `Serialize`: the `Display` text. */
  function Serialize(k: Rank): (r: string)
    ensures r == Value(k)
  {
    Display(k)
  }

  /** `RankVisitor::visit_str`: parse with `from_str`, turning the error into its
      display text. */
  function Deserialize(s: string): (r: Result<Rank, string>)
    ensures r.Ok? <==> FromStr(s).Ok?
    ensures r.Ok? ==> r.value == FromStr(s).value
    ensures r.Err? ==> r.error == "invalid rank: " + Lower(s)
  {
    match FromStr(s)
    case Ok(k) => Ok(k)
    case Err(e) => Err(ErrorMessage(e))
  }

  lemma SerdeRoundTrip(k: Rank)
    ensures Deserialize(Serialize(k)) == Ok(k)
  {
    RoundTrip(k);
  }
}
