/** `Division` (src/constants/division.rs): the five divisions inside a tier, printed
    as Roman numerals and parsed from Roman numerals in any case or from the digits
    1 to 5. */
module Divisions {
  import opened Results
  import opened Strings

  datatype Division = I | II | III | IV | V

  /** `DivisionError::InvalidDivision`, carrying the text that failed to parse. */
  datatype DivisionError = InvalidDivision(value: string)

  /** `Division::value`: the Roman numeral, upper-case. */
  function Value(d: Division): (r: string)
    ensures 1 <= |r| <= 3
    ensures forall i :: 0 <= i < |r| ==> r[i] in "IVX"
  {
    match d
    case I => "I"
    case II => "II"
    case III => "III"
    case IV => "IV"
    case V => "V"
  }

  /** The digit `from_str` accepts as an alias of the numeral. */
  function Digit(d: Division): (r: string)
    ensures |r| == 1 && IsDigitChar(r[0])
  {
    match d
    case I => "1"
    case II => "2"
    case III => "3"
    case IV => "4"
    case V => "5"
  }

  lemma ValueInjective(a: Division, b: Division)
    requires Value(a) == Value(b)
    ensures a == b
  {
  }

  /** `Division::from_str`: lower-case the input, then match the five numerals and
      the five digits; any other text is an `InvalidDivision` error holding the
      lower-cased input. */
  function FromStr(s: string): (r: Result<Division, DivisionError>)
    ensures r.Err? ==> r.error == InvalidDivision(Lower(s))
  {
    match Lower(s)
    case "i" => Ok(I)
    case "ii" => Ok(II)
    case "iii" => Ok(III)
    case "iv" => Ok(IV)
    case "v" => Ok(V)
    case "1" => Ok(I)
    case "2" => Ok(II)
    case "3" => Ok(III)
    case "4" => Ok(IV)
    case "5" => Ok(V)
    case other => Err(InvalidDivision(other))
  }

  lemma LowerValue(d: Division)
    ensures Lower(Value(d)) == match d
      case I => "i"
      case II => "ii"
      case III => "iii"
      case IV => "iv"
      case V => "v"
    ensures Lower(Digit(d)) == Digit(d)
  {
  }

  /** Parsing against printing: `s` parses to `d` exactly when it is the numeral of
      `d` in some letter case, or the digit of `d`. */
  lemma FromStrSpec(s: string, d: Division)
    ensures FromStr(s) == Ok(d) <==> Lower(s) == Lower(Value(d)) || Lower(s) == Digit(d)
  {
    LowerValue(d);
  }

  /** Only numerals and digits parse; everything else is rejected. */
  lemma FromStrAcceptsOnlyDivisions(s: string)
    ensures FromStr(s).Ok? <==>
      exists d: Division :: Lower(s) == Lower(Value(d)) || Lower(s) == Digit(d)
  {
    if FromStr(s).Ok? {
      FromStrSpec(s, FromStr(s).value);
    } else {
      forall d: Division ensures Lower(s) != Lower(Value(d)) && Lower(s) != Digit(d) {
        FromStrSpec(s, d);
      }
    }
  }

  /** Parsing depends only on the lower-cased input. */
  lemma CaseInsensitive(s: string, s': string)
    requires Lower(s) == Lower(s')
    ensures FromStr(s) == FromStr(s')
  {
  }

  lemma RoundTrip(d: Division)
    ensures FromStr(Value(d)) == Ok(d)
  {
    FromStrSpec(Value(d), d);
  }

  /** Each digit parses to the same division as its numeral. */
  lemma DigitAlias(d: Division)
    ensures FromStr(Digit(d)) == FromStr(Value(d)) == Ok(d)
  {
    FromStrSpec(Digit(d), d);
    RoundTrip(d);
  }

  /** Parsing, printing and parsing again changes nothing. */
  lemma CanonicalIdempotent(s: string)
    requires FromStr(s).Ok?
    ensures FromStr(Value(FromStr(s).value)) == FromStr(s)
  {
    RoundTrip(FromStr(s).value);
  }

  lemma OutOfRangeRejected()
    ensures FromStr("0") == Err(InvalidDivision("0"))
    ensures FromStr("6") == Err(InvalidDivision("6"))
    ensures FromStr("VI") == Err(InvalidDivision("vi"))
  {
    assert Lower("0") == "0";
    assert Lower("6") == "6";
    assert Lower("VI") == "vi";
  }

  /** `Display::fmt` writes `value()`; what it writes parses back. */
  function Display(d: Division): (r: string)
    ensures r == Value(d) && FromStr(r) == Ok(d)
  {
    RoundTrip(d);
    Value(d)
  }

  /** `Debug::fmt` writes `value()` as well. */
  function Debug(d: Division): (r: string)
    ensures r == Display(d)
  {
    Value(d)
  }

  /** The `#[fail(display = ...)]` text of a `DivisionError` (it says "rank"). */
  function ErrorMessage(e: DivisionError): string {
    "invalid rank: " + e.value
  }

  /** `Serialize`: the `Display` text. */
  function Serialize(d: Division): (r: string)
    ensures r == Value(d)
  {
    Display(d)
  }

  /** `DivisionVisitor::visit_str`: parse with `from_str`, turning the error into its
      display text. */
  function Deserialize(s: string): (r: Result<Division, string>)
    ensures r.Ok? <==> FromStr(s).Ok?
    ensures r.Ok? ==> r.value == FromStr(s).value
    ensures r.Err? ==> r.error == "invalid rank: " + Lower(s)
  {
    match FromStr(s)
    case Ok(d) => Ok(d)
    case Err(e) => Err(ErrorMessage(e))
  }

  lemma SerdeRoundTrip(d: Division)
    ensures Deserialize(Serialize(d)) == Ok(d)
  {
    RoundTrip(d);
  }
}
