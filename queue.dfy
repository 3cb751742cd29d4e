/** `Queue` (src/models/queue.rs): the four ranked queues. Printing gives the wire
    names; the parser as written lower-cases its input and then compares it with the
    upper-case wire names, so it never succeeds. `FromStrCorrected` is the parser the
    code evidently intends, and is proved to invert `Value`. */
module Queues {
  import opened Results
  import opened Strings

  datatype Queue = RankedSolo5x5 | RankedTft | RankedFlexSr | RankedFlexIt

  /** `QueueError::InvalidQueue`, carrying the text that failed to parse. */
  datatype QueueError = InvalidQueue(value: string)

  /** `Queue::value`: the wire name of the queue. */
  function Value(q: Queue): (r: string)
    ensures |r| >= 10 && r[..7] == "RANKED_"
    ensures '/' !in r
  {
    match q
    case RankedSolo5x5 => "RANKED_SOLO_5x5"
    case RankedTft => "RANKED_TFT"
    case RankedFlexSr => "RANKED_FLEX_SR"
    case RankedFlexIt => "RANKED_FLEX_IT"
  }

  lemma ValueInjective(a: Queue, b: Queue)
    requires Value(a) == Value(b)
    ensures a == b
  {
  }

  /** The solo queue's wire name holds a lower-case `x`; the other three hold no
      lower-case letter. */
  lemma SoloValueHasLowerX()
    ensures Value(RankedSolo5x5)[13] == 'x'
    ensures forall q: Queue, i :: q != RankedSolo5x5 && 0 <= i < |Value(q)| ==> !IsLowerChar(Value(q)[i])
  {
  }

  /** `Queue::from_str` as written: the lower-cased input is matched against the
      upper-case wire names. */
  function FromStr(s: string): (r: Result<Queue, QueueError>)
    ensures r.Err? ==> r.error == InvalidQueue(Lower(s))
  {
    match Lower(s)
    case "RANKED_SOLO_5x5" => Ok(RankedSolo5x5)
    case "RANKED_TFT" => Ok(RankedTft)
    case "RANKED_FLEX_SR" => Ok(RankedFlexSr)
    case "RANKED_FLEX_IT" => Ok(RankedFlexIt)
    case other => Err(InvalidQueue(other))
  }

  /** A lower-cased string never equals a wire name, since each wire name starts
      with the upper-case letter `R`. */
  lemma FromStrAlwaysFails(s: string)
    ensures FromStr(s) == Err(InvalidQueue(Lower(s)))
  {
    var l := Lower(s);
    LowerHasNoUpper(s);
    if |l| > 0 {
      assert !IsUpperChar(l[0]);
    }
    assert l != "RANKED_SOLO_5x5" && l != "RANKED_TFT" && l != "RANKED_FLEX_SR" && l != "RANKED_FLEX_IT";
  }

  /** The round trip fails for every queue as written. */
  lemma NoRoundTrip(q: Queue)
    ensures FromStr(Value(q)) == Err(InvalidQueue(Lower(Value(q))))
  {
    FromStrAlwaysFails(Value(q));
  }

  /** `Display::fmt` writes `value()`. */
  function Display(q: Queue): (r: string)
    ensures r == Value(q)
  {
    Value(q)
  }

  /** `Debug::fmt` writes `value()` as well. */
  function Debug(q: Queue): (r: string)
    ensures r == Display(q)
  {
    Value(q)
  }

  /** The `#[fail(display = ...)]` text of a `QueueError`. */
  function ErrorMessage(e: QueueError): string {
    "invalid queue: " + e.value
  }

  /** `Serialize`: the `Display` text. */
  function Serialize(q: Queue): (r: string)
    ensures r == Value(q)
  {
    Display(q)
  }

  /** `QueueVisitor::visit_str`: parse with `from_str`, turning the error into its
      display text. */
  function Deserialize(s: string): (r: Result<Queue, string>)
    ensures r.Ok? <==> FromStr(s).Ok?
    ensures r.Err? ==> r.error == "invalid queue: " + Lower(s)
  {
    match FromStr(s)
    case Ok(q) => Ok(q)
    case Err(e) => Err(ErrorMessage(e))
  }

  /** Consequently every string is rejected on deserialisation, including what
      `Serialize` writes. */
  lemma DeserializeRejectsAll(s: string)
    ensures Deserialize(s) == Err("invalid queue: " + Lower(s))
  {
    FromStrAlwaysFails(s);
  }

  /** The parser the code evidently intends: match the lower-cased input against the
      lower-cased wire names. */
  function FromStrCorrected(s: string): (r: Result<Queue, QueueError>)
    ensures r.Err? ==> r.error == InvalidQueue(Lower(s))
  {
    match Lower(s)
    case "ranked_solo_5x5" => Ok(RankedSolo5x5)
    case "ranked_tft" => Ok(RankedTft)
    case "ranked_flex_sr" => Ok(RankedFlexSr)
    case "ranked_flex_it" => Ok(RankedFlexIt)
    case other => Err(InvalidQueue(other))
  }

  lemma LowerValue(q: Queue)
    ensures Lower(Value(q)) == match q
      case RankedSolo5x5 => "ranked_solo_5x5"
      case RankedTft => "ranked_tft"
      case RankedFlexSr => "ranked_flex_sr"
      case RankedFlexIt => "ranked_flex_it"
  {
  }

  /** The corrected parser accepts `s` as `q` exactly when `s` is the wire name of
      `q` up to letter case. */
  lemma FromStrCorrectedSpec(s: string, q: Queue)
    ensures FromStrCorrected(s) == Ok(q) <==> Lower(s) == Lower(Value(q))
  {
    LowerValue(q);
  }

  lemma CorrectedRoundTrip(q: Queue)
    ensures FromStrCorrected(Value(q)) == Ok(q)
  {
    FromStrCorrectedSpec(Value(q), q);
  }

  /** Deserialisation through the corrected parser. */
  function DeserializeCorrected(s: string): (r: Result<Queue, string>)
    ensures r.Ok? <==> FromStrCorrected(s).Ok?
    ensures r.Ok? ==> r.value == FromStrCorrected(s).value
    ensures r.Err? ==> r.error == "invalid queue: " + Lower(s)
  {
    match FromStrCorrected(s)
    case Ok(q) => Ok(q)
    case Err(e) => Err(ErrorMessage(e))
  }

  lemma CorrectedSerdeRoundTrip(q: Queue)
    ensures DeserializeCorrected(Serialize(q)) == Ok(q)
  {
    CorrectedRoundTrip(q);
  }
}
