/**
 * Instance parameters (src/parameters.rs): the record a managed container
 * carries in its labels, its field types with their `Display` and ordering,
 * and the encoding into and decoding from the parameters label.
 *
 * The source encodes with serde_json. Here the encoding is a sequence of
 * length-prefixed text tokens (`<length>:<text>` each), in the field order of
 * the record; what matters to the rest of the core, and what is proved, is
 * that decoding the encoding of a record gives the record back and that any
 * other text either decodes to some record or fails.
 */
module Params {
  import opened Wrappers
  import opened Text
  import opened Orderings
  import opened Versioning
  import opened Labels

  /** `Name(String)`: equality and ordering are those of the inner string. */
  datatype Name = Name(value: string) {
    /** `Display`: the inner string. */
    function ToString(): string { value }
  }

  function CompareNames(a: Name, b: Name): Ordering { CompareStrings(a.value, b.value) }

  /** Names are equal exactly when their strings are, and they are totally ordered by their strings. */
  lemma NameOrderTotal(a: Name, b: Name, c: Name)
    ensures CompareNames(a, b) == Equal <==> a == b
    ensures CompareNames(b, a) == CompareNames(a, b).Reverse()
    ensures CompareNames(a, b) != Greater && CompareNames(b, c) != Greater ==> CompareNames(a, c) != Greater
  {
    CompareStringsEqual(a.value, b.value);
    CompareStringsAntisymmetric(a.value, b.value);
    StringLeTotalOrder(a.value, b.value, c.value);
  }

  /** `Port(u16)`. */
  datatype Port = Port(value: u16) {
    /** `Display`: the decimal number. */
    function ToString(): string { NatToDecimal(value) }
  }

  /** `Authentication(bool)`: true means authentication is mandatory. */
  datatype Authentication = Authentication(required: bool) {
    function IsRequired(): bool { required }

    /** `Display`. */
    function ToString(): (s: string)
      ensures s == "required" <==> IsRequired()
      ensures s == "optional" <==> !IsRequired()
    {
      if required then "required" else "optional"
    }
  }

  /**
   * The answer to "Would you like to disable mandatory authentication?"
   * becomes `Authentication(!answer)`.
   */
  function AuthenticationFromDisableAnswer(disable: bool): (a: Authentication)
    ensures a.IsRequired() <==> !disable
  {
    Authentication(!disable)
  }

  /** `Tls(Option<(String, String)>)`: certificate and key, present together or absent together. */
  datatype Tls = Tls(pair: Option<(string, string)>) {
    /** `into_inner`. */
    function IntoInner(): Option<(string, string)> { pair }

    /** `Display`. */
    function ToString(): (s: string)
      ensures s == "enabled" <==> pair.Some?
      ensures s == "disabled" <==> pair.None?
    {
      if pair.Some? then "enabled" else "disabled"
    }
  }

  datatype Parameters = Parameters(name: Name, version: Version, port: Port, authentication: Authentication, tls: Tls)

  // ---------------------------------------------------------------------------
  // The label encoding
  // ---------------------------------------------------------------------------

  function EncodeTokens(tokens: seq<string>): string
  {
    if tokens == [] then [] else NatToDecimal(|tokens[0]|) + ":" + tokens[0] + EncodeTokens(tokens[1..])
  }

  function DecodeTokens(s: string): Option<seq<string>>
    decreases |s|
  {
    if s == [] then Some([])
    else match SplitOnce(s, ':')
      case None => None
      case Some((length, rest)) =>
        match ParseDecimal(length)
        case None => None
        case Some(n) =>
          if n > |rest| then None
          else match DecodeTokens(rest[n..])
            case None => None
            case Some(tail) => Some([rest[..n]] + tail)
  }

  lemma {:induction false} DecodeEncodeTokens(tokens: seq<string>)
    ensures DecodeTokens(EncodeTokens(tokens)) == Some(tokens)
  {
    if tokens != [] {
      var t := tokens[0];
      var length := NatToDecimal(|t|);
      var rest := t + EncodeTokens(tokens[1..]);
      assert ':' !in length by {
        assert forall i :: 0 <= i < |length| ==> IsDigit(length[i]);
      }
      assert EncodeTokens(tokens) == length + [':'] + rest;
      SplitOnceOfJoin(length, ':', rest);
      ParseDecimalOfDecimal(|t|);
      assert rest[..|t|] == t && rest[|t|..] == EncodeTokens(tokens[1..]);
      DecodeEncodeTokens(tokens[1..]);
      assert [t] + tokens[1..] == tokens;
    }
  }

  function BoolToken(b: bool): string { if b then "true" else "false" }

  function ParametersTokens(p: Parameters): (tokens: seq<string>)
    ensures |tokens| == if p.tls.pair.Some? then 6 else 4
  {
    [p.name.value, Render(p.version), NatToDecimal(p.port.value), BoolToken(p.authentication.required)]
    + match p.tls.pair
      case None => []
      case Some((crt, key)) => [crt, key]
  }

  /** `encode_for_label`. */
  function EncodeForLabel(p: Parameters): string
  {
    EncodeTokens(ParametersTokens(p))
  }

  function ParseBoolToken(s: string): Option<bool>
  {
    if s == "true" then Some(true) else if s == "false" then Some(false) else None
  }

  function ParametersOfTokens(tokens: seq<string>): Option<Parameters>
  {
    if |tokens| != 4 && |tokens| != 6 then None
    else match (Parse(tokens[1]), ParseU16(tokens[2]), ParseBoolToken(tokens[3]))
      case (Some(version), Some(port), Some(required)) =>
        var tls := if |tokens| == 6 then Some((tokens[4], tokens[5])) else None;
        Some(Parameters(Name(tokens[0]), version, Port(port), Authentication(required), Tls(tls)))
      case _ => None
  }

  /** The label's decoder (the source's `serde_json::from_str::<Parameters>`). */
  function DecodeLabel(value: string): Option<Parameters>
  {
    match DecodeTokens(value)
    case None => None
    case Some(tokens) => ParametersOfTokens(tokens)
  }

  /** Decoding the encoding of a record gives the record back, with TLS absent and with TLS present. */
  lemma DecodeEncodeForLabel(p: Parameters)
    requires WellFormed(p.version)
    ensures DecodeLabel(EncodeForLabel(p)) == Some(p)
  {
    DecodeEncodeTokens(ParametersTokens(p));
    ParametersOfParametersTokens(p);
  }

  /** The record's tokens read back as the record. */
  lemma ParametersOfParametersTokens(p: Parameters)
    requires WellFormed(p.version)
    ensures ParametersOfTokens(ParametersTokens(p)) == Some(p)
  {
    var tokens := ParametersTokens(p);
    ParseRender(p.version);
    ParseUnsignedOfDecimal(p.port.value, U16_LIMIT);
    assert tokens[1] == Render(p.version) && tokens[2] == NatToDecimal(p.port.value);
    assert ParseBoolToken(tokens[3]) == Some(p.authentication.required);
  }

  /** Every decoded record can itself be encoded and decoded again. */
  lemma DecodedVersionWellFormed(value: string)
    requires DecodeLabel(value).Some?
    ensures WellFormed(DecodeLabel(value).value.version)
  {
    var tokens := DecodeTokens(value).value;
    ParseWellFormed(tokens[1]);
  }

  /** `Parameters::try_from(labels)`: the parameters label must be present and must decode. */
  function TryFromLabels(labels: map<string, string>): (r: Result<Parameters, ()>)
    ensures r.Failure? <==> LABEL_KEY_PARAMETERS !in labels || DecodeLabel(labels[LABEL_KEY_PARAMETERS]).None?
    ensures r.Success? ==> Some(r.value) == DecodeLabel(labels[LABEL_KEY_PARAMETERS])
  {
    if LABEL_KEY_PARAMETERS in labels then
      match DecodeLabel(labels[LABEL_KEY_PARAMETERS])
      case Some(p) => Success(p)
      case None => Failure(())
    else Failure(())
  }

  /** Labels written with `encode_for_label` decode to the parameters that were written. */
  lemma TryFromEncodedLabels(labels: map<string, string>, p: Parameters)
    requires WellFormed(p.version)
    ensures TryFromLabels(labels[LABEL_KEY_PARAMETERS := EncodeForLabel(p)]) == Success(p)
  {
    DecodeEncodeForLabel(p);
  }
}
