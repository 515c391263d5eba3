/**
 * Parsing and checking of the payment provider's signature header
 * `t=<unix-seconds>,v1=<hex-hmac>`. The HMAC-SHA256 primitive is an
 * uninterpreted function parameter and the clock reading `now` (whole
 * seconds) is an input.
 */
module WebhookSignature {
  import opened Wrappers
  import opened JsText

  /** The tolerance window, in seconds, that `verify` applies by default. */
  const DefaultTolerance: int := 300

  const InvalidFormat: string := "Invalid signature format"

  datatype ParsedSignature = ParsedSignature(timestamp: int, signature: string)

  /**
   * The fields the parser accumulates: `timestamp` is `None` for `NaN`, and
   * `signature` is `None` when a `v1` part had no `=`.
   */
  datatype Fields = Fields(timestamp: Option<int>, signature: Option<string>)

  /** The accumulator before any part is read: `{ timestamp: 0, signature: '' }`. */
  const Initial: Fields := Fields(Some(0), Some(""))

  /** `const [key, value] = part.split('=')`: the text before the first `=` and the piece after it. */
  function KeyOf(part: string): (key: string)
    ensures '=' !in key
    ensures |key| <= |part| && key == part[..|key|]
  {
    assert Split(part, '=')[0] == part[..|Split(part, '=')[0]|] by {
      SplitFirstIsPrefix(part, '=');
    }
    Split(part, '=')[0]
  }

  function ValueOf(part: string): (value: Option<string>)
    ensures value.Some? ==> '=' !in value.value
    ensures value.None? <==> '=' !in part
  {
    var kv := Split(part, '=');
    SplitSingleton(part, '=');
    if |kv| > 1 then Some(kv[1]) else None
  }

  /** One iteration of the parsing loop: `t` sets the timestamp, `v1` the signature, other keys are ignored. */
  function Absorb(acc: Fields, part: string): Fields {
    var key := KeyOf(part);
    var value := ValueOf(part);
    if key == "t" then acc.(timestamp := ParseInt(GetOr(value, "undefined")))
    else if key == "v1" then acc.(signature := value)
    else acc
  }

  /** The parsing loop over all comma-separated parts, left to right. */
  function AbsorbAll(acc: Fields, parts: seq<string>): Fields
    decreases |parts|
  {
    if |parts| == 0 then acc else AbsorbAll(Absorb(acc, parts[0]), parts[1..])
  }

  /**
   * `parseSignature`: `None` for a missing or empty header, and for a
   * timestamp that is zero or not a number or a signature that is empty.
   */
  function ParseSignature(header: Option<string>): (r: Option<ParsedSignature>)
    ensures header.None? || header == Some("") ==> r.None?
    ensures r.Some? ==> r.value.timestamp != 0 && r.value.signature != ""
  {
    if header.None? || header.value == "" then None
    else
      var f := AbsorbAll(Initial, Split(header.value, ','));
      if f.timestamp.None? || f.timestamp.value == 0 || f.signature.None? || f.signature.value == "" then None
      else Some(ParsedSignature(f.timestamp.value, f.signature.value))
  }

  // ------------------------------------------------------ last occurrence wins

  /** Reference reading: the value of the LAST part carrying `key`, if any part does. */
  function LastValue(parts: seq<string>, key: string): (r: Option<Option<string>>)
    decreases |parts|
  {
    if |parts| == 0 then None
    else if KeyOf(parts[|parts| - 1]) == key then Some(ValueOf(parts[|parts| - 1]))
    else LastValue(parts[..|parts| - 1], key)
  }

  /** The field a reference reading yields, starting from the parser's initial accumulator. */
  function TimestampFrom(last: Option<Option<string>>, init: Option<int>): Option<int> {
    match last
    case None => init
    case Some(v) => ParseInt(GetOr(v, "undefined"))
  }

  function SignatureFrom(last: Option<Option<string>>, init: Option<string>): Option<string> {
    match last
    case None => init
    case Some(v) => v
  }

  /** The left-to-right loop peeled at its last iteration. */
  lemma {:induction false} AbsorbAllSnoc(acc: Fields, parts: seq<string>)
    requires |parts| >= 1
    ensures AbsorbAll(acc, parts) == Absorb(AbsorbAll(acc, parts[..|parts| - 1]), parts[|parts| - 1])
    decreases |parts|
  {
    if |parts| > 1 {
      AbsorbAllSnoc(Absorb(acc, parts[0]), parts[1..]);
      assert parts[1..][..|parts[1..]| - 1] == parts[..|parts| - 1][1..];
    }
  }

  /**
   * The loop's outcome agrees with the reference reading: for both `t` and
   * `v1`, a later occurrence overrides an earlier one, and a key that never
   * occurs leaves the initial value.
   */
  lemma {:induction false} AbsorbAllIsLastOccurrence(acc: Fields, parts: seq<string>)
    ensures AbsorbAll(acc, parts).timestamp == TimestampFrom(LastValue(parts, "t"), acc.timestamp)
    ensures AbsorbAll(acc, parts).signature == SignatureFrom(LastValue(parts, "v1"), acc.signature)
    decreases |parts|
  {
    if |parts| > 0 {
      AbsorbAllSnoc(acc, parts);
      AbsorbAllIsLastOccurrence(acc, parts[..|parts| - 1]);
    }
  }

  /** `parseSignature` stated through the reference reading of the header's parts. */
  lemma ParseSignatureSpec(header: string)
    requires header != ""
    ensures var parts := Split(header, ',');
            var t := TimestampFrom(LastValue(parts, "t"), Some(0));
            var v := SignatureFrom(LastValue(parts, "v1"), Some(""));
            ParseSignature(Some(header)) ==
              if t.Some? && t.value != 0 && v.Some? && v.value != "" then Some(ParsedSignature(t.value, v.value))
              else None
  {
    AbsorbAllIsLastOccurrence(Initial, Split(header, ','));
  }

  // ------------------------------------------------------------- round trip

  /** The header the provider sends for a timestamp and a signature. */
  function Format(timestamp: int, signature: string): string {
    "t=" + Decimal(timestamp) + ",v1=" + signature
  }

  lemma {:induction false} KeyValueOfPair(key: string, value: string)
    requires '=' !in key && '=' !in value
    ensures KeyOf(key + "=" + value) == key
    ensures ValueOf(key + "=" + value) == Some(value)
  {
    SplitPair(key, value, '=');
  }

  lemma DecimalHasNoSeparators(n: int)
    ensures ',' !in Decimal(n) && '=' !in Decimal(n)
  {
    var d := Decimal(n);
    assert forall i :: 0 <= i < |d| ==> d[i] == '-' || IsDigit(d[i]);
  }

  /** The two parts of a formatted header. */
  lemma {:induction false} SplitFormat(timestamp: int, signature: string)
    requires ',' !in signature
    ensures Split(Format(timestamp, signature), ',') == ["t=" + Decimal(timestamp), "v1=" + signature]
  {
    var d := Decimal(timestamp);
    DecimalHasNoSeparators(timestamp);
    var p1 := "t=" + d;
    var p2 := "v1=" + signature;
    assert ',' !in p1 by {
      assert forall i :: 0 <= i < |p1| ==> p1[i] == 't' || p1[i] == '=' || p1[i] == d[i - 2];
    }
    assert ',' !in p2 by {
      assert forall i :: 0 <= i < |p2| ==> p2[i] == 'v' || p2[i] == '1' || p2[i] == '=' || p2[i] == signature[i - 3];
    }
    assert Format(timestamp, signature) == p1 + [','] + p2;
    SplitPair(p1, p2, ',');
  }

  lemma {:induction false} AbsorbTimestampPart(acc: Fields, d: string)
    requires '=' !in d
    ensures Absorb(acc, "t=" + d) == acc.(timestamp := ParseInt(d))
  {
    assert "t=" + d == "t" + "=" + d;
    KeyValueOfPair("t", d);
  }

  lemma {:induction false} AbsorbSignaturePart(acc: Fields, sig: string)
    requires '=' !in sig
    ensures Absorb(acc, "v1=" + sig) == acc.(signature := Some(sig))
  {
    assert "v1=" + sig == "v1" + "=" + sig;
    KeyValueOfPair("v1", sig);
  }

  /** A well-formed header parses back to the timestamp and signature it was made from. */
  lemma {:induction false} ParseFormat(timestamp: int, signature: string)
    requires timestamp != 0 && signature != ""
    requires ',' !in signature && '=' !in signature
    ensures ParseSignature(Some(Format(timestamp, signature))) == Some(ParsedSignature(timestamp, signature))
  {
    var d := Decimal(timestamp);
    var p1 := "t=" + d;
    var p2 := "v1=" + signature;
    var parts := [p1, p2];
    SplitFormat(timestamp, signature);
    DecimalHasNoSeparators(timestamp);
    ParseIntDecimal(timestamp);
    AbsorbTimestampPart(Initial, d);
    var f1 := Absorb(Initial, p1);
    AbsorbSignaturePart(f1, signature);
    var f2 := Absorb(f1, p2);
    assert f2 == Fields(Some(timestamp), Some(signature));
    AbsorbAllPair(Initial, p1, p2);
  }

  /** Folding over two parts absorbs the first, then the second. */
  lemma {:induction false} AbsorbAllPair(acc: Fields, p1: string, p2: string)
    ensures AbsorbAll(acc, [p1, p2]) == Absorb(Absorb(acc, p1), p2)
  {
    assert [p1, p2][1..] == [p2] && [p2][1..] == [];
    assert AbsorbAll(acc, [p1, p2]) == AbsorbAll(Absorb(acc, p1), [p2]);
    assert AbsorbAll(Absorb(acc, p1), [p2]) == AbsorbAll(Absorb(Absorb(acc, p1), p2), []);
  }

  // ----------------------------------------------------------------- verify

  function Abs(x: int): nat { if x < 0 then -x else x }

  /**
   * Comparison by length first and then by content (`safeCompare`). Dafny
   * strings hold Unicode scalar values, whose UTF-8 encoding is injective, so
   * the byte-wise comparison of equal-length strings is string equality.
   */
  function SafeCompare(a: string, b: string): (r: bool)
    ensures |a| != |b| ==> !r
    ensures r <==> a == b
  {
    if |a| != |b| then false else a == b
  }

  /**
   * The byte comparison `timingSafeEqual` performs: every position is
   * examined, with no early exit on the first difference.
   */
  method ConstantTimeEquals(a: string, b: string) returns (equal: bool)
    requires |a| == |b|
    ensures equal <==> a == b
  {
    var same := true;
    var i := 0;
    while i < |a|
      invariant 0 <= i <= |a|
      invariant same <==> a[..i] == b[..i]
    {
      assert a[..i + 1] == a[..i] + [a[i]] && b[..i + 1] == b[..i] + [b[i]];
      same := same && a[i] == b[i];
      i := i + 1;
    }
    assert a[..i] == a && b[..i] == b;
    equal := same;
  }

  /** `safeCompare` as it runs: the length test, then the byte comparison over every position. */
  method SafeCompareBytes(a: string, b: string) returns (r: bool)
    ensures r == SafeCompare(a, b)
    ensures r <==> a == b
  {
    if |a| != |b| {
      return false;
    }
    r := ConstantTimeEquals(a, b);
  }

  /** The text `verify` signs: the timestamp in decimal followed by the raw body. */
  function SignedPayload(timestamp: int, rawBody: string): string {
    Decimal(timestamp) + rawBody
  }

  /**
   * `verify`: an error for an unparseable header or a timestamp more than
   * `tolerance` seconds away from `now`; otherwise whether the HMAC of the
   * signed payload matches the header's signature.
   */
  function Verify(header: Option<string>, rawBody: string, secret: string, tolerance: int, now: int,
                  hmac: (string, string) -> string): (r: Result<bool, string>)
    ensures ParseSignature(header).None? ==> r == Err(InvalidFormat)
    ensures ParseSignature(header).Some? ==>
              (r.Err? <==> Abs(now - ParseSignature(header).value.timestamp) > tolerance)
    ensures r == Ok(true) <==>
              ParseSignature(header).Some? &&
              Abs(now - ParseSignature(header).value.timestamp) <= tolerance &&
              hmac(secret, SignedPayload(ParseSignature(header).value.timestamp, rawBody))
                == ParseSignature(header).value.signature
  {
    match ParseSignature(header)
    case None => Err(InvalidFormat)
    case Some(p) =>
      var difference := Abs(now - p.timestamp);
      if difference > tolerance then
        Err("Timestamp outside tolerance range. Difference: " + Decimal(difference) + "s")
      else
        Ok(SafeCompare(hmac(secret, SignedPayload(p.timestamp, rawBody)), p.signature))
  }

  /** `verify` called without `toleranceSeconds`: the window is five minutes either side of `now`. */
  function VerifyDefault(header: Option<string>, rawBody: string, secret: string, now: int,
                         hmac: (string, string) -> string): (r: Result<bool, string>)
    ensures ParseSignature(header).None? ==> r == Err(InvalidFormat)
    ensures ParseSignature(header).Some? ==>
              (r.Err? <==> Abs(now - ParseSignature(header).value.timestamp) > 300)
    ensures r == Ok(true) <==>
              ParseSignature(header).Some? &&
              Abs(now - ParseSignature(header).value.timestamp) <= 300 &&
              hmac(secret, SignedPayload(ParseSignature(header).value.timestamp, rawBody))
                == ParseSignature(header).value.signature
  {
    Verify(header, rawBody, secret, DefaultTolerance, now, hmac)
  }

  /** A header signed over `rawBody` within the window is accepted; the window's edge is inside it. */
  lemma {:induction false} VerifyAcceptsGenuine(timestamp: int, rawBody: string, secret: string, tolerance: int,
                                                now: int, hmac: (string, string) -> string)
    requires timestamp != 0
    requires var sig := hmac(secret, SignedPayload(timestamp, rawBody));
             sig != "" && ',' !in sig && '=' !in sig
    requires Abs(now - timestamp) <= tolerance
    ensures Verify(Some(Format(timestamp, hmac(secret, SignedPayload(timestamp, rawBody)))),
                   rawBody, secret, tolerance, now, hmac) == Ok(true)
  {
    ParseFormat(timestamp, hmac(secret, SignedPayload(timestamp, rawBody)));
  }

  /**
   * With an HMAC that tells different messages apart, a header that verifies
   * for one body is rejected for any other body.
   */
  lemma {:induction false} VerifyRejectsTamperedBody(header: Option<string>, body: string, tampered: string,
                                                     secret: string, tolerance: int, now: int,
                                                     hmac: (string, string) -> string)
    requires forall m1, m2 :: hmac(secret, m1) == hmac(secret, m2) ==> m1 == m2
    requires Verify(header, body, secret, tolerance, now, hmac) == Ok(true)
    requires tampered != body
    ensures Verify(header, tampered, secret, tolerance, now, hmac) == Ok(false)
  {
    var p := ParseSignature(header).value;
    var d := Decimal(p.timestamp);
    assert (d + tampered)[|d|..] == tampered && (d + body)[|d|..] == body;
  }
}
