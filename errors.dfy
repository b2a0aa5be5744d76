/** Failure values: the adapter's own `ConsumeResponseError`
    (lib/consumeResponseError.ts) and errors thrown by the SDK, the text search
    that classifies them, and the settled value of an SDK promise. */
module Errors {
  import opened Sdk

  /** Raised for a consume response whose status code is not 200.  The body
      of such a response is kept as the SDK delivered it. */
  datatype ConsumeResponseError = ConsumeResponseError(
    message: string,
    code: int,
    requestId: Option<string>,
    body: Option<seq<MessageBody>>)

  /** A value that reaches a `catch` block or an error channel: either a
      `ConsumeResponseError` or any other error carrying a message. */
  datatype ErrorValue = ResponseError(error: ConsumeResponseError) | RequestError(message: string)

  /** How an SDK promise settles: with the broker's response, or rejected. */
  datatype Reply<+T> = Delivered(response: T) | Failed(error: ErrorValue)

  /** What an adapter operation yields to its caller, and the requests it
      issued on the way, in order. */
  datatype Outcome<+T> = Outcome(result: Reply<T>, calls: seq<SdkCall>)

  function MessageOf(e: ErrorValue): string
  {
    match e
    case ResponseError(r) => r.message
    case RequestError(m) => m
  }

  /** The text the SDK puts in the error it throws when a long poll ends
      without any message. */
  const NotExistMarker: string := "MessageNotExist"

  /** `p` occurs in `s` starting at index `i`. */
  predicate MatchAt(s: string, p: string, i: int)
  {
    0 <= i && i + |p| <= |s| && s[i..i + |p|] == p
  }

  /** `s.search(p)` for a pattern without regular-expression metacharacters:
      the first index where `p` occurs, or -1. */
  function Search(s: string, p: string): (r: int)
    ensures r == -1 || MatchAt(s, p, r)
    ensures r >= 0 ==> forall i :: 0 <= i < r ==> !MatchAt(s, p, i)
    ensures r == -1 <==> forall i :: !MatchAt(s, p, i)
    decreases |s|
  {
    if |s| < |p| then -1
    else if s[..|p|] == p then 0
    else
      var k := Search(s[1..], p);
      MatchShift(s, p);
      if k < 0 then -1 else k + 1
  }

  /** A match in `s` after its first character is a match in `s[1..]`. */
  lemma MatchShift(s: string, p: string)
    requires |s| >= 1
    ensures forall j :: 1 <= j ==> (MatchAt(s, p, j) <==> MatchAt(s[1..], p, j - 1))
  {
  }

  /** The check on every caught error in the loops of lib/index.ts:
      `e.message.search('MessageNotExist') >= 0`. */
  predicate IsNotExist(e: ErrorValue)
  {
    Search(MessageOf(e), NotExistMarker) >= 0
  }

  function DigitChar(d: nat): (c: char)
    requires d < 10
    ensures '0' <= c <= '9'
    ensures (c as int) - ('0' as int) == d
  {
    (('0' as int) + d) as char
  }

  /** Decimal digits of a non-negative integer, most significant first. */
  function NatToDecimal(n: nat): (r: string)
    ensures |r| >= 1
    ensures forall k :: 0 <= k < |r| ==> '0' <= r[k] <= '9'
    decreases n
  {
    if n < 10 then [DigitChar(n)] else NatToDecimal(n / 10) + [DigitChar(n % 10)]
  }

  /** JavaScript's rendering of an integer inside a template literal. */
  function IntToDecimal(n: int): (r: string)
    ensures forall k :: 0 <= k < |r| ==> r[k] == '-' || '0' <= r[k] <= '9'
  {
    if n < 0 then "-" + NatToDecimal(-n) else NatToDecimal(n)
  }

  /** The value a string of decimal digits denotes. */
  function DecimalValue(s: string): int
  {
    if s == [] then 0 else 10 * DecimalValue(s[..|s| - 1]) + ((s[|s| - 1] as int) - ('0' as int))
  }

  /** The rendered digits denote the number they were rendered from. */
  lemma {:induction false} DecimalRoundTrip(n: nat)
    ensures DecimalValue(NatToDecimal(n)) == n
    decreases n
  {
    if n >= 10 {
      var s := NatToDecimal(n);
      DecimalRoundTrip(n / 10);
      assert s[..|s| - 1] == NatToDecimal(n / 10);
    }
  }

  const StatusPrefix: string := "consumer response status error, code: "

  /** The message of the error built for a non-200 consume response. */
  function StatusMessage(code: int): string
  {
    StatusPrefix + IntToDecimal(code)
  }

  /** `new ConsumeResponseError(...)` for a non-200 consume response. */
  function StatusError(code: int, requestId: Option<string>, body: seq<MessageBody>): (r: ConsumeResponseError)
    ensures r.code == code && r.requestId == requestId && r.body == Some(body)
    ensures r.message == StatusMessage(code)
  {
    ConsumeResponseError(StatusMessage(code), code, requestId, Some(body))
  }

  /** The message names the status code: after the fixed prefix come the
      digits of the code. */
  lemma StatusMessageCarriesCode(code: nat)
    ensures StatusPrefix <= StatusMessage(code)
    ensures DecimalValue(StatusMessage(code)[|StatusPrefix|..]) == code
  {
    assert StatusMessage(code)[|StatusPrefix|..] == NatToDecimal(code);
    DecimalRoundTrip(code);
  }

  /** A string without the letter 'M' cannot contain the marker. */
  lemma NoMarkerWithoutCapitalM(s: string)
    requires 'M' !in s
    ensures Search(s, NotExistMarker) == -1
  {
    forall i | 0 <= i && i + |NotExistMarker| <= |s| ensures !MatchAt(s, NotExistMarker, i) {
      assert s[i..i + |NotExistMarker|][0] == s[i];
    }
  }

  /** The error built for a non-200 status is never mistaken for the
      "no message" condition, whatever the code. */
  lemma StatusErrorIsNotNotExist(code: int, requestId: Option<string>, body: seq<MessageBody>)
    ensures !IsNotExist(ResponseError(StatusError(code, requestId, body)))
  {
    var digits := IntToDecimal(code);
    assert 'M' !in StatusPrefix;
    assert 'M' !in digits by {
      forall k | 0 <= k < |digits| ensures digits[k] != 'M' {
      }
    }
    NoMarkerWithoutCapitalM(StatusPrefix + digits);
  }
}
