/**
 * The failures a call can end with, as a tagged kind rather than an error
 * object whose `name` is inspected. Only `AbortError` carries the name the
 * retry policy looks for.
 */
module Errors {
  import opened Schema
  import opened Text

  datatype Error =
    | AbortError                                  // cancellation, before or during the transport call
    | NetworkError                                // the transport produced no response object
    | ApiError(status: nat, statusText: string)   // a response whose `ok` flag is false
    | DecodeError                                 // the body is not well-formed JSON
    | ValidationError(issues: seq<Issue>)         // the body does not match the record schema
    | OtherError(message: string)                 // any other failure, e.g. the transport rejecting

  /** The errors the SDK raises itself (as opposed to passing them through). */
  predicate RaisedBySdk(e: Error) {
    e.AbortError? || e.NetworkError? || e.ApiError?
  }

  const SdkPrefix := "NASA_SDK_ERROR: "

  /** The message of an error the SDK raises itself. */
  function SdkMessage(e: Error): string
    requires RaisedBySdk(e)
  {
    match e
    case AbortError => "Aborted"
    case NetworkError => SdkPrefix + "Network request failed to return a response"
    case ApiError(status, statusText) => SdkPrefix + NatToDecimal(status) + " " + statusText
  }

  /** Network and API failures are recognisable by their common prefix. */
  lemma SdkPrefixed(e: Error)
    requires e.NetworkError? || e.ApiError?
    ensures |SdkMessage(e)| > |SdkPrefix| && SdkMessage(e)[..|SdkPrefix|] == SdkPrefix
  {
  }

  /** The position of the first space in `s`, or `|s|` when there is none. */
  function SpaceIndex(s: string): nat {
    if s == [] || s[0] == ' ' then 0 else 1 + SpaceIndex(s[1..])
  }

  lemma {:induction false} SpaceIndexOfJoin(a: string, x: string)
    requires ' ' !in a
    ensures SpaceIndex(a + " " + x) == |a|
  {
    if a != [] {
      assert (a + " " + x)[1..] == a[1..] + " " + x;
      SpaceIndexOfJoin(a[1..], x);
    }
  }

  /** Splitting at the first space recovers both halves when the left half has none. */
  lemma SplitAtSpace(a: string, x: string, b: string, y: string)
    requires ' ' !in a && ' ' !in b
    requires a + " " + x == b + " " + y
    ensures a == b && x == y
  {
    var s := a + " " + x;
    SpaceIndexOfJoin(a, x);
    SpaceIndexOfJoin(b, y);
    assert a == s[..|a|] == b;
    assert x == s[|a| + 1..] == y;
  }

  /** The message of an API failure determines its status and status text. */
  lemma ApiMessageInjective(s1: nat, t1: string, s2: nat, t2: string)
    requires SdkMessage(ApiError(s1, t1)) == SdkMessage(ApiError(s2, t2))
    ensures s1 == s2 && t1 == t2
  {
    var d1, d2 := NatToDecimal(s1), NatToDecimal(s2);
    var m1 := SdkMessage(ApiError(s1, t1));
    assert m1 == SdkPrefix + (d1 + " " + t1);
    assert m1 == SdkPrefix + (d2 + " " + t2);
    assert d1 + " " + t1 == m1[|SdkPrefix|..] == d2 + " " + t2;
    assert ' ' !in d1 by { assert !IsDigit(' '); }
    assert ' ' !in d2 by { assert !IsDigit(' '); }
    SplitAtSpace(d1, t1, d2, t2);
    NatToDecimalInjective(s1, s2);
  }

  /** The message of a 500 answer. */
  lemma ServerErrorMessage()
    ensures SdkMessage(ApiError(500, "Internal Server Error")) == "NASA_SDK_ERROR: 500 Internal Server Error"
  {
    assert NatToDecimal(500) == "500" by {
      assert NatToDecimal(5) == "5";
      assert NatToDecimal(50) == "50";
    }
    assert SdkPrefix + "500" + " " + "Internal Server Error" == "NASA_SDK_ERROR: 500 Internal Server Error";
  }
}
