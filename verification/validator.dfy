/**
 * The bearer-token check in front of the endpoint, as a pure decision over
 * the configured token and the `Authorization` header.
 */
module Validator {
  import opened Wrappers

  /** The outcome of the check: let the request through, or fail it with an HTTP status. */
  datatype Decision = Accept | Reject(status: int)

  const Unauthorized: int := 401
  const BearerPrefix: string := "Bearer "

  /** Python truthiness of an optional string: present and non-empty. */
  predicate IsSet(s: Option<string>) {
    s.Some? && s.value != ""
  }

  predicate StartsWith(s: string, prefix: string) {
    |prefix| <= |s| && s[..|prefix|] == prefix
  }

  /** The index of the first occurrence of `c` in `s`, if any. */
  function IndexOf(s: string, c: char): (r: Option<nat>)
    ensures r.None? <==> c !in s
    ensures r.Some? ==> r.value < |s| && s[r.value] == c && c !in s[..r.value]
  {
    if s == [] then None
    else if s[0] == c then Some(0)
    else
      match IndexOf(s[1..], c)
      case None => None
      case Some(i) =>
        assert s[..i + 1] == [s[0]] + s[1..][..i];
        Some(i + 1)
  }

  /**
   * Python's `s.split(sep, 1)`: the whole string when `sep` does not occur,
   * otherwise the text before and the text after its first occurrence.
   */
  function SplitOnce(s: string, sep: char): (parts: seq<string>)
    ensures sep !in s ==> parts == [s]
    ensures sep in s ==> |parts| == 2 && parts[0] + [sep] + parts[1] == s && sep !in parts[0]
  {
    match IndexOf(s, sep)
    case None => [s]
    case Some(i) =>
      assert s[..i] + [sep] + s[i + 1..] == s;
      [s[..i], s[i + 1..]]
  }

  /**
   * Accept every request when no token is configured. Otherwise the header
   * must start with "Bearer " and the text after its first space must equal
   * the configured token; every failure is 401.
   */
  function ValidateToken(apiToken: Option<string>, authorization: Option<string>): (d: Decision)
    ensures d.Reject? ==> d.status == Unauthorized
    ensures !IsSet(apiToken) ==> d == Accept
    ensures IsSet(apiToken) && !(IsSet(authorization) && StartsWith(authorization.value, BearerPrefix)) ==>
      d == Reject(Unauthorized)
  {
    if !IsSet(apiToken) then Accept
    else if !IsSet(authorization) || !StartsWith(authorization.value, BearerPrefix) then
      Reject(Unauthorized)
    else
      var header := authorization.value;
      assert header[6] == ' ';
      var token := SplitOnce(header, ' ')[1];
      if token != apiToken.value then Reject(Unauthorized) else Accept
  }

  /** Past the prefix check, the extracted token is everything after "Bearer ". */
  lemma TokenAfterPrefix(header: string)
    requires StartsWith(header, BearerPrefix)
    ensures |SplitOnce(header, ' ')| == 2 && SplitOnce(header, ' ')[1] == header[|BearerPrefix|..]
  {
    assert header[6] == ' ';
    var parts := SplitOnce(header, ' ');
    assert ' ' !in header[..6];
    var i := |parts[0]|;
    assert header[i] == ' ' by {
      assert header == parts[0] + [' '] + parts[1];
    }
    assert header[..i] == parts[0];
  }

  /**
   * With a token configured, a request is accepted exactly when its header
   * is "Bearer " followed by that token.
   */
  lemma AcceptsExactly(apiToken: Option<string>, authorization: Option<string>)
    requires IsSet(apiToken)
    ensures ValidateToken(apiToken, authorization) == Accept <==>
      authorization == Some(BearerPrefix + apiToken.value)
  {
    if authorization.Some? && StartsWith(authorization.value, BearerPrefix) {
      var header := authorization.value;
      TokenAfterPrefix(header);
      assert header == BearerPrefix + header[|BearerPrefix|..];
    }
    var expected := BearerPrefix + apiToken.value;
    assert expected[..|BearerPrefix|] == BearerPrefix;
    assert expected[|BearerPrefix|..] == apiToken.value;
  }

  /** Without a configured token, even a request with no header is accepted. */
  lemma NoTokenAcceptsAll(authorization: Option<string>)
    ensures ValidateToken(None, authorization) == Accept
    ensures ValidateToken(Some(""), authorization) == Accept
  {
  }

  /** Against the token "secret123": no header and a wrong token fail with 401, the right one passes. */
  lemma BearerExampleMissing()
    ensures ValidateToken(Some("secret123"), None) == Reject(Unauthorized)
  {
  }

  lemma BearerExampleWrong()
    ensures ValidateToken(Some("secret123"), Some("Bearer wrong")) == Reject(Unauthorized)
  {
    AcceptsExactly(Some("secret123"), Some("Bearer wrong"));
    assert |"Bearer wrong"| != |BearerPrefix + "secret123"|;
  }

  lemma BearerExampleRight()
    ensures ValidateToken(Some("secret123"), Some("Bearer secret123")) == Accept
  {
    var token := "secret123";
    assert BearerPrefix + token == "Bearer secret123";
    AcceptsExactly(Some(token), Some(BearerPrefix + token));
  }
}
