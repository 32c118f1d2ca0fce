/**
 * Building query strings (`HttpMx.buildQueryString`,
 * `HTTPs.encodeParameterStringWithPrefix`) and HTTP Basic authorization
 * headers (`HttpMx.buildBasicAuthorizationHeader`, `HTTPs.encodeHttpBasic`).
 * A parameter map is the sequence of its entries in iteration order; the
 * URL encoder and the Base64 codec are passed in as functions.
 */
module QueryStrings {
  import opened Wrappers
  import opened JavaLang
  import opened JavaText

  /** A map entry: the key and a value that may be null. */
  type Param = (string, Option<JavaObject>)

  /** `key=` followed by the encoded `toString()` of the value, or nothing for a null value. */
  function EncodedPair(p: Param, encode: string -> string): string
  {
    p.0 + "=" + (if p.1.None? then "" else encode(p.1.value.text))
  }

  function EncodedPairs(params: seq<Param>, encode: string -> string): (r: seq<string>)
    ensures |r| == |params|
    ensures forall i :: 0 <= i < |r| ==> r[i] == EncodedPair(params[i], encode)
  {
    seq(|params|, i requires 0 <= i < |params| => EncodedPair(params[i], encode))
  }

  /** The pieces joined with '&': "" for no pieces. */
  function Joined(ps: seq<string>): (r: string)
    ensures ps == [] ==> r == ""
  {
    if ps == [] then "" else JoinWith(ps, '&')
  }

  /** Each piece followed by '&', as the builder loops leave them before the last '&' is cut. */
  function Terminated(ps: seq<string>): (r: string)
    ensures ps != [] ==> |r| > 0 && r[|r| - 1] == '&'
    ensures ps == [] ==> r == ""
  {
    if ps == [] then "" else Terminated(ps[..|ps| - 1]) + ps[|ps| - 1] + "&"
  }

  /** Joining one more piece puts a delimiter before it. */
  lemma {:induction false} JoinWithSnoc(ps: seq<string>, x: string, d: char)
    requires |ps| >= 1
    ensures JoinWith(ps + [x], d) == JoinWith(ps, d) + [d] + x
  {
    if |ps| > 1 {
      assert (ps + [x])[1..] == ps[1..] + [x];
      JoinWithSnoc(ps[1..], x, d);
    }
  }

  /** Cutting the last '&' from the terminated pieces leaves them joined with '&'. */
  lemma {:induction false} TerminatedCut(ps: seq<string>)
    requires ps != []
    ensures Terminated(ps)[..|Terminated(ps)| - 1] == Joined(ps)
  {
    var init, last := ps[..|ps| - 1], ps[|ps| - 1];
    var t := Terminated(ps);
    assert t == Terminated(init) + last + "&";
    assert t[..|t| - 1] == Terminated(init) + last;
    if init != [] {
      TerminatedCut(init);
      var ti := Terminated(init);
      assert ti == ti[..|ti| - 1] + "&";
      assert init + [last] == ps;
      JoinWithSnoc(init, last, '&');
    }
  }

  /** Terminating one more piece. */
  lemma TerminatedStep(ps: seq<string>, i: nat)
    requires i < |ps|
    ensures Terminated(ps[..i + 1]) == Terminated(ps[..i]) + ps[i] + "&"
  {
    assert ps[..i + 1][..i] == ps[..i];
  }

  /**
   * `HttpMx.buildQueryString`: `key=value` for each entry, the value
   * URL-encoded and left empty when null, separated by '&'.
   */
  method BuildQueryString(params: seq<Param>, encode: string -> string) returns (r: string)
    ensures r == Joined(EncodedPairs(params, encode))
  {
    ghost var pairs := EncodedPairs(params, encode);
    var sb := "";
    var i := 0;
    while i < |params|
      invariant 0 <= i <= |params|
      invariant sb == Terminated(pairs[..i])
    {
      sb := AppendPair(sb, params[i], encode);
      TerminatedStep(pairs, i);
      i := i + 1;
    }
    assert pairs[..i] == pairs;
    if |sb| > 0 {
      TerminatedCut(pairs);
      sb := sb[..|sb| - 1];
    }
    return sb;
  }

  /** The loop body of `buildQueryString`: one `key=value` pair and its '&'. */
  method AppendPair(sb: string, entry: Param, encode: string -> string) returns (sb': string)
    ensures sb' == sb + EncodedPair(entry, encode) + "&"
  {
    var key, value := entry.0, entry.1;
    sb' := sb + key + "=";
    if value.Some? {
      sb' := sb' + encode(value.value.text);
    }
    sb' := sb' + "&";
  }

  /**
   * When neither the keys nor the encoded values hold '&', splitting the
   * query string at '&' gives back exactly the `key=value` pairs.
   */
  lemma QueryStringSplitsBack(params: seq<Param>, encode: string -> string)
    requires params != []
    requires forall i :: 0 <= i < |params| ==> '&' !in params[i].0
    requires forall i :: 0 <= i < |params| && params[i].1.Some? ==> '&' !in encode(params[i].1.value.text)
    ensures Pieces(Joined(EncodedPairs(params, encode)), '&') == EncodedPairs(params, encode)
  {
    var pairs := EncodedPairs(params, encode);
    forall i | 0 <= i < |pairs|
      ensures '&' !in pairs[i]
    {
      assert pairs[i] == params[i].0 + "=" + (if params[i].1.None? then "" else encode(params[i].1.value.text));
    }
    JoinRoundTrip(pairs, '&');
  }

  /** The entries "name"="foo", "age"=1 and "xyz"=null give "name=foo&age=1&xyz=" when encoding leaves them alone. */
  lemma QueryStringExample(encode: string -> string)
    requires encode("foo") == "foo" && encode("1") == "1"
    ensures var params := [("name", Some(JavaObject("class java.lang.String", "foo", Scalar))),
                           ("age", Some(JavaObject("class java.lang.Integer", "1", Scalar))),
                           ("xyz", None)];
      Joined(EncodedPairs(params, encode)) == "name=foo&age=1&xyz="
  {
    var params := [("name", Some(JavaObject("class java.lang.String", "foo", Scalar))),
                   ("age", Some(JavaObject("class java.lang.Integer", "1", Scalar))),
                   ("xyz", None)];
    ExamplePairs(params, encode);
    JoinedThree("name=foo", "age=1", "xyz=");
    assert "name=foo" + "&" + "age=1" + "&" + "xyz=" == "name=foo&age=1&xyz=";
  }

  /** The pairs of the example above, one by one. */
  lemma ExamplePairs(params: seq<Param>, encode: string -> string)
    requires encode("foo") == "foo" && encode("1") == "1"
    requires params == [("name", Some(JavaObject("class java.lang.String", "foo", Scalar))),
                        ("age", Some(JavaObject("class java.lang.Integer", "1", Scalar))),
                        ("xyz", None)]
    ensures EncodedPairs(params, encode) == ["name=foo", "age=1", "xyz="]
  {
    var pairs := EncodedPairs(params, encode);
    assert pairs[0] == "name=foo" && pairs[1] == "age=1" && pairs[2] == "xyz=";
  }

  /** Three pieces joined with '&'. */
  lemma JoinedThree(a: string, b: string, c: string)
    ensures Joined([a, b, c]) == a + "&" + b + "&" + c
  {
    assert [a, b, c][1..] == [b, c] && [b, c][1..] == [c];
    assert JoinWith([b, c], '&') == b + "&" + c;
    assert Joined([a, b, c]) == a + "&" + (b + "&" + c);
  }

  /** `prefix` + key + `=` + `String.valueOf(value)`; a null prefix or value reads "null". */
  function PrefixedPair(p: Param, prefix: Option<string>): string
  {
    (if prefix.None? then "null" else prefix.value) + p.0 + "=" + ValueOf(p.1)
  }

  function PrefixedPairs(params: seq<Param>, prefix: Option<string>): (r: seq<string>)
    ensures |r| == |params|
    ensures forall i :: 0 <= i < |r| ==> r[i] == PrefixedPair(params[i], prefix)
  {
    seq(|params|, i requires 0 <= i < |params| => PrefixedPair(params[i], prefix))
  }

  /**
   * `HTTPs.encodeParameterStringWithPrefix`: `prefix key=value` for each
   * entry, nothing encoded, separated by '&'.
   */
  method EncodeParameterStringWithPrefix(params: seq<Param>, prefix: Option<string>) returns (r: string)
    ensures r == Joined(PrefixedPairs(params, prefix))
  {
    ghost var pairs := PrefixedPairs(params, prefix);
    var queryStringBuilder := "";
    var i := 0;
    while i < |params|
      invariant 0 <= i <= |params|
      invariant queryStringBuilder == Terminated(pairs[..i])
    {
      queryStringBuilder := AppendEntry(queryStringBuilder, params[i], prefix);
      TerminatedStep(pairs, i);
      i := i + 1;
    }
    assert pairs[..i] == pairs;
    if |queryStringBuilder| > 0 {
      TerminatedCut(pairs);
      queryStringBuilder := queryStringBuilder[..|queryStringBuilder| - 1];
    }
    return queryStringBuilder;
  }

  /** The loop body of `encodeParameterStringWithPrefix`: one entry and its '&'. */
  method AppendEntry(sb: string, entry: Param, prefix: Option<string>) returns (sb': string)
    ensures sb' == sb + PrefixedPair(entry, prefix) + "&"
  {
    var prefixText := if prefix.None? then "null" else prefix.value;
    sb' := sb + prefixText + entry.0 + "=" + ValueOf(entry.1);
    sb' := sb' + "&";
  }

  /**
   * With the empty prefix and no null values, the two builders agree
   * wherever the encoder leaves the values alone.
   */
  lemma BuildersAgree(params: seq<Param>, encode: string -> string)
    requires forall i :: 0 <= i < |params| ==> params[i].1.Some? && encode(params[i].1.value.text) == params[i].1.value.text
    ensures Joined(PrefixedPairs(params, Some(""))) == Joined(EncodedPairs(params, encode))
  {
    var plain, encoded := PrefixedPairs(params, Some("")), EncodedPairs(params, encode);
    forall i | 0 <= i < |params|
      ensures plain[i] == encoded[i]
    {
      assert plain[i] == "" + params[i].0 + "=" + params[i].1.value.text;
      assert "" + params[i].0 == params[i].0;
    }
    assert plain == encoded;
  }

  /** They part on a null value: "xyz=" from one, "xyz=null" from the other. */
  lemma BuildersDifferOnNull(encode: string -> string)
    ensures Joined(EncodedPairs([("xyz", None)], encode)) == "xyz="
    ensures Joined(PrefixedPairs([("xyz", None)], Some(""))) == "xyz=null"
  {
  }

  /**
   * The Basic authorization header of section 2 of RFC 7617: "Basic "
   * then the Base64 form of the UTF-8 bytes of `username:password`;
   * `base64` stands for that encoding.
   */
  function BasicAuthorization(username: string, password: string, base64: string -> string): (r: string)
    ensures |r| >= 6 && r[..6] == "Basic "
  {
    "Basic " + base64(username + ":" + password)
  }

  /** The text before and after the first `c`, if there is one. */
  function SplitAtFirst(s: string, c: char): (r: Option<(string, string)>)
    ensures r.Some? ==> s == r.value.0 + [c] + r.value.1 && c !in r.value.0
    ensures r.None? ==> c !in s
  {
    if s == [] then None
    else if s[0] == c then Some(([], s[1..]))
    else match SplitAtFirst(s[1..], c)
      case None => None
      case Some((a, b)) => Some(([s[0]] + a, b))
  }

  /** The user and password a server reads back from a Basic header, `decode` undoing `base64`. */
  function Credentials(header: string, decode: string -> string): Option<(string, string)>
  {
    if |header| >= 6 && header[..6] == "Basic " then SplitAtFirst(decode(header[6..]), ':') else None
  }

  /** A user name without ':' is split off at the first ':'. */
  lemma {:induction false} SplitAtColon(username: string, password: string)
    requires ':' !in username
    ensures SplitAtFirst(username + ":" + password, ':') == Some((username, password))
  {
    if username != [] {
      assert (username + ":" + password)[1..] == username[1..] + ":" + password;
      SplitAtColon(username[1..], password);
      assert [username[0]] + username[1..] == username;
    }
  }

  /** A server that decodes the header gets the user and password back when the user name has no ':'. */
  lemma BasicRoundTrip(username: string, password: string, base64: string -> string, decode: string -> string)
    requires ':' !in username
    requires decode(base64(username + ":" + password)) == username + ":" + password
    ensures Credentials(BasicAuthorization(username, password, base64), decode) == Some((username, password))
  {
    var header := BasicAuthorization(username, password, base64);
    assert header[6..] == base64(username + ":" + password);
    SplitAtColon(username, password);
  }
}
