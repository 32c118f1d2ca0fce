/**
 * Conditional GET support: `checkIfModifiedSince` and `checkIfNoneMatchEtag`,
 * in the two copies the library keeps (`HttpServletMx` and `Servlets`).
 * Both answer whether the resource must be sent again; when it need not be,
 * they set the status 304 (Not Modified).
 */
module ConditionalRequests {
  import opened Wrappers
  import opened JavaText
  import opened ServletModel

  const IF_MODIFIED_SINCE := "If-Modified-Since"
  const IF_NONE_MATCH := "If-None-Match"
  const ETAG := "ETag"

  /**
   * The resource is to be sent: the client gave no date, or the resource
   * changed at least one second after it. HTTP dates have one-second
   * resolution, so a change within the same second as the client's date
   * does not count.
   */
  predicate ChangedSince(lastModified: int, ifModifiedSince: int)
  {
    ifModifiedSince == -1 || lastModified >= ifModifiedSince + 1000
  }

  /** For a whole-second client date, the one-second rule means: a later second. */
  lemma {:induction false} ChangedSinceIsLaterSecond(lastModified: int, ifModifiedSince: int)
    requires lastModified >= 0 && ifModifiedSince >= 0 && ifModifiedSince % 1000 == 0
    ensures ChangedSince(lastModified, ifModifiedSince) <==> lastModified / 1000 > ifModifiedSince / 1000
  {
    var k := ifModifiedSince / 1000;
    assert ifModifiedSince == 1000 * k;
    var q, m := lastModified / 1000, lastModified % 1000;
    assert lastModified == 1000 * q + m && 0 <= m < 1000;
    if q > k {
      assert 1000 * q >= 1000 * (k + 1);
    } else {
      assert 1000 * q <= 1000 * k;
    }
  }

  /** `HttpServletMx.checkIfModifiedSince`. */
  method MxCheckIfModifiedSince(request: Request, response: Response, lastModified: int) returns (modified: bool)
    modifies response
    ensures modified <==> ChangedSince(lastModified, request.DateHeader(IF_MODIFIED_SINCE))
    ensures response.status == if modified then old(response.status) else SC_NOT_MODIFIED
    ensures response.headers == old(response.headers)
  {
    var ifModifiedSince := request.DateHeader(IF_MODIFIED_SINCE);
    if ifModifiedSince == -1 || lastModified >= ifModifiedSince + 1000 {
      return true;
    }
    response.SetStatus(SC_NOT_MODIFIED);
    return false;
  }

  /** `Servlets.checkIfModifiedSince`: the same test written negated. */
  method ServletsCheckIfModifiedSince(request: Request, response: Response, lastModified: int) returns (modified: bool)
    modifies response
    ensures modified <==> ChangedSince(lastModified, request.DateHeader(IF_MODIFIED_SINCE))
    ensures response.status == if modified then old(response.status) else SC_NOT_MODIFIED
    ensures response.headers == old(response.headers)
  {
    var ifModifiedSince := request.DateHeader(IF_MODIFIED_SINCE);
    if ifModifiedSince != -1 && lastModified < ifModifiedSince + 1000 {
      response.SetStatus(SC_NOT_MODIFIED);
      return false;
    }
    return true;
  }

  /**
   * The client already holds `etag`: the header is "*", or one of its
   * comma-separated tags, trimmed, is `etag` character for character.
   */
  predicate EtagHeld(ifNoneMatch: Option<string>, etag: string)
  {
    ifNoneMatch.Some? &&
      (ifNoneMatch.value == "*" ||
       exists i :: 0 <= i < |CommaTokens(ifNoneMatch.value)| && Trim(CommaTokens(ifNoneMatch.value)[i]) == etag)
  }

  /** A list of tags that names `etag` (with no blank ends) is a hit. */
  lemma ListedEtagIsHeld(tags: seq<string>, etag: string)
    requires |tags| >= 1
    requires forall i :: 0 <= i < |tags| ==> ',' !in tags[i]
    requires etag in tags && etag != "" && Trim(etag) == etag
    ensures EtagHeld(Some(JoinWith(tags, ',')), etag)
  {
    var header := JoinWith(tags, ',');
    if header != "*" {
      CommaTokensOfJoin(tags);
      var toks := CommaTokens(header);
      assert etag in toks;
      var i :| 0 <= i < |toks| && toks[i] == etag;
      assert Trim(toks[i]) == etag;
    }
  }

  /** A list of tags none of which trims to `etag` is a miss, unless it is "*". */
  lemma UnlistedEtagIsNotHeld(tags: seq<string>, etag: string)
    requires |tags| >= 1
    requires forall i :: 0 <= i < |tags| ==> ',' !in tags[i]
    requires forall i :: 0 <= i < |tags| ==> Trim(tags[i]) != etag
    requires JoinWith(tags, ',') != "*"
    ensures !EtagHeld(Some(JoinWith(tags, ',')), etag)
  {
    var header := JoinWith(tags, ',');
    CommaTokensOfJoin(tags);
    var toks := CommaTokens(header);
    forall i | 0 <= i < |toks|
      ensures Trim(toks[i]) != etag
    {
      assert toks[i] in tags;
    }
  }

  /** Scans the trimmed tokens for `etag`, as the tokenizer loops of both copies do. */
  method ScanTokens(header: string, etag: string) returns (matched: bool)
    ensures matched <==> exists i :: 0 <= i < |CommaTokens(header)| && Trim(CommaTokens(header)[i]) == etag
  {
    var tokens := CommaTokens(header);
    matched := false;
    var i := 0;
    while !matched && i < |tokens|
      invariant 0 <= i <= |tokens|
      invariant matched ==> 0 < i && Trim(tokens[i - 1]) == etag
      invariant !matched ==> forall k :: 0 <= k < i ==> Trim(tokens[k]) != etag
    {
      var token := Trim(tokens[i]);
      if token == etag {
        matched := true;
      }
      i := i + 1;
    }
    if matched {
      assert Trim(CommaTokens(header)[i - 1]) == etag;
    }
  }

  /**
   * `HttpServletMx.checkIfNoneMatchEtag`: on a hit, 304 and no ETag header;
   * otherwise the ETag header is set, also when the request has no
   * If-None-Match header.
   */
  method MxCheckIfNoneMatchEtag(request: Request, response: Response, etag: string) returns (modified: bool)
    modifies response
    ensures modified <==> !EtagHeld(request.Header(IF_NONE_MATCH), etag)
    ensures !modified ==> response.status == SC_NOT_MODIFIED && response.headers == old(response.headers)
    ensures modified ==> response.status == old(response.status) && response.headers == old(response.headers)[ETAG := etag]
  {
    var ifNoneMatch := request.Header(IF_NONE_MATCH);
    var matched;
    if ifNoneMatch.None? {
      matched := false;
    } else if ifNoneMatch.value == "*" {
      matched := true;
    } else {
      matched := ScanTokens(ifNoneMatch.value, etag);
    }
    if matched {
      response.SetStatus(SC_NOT_MODIFIED);
      return false;
    }
    response.SetHeader(ETAG, etag);
    return true;
  }

  /**
   * `Servlets.checkIfNoneMatchEtag`: on a hit, 304 and the ETag header;
   * otherwise the response is left as it was.
   */
  method ServletsCheckIfNoneMatchEtag(request: Request, response: Response, etag: string) returns (modified: bool)
    modifies response
    ensures modified <==> !EtagHeld(request.Header(IF_NONE_MATCH), etag)
    ensures !modified ==> response.status == SC_NOT_MODIFIED && response.headers == old(response.headers)[ETAG := etag]
    ensures modified ==> response.status == old(response.status) && response.headers == old(response.headers)
  {
    var headerValue := request.Header(IF_NONE_MATCH);
    if headerValue.Some? {
      var conditionSatisfied := false;
      if headerValue.value == "*" {
        conditionSatisfied := true;
      } else {
        conditionSatisfied := ScanTokens(headerValue.value, etag);
      }
      if conditionSatisfied {
        response.SetStatus(SC_NOT_MODIFIED);
        response.SetHeader(ETAG, etag);
        return false;
      }
    }
    return true;
  }
}
