/**
 * `SetCharacterEncodingFilter`: a servlet filter that gives requests a
 * configured character encoding, either always (`ignore` set) or only
 * when the client sent none.
 */
module EncodingFilter {
  import opened Wrappers
  import opened JavaLang
  import opened JavaText
  import opened ServletModel

  /** The rest of the filter chain, seen only through how often it is invoked. */
  class FilterChain {
    var calls: nat

    constructor ()
      ensures calls == 0
    {
      calls := 0;
    }

    method DoFilter(request: Request, response: Response)
      modifies this
      ensures calls == old(calls) + 1
    {
      calls := calls + 1;
    }
  }

  /**
   * `StringUtils.equalsAnyIgnoreCase(ignore, null, "true", "yes")`: an
   * absent parameter, or "true" or "yes" in any case.
   */
  function IgnoreFlag(param: Option<string>): bool
  {
    param.None? || EqualsIgnoreCase(param.value, "true") || EqualsIgnoreCase(param.value, "yes")
  }

  /** Case does not matter, and anything but "true" or "yes" turns the flag off. */
  lemma IgnoreFlagExamples()
    ensures IgnoreFlag(None) && IgnoreFlag(Some("yes")) && IgnoreFlag(Some("YES")) && IgnoreFlag(Some("True"))
    ensures !IgnoreFlag(Some("no")) && !IgnoreFlag(Some("")) && !IgnoreFlag(Some("false")) && !IgnoreFlag(Some("yes "))
  {
    assert ToLower('Y') == 'y' && ToLower('E') == 'e' && ToLower('S') == 's' && ToLower('T') == 't';
    assert !EqualsIgnoreCase("yes ", "true") by {
      assert ToLower("yes "[0]) != ToLower("true"[0]);
    }
  }

  /**
   * The request encoding after the filter ran: replaced by the selected
   * encoding when the filter ignores the client's choice or the client
   * made none, and a non-null encoding is selected.
   */
  function EncodingAfter(ignore: bool, selected: Option<string>, requestEncoding: Option<string>): (r: Option<string>)
    ensures selected.None? ==> r == requestEncoding
    ensures !ignore && requestEncoding.Some? ==> r == requestEncoding
    ensures (ignore || requestEncoding.None?) && selected.Some? ==> r == selected
  {
    if (ignore || requestEncoding.None?) && selected.Some? then selected else requestEncoding
  }

  /** The encoding ends up set whenever one is selected, unless the client's own is respected. */
  lemma EncodingAfterIsSelectedOrKept(ignore: bool, selected: Option<string>, requestEncoding: Option<string>)
    ensures EncodingAfter(ignore, selected, requestEncoding) in {selected, requestEncoding}
    ensures selected.Some? ==> EncodingAfter(ignore, selected, requestEncoding).Some?
  {
  }

  /**
   * The filter fails when it would apply the selected encoding and the
   * container does not support that name.
   */
  predicate EncodingRejected(ignore: bool, selected: Option<string>, requestEncoding: Option<string>, supported: set<string>)
  {
    (ignore || requestEncoding.None?) && selected.Some? && selected.value !in supported
  }

  /**
   * A rejection happens only where the encoding would have been replaced,
   * and never when the selected name is supported or nothing is selected.
   */
  lemma RejectedOnlyWhenApplied(ignore: bool, selected: Option<string>, requestEncoding: Option<string>, supported: set<string>)
    ensures EncodingRejected(ignore, selected, requestEncoding, supported) ==>
      EncodingAfter(ignore, selected, requestEncoding) == selected && selected.value !in supported
    ensures selected.None? || selected.value in supported ==> !EncodingRejected(ignore, selected, requestEncoding, supported)
  {
  }

  class SetCharacterEncodingFilter {
    var encoding: Option<string>
    var ignore: bool

    /** A new filter has no encoding and ignores the client's choice. */
    constructor ()
      ensures encoding.None? && ignore
    {
      encoding := None;
      ignore := true;
    }

    /** `init`, with the filter configuration given by its "encoding" and "ignore" parameters. */
    method Init(encodingParam: Option<string>, ignoreParam: Option<string>)
      modifies this
      ensures encoding == encodingParam
      ensures ignore == IgnoreFlag(ignoreParam)
    {
      encoding := encodingParam;
      ignore := IgnoreFlag(ignoreParam);
    }

    /** `destroy`: forgets the encoding, so later requests keep theirs. */
    method Destroy()
      modifies this
      ensures encoding.None? && ignore == old(ignore)
    {
      encoding := None;
    }

    /** `selectEncoding`: the configured encoding, whatever the request. */
    function SelectEncoding(request: Request): Option<string>
      reads this
    {
      encoding
    }

    /**
     * `doFilter`: maybe sets the request encoding, then passes the request
     * on exactly once; an encoding the container rejects throws before the
     * chain is reached.
     */
    method DoFilter(request: Request, response: Response, chain: FilterChain, supported: set<string>) returns (thrown: Option<JavaException>)
      modifies request, chain
      ensures thrown.Some? <==> EncodingRejected(ignore, encoding, old(request.characterEncoding), supported)
      ensures thrown.Some? ==>
        thrown.value == UnsupportedEncodingException
        && request.characterEncoding == old(request.characterEncoding) && chain.calls == old(chain.calls)
      ensures thrown.None? ==>
        request.characterEncoding == EncodingAfter(ignore, encoding, old(request.characterEncoding))
        && chain.calls == old(chain.calls) + 1
      ensures request.attributes == old(request.attributes) && request.session == old(request.session)
    {
      if ignore || request.characterEncoding.None? {
        var selectedEncoding := SelectEncoding(request);
        if selectedEncoding.Some? {
          thrown := request.SetCharacterEncoding(selectedEncoding.value, supported);
          if thrown.Some? {
            return;
          }
        }
      }
      chain.DoFilter(request, response);
      thrown := None;
    }
  }
}
