/**
 * Reading request parameters (`HttpServletMx.getParameter`,
 * `HttpServletMx.getHeaderOrParameter`, `HttpServlets.getParameter`,
 * `HttpServlets.getParametersStartingWith`) and the per-request message
 * and error texts of `HttpServlets`, kept as `StringBuilder` attributes.
 */
module RequestParameters {
  import opened Wrappers
  import opened JavaLang
  import opened ServletModel

  const MESSAGE_KEY := "message_key"
  const ERROR_KEY := "error_key"

  /**
   * `HttpServletMx.getParameter`: the default when the parameter is
   * missing, otherwise its first value passed through `decode`
   * (`URLDecoder.decode` with UTF-8).
   */
  function MxGetParameter(request: Request, name: string, defaultValue: Option<string>, decode: string -> string): (r: Option<string>)
    ensures request.Parameter(name).None? ==> r == defaultValue
    ensures request.Parameter(name).Some? ==> r == Some(decode(request.parameters[name][0]))
  {
    var value := request.Parameter(name);
    if value.None? then defaultValue else Some(decode(value.value))
  }

  /**
   * `HttpServletMx.getHeaderOrParameter`: the header, else the parameter,
   * else the default; only a found value is decoded.
   */
  function GetHeaderOrParameter(request: Request, name: string, defaultValue: Option<string>, decode: string -> string): (r: Option<string>)
    ensures name in request.headers ==> r == Some(decode(request.headers[name]))
    ensures name !in request.headers ==> r == MxGetParameter(request, name, defaultValue, decode)
  {
    var value := request.Header(name);
    var value' := if value.None? then request.Parameter(name) else value;
    if value'.None? then defaultValue else Some(decode(value'.value))
  }

  /** The default comes back only when neither a header nor a parameter of that name exists. */
  lemma DefaultOnlyWhenNothingFound(request: Request, name: string, defaultValue: Option<string>, decode: string -> string)
    ensures (name !in request.headers && request.Parameter(name).None?) ==>
      GetHeaderOrParameter(request, name, defaultValue, decode) == defaultValue
    ensures (name in request.headers || request.Parameter(name).Some?) ==>
      GetHeaderOrParameter(request, name, defaultValue, decode).Some?
  {
  }

  /** `HttpServlets.getParameter`: the first value, or "" when the parameter is missing. */
  function GetParameter(request: Request, property: string): (r: string)
    ensures request.Parameter(property).None? ==> r == ""
    ensures request.Parameter(property).Some? ==> r == request.parameters[property][0]
  {
    var value := request.Parameter(property);
    if value.None? then "" else value.value
  }

  /** `HttpServlets.getParameter` is `HttpServletMx.getParameter` with default "" and no decoding. */
  lemma GetParameterIsUndecodedWithEmptyDefault(request: Request, property: string)
    ensures MxGetParameter(request, property, Some(""), s => s) == Some(GetParameter(request, property))
  {
  }

  /** The values of one parameter in the result map: a lone value as a string, several as the array. */
  datatype ParamValue = Single(value: string) | Multiple(values: seq<string>)

  /** How a non-empty list of values is stored. */
  function Packed(values: seq<string>): (r: ParamValue)
    requires |values| > 0
    ensures r.Single? <==> |values| == 1
    ensures r.Single? ==> r.value == values[0]
    ensures r.Multiple? ==> r.values == values
  {
    if |values| > 1 then Multiple(values) else Single(values[0])
  }

  /** `String.startsWith`: `s` is `prefix` followed by the rest of `s`. */
  predicate StartsWith(s: string, prefix: string)
  {
    |prefix| <= |s| && prefix + s[|prefix|..] == s
  }

  /**
   * The parameters whose name starts with `prefix` and that have at least
   * one value, keyed by the rest of the name.
   */
  function Selected(parameters: map<string, seq<string>>, prefix: string): map<string, ParamValue>
  {
    map name | name in parameters && StartsWith(name, prefix) && |parameters[name]| > 0
      :: name[|prefix|..] := Packed(parameters[name])
  }

  /** A key of the selection is a parameter name with the prefix removed, and keeps that parameter's values. */
  lemma {:induction false} SelectedMeaning(parameters: map<string, seq<string>>, prefix: string, u: string)
    ensures u in Selected(parameters, prefix) <==> prefix + u in parameters && |parameters[prefix + u]| > 0
    ensures u in Selected(parameters, prefix) ==> Selected(parameters, prefix)[u] == Packed(parameters[prefix + u])
  {
    var name := prefix + u;
    assert name[|prefix|..] == u;
    assert StartsWith(name, prefix);
    if u in Selected(parameters, prefix) {
      var n :| n in parameters && StartsWith(n, prefix) && |parameters[n]| > 0 && n[|prefix|..] == u;
      assert n == name;
    }
  }

  /** With the empty prefix every parameter with a value is returned under its own name. */
  lemma EmptyPrefixSelectsAll(parameters: map<string, seq<string>>)
    ensures Selected(parameters, "").Keys == set name | name in parameters && |parameters[name]| > 0
  {
    forall name | name in parameters
      ensures StartsWith(name, "") && name[0..] == name
    {
    }
  }

  /** A prefix no parameter name starts with selects nothing. */
  lemma UnmatchedPrefixSelectsNothing(parameters: map<string, seq<string>>, prefix: string)
    requires forall name :: name in parameters ==> !StartsWith(name, prefix)
    ensures Selected(parameters, prefix) == map[]
  {
  }

  /**
   * `HttpServlets.getParametersStartingWith`: a null prefix counts as "";
   * walks the parameter names and keeps those with the prefix and a value.
   */
  method GetParametersStartingWith(request: Request, prefix: Option<string>) returns (params: map<string, ParamValue>)
    ensures params == Selected(request.parameters, if prefix.None? then "" else prefix.value)
  {
    var p := if prefix.None? then "" else prefix.value;
    var paramNames := request.parameters.Keys;
    params := map[];
    while paramNames != {}
      invariant paramNames <= request.parameters.Keys
      invariant forall u :: u in params ==>
        p + u in request.parameters && p + u !in paramNames && |request.parameters[p + u]| > 0
        && params[u] == Packed(request.parameters[p + u])
      invariant forall name ::
        (name in request.parameters && name !in paramNames && StartsWith(name, p) && |request.parameters[name]| > 0)
        ==> name[|p|..] in params
      decreases paramNames
    {
      var paramName :| paramName in paramNames;
      if p == "" || StartsWith(paramName, p) {
        assert StartsWith(paramName, p);
        var unprefixed := paramName[|p|..];
        var values := request.parameters[paramName];
        if |values| == 0 {
        } else if |values| > 1 {
          params := params[unprefixed := Multiple(values)];
        } else {
          params := params[unprefixed := Single(values[0])];
        }
      }
      paramNames := paramNames - {paramName};
    }
    ghost var expected := Selected(request.parameters, p);
    forall u
      ensures u in params <==> u in expected
      ensures u in params ==> params[u] == expected[u]
    {
      SelectedMeaning(request.parameters, p, u);
      if p + u in request.parameters && |request.parameters[p + u]| > 0 {
        assert (p + u)[|p|..] == u;
        assert StartsWith(p + u, p);
      }
    }
    assert params.Keys == expected.Keys;
  }

  /**
   * The text accumulated under `key`: "" when nothing was appended, the
   * builder's contents otherwise, and a `ClassCastException` when the
   * attribute holds something that is not a `StringBuilder`.
   */
  function Accumulated(request: Request, key: string): (r: Result<string, JavaException>)
    reads request
    ensures key !in request.attributes ==> r == Ok("")
    ensures r.Err? <==> key in request.attributes && !request.attributes[key].Builder?
    ensures r.Err? ==> r.error == ClassCastException
  {
    match request.Attribute(key)
    case None => Ok("")
    case Some(Builder(text)) => Ok(text)
    case Some(_) => Err(ClassCastException)
  }

  /** `HttpServlets.getMessage`. */
  function GetMessage(request: Request): (r: Result<string, JavaException>)
    reads request
    ensures MESSAGE_KEY !in request.attributes ==> r == Ok("")
    ensures r.Err? <==> MESSAGE_KEY in request.attributes && !request.attributes[MESSAGE_KEY].Builder?
    ensures MESSAGE_KEY in request.attributes && request.attributes[MESSAGE_KEY].Builder? ==> r == Ok(request.attributes[MESSAGE_KEY].text)
    ensures r.Ok? && MESSAGE_KEY in request.attributes ==> request.attributes[MESSAGE_KEY] == Builder(r.value)
    ensures r.Err? ==> r.error == ClassCastException
  {
    Accumulated(request, MESSAGE_KEY)
  }

  /** `HttpServlets.getError`. */
  function GetError(request: Request): (r: Result<string, JavaException>)
    reads request
    ensures ERROR_KEY !in request.attributes ==> r == Ok("")
    ensures r.Err? <==> ERROR_KEY in request.attributes && !request.attributes[ERROR_KEY].Builder?
    ensures ERROR_KEY in request.attributes && request.attributes[ERROR_KEY].Builder? ==> r == Ok(request.attributes[ERROR_KEY].text)
    ensures r.Ok? && ERROR_KEY in request.attributes ==> request.attributes[ERROR_KEY] == Builder(r.value)
    ensures r.Err? ==> r.error == ClassCastException
  {
    Accumulated(request, ERROR_KEY)
  }

  /** `StringBuilder.append(String)`: a null string appends "null". */
  function AppendedText(message: Option<string>): string
  {
    if message.None? then "null" else message.value
  }

  /**
   * Appends `message` to the builder under `key`, creating the builder
   * first when there is none. Afterwards the accumulated text is the old
   * one followed by the message, and every other attribute is as it was.
   */
  method Append(request: Request, key: string, message: Option<string>) returns (thrown: Option<JavaException>)
    modifies request
    ensures thrown.Some? <==> old(Accumulated(request, key)).Err?
    ensures thrown.Some? ==> thrown.value == ClassCastException && request.attributes == old(request.attributes)
    ensures thrown.None? ==> Accumulated(request, key) == Ok(old(Accumulated(request, key)).value + AppendedText(message))
    ensures forall k :: k != key ==> (k in request.attributes <==> k in old(request.attributes))
    ensures forall k :: k != key && k in request.attributes ==> request.attributes[k] == old(request.attributes)[k]
    ensures request.session == old(request.session) && request.characterEncoding == old(request.characterEncoding)
  {
    var sb := request.Attribute(key);
    var text := "";
    match sb {
      case None =>
        request.SetAttribute(key, Builder(""));
      case Some(Builder(t)) =>
        text := t;
      case Some(_) =>
        return Some(ClassCastException);
    }
    request.SetAttribute(key, Builder(text + AppendedText(message)));
    return None;
  }

  /** `HttpServlets.addMessage`; the error text is left as it was. */
  method AddMessage(request: Request, message: Option<string>) returns (thrown: Option<JavaException>)
    modifies request
    ensures thrown.Some? <==> old(GetMessage(request)).Err?
    ensures thrown.None? ==> GetMessage(request) == Ok(old(GetMessage(request)).value + AppendedText(message))
    ensures GetError(request) == old(GetError(request))
  {
    thrown := Append(request, MESSAGE_KEY, message);
  }

  /** `HttpServlets.addError`; the message text is left as it was. */
  method AddError(request: Request, message: Option<string>) returns (thrown: Option<JavaException>)
    modifies request
    ensures thrown.Some? <==> old(GetError(request)).Err?
    ensures thrown.None? ==> GetError(request) == Ok(old(GetError(request)).value + AppendedText(message))
    ensures GetMessage(request) == old(GetMessage(request))
  {
    thrown := Append(request, ERROR_KEY, message);
  }
}
