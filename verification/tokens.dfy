/**
 * Form tokens kept in the HTTP session (`TokenMx` and the older `Tokens`).
 * A token is drawn at random when a form is issued, stored under a key,
 * and checked against the request parameter of the same name when the form
 * comes back. The random token is an input here. The session is an
 * attribute map that may not exist yet: `TokenMx` only reads an existing
 * one, while `Tokens` creates it on almost every call.
 */
module SessionTokens {
  import opened Wrappers
  import opened JavaLang
  import opened JavaText
  import opened ServletModel

  /** The session's attributes, or none when there is no session. */
  type Session = Option<map<string, Attr>>

  /** `(String) session.getAttribute(key)`: null when absent, a `ClassCastException` when not a string. */
  function Stored(attributes: map<string, Attr>, key: string): (r: Result<Option<string>, JavaException>)
    ensures key !in attributes ==> r == Ok(None)
    ensures r.Err? <==> key in attributes && !attributes[key].Str?
    ensures r.Ok? && r.value.Some? ==> attributes[key] == Str(r.value.value)
  {
    if key !in attributes then Ok(None)
    else match attributes[key]
      case Str(s) => Ok(Some(s))
      case _ => Err(ClassCastException)
  }

  /** The attributes of the session `getSession(true)` returns. */
  function Created(session: Session): map<string, Attr>
  {
    if session.None? then map[] else session.value
  }

  /** The session after `token` is stored under `key`, creating it if needed. */
  function Generated(session: Session, key: string, token: string): map<string, Attr>
  {
    Created(session)[key := Str(token)]
  }

  /**
   * `TokenMx.checkToken`, given the session and the request parameter
   * named `key`: false without a session or without the parameter, else
   * whether the parameter equals the stored token. It never creates a
   * session.
   */
  function MxCheckToken(session: Session, param: Option<string>, key: string): (r: Result<bool, JavaException>)
    ensures session.None? || param.None? ==> r == Ok(false)
    ensures r == Ok(true) <==> session.Some? && param.Some? && key in session.value && session.value[key] == Str(param.value)
  {
    if session.None? then Ok(false)
    else if param.None? then Ok(false)
    else match Stored(session.value, key)
      case Err(e) => Err(e)
      case Ok(token) => Ok(token == param)
  }

  /** `Tokens.isTokenValid` on a session that exists: false for a blank parameter, else parameter equals stored token. */
  function Valid(attributes: map<string, Attr>, param: Option<string>, key: string): (r: Result<bool, JavaException>)
    ensures IsBlank(param) ==> r == Ok(false)
    ensures r == Ok(true) <==> !IsBlank(param) && key in attributes && attributes[key] == Str(param.value)
  {
    if IsBlank(param) then Ok(false)
    else match Stored(attributes, key)
      case Err(e) => Err(e)
      case Ok(token) => Ok(token == param)
  }

  /** A request carrying the token just generated passes both checks. */
  lemma GeneratedTokenChecks(session: Session, key: string, token: string)
    ensures MxCheckToken(Some(Generated(session, key, token)), Some(token), key) == Ok(true)
    ensures !IsBlank(Some(token)) ==> Valid(Generated(session, key, token), Some(token), key) == Ok(true)
  {
  }

  /** A request carrying any other value fails both checks. */
  lemma OtherTokenFails(session: Session, key: string, token: string, param: string)
    requires param != token
    ensures MxCheckToken(Some(Generated(session, key, token)), Some(param), key) == Ok(false)
    ensures Valid(Generated(session, key, token), Some(param), key) == Ok(false)
  {
  }

  /** After the token is removed no request passes, whatever it carries. */
  lemma RemovedTokenFails(attributes: map<string, Attr>, key: string, param: Option<string>)
    ensures MxCheckToken(Some(attributes - {key}), param, key) == Ok(false)
    ensures Valid(attributes - {key}, param, key) == Ok(false)
  {
  }

  /** `TokenMx.generateToken` and `Tokens.generateToken`: stores `token` under `key`, creating the session if needed. */
  method GenerateToken(request: Request, key: string, token: string) returns (r: string)
    modifies request
    ensures r == token
    ensures request.session == Some(Generated(old(request.session), key, token))
    ensures request.attributes == old(request.attributes)
  {
    request.EnsureSession();
    request.session := Some(request.session.value[key := Str(token)]);
    return token;
  }

  /** `TokenMx.getToken`: null without a session; never creates one. */
  function MxGetToken(request: Request, key: string): (r: Result<Option<string>, JavaException>)
    reads request
    ensures request.session.None? ==> r == Ok(None)
    ensures request.session.Some? ==> r == Stored(request.session.value, key)
  {
    if request.session.None? then Ok(None) else Stored(request.session.value, key)
  }

  /** `TokenMx.removeToken`: nothing without a session, else only `key` goes. */
  method MxRemoveToken(request: Request, key: string)
    modifies request
    ensures old(request.session).None? ==> request.session.None?
    ensures old(request.session).Some? ==> request.session == Some(old(request.session).value - {key})
    ensures request.attributes == old(request.attributes)
  {
    if request.session.None? {
      return;
    }
    request.session := Some(request.session.value - {key});
  }

  /** `Tokens.getToken`: creates the session if needed, then reads the token. */
  method TokensGetToken(request: Request, key: string) returns (r: Result<Option<string>, JavaException>)
    modifies request
    ensures request.session == Some(Created(old(request.session)))
    ensures r == Stored(Created(old(request.session)), key)
    ensures request.attributes == old(request.attributes)
  {
    request.EnsureSession();
    r := Stored(request.session.value, key);
  }

  /** `Tokens.isTokenValid`: a blank parameter is refused before the session is touched. */
  method IsTokenValid(request: Request, key: string) returns (r: Result<bool, JavaException>)
    modifies request
    ensures r == Valid(Created(old(request.session)), request.Parameter(key), key)
    ensures request.session == if IsBlank(request.Parameter(key)) then old(request.session) else Some(Created(old(request.session)))
    ensures request.attributes == old(request.attributes)
  {
    var token := request.Parameter(key);
    if IsBlank(token) {
      return Ok(false);
    }
    request.EnsureSession();
    match Stored(request.session.value, key) {
      case Err(e) =>
        return Err(e);
      case Ok(session) =>
        return Ok(token == session);
    }
  }

  /** `Tokens.removeToken`: creates the session if needed and removes `key`. */
  method TokensRemoveToken(request: Request, key: string)
    modifies request
    ensures request.session == Some(Created(old(request.session)) - {key})
    ensures request.attributes == old(request.attributes)
  {
    request.EnsureSession();
    request.session := Some(request.session.value - {key});
  }
}
