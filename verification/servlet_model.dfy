/**
 * The parts of the servlet API the helpers touch. A request carries its
 * headers, parameters and servlet path, which the helpers only read, and
 * its attributes, character encoding and session, which they change. A
 * session is an attribute map that exists or not. A response carries a
 * status and headers.
 */
module ServletModel {
  import opened Wrappers
  import opened JavaLang

  /** An attribute value, by the Java type the helpers store or cast it to. */
  datatype Attr =
    | Str(s: string)         // String
    | Int(i: int)            // Integer
    | Long(l: int)           // Long
    | Builder(text: string)  // StringBuilder, by its current contents
    | Other(classLabel: string)

  const SC_NOT_MODIFIED := 304

  class Request {
    /** Header values by name; names are matched exactly. */
    const headers: map<string, string>
    /** Date headers already parsed to milliseconds since the epoch, as `getDateHeader` returns them. */
    const dateHeaders: map<string, int>
    /** Every value of each parameter, in order. */
    const parameters: map<string, seq<string>>
    const servletPath: string
    var attributes: map<string, Attr>
    var characterEncoding: Option<string>
    /** The session's attributes, or `None` while no session exists. */
    var session: Option<map<string, Attr>>

    constructor (headers: map<string, string>, dateHeaders: map<string, int>, parameters: map<string, seq<string>>, servletPath: string,
                 attributes: map<string, Attr>, characterEncoding: Option<string>, session: Option<map<string, Attr>>)
      ensures this.headers == headers && this.dateHeaders == dateHeaders && this.parameters == parameters
      ensures this.servletPath == servletPath && this.attributes == attributes
      ensures this.characterEncoding == characterEncoding && this.session == session
    {
      this.headers := headers;
      this.dateHeaders := dateHeaders;
      this.parameters := parameters;
      this.servletPath := servletPath;
      this.attributes := attributes;
      this.characterEncoding := characterEncoding;
      this.session := session;
    }

    /** `getHeader`: the header's value, or null when it is absent. */
    function Header(name: string): (r: Option<string>)
      ensures r.Some? <==> name in headers
      ensures r.Some? ==> r.value == headers[name]
    {
      if name in headers then Some(headers[name]) else None
    }

    /** `getDateHeader`: the header's date, or -1 when it is absent. */
    function DateHeader(name: string): (r: int)
      ensures name !in dateHeaders ==> r == -1
      ensures name in dateHeaders ==> r == dateHeaders[name]
    {
      if name in dateHeaders then dateHeaders[name] else -1
    }

    /** `getParameter`: the first value of the parameter, or null when it has none. */
    function Parameter(name: string): (r: Option<string>)
      ensures r.Some? <==> name in parameters && |parameters[name]| > 0
      ensures r.Some? ==> r.value == parameters[name][0]
    {
      if name in parameters && |parameters[name]| > 0 then Some(parameters[name][0]) else None
    }

    /** `getAttribute`: the attribute, or null when it is absent. */
    function Attribute(name: string): (r: Option<Attr>)
      reads this
      ensures r.Some? <==> name in attributes
      ensures r.Some? ==> r.value == attributes[name]
    {
      if name in attributes then Some(attributes[name]) else None
    }

    /** `setAttribute`. */
    method SetAttribute(name: string, value: Attr)
      modifies this
      ensures attributes == old(attributes)[name := value]
      ensures session == old(session) && characterEncoding == old(characterEncoding)
    {
      attributes := attributes[name := value];
    }

    /** `setAttribute(name, null)`, which acts as `removeAttribute(name)`. */
    method RemoveAttribute(name: string)
      modifies this
      ensures attributes == old(attributes) - {name}
      ensures session == old(session) && characterEncoding == old(characterEncoding)
    {
      attributes := attributes - {name};
    }

    /**
     * `setCharacterEncoding`: the container knows the charsets in
     * `supported` and throws `UnsupportedEncodingException` for any other
     * name, leaving the encoding as it was.
     */
    method SetCharacterEncoding(encoding: string, supported: set<string>) returns (thrown: Option<JavaException>)
      modifies this
      ensures thrown.Some? <==> encoding !in supported
      ensures thrown.Some? ==> thrown.value == UnsupportedEncodingException && characterEncoding == old(characterEncoding)
      ensures thrown.None? ==> characterEncoding == Some(encoding)
      ensures attributes == old(attributes) && session == old(session)
    {
      if encoding !in supported {
        return Some(UnsupportedEncodingException);
      }
      characterEncoding := Some(encoding);
      return None;
    }

    /** `getSession(true)`: creates an empty session when there is none. */
    method EnsureSession()
      modifies this
      ensures session == if old(session).None? then Some(map[]) else old(session)
      ensures attributes == old(attributes) && characterEncoding == old(characterEncoding)
    {
      if session.None? {
        session := Some(map[]);
      }
    }
  }

  class Response {
    var status: int
    var headers: map<string, string>

    constructor (status: int, headers: map<string, string>)
      ensures this.status == status && this.headers == headers
    {
      this.status := status;
      this.headers := headers;
    }

    method SetStatus(code: int)
      modifies this
      ensures status == code && headers == old(headers)
    {
      status := code;
    }

    method SetHeader(name: string, value: string)
      modifies this
      ensures headers == old(headers)[name := value] && status == old(status)
    {
      headers := headers[name := value];
    }
  }
}
