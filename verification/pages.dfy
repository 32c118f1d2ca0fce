/**
 * `Pages`: moving paging state between a request and a `PagingInfo`.
 * Each value is looked up as a request parameter, then as a request
 * attribute, then taken from a default, and the value found is written
 * back to the attribute of the same name.
 */
module PageRequests {
  import opened Wrappers
  import opened JavaLang
  import opened JavaText
  import opened ServletModel
  import opened Paging

  const KEY_KEY := "page_key"
  const URL_KEY := "page_url"
  const TATAL_KEY := "page_total"
  const INDEX_KEY := "page_index"
  const SIZE_KEY := "page_size"

  /** `StringUtils.isEmpty`: null or "". */
  predicate IsEmpty(s: Option<string>)
  {
    s.None? || s.value == ""
  }

  /** The attribute under `name` in `attributes`, or null. */
  function Lookup(attributes: map<string, Attr>, name: string): Option<Attr>
  {
    if name in attributes then Some(attributes[name]) else None
  }

  /**
   * A text value: a non-empty parameter, else a non-empty `String`
   * attribute, else `fallback`; an attribute of another type fails the
   * `(String)` cast.
   */
  function ResolveText(param: Option<string>, attr: Option<Attr>, fallback: string): (r: Result<string, JavaException>)
    ensures r.Err? <==> IsEmpty(param) && attr.Some? && !attr.value.Str?
    ensures r.Err? ==> r.error == ClassCastException
    ensures !IsEmpty(param) ==> r == Ok(param.value)
    ensures IsEmpty(param) && attr.Some? && attr.value.Str? && attr.value.s != "" ==> r == Ok(attr.value.s)
    ensures IsEmpty(param) && (attr.None? || attr == Some(Str(""))) ==> r == Ok(fallback)
  {
    if !IsEmpty(param) then Ok(param.value)
    else match attr
      case None => Ok(fallback)
      case Some(Str(s)) => if s == "" then Ok(fallback) else Ok(s)
      case Some(_) => Err(ClassCastException)
  }

  /** Whether a number is read as a Java `int` or a `long`. */
  datatype NumberKind = IntKind | LongKind

  /** `Integer.parseInt` or `Long.parseLong`. */
  function Parse(kind: NumberKind, s: string): Option<int>
  {
    if kind == IntKind then ParseInRange(s, INT_MIN, INT_MAX) else ParseInRange(s, LONG_MIN, LONG_MAX)
  }

  /** The attribute passes the `(Integer)` or `(Long)` cast. */
  predicate Unboxes(kind: NumberKind, a: Attr)
  {
    (kind == IntKind && a.Int?) || (kind == LongKind && a.Long?)
  }

  /** A number boxed for `setAttribute`. */
  function Boxed(kind: NumberKind, v: int): Attr
  {
    if kind == IntKind then Int(v) else Long(v)
  }

  /**
   * A number: a non-empty parameter parsed, 0 when it does not parse; else
   * the attribute cast to `Integer` or `Long`; else `fallback`.
   */
  function ResolveNumber(kind: NumberKind, param: Option<string>, attr: Option<Attr>, fallback: int): (r: Result<int, JavaException>)
    ensures r.Err? <==> IsEmpty(param) && attr.Some? && !Unboxes(kind, attr.value)
    ensures IsEmpty(param) && attr.Some? && r.Ok? ==> attr.value == Boxed(kind, r.value)
    ensures r.Err? ==> r.error == ClassCastException
    ensures !IsEmpty(param) && Parse(kind, param.value).None? ==> r == Ok(0)
    ensures !IsEmpty(param) && Parse(kind, param.value).Some? ==> r == Ok(Parse(kind, param.value).value)
    ensures IsEmpty(param) && attr.None? ==> r == Ok(fallback)
  {
    if !IsEmpty(param) then
      match Parse(kind, param.value)
      case None => Ok(0)
      case Some(v) => Ok(v)
    else match attr
      case None => Ok(fallback)
      case Some(a) =>
        if kind == IntKind && a.Int? then Ok(a.i)
        else if kind == LongKind && a.Long? then Ok(a.l)
        else Err(ClassCastException)
  }

  /** The five values a `PagingInfo` is built from. */
  datatype PageValues = PageValues(key: string, url: string, total: int, pageIndex: int, pageSize: int)

  /**
   * The values `getPageInfos` resolves against `attributes`, or the first
   * exception a getter throws (key, url, total, index, then size).
   */
  function ResolvedValues(request: Request, attributes: map<string, Attr>, defaultPageSize: int, uuid: string): Result<PageValues, JavaException>
  {
    var key := ResolveText(request.Parameter(KEY_KEY), Lookup(attributes, KEY_KEY), uuid);
    var url := ResolveText(request.Parameter(URL_KEY), Lookup(attributes, URL_KEY), request.servletPath);
    var total := ResolveNumber(LongKind, request.Parameter(TATAL_KEY), Lookup(attributes, TATAL_KEY), 0);
    var index := ResolveNumber(IntKind, request.Parameter(INDEX_KEY), Lookup(attributes, INDEX_KEY), 0);
    var size := if defaultPageSize <= 0 then Err(IllegalArgumentException)
      else ResolveNumber(IntKind, request.Parameter(SIZE_KEY), Lookup(attributes, SIZE_KEY), defaultPageSize);
    if key.Err? then Err(key.error)
    else if url.Err? then Err(url.error)
    else if total.Err? then Err(total.error)
    else if index.Err? then Err(index.error)
    else if size.Err? then Err(size.error)
    else Ok(PageValues(key.value, url.value, total.value, index.value, size.value))
  }

  /** `getPageInfos`: the resolved values, or a division by zero when the page size resolves to 0. */
  function PageInfos(request: Request, attributes: map<string, Attr>, defaultPageSize: int, uuid: string): (r: Result<PageValues, JavaException>)
    ensures defaultPageSize <= 0 ==> r.Err?
    ensures r.Ok? ==> r.value.pageSize != 0 && r == ResolvedValues(request, attributes, defaultPageSize, uuid)
  {
    var values := ResolvedValues(request, attributes, defaultPageSize, uuid);
    if values.Ok? && values.value.pageSize == 0 then Err(ArithmeticException) else values
  }

  /** The attributes after the five values are written back, in the order the getters run. */
  function Written(attributes: map<string, Attr>, v: PageValues): map<string, Attr>
  {
    attributes[KEY_KEY := Str(v.key)][URL_KEY := Str(v.url)][TATAL_KEY := Long(v.total)]
      [INDEX_KEY := Int(v.pageIndex)][SIZE_KEY := Int(v.pageSize)]
  }

  /** The attributes after the four values that follow the key are written, as `setPageInfos` writes them. */
  function AfterKey(attributes: map<string, Attr>, url: string, total: int, pageIndex: int, pageSize: int): map<string, Attr>
  {
    attributes[URL_KEY := Str(url)][TATAL_KEY := Long(total)][INDEX_KEY := Int(pageIndex)][SIZE_KEY := Int(pageSize)]
  }

  /** Resolves one text value and writes it back, as `getPageKey` and `getUrl` do. */
  method ResolveTextAttribute(request: Request, name: string, fallback: string) returns (r: Result<string, JavaException>)
    modifies request
    ensures r == ResolveText(request.Parameter(name), old(Lookup(request.attributes, name)), fallback)
    ensures r.Ok? ==> request.attributes == old(request.attributes)[name := Str(r.value)]
    ensures r.Err? ==> request.attributes == old(request.attributes)
    ensures request.session == old(request.session) && request.characterEncoding == old(request.characterEncoding)
  {
    var value := request.Parameter(name);
    if IsEmpty(value) {
      match request.Attribute(name) {
        case None =>
          value := None;
        case Some(Str(s)) =>
          value := Some(s);
        case Some(_) =>
          return Err(ClassCastException);
      }
    }
    if IsEmpty(value) {
      value := Some(fallback);
    }
    request.SetAttribute(name, Str(value.value));
    return Ok(value.value);
  }

  /** Resolves one number and writes it back, as `getTotal`, `getPageIndex` and `getPageSize` do. */
  method ResolveNumberAttribute(request: Request, name: string, kind: NumberKind, fallback: int) returns (r: Result<int, JavaException>)
    modifies request
    ensures r == ResolveNumber(kind, request.Parameter(name), old(Lookup(request.attributes, name)), fallback)
    ensures r.Ok? ==> request.attributes == old(request.attributes)[name := Boxed(kind, r.value)]
    ensures r.Err? ==> request.attributes == old(request.attributes)
    ensures request.session == old(request.session) && request.characterEncoding == old(request.characterEncoding)
  {
    var value: int;
    var page := request.Parameter(name);
    if IsEmpty(page) {
      match request.Attribute(name) {
        case None =>
          value := fallback;
        case Some(a) =>
          if kind == IntKind && a.Int? {
            value := a.i;
          } else if kind == LongKind && a.Long? {
            value := a.l;
          } else {
            return Err(ClassCastException);
          }
      }
    } else {
      match Parse(kind, page.value) {
        case None =>
          value := 0;
        case Some(v) =>
          value := v;
      }
    }
    request.SetAttribute(name, Boxed(kind, value));
    return Ok(value);
  }

  /** `getPageSize`: a default of 0 or less is refused before anything is read. */
  method GetPageSize(request: Request, defaultValue: int) returns (r: Result<int, JavaException>)
    modifies request
    ensures defaultValue <= 0 ==> r == Err(IllegalArgumentException) && request.attributes == old(request.attributes)
    ensures defaultValue > 0 ==> r == ResolveNumber(IntKind, request.Parameter(SIZE_KEY), old(Lookup(request.attributes, SIZE_KEY)), defaultValue)
    ensures r.Ok? ==> request.attributes == old(request.attributes)[SIZE_KEY := Int(r.value)]
    ensures r.Err? ==> request.attributes == old(request.attributes)
    ensures request.session == old(request.session) && request.characterEncoding == old(request.characterEncoding)
  {
    if defaultValue <= 0 {
      return Err(IllegalArgumentException);
    }
    r := ResolveNumberAttribute(request, SIZE_KEY, IntKind, defaultValue);
  }

  /** The five getters in turn, each writing its value back; the first exception stops the rest. */
  method ResolveAll(request: Request, defaultPageSize: int, uuid: string) returns (r: Result<PageValues, JavaException>)
    modifies request
    ensures r == ResolvedValues(request, old(request.attributes), defaultPageSize, uuid)
    ensures r.Ok? ==> request.attributes == Written(old(request.attributes), r.value)
    ensures request.session == old(request.session) && request.characterEncoding == old(request.characterEncoding)
  {
    ghost var a0 := request.attributes;
    assert KEY_KEY != URL_KEY && KEY_KEY != TATAL_KEY && KEY_KEY != INDEX_KEY && KEY_KEY != SIZE_KEY;
    assert URL_KEY != TATAL_KEY && URL_KEY != INDEX_KEY && URL_KEY != SIZE_KEY;
    assert TATAL_KEY != INDEX_KEY && TATAL_KEY != SIZE_KEY && INDEX_KEY != SIZE_KEY;
    var key := ResolveTextAttribute(request, KEY_KEY, uuid);
    if key.Err? {
      return Err(key.error);
    }
    ghost var a1 := request.attributes;
    assert Lookup(a1, URL_KEY) == Lookup(a0, URL_KEY);
    var url := ResolveTextAttribute(request, URL_KEY, request.servletPath);
    if url.Err? {
      return Err(url.error);
    }
    ghost var a2 := request.attributes;
    assert Lookup(a2, TATAL_KEY) == Lookup(a0, TATAL_KEY);
    var total := ResolveNumberAttribute(request, TATAL_KEY, LongKind, 0);
    if total.Err? {
      return Err(total.error);
    }
    ghost var a3 := request.attributes;
    assert Lookup(a3, INDEX_KEY) == Lookup(a0, INDEX_KEY);
    var index := ResolveNumberAttribute(request, INDEX_KEY, IntKind, 0);
    if index.Err? {
      return Err(index.error);
    }
    ghost var a4 := request.attributes;
    assert Lookup(a4, SIZE_KEY) == Lookup(a0, SIZE_KEY);
    var size := GetPageSize(request, defaultPageSize);
    if size.Err? {
      return Err(size.error);
    }
    return Ok(PageValues(key.value, url.value, total.value, index.value, size.value));
  }

  /**
   * `getPageInfos(request, defaultPageSize)`, with `uuid` standing for the
   * random key drawn when neither a parameter nor an attribute gives one.
   * The source fills a fresh `PagingInfo` between the getters; that object
   * is dropped when a getter throws, so it is filled here after them. When
   * every getter succeeds, all five attributes hold the values found, even
   * if the page size then turns out to be 0.
   */
  method GetPageInfos(request: Request, defaultPageSize: int, uuid: string) returns (r: Result<PagingInfo, JavaException>)
    modifies request
    ensures var spec := PageInfos(request, old(request.attributes), defaultPageSize, uuid);
      (r.Ok? <==> spec.Ok?) && (r.Err? ==> r.error == spec.error)
    ensures r.Ok? ==>
      fresh(r.value) && r.value.Consistent() && r.value.key.Some? && r.value.url.Some?
      && PageInfos(request, old(request.attributes), defaultPageSize, uuid)
         == Ok(PageValues(r.value.key.value, r.value.url.value, r.value.total, r.value.pageIndex, r.value.pageSize))
    ensures var values := ResolvedValues(request, old(request.attributes), defaultPageSize, uuid);
      values.Ok? ==> request.attributes == Written(old(request.attributes), values.value)
    ensures request.session == old(request.session) && request.characterEncoding == old(request.characterEncoding)
  {
    var values := ResolveAll(request, defaultPageSize, uuid);
    if values.Err? {
      return Err(values.error);
    }
    var info := new PagingInfo.Default();
    info.SetKey(Some(values.value.key));
    info.SetUrl(Some(values.value.url));
    var thrown := info.SetTotal(values.value.total);
    info.SetPageIndex(values.value.pageIndex);
    thrown := info.SetPageSize(values.value.pageSize);
    if thrown.Some? {
      return Err(thrown.value);
    }
    return Ok(info);
  }

  /** `getPageInfos(request)`: pages of one item unless the request says otherwise. */
  method GetPageInfosDefault(request: Request, uuid: string) returns (r: Result<PagingInfo, JavaException>)
    modifies request
    ensures var spec := PageInfos(request, old(request.attributes), 1, uuid);
      (r.Ok? <==> spec.Ok?) && (r.Err? ==> r.error == spec.error)
    ensures r.Ok? ==>
      fresh(r.value) && r.value.Consistent() && r.value.key.Some? && r.value.url.Some?
      && PageInfos(request, old(request.attributes), 1, uuid)
         == Ok(PageValues(r.value.key.value, r.value.url.value, r.value.total, r.value.pageIndex, r.value.pageSize))
  {
    r := GetPageInfos(request, 1, uuid);
  }

  /**
   * `setPageInfos`: the info's fields become attributes, a null or empty url
   * replaced by the servlet path; a null key removes the key attribute.
   */
  method SetPageInfos(request: Request, info: PagingInfo)
    modifies request
    ensures var url := if IsEmpty(info.url) then request.servletPath else info.url.value;
      var keyed := if info.key.Some? then old(request.attributes)[KEY_KEY := Str(info.key.value)] else old(request.attributes) - {KEY_KEY};
      request.attributes == AfterKey(keyed, url, info.total, info.pageIndex, info.pageSize)
    ensures info.key.Some? ==> request.attributes == Written(old(request.attributes),
      PageValues(info.key.value, if IsEmpty(info.url) then request.servletPath else info.url.value, info.total, info.pageIndex, info.pageSize))
    ensures request.session == old(request.session) && request.characterEncoding == old(request.characterEncoding)
  {
    var url := if IsEmpty(info.url) then request.servletPath else info.url.value;
    if info.key.Some? {
      request.SetAttribute(KEY_KEY, Str(info.key.value));
    } else {
      request.RemoveAttribute(KEY_KEY);
    }
    request.SetAttribute(URL_KEY, Str(url));
    request.SetAttribute(TATAL_KEY, Long(info.total));
    request.SetAttribute(INDEX_KEY, Int(info.pageIndex));
    request.SetAttribute(SIZE_KEY, Int(info.pageSize));
  }

  /**
   * After `setPageInfos` with a null key, and with no key parameter, the
   * next `getPageKey` finds no key attribute and draws a fresh key.
   */
  lemma NullKeyIsRedrawn(request: Request, attributes: map<string, Attr>, url: string, total: int, pageIndex: int, pageSize: int, uuid: string)
    requires IsEmpty(request.Parameter(KEY_KEY))
    ensures KEY_KEY !in AfterKey(attributes - {KEY_KEY}, url, total, pageIndex, pageSize)
    ensures ResolveText(request.Parameter(KEY_KEY), Lookup(AfterKey(attributes - {KEY_KEY}, url, total, pageIndex, pageSize), KEY_KEY), uuid) == Ok(uuid)
  {
  }

  /**
   * What is written back is found again: resolving against the written
   * attributes gives the same values, whatever key would be drawn then.
   */
  lemma ResolutionIsStable(request: Request, attributes: map<string, Attr>, defaultPageSize: int, uuid: string, uuid': string)
    requires uuid != ""
    requires ResolvedValues(request, attributes, defaultPageSize, uuid).Ok?
    ensures var v := ResolvedValues(request, attributes, defaultPageSize, uuid).value;
      ResolvedValues(request, Written(attributes, v), defaultPageSize, uuid') == Ok(v)
  {
  }

  /**
   * `setPageInfos` followed by `getPageInfos` on a request without paging
   * parameters gives back the info's values (the url made non-empty).
   */
  lemma SetThenGetRoundTrip(request: Request, attributes: map<string, Attr>, v: PageValues, defaultPageSize: int, uuid: string)
    requires IsEmpty(request.Parameter(KEY_KEY)) && IsEmpty(request.Parameter(URL_KEY)) && IsEmpty(request.Parameter(TATAL_KEY))
    requires IsEmpty(request.Parameter(INDEX_KEY)) && IsEmpty(request.Parameter(SIZE_KEY))
    requires v.key != "" && v.pageSize != 0 && defaultPageSize >= 1
    ensures var stored := v.(url := if v.url == "" then request.servletPath else v.url);
      PageInfos(request, Written(attributes, stored), defaultPageSize, uuid) == Ok(stored)
  {
  }

  /** A page size parameter of "0", or one that is not a number, makes `getPageInfos` divide by zero. */
  lemma UnusablePageSizeParameterFails(request: Request, attributes: map<string, Attr>, defaultPageSize: int, uuid: string)
    requires !IsEmpty(request.Parameter(SIZE_KEY)) && defaultPageSize >= 1
    requires Parse(IntKind, request.Parameter(SIZE_KEY).value) in {None, Some(0)}
    requires ResolvedValues(request, attributes, defaultPageSize, uuid).Ok?
    ensures PageInfos(request, attributes, defaultPageSize, uuid) == Err(ArithmeticException)
  {
  }
}
