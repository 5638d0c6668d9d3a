/** The request builder: an immutable record of configuration, one setter per
    attribute, and `Build`, which runs the structural checks in a fixed order
    and only then constructs the request.
 */
module RequestBuilder {
  import opened Results
  import opened Types
  import opened Request

  /** The builder's state. `env` holds what the builder read from its Retrofit
      instance; `None` stands for a field that is still `null`. */
  datatype Builder = Builder(
    env: Retrofit,
    responseType: Option<JType>,
    bodyEncoding: BodyEncoding,
    path: Option<string>,
    httpMethod: Option<HttpMethod>,
    body: Option<Obj>,
    tag: Option<Obj>,
    query: seq<Query>,
    headers: map<string, string>,
    parts: seq<Part>,
    fields: seq<Field>)

  /** `a` and `b` hold the same value for every attribute outside `touched`,
      and the same Retrofit collaborators. */
  predicate AgreeOutside(a: Builder, b: Builder, touched: set<Attr>) {
    && a.env == b.env
    && (ResponseTypeAttr !in touched ==> a.responseType == b.responseType)
    && (EncodingAttr !in touched ==> a.bodyEncoding == b.bodyEncoding)
    && (PathAttr !in touched ==> a.path == b.path)
    && (MethodAttr !in touched ==> a.httpMethod == b.httpMethod)
    && (BodyAttr !in touched ==> a.body == b.body)
    && (TagAttr !in touched ==> a.tag == b.tag)
    && (QueryAttr !in touched ==> a.query == b.query)
    && (HeadersAttr !in touched ==> a.headers == b.headers)
    && (PartsAttr !in touched ==> a.parts == b.parts)
    && (FieldsAttr !in touched ==> a.fields == b.fields)
  }

  /** A fresh builder: the Retrofit collaborators, no encoding, empty
      collections, and every other attribute unset. */
  function NewBuilder(retrofit: Retrofit): (b: Builder)
    ensures b.env == retrofit
    ensures b.bodyEncoding == NONE
    ensures b.query == [] && b.headers == map[] && b.parts == [] && b.fields == []
    ensures b.path.None? && b.httpMethod.None? && b.responseType.None?
    ensures b.body.None? && b.tag.None?
  {
    Builder(retrofit, None, NONE, None, None, None, None, [], map[], [], [])
  }

  // Setters. `path`, `tag`, `body` and `responseType` accept null; the others
  // throw on null and leave nothing changed.

  function SetPath(b: Builder, path: Option<string>): (r: Builder)
    ensures r.path == path
    ensures AgreeOutside(b, r, {PathAttr})
  {
    b.(path := path)
  }

  function SetMethod(b: Builder, m: Option<HttpMethod>): (r: Result<Builder, Error>)
    ensures r.Failure? <==> m.None?
    ensures r.Failure? ==> r.error == NullArgument(MethodAttr)
    ensures r.Success? ==> r.value.httpMethod == m && AgreeOutside(b, r.value, {MethodAttr})
  {
    if m.None? then Failure(NullArgument(MethodAttr)) else Success(b.(httpMethod := m))
  }

  function SetTag(b: Builder, tag: Option<Obj>): (r: Builder)
    ensures r.tag == tag
    ensures AgreeOutside(b, r, {TagAttr})
  {
    b.(tag := tag)
  }

  function SetBody(b: Builder, body: Option<Obj>): (r: Builder)
    ensures r.body == body
    ensures AgreeOutside(b, r, {BodyAttr})
  {
    b.(body := body)
  }

  function SetQueryParams(b: Builder, query: Option<seq<Query>>): (r: Result<Builder, Error>)
    ensures r.Failure? <==> query.None?
    ensures r.Failure? ==> r.error == NullArgument(QueryAttr)
    ensures r.Success? ==> r.value.query == query.value && AgreeOutside(b, r.value, {QueryAttr})
  {
    if query.None? then Failure(NullArgument(QueryAttr)) else Success(b.(query := query.value))
  }

  function SetHeaders(b: Builder, headers: Option<map<string, string>>): (r: Result<Builder, Error>)
    ensures r.Failure? <==> headers.None?
    ensures r.Failure? ==> r.error == NullArgument(HeadersAttr)
    ensures r.Success? ==> r.value.headers == headers.value && AgreeOutside(b, r.value, {HeadersAttr})
  {
    if headers.None? then Failure(NullArgument(HeadersAttr)) else Success(b.(headers := headers.value))
  }

  /** Stores the parts and switches the encoding to multipart. */
  function SetParts(b: Builder, parts: Option<seq<Part>>): (r: Result<Builder, Error>)
    ensures r.Failure? <==> parts.None?
    ensures r.Failure? ==> r.error == NullArgument(PartsAttr)
    ensures r.Success? ==>
      && r.value.parts == parts.value
      && r.value.bodyEncoding == MULTIPART
      && AgreeOutside(b, r.value, {PartsAttr, EncodingAttr})
  {
    if parts.None? then
      Failure(NullArgument(PartsAttr))
    else
      Success(b.(parts := parts.value, bodyEncoding := MULTIPART))
  }

  /** Stores the fields and switches the encoding to form encoding. */
  function SetFields(b: Builder, fields: Option<seq<Field>>): (r: Result<Builder, Error>)
    ensures r.Failure? <==> fields.None?
    ensures r.Failure? ==> r.error == NullArgument(FieldsAttr)
    ensures r.Success? ==>
      && r.value.fields == fields.value
      && r.value.bodyEncoding == FORM_URL_ENCODED
      && AgreeOutside(b, r.value, {FieldsAttr, EncodingAttr})
  {
    if fields.None? then
      Failure(NullArgument(FieldsAttr))
    else
      Success(b.(fields := fields.value, bodyEncoding := FORM_URL_ENCODED))
  }

  function SetResponseType(b: Builder, responseType: Option<JType>): (r: Builder)
    ensures r.responseType == responseType
    ensures AgreeOutside(b, r, {ResponseTypeAttr})
  {
    b.(responseType := responseType)
  }

  /** The structural rules a builder must satisfy before a request is
      constructed from it. */
  predicate StructurallyValid(b: Builder) {
    && b.path.Some? && b.httpMethod.Some? && b.responseType.Some?
    && StartsWithSlash(b.path.value)
    && (b.bodyEncoding == NONE && b.body.Some? ==> RequestHasBody(b.httpMethod.value))
    && (b.bodyEncoding == FORM_URL_ENCODED ==> |b.fields| > 0)
    && (b.bodyEncoding == MULTIPART ==> |b.parts| > 0)
  }

  /** The errors `Build` raises itself, before construction starts. */
  predicate IsStructural(e: Error) {
    || e == NullArgument(PathAttr) || e == NullArgument(MethodAttr)
    || e == NullArgument(ResponseTypeAttr)
    || e.PathNotAbsolute? || e.BodyOnNonBodyMethod?
    || e.FormWithoutField? || e.MultipartWithoutPart?
  }

  /** The position of each structural check in the order `Build` runs them. */
  function Rank(e: Error): nat {
    match e
    case NullArgument(PathAttr) => 0
    case NullArgument(MethodAttr) => 1
    case NullArgument(ResponseTypeAttr) => 2
    case PathNotAbsolute => 3
    case BodyOnNonBodyMethod => 4
    case FormWithoutField => 5
    case MultipartWithoutPart => 6
    case _ => 7
  }

  /** The builder breaks the rule whose error is `e`, judged on its own. */
  predicate Violated(b: Builder, e: Error) {
    match e
    case NullArgument(a) =>
      || (a == PathAttr && b.path.None?)
      || (a == MethodAttr && b.httpMethod.None?)
      || (a == ResponseTypeAttr && b.responseType.None?)
    case PathNotAbsolute => b.path.Some? && !StartsWithSlash(b.path.value)
    case BodyOnNonBodyMethod =>
      && b.bodyEncoding == NONE && b.body.Some?
      && b.httpMethod.Some? && !RequestHasBody(b.httpMethod.value)
    case FormWithoutField => b.bodyEncoding == FORM_URL_ENCODED && |b.fields| == 0
    case MultipartWithoutPart => b.bodyEncoding == MULTIPART && |b.parts| == 0
    case _ => false
  }

  /** Constructs the request from a builder whose path, method and response
      type are set, handing every builder value to the constructor. */
  function NewRequest(b: Builder): (r: Result<TypedRequest, Error>)
    requires b.path.Some? && b.httpMethod.Some? && b.responseType.Some?
    ensures r.Success? <==>
      && b.responseType.value != VoidType
      && b.responseType.value in b.env.adapterFactory
      && b.env.converterFactory.Some?
    ensures r.Success? ==>
      && r.value.client == b.env.client
      && r.value.adapterFactory == b.env.adapterFactory
      && r.value.returnType == b.responseType.value
      && r.value.path == b.path.value
      && r.value.httpMethod == b.httpMethod.value
      && r.value.bodyEncoding == b.bodyEncoding
      && r.value.body == b.body && r.value.tag == b.tag
      && r.value.query == b.query && r.value.headers == b.headers
      && r.value.parts == b.parts && r.value.fields == b.fields
  {
    Construct(b.env, b.responseType.value, b.bodyEncoding, b.path.value, b.httpMethod.value,
              b.body, b.tag, b.query, b.headers, b.parts, b.fields)
  }

  /** Validates the builder and constructs the request. The checks run in the
      order of `Rank`, and the first one that fails decides the error; a
      request is constructed only when the builder is structurally valid, and
      every request it returns is sealed and carries the builder's values. */
  function Build(b: Builder): (r: Result<TypedRequest, Error>)
    ensures r.Failure? && IsStructural(r.error) ==>
      && Violated(b, r.error)
      && forall e :: Rank(e) < Rank(r.error) ==> !Violated(b, e)
    ensures !StructurallyValid(b) <==> r.Failure? && IsStructural(r.error)
    ensures StructurallyValid(b) ==> r == NewRequest(b)
    ensures r.Success? ==>
      && Sealed(r.value)
      && Some(r.value.path) == b.path
      && Some(r.value.httpMethod) == b.httpMethod
      && Some(r.value.returnType) == b.responseType
      && r.value.bodyEncoding == b.bodyEncoding
      && r.value.body == b.body && r.value.tag == b.tag
      && r.value.query == b.query && r.value.headers == b.headers
      && r.value.parts == b.parts && r.value.fields == b.fields
  {
    if b.path.None? then
      Failure(NullArgument(PathAttr))
    else if b.httpMethod.None? then
      Failure(NullArgument(MethodAttr))
    else if b.responseType.None? then
      Failure(NullArgument(ResponseTypeAttr))
    else
      var path := b.path.value;
      var requestHasBody := RequestHasBody(b.httpMethod.value);
      var gotBody := b.body.Some?;
      var gotField := |b.fields| != 0;
      var gotPart := |b.parts| != 0;
      if |path| == 0 || path[0] != '/' then
        Failure(PathNotAbsolute)
      else if b.bodyEncoding == NONE && !requestHasBody && gotBody then
        Failure(BodyOnNonBodyMethod)
      else if b.bodyEncoding == FORM_URL_ENCODED && !gotField then
        Failure(FormWithoutField)
      else if b.bodyEncoding == MULTIPART && !gotPart then
        Failure(MultipartWithoutPart)
      else
        NewRequest(b)
  }

  /** The three null checks come first, in the order path, method, response
      type. */
  lemma BuildNullChecksFirst(b: Builder)
    ensures b.path.None? ==> Build(b) == Failure(NullArgument(PathAttr))
    ensures b.path.Some? && b.httpMethod.None? ==> Build(b) == Failure(NullArgument(MethodAttr))
    ensures b.path.Some? && b.httpMethod.Some? && b.responseType.None? ==>
      Build(b) == Failure(NullArgument(ResponseTypeAttr))
  {
  }

  /** Once the null checks pass, the path check fails exactly when the path
      is not '/' followed by something. */
  lemma {:induction false} BuildPathCheck(b: Builder)
    requires b.path.Some? && b.httpMethod.Some? && b.responseType.Some?
    ensures Build(b) == Failure(PathNotAbsolute) <==>
      !exists rest :: b.path.value == "/" + rest
  {
    var p := b.path.value;
    if |p| > 0 && p[0] == '/' {
      assert p == "/" + p[1..];
    }
  }

  /** Without an encoding, a body is refused exactly on GET, DELETE and HEAD;
      on PATCH, POST and PUT it passes the check. */
  lemma BuildBodyCheck(b: Builder)
    requires b.path.Some? && b.httpMethod.Some? && b.responseType.Some?
    requires StartsWithSlash(b.path.value)
    requires b.bodyEncoding == NONE && b.body.Some?
    ensures Build(b) == Failure(BodyOnNonBodyMethod) <==> b.httpMethod.value in {GET, DELETE, HEAD}
    ensures b.httpMethod.value in {PATCH, POST, PUT} ==> Build(b) == NewRequest(b)
  {
  }

  /** With multipart or form encoding a body is never refused, whatever the
      method. */
  lemma BuildBodyIgnoredWithEncoding(b: Builder)
    requires b.bodyEncoding != NONE
    ensures Build(b) != Failure(BodyOnNonBodyMethod)
    ensures Build(b.(body := None)).Failure? <==> Build(b).Failure?
    ensures Build(b).Failure? ==> Build(b.(body := None)).error == Build(b).error
  {
  }

  /** Form encoding fails a structural check exactly when there is no field,
      provided the earlier checks pass; the parts are not consulted. */
  lemma BuildFormCheck(b: Builder, parts: seq<Part>)
    requires b.path.Some? && b.httpMethod.Some? && b.responseType.Some?
    requires StartsWithSlash(b.path.value)
    requires b.bodyEncoding == FORM_URL_ENCODED
    ensures Build(b).Failure? && IsStructural(Build(b).error) <==> b.fields == []
    ensures b.fields == [] ==> Build(b) == Failure(FormWithoutField)
    ensures Build(b.(parts := parts)).Failure? <==> Build(b).Failure?
    ensures Build(b).Failure? ==> Build(b.(parts := parts)).error == Build(b).error
  {
  }

  /** Multipart encoding fails a structural check exactly when there is no
      part, provided the earlier checks pass; the fields are not consulted. */
  lemma BuildMultipartCheck(b: Builder, fields: seq<Field>)
    requires b.path.Some? && b.httpMethod.Some? && b.responseType.Some?
    requires StartsWithSlash(b.path.value)
    requires b.bodyEncoding == MULTIPART
    ensures Build(b).Failure? && IsStructural(Build(b).error) <==> b.parts == []
    ensures b.parts == [] ==> Build(b) == Failure(MultipartWithoutPart)
    ensures Build(b.(fields := fields)).Failure? <==> Build(b).Failure?
    ensures Build(b).Failure? ==> Build(b.(fields := fields)).error == Build(b).error
  {
  }
}
