/** A configured endpoint request: the immutable fields handed over by its
    builder, the call adapter and converter resolved when it is constructed,
    and its cancellation flag.
 */
module Request {
  import opened Results
  import opened Types

  /** The state of one request object. `query` is what `queryParams()`
      returns; the remaining getters return the field of the same name. */
  datatype TypedRequest = TypedRequest(
    client: Client,
    adapterFactory: AdapterFactory,
    returnType: JType,
    bodyEncoding: BodyEncoding,
    path: string,
    httpMethod: HttpMethod,
    body: Option<Obj>,
    tag: Option<Obj>,
    query: seq<Query>,
    headers: map<string, string>,
    parts: seq<Part>,
    fields: seq<Field>,
    callAdapter: CallAdapter,
    converter: Option<Converter>,
    isCancelled: bool)

  /** A partial factory's answer for `k`, `None` standing for `null`. */
  function Lookup<K, V>(m: map<K, V>, k: K): Option<V> {
    if k in m then Some(m[k]) else None
  }

  /** The path is non-empty and its first character is '/'. */
  predicate StartsWithSlash(path: string) {
    |path| > 0 && path[0] == '/'
  }

  /** What every successfully built request satisfies: an absolute path, no
      body on a body-less method unless an encoding is chosen, a non-empty
      collection for the chosen encoding, a non-void return type, and the
      adapter the factory produced for that return type. */
  predicate Sealed(t: TypedRequest) {
    && StartsWithSlash(t.path)
    && (t.bodyEncoding == NONE && t.body.Some? ==> RequestHasBody(t.httpMethod))
    && (t.bodyEncoding == FORM_URL_ENCODED ==> |t.fields| > 0)
    && (t.bodyEncoding == MULTIPART ==> |t.parts| > 0)
    && t.returnType != VoidType
    && t.returnType in t.adapterFactory
    && t.callAdapter == t.adapterFactory[t.returnType]
  }

  /** Resolves the call adapter for a return type. Three configurations are
      refused, in order: a void return type; a return type the adapter factory
      does not handle; a missing converter factory when the adapter's response
      type is anything but ResponseBody. Otherwise the factory's adapter is
      returned unchanged. */
  function CreateCallAdapter(
    returnType: JType,
    adapterFactory: AdapterFactory,
    converterFactory: Option<ConverterFactory>): (r: Result<CallAdapter, Error>)
    ensures returnType == VoidType ==> r == Failure(VoidReturnType)
    ensures returnType != VoidType && returnType !in adapterFactory ==>
      r == Failure(NoCallAdapter)
    ensures returnType != VoidType && returnType in adapterFactory ==>
      (r == Failure(NoConverter) <==>
        converterFactory.None? && adapterFactory[returnType].responseType != ResponseBodyType)
    ensures r.Success? <==>
      && returnType != VoidType
      && returnType in adapterFactory
      && (converterFactory.Some? || adapterFactory[returnType].responseType == ResponseBodyType)
    ensures r.Success? ==> r.value == adapterFactory[returnType]
  {
    if returnType == VoidType then
      Failure(VoidReturnType)
    else if returnType !in adapterFactory then
      Failure(NoCallAdapter)
    else
      var adapter := adapterFactory[returnType];
      if converterFactory.None? && adapter.responseType != ResponseBodyType then
        Failure(NoConverter)
      else
        Success(adapter)
  }

  /** The constructor: stores its arguments, resolves the call adapter, then
      asks the converter factory for a converter for the adapter's response
      type. That last lookup dereferences the factory whether or not the
      adapter's response type is ResponseBody, so no request is ever
      constructed without a converter factory; the converter itself may still
      be absent when the factory has none for that type. */
  function Construct(
    env: Retrofit,
    returnType: JType,
    bodyEncoding: BodyEncoding,
    path: string,
    httpMethod: HttpMethod,
    body: Option<Obj>,
    tag: Option<Obj>,
    query: seq<Query>,
    headers: map<string, string>,
    parts: seq<Part>,
    fields: seq<Field>): (r: Result<TypedRequest, Error>)
    ensures r.Success? <==>
      returnType != VoidType && returnType in env.adapterFactory && env.converterFactory.Some?
    ensures r.Failure? && CreateCallAdapter(returnType, env.adapterFactory, env.converterFactory).Failure? ==>
      r.error == CreateCallAdapter(returnType, env.adapterFactory, env.converterFactory).error
    ensures
      && env.converterFactory.None?
      && returnType != VoidType
      && returnType in env.adapterFactory
      && env.adapterFactory[returnType].responseType == ResponseBodyType
      ==> r == Failure(NullConverterFactory)
    ensures r.Success? ==>
      && r.value.client == env.client
      && r.value.adapterFactory == env.adapterFactory
      && r.value.returnType == returnType
      && r.value.bodyEncoding == bodyEncoding
      && r.value.path == path
      && r.value.httpMethod == httpMethod
      && r.value.body == body
      && r.value.tag == tag
      && r.value.query == query
      && r.value.headers == headers
      && r.value.parts == parts
      && r.value.fields == fields
    ensures r.Success? ==>
      && r.value.callAdapter == env.adapterFactory[returnType]
      && (r.value.converter.Some? <==> r.value.callAdapter.responseType in env.converterFactory.value)
      && (r.value.converter.Some? ==>
            r.value.converter.value == env.converterFactory.value[r.value.callAdapter.responseType])
      && !r.value.isCancelled
  {
    var adapter :- CreateCallAdapter(returnType, env.adapterFactory, env.converterFactory);
    if env.converterFactory.None? then
      Failure(NullConverterFactory)
    else
      Success(TypedRequest(
        env.client, env.adapterFactory, returnType, bodyEncoding, path, httpMethod,
        body, tag, query, headers, parts, fields,
        adapter, Lookup(env.converterFactory.value, adapter.responseType), false))
  }

  /** Sets the cancellation flag and nothing else. */
  function Cancel(t: TypedRequest): (r: TypedRequest)
    ensures r.isCancelled
    ensures r.(isCancelled := t.isCancelled) == t
    ensures Sealed(t) ==> Sealed(r)
  {
    t.(isCancelled := true)
  }

  /** Cancelling twice is the same as cancelling once, and the flag never
      returns to false. */
  lemma CancelIdempotent(t: TypedRequest)
    ensures Cancel(Cancel(t)) == Cancel(t)
    ensures Cancel(t).isCancelled && Cancel(Cancel(t)).isCancelled
  {
  }
}
