/** The vocabulary shared by the request builder and the request itself:
    reflected Java types, HTTP methods, body encodings, the opaque elements a
    request carries, the pluggable factories, and the exceptions thrown while
    configuring an endpoint.
 */
module Types {
  import opened Results

  /** A reflected `java.lang.reflect.Type`. Only two types are distinguished by
      the code: `void.class` and OkHttp's `ResponseBody.class`; every other type
      is an opaque token compared by identity. */
  datatype JType = VoidType | ResponseBodyType | Declared(id: nat)

  /** The HTTP methods an endpoint may use. */
  datatype HttpMethod = GET | POST | PUT | PATCH | DELETE | HEAD

  /** How a request body is encoded. */
  datatype BodyEncoding = NONE | MULTIPART | FORM_URL_ENCODED

  /** The methods whose requests carry a body: PATCH, POST and PUT. */
  predicate RequestHasBody(m: HttpMethod) {
    m == PATCH || m == POST || m == PUT
  }

  /** Opaque elements: only their presence and the emptiness of the lists
      holding them matter to the configuration checks. */
  datatype Query = Query(id: nat)
  datatype Part = Part(id: nat)
  datatype Field = Field(id: nat)
  datatype Obj = Obj(id: nat)
  datatype Client = Client(id: nat)
  datatype BaseUrl = BaseUrl(id: nat)

  /** A call adapter, known by the response type it asks the transport for. */
  datatype CallAdapter = CallAdapter(id: nat, responseType: JType)

  /** A response converter. */
  datatype Converter = Converter(id: nat)

  /** `CallAdapter.Factory.get`: a partial map from return types to adapters
      (a type outside the domain is one the factory answers `null` for). */
  type AdapterFactory = map<JType, CallAdapter>

  /** `Converter.Factory.get`: a partial map from response types to converters. */
  type ConverterFactory = map<JType, Converter>

  /** The collaborators a builder reads from its `Retrofit` instance. */
  datatype Retrofit = Retrofit(
    client: Client,
    baseUrl: BaseUrl,
    converterFactory: Option<ConverterFactory>,
    adapterFactory: AdapterFactory)

  /** The configurable attributes of a builder. */
  datatype Attr =
    | PathAttr | MethodAttr | TagAttr | BodyAttr | QueryAttr | HeadersAttr
    | PartsAttr | FieldsAttr | ResponseTypeAttr | EncodingAttr

  /** The exceptions thrown while configuring and constructing a request. */
  datatype Error =
    | NullArgument(attr: Attr)   // checkNotNull: a required value was null
    | PathNotAbsolute            // the path is empty or does not start with '/'
    | BodyOnNonBodyMethod        // a body on GET, DELETE or HEAD without an encoding
    | FormWithoutField           // form encoding with no field
    | MultipartWithoutPart       // multipart encoding with no part
    | VoidReturnType             // the service method returns void
    | NoCallAdapter              // the adapter factory cannot handle the return type
    | NoConverter                // no converter factory and a non-ResponseBody response type
    | NullConverterFactory       // the converter factory is dereferenced while null
}
