/** Concrete endpoint configurations and what `Build` does with them. */
module Scenarios {
  import opened Results
  import opened Types
  import opened Request
  import opened RequestBuilder

  const User := Declared(1)
  const UserCall := Declared(2)
  const adapter := CallAdapter(0, User)

  /** A Retrofit instance whose adapter factory handles `UserCall` and whose
      converter factory handles `User`. */
  const env := Retrofit(Client(0), BaseUrl(0), Some(map[User := Converter(0)]), map[UserCall := adapter])

  /** Configures path, method and return type on a fresh builder. */
  function Endpoint(path: string, m: HttpMethod, returnType: JType): (b: Builder)
    ensures b.path == Some(path) && b.httpMethod == Some(m) && b.responseType == Some(returnType)
    ensures b.bodyEncoding == NONE && b.body.None? && b.parts == [] && b.fields == []
  {
    SetResponseType(SetMethod(SetPath(NewBuilder(env), Some(path)), Some(m)).value, Some(returnType))
  }

  /** A GET on "/users" returning a handled type builds, without encoding,
      and with the factory's adapter and converter. */
  lemma GetUsersBuilds()
    ensures var r := Build(Endpoint("/users", GET, UserCall));
      && r.Success?
      && r.value.bodyEncoding == NONE
      && r.value.callAdapter == adapter
      && r.value.converter == Some(Converter(0))
      && !r.value.isCancelled
  {
    assert StartsWithSlash("/users");
  }

  /** A POST whose parts list is empty is refused for that reason. */
  lemma EmptyMultipartRefused()
    ensures Build(SetParts(Endpoint("/upload", POST, UserCall), Some([])).value) ==
      Failure(MultipartWithoutPart)
  {
    assert StartsWithSlash("/upload");
  }

  /** A path without its leading slash is refused. */
  lemma RelativePathRefused()
    ensures Build(Endpoint("login", GET, UserCall)) == Failure(PathNotAbsolute)
  {
  }

  /** A GET carrying a body is refused; the same body on a POST is accepted. */
  lemma GetWithBodyRefused()
    ensures Build(SetBody(Endpoint("/users", GET, UserCall), Some(Obj(0)))) ==
      Failure(BodyOnNonBodyMethod)
    ensures Build(SetBody(Endpoint("/users", POST, UserCall), Some(Obj(0)))).Success?
  {
    assert StartsWithSlash("/users");
  }

  /** A return type no adapter handles is refused for that reason, whether
      or not a converter factory is present. */
  lemma UnhandledReturnTypeRefused()
    ensures Build(Endpoint("/users", GET, User)) == Failure(NoCallAdapter)
    ensures Build(Endpoint("/users", GET, User).(env := env.(converterFactory := None))) ==
      Failure(NoCallAdapter)
    ensures Build(Endpoint("/users", GET, VoidType)) == Failure(VoidReturnType)
  {
    assert StartsWithSlash("/users");
  }

  /** Without a converter factory, an adapter asking for a decoded type is
      refused by the adapter check, and one asking for the raw ResponseBody
      passes that check but still fails when the converter is looked up. */
  lemma MissingConverterFactory()
    ensures Build(Endpoint("/users", GET, UserCall).(env := env.(converterFactory := None))) ==
      Failure(NoConverter)
    ensures Build(Endpoint("/users", GET, UserCall).(env := Retrofit(
      Client(0), BaseUrl(0), None, map[UserCall := CallAdapter(1, ResponseBodyType)]))) ==
      Failure(NullConverterFactory)
  {
    assert StartsWithSlash("/users");
  }
}
