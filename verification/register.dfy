/** `POST /api/auth/register` (src/app/api/auth/register/route.ts): validate
    the body, refuse a known email, hash the password and insert the user. */
module Register {
  import opened Base
  import opened ApiErrors
  import opened Http
  import opened Validation
  import opened Users

  datatype RegisterInput = RegisterInput(name: string, email: string, password: string)

  /** The bcrypt cost factor the route passes. */
  const SaltRounds: int := 10

  const EmailTaken: string := "Email already registered"
  const UserRegistered: string := "User registered"

  /** The body of the `try` block: the store after the insert and the
      response. `newId` is the id the database gives the new document. */
  function Attempt(body: RequestBody, schema: Schema<RegisterInput>, store: Store, hash: Hasher,
                   newId: string): Result<(Store, Response<UserIdData>)>
    requires WellKeyed(store)
  {
    var json :- ReadJson(body);
    var input :- Validate(schema(json));
    if FindByEmail(store, input.email).Some? then Throw(NewApiError(400, EmailTaken))
    else
      var user := User(newId, input.name, input.email, hash(input.password, SaltRounds));
      Ok((store[input.email := user],
          Response(201, Success(ApiResponse(201, UserIdData(newId), Some(UserRegistered))), None)))
  }

  /** The handler with its `catch`: the new store and the response. Every
      failure leaves the store as it was; success adds exactly one user, with
      the hashed password, answers 201 and sets no cookie. */
  function Post(body: RequestBody, schema: Schema<RegisterInput>, store: Store, hash: Hasher,
                newId: string): (r: (Store, Response<UserIdData>))
    requires WellKeyed(store)
    ensures WellKeyed(r.0)
    ensures r.1.setCookie.None?
    ensures r.1.status != 201 ==> r.0 == store
    ensures body.Unparsable? ==>
              r.1 == Response(500, Failure(NewApiError(500, InternalServerError)), None)
    ensures body.Json? && schema(body.value).Rejected? ==>
              r.1 == Response(400, Failure(NewApiError(400, ValidationFailed, FlatMessages(schema(body.value).fieldErrors))), None)
    ensures body.Json? && schema(body.value).Parsed? && schema(body.value).data.email in store ==>
              r.1 == Response(400, Failure(NewApiError(400, "Email already registered")), None)
    ensures r.1.status == 201 <==>
              body.Json? && schema(body.value).Parsed? && schema(body.value).data.email !in store
    ensures r.1.status == 201 ==>
              var input := schema(body.value).data;
              && r.0.Keys == store.Keys + {input.email}
              && |r.0| == |store| + 1
              && (forall e :: e in store ==> r.0[e] == store[e])
              && r.0[input.email] == User(newId, input.name, input.email, hash(input.password, 10))
              && r.1.body == Success(ApiResponse(201, UserIdData(newId), Some("User registered")))
  {
    match Attempt(body, schema, store, hash, newId)
    case Ok(result) => result
    case Err(e) => (store, CatchAuth(Err(e)))
  }

  /** Registering the same email twice in a row: the second attempt is
      refused, and the store has grown by exactly one user in total. */
  lemma RegisterTwice(body: RequestBody, schema: Schema<RegisterInput>, store: Store, hash: Hasher,
                      id1: string, id2: string)
    requires WellKeyed(store)
    requires body.Json? && schema(body.value).Parsed? && schema(body.value).data.email !in store
    ensures var (s1, resp1) := Post(body, schema, store, hash, id1);
            var (s2, resp2) := Post(body, schema, s1, hash, id2);
            && resp1.status == 201
            && resp2 == Response(400, Failure(NewApiError(400, "Email already registered")), None)
            && s2 == s1
            && |s2| == |store| + 1
  {
  }
}
