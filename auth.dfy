/**
 * The authentication gate in front of every protected route: it checks the
 * `Authorization` header, extracts the bearer token, reads the identity
 * provider's configuration, asks the provider who the token belongs to, and
 * either answers 401/500 itself or attaches the caller's id and a client
 * scoped to the caller's token to the request and hands on to the route.
 */
module Auth {
  import opened Common
  import opened Store
  import opened Http

  /** The two environment variables read at request time; `None` is an unset variable. */
  datatype Env = Env(supabaseUrl: Option<string>, supabaseAnonKey: Option<string>)

  datatype Config = Config(url: string, key: string)

  /** JavaScript truthiness of a value that is a string or undefined: only non-empty strings are truthy. */
  predicate Truthy(v: Option<string>)
  {
    v.Some? && v.value != ""
  }

  /** `getSupabaseConfig()`: both variables set and non-empty, or no configuration. */
  function SupabaseConfig(env: Env): (config: Option<Config>)
    ensures config.Some? <==> Truthy(env.supabaseUrl) && Truthy(env.supabaseAnonKey)
    ensures config.Some? ==> config.value.url == env.supabaseUrl.value && config.value.key == env.supabaseAnonKey.value
  {
    if !Truthy(env.supabaseUrl) || !Truthy(env.supabaseAnonKey) then None
    else Some(Config(env.supabaseUrl.value, env.supabaseAnonKey.value))
  }

  /**
   * What `auth.getUser(token)` on a client for the configured provider comes to:
   * a user, an auth error with its message, neither, or an exception
   * (thrown by `getUser` or by building the client).
   */
  datatype UserAnswer = Verified(userId: string) | Rejected(message: string) | NoUser | Threw(message: string)

  /** The identity provider: it answers per token, and every token it is asked about is logged. */
  class IdentityProvider {
    const answers: string -> UserAnswer
    var queries: seq<string>

    constructor (answers: string -> UserAnswer)
      ensures this.answers == answers && queries == []
    {
      this.answers := answers;
      queries := [];
    }

    method GetUser(token: string) returns (answer: UserAnswer)
      modifies this
      ensures answer == answers(token)
      ensures queries == old(queries) + [token]
    {
      answer := answers(token);
      queries := queries + [token];
    }
  }

  /** The fields of the Express request the gate reads and sets. */
  class AuthRequest {
    const authorization: Option<string>   // req.headers.authorization
    var userId: Option<string>
    var supabaseClient: ScopedClient?

    constructor (authorization: Option<string>)
      ensures this.authorization == authorization
      ensures userId == None && supabaseClient == null
    {
      this.authorization := authorization;
      userId := None;
      supabaseClient := null;
    }
  }

  const BearerPrefix := "Bearer "

  /** `authHeader && authHeader.startsWith("Bearer ")`, case-sensitive. */
  predicate HasBearerHeader(header: Option<string>)
  {
    Truthy(header) && StartsWith(header.value, BearerPrefix)
  }

  /** `authHeader.substring(7)` */
  function TokenOf(header: string): string
    requires StartsWith(header, BearerPrefix)
  {
    header[|BearerPrefix|..]
  }

  /** The token passes `!token || token.trim() === ""`. */
  predicate UsableToken(header: Option<string>)
  {
    HasBearerHeader(header) && !IsBlank(TokenOf(header.value))
  }

  /** The gate reaches the identity provider: good header, usable token, configuration present. */
  predicate Consults(header: Option<string>, env: Env)
  {
    UsableToken(header) && SupabaseConfig(env).Some?
  }

  /** What the checks before the provider yield: the token and configuration to verify it with. */
  datatype Credentials = Credentials(token: string, config: Config)

  /**
   * The checks `authMiddleware` makes before it contacts the provider, in
   * order: header present with the prefix (401), token not blank (401),
   * configuration present (500).
   */
  function Prechecks(header: Option<string>, env: Env): (r: Result<Credentials, HttpResponse>)
    ensures r.Ok? <==> Consults(header, env)
    ensures r.Ok? ==> r.value.token == TokenOf(header.value) && SupabaseConfig(env) == Some(r.value.config)
    ensures r.Err? ==> r.error.status == 401 || r.error.status == 500
    ensures (r.Err? && r.error.status == 500) <==> UsableToken(header) && SupabaseConfig(env).None?
  {
    if !Truthy(header) || !StartsWith(header.value, BearerPrefix) then
      Err(HttpResponse(401, ErrorMessage("Missing or invalid authorization header")))
    else
      var token := TokenOf(header.value);
      TrimEmptyIffBlank(token);
      if token == "" || Trim(token) == "" then
        Err(HttpResponse(401, ErrorMessage("Empty token")))
      else if SupabaseConfig(env).None? then
        Err(HttpResponse(500, ErrorMessage("Server configuration error: Missing Supabase environment variables")))
      else
        Ok(Credentials(token, SupabaseConfig(env).value))
  }

  /** What the gate decides: answer the request itself, or pass it on for this user and token. */
  datatype GateDecision = Reject(response: HttpResponse) | Accept(userId: string, token: string, config: Config)

  /** The whole decision sequence of `authMiddleware`, given the provider's answers. */
  function Gate(header: Option<string>, env: Env, answers: string -> UserAnswer): (d: GateDecision)
    ensures d.Reject? ==> d.response.status == 401 || d.response.status == 500
    ensures (d.Reject? && d.response.status == 500) <==> UsableToken(header) && SupabaseConfig(env).None?
    ensures d.Accept? <==> Consults(header, env) && answers(TokenOf(header.value)).Verified?
    ensures d.Accept? ==> d.token == TokenOf(header.value) && answers(d.token) == Verified(d.userId)
    ensures d.Accept? ==> SupabaseConfig(env) == Some(d.config)
  {
    match Prechecks(header, env)
    case Err(response) => Reject(response)
    case Ok(credentials) =>
      match answers(credentials.token)
      case Verified(id) => Accept(id, credentials.token, credentials.config)
      case _ => Reject(ProviderRejection(answers(credentials.token)))
  }

  /** The 401 for a provider answer that names no user: the provider's message goes into `details`. */
  function ProviderRejection(answer: UserAnswer): (res: HttpResponse)
    requires !answer.Verified?
    ensures res.status == 401
    ensures answer.Rejected? || answer.Threw? ==> res.body.ErrorDetails? && res.body.details == Some(answer.message)
    ensures answer.NoUser? ==> res.body.ErrorDetails? && res.body.details == None
  {
    match answer
    case Rejected(message) => HttpResponse(401, ErrorDetails("Invalid or expired token", Some(message)))
    case NoUser => HttpResponse(401, ErrorDetails("Invalid or expired token", None))
    case Threw(message) => HttpResponse(401, ErrorDetails("Authentication failed", Some(message)))
  }

  /** What `authMiddleware` did: sent a response, or called `next()` (once). */
  datatype Outcome = Responded(response: HttpResponse) | CalledNext

  /**
   * `authMiddleware(req, res, next)`. The provider is consulted only when the
   * header, token and configuration checks pass, and then exactly once; on
   * success the request carries the verified user id and a fresh client whose
   * queries run under `Authorization: Bearer <token>`.
   */
  method AuthMiddleware(req: AuthRequest, env: Env, provider: IdentityProvider, storeFor: string -> Backend)
    returns (outcome: Outcome)
    modifies req, provider
    ensures var d := Gate(req.authorization, env, provider.answers);
      && (d.Reject? ==> outcome == Responded(d.response))
      && (d.Accept? ==> outcome == CalledNext)
    ensures provider.queries == old(provider.queries) +
      (if Consults(req.authorization, env) then [TokenOf(req.authorization.value)] else [])
    ensures outcome.Responded? ==> req.userId == old(req.userId) && req.supabaseClient == old(req.supabaseClient)
    ensures outcome.CalledNext? ==> req.supabaseClient != null && fresh(req.supabaseClient)
    ensures outcome.CalledNext? ==>
      var d := Gate(req.authorization, env, provider.answers);
      && d.Accept?
      && req.userId == Some(d.userId)
      && req.supabaseClient != null
      && req.supabaseClient.authorization == "Bearer " + d.token
      && req.supabaseClient.url == d.config.url && req.supabaseClient.anonKey == d.config.key
      && req.supabaseClient.backend == storeFor("Bearer " + d.token)
      && req.supabaseClient.log == []
  {
    var checked := Prechecks(req.authorization, env);
    if checked.Err? {
      return Responded(checked.error);
    }
    var token := checked.value.token;
    var config := checked.value.config;

    var answer := provider.GetUser(token);
    if !answer.Verified? {
      return Responded(ProviderRejection(answer));
    }
    var authorization := "Bearer " + token;
    var client := new ScopedClient(config.url, config.key, authorization, storeFor(authorization));
    req.userId := Some(answer.userId);
    req.supabaseClient := client;
    return CalledNext;
  }

  /** A missing header, or one without the case-sensitive "Bearer " prefix, is a 401 before anything else. */
  lemma BadHeaderIsUnauthorized(header: Option<string>, env: Env, answers: string -> UserAnswer)
    requires header.None? || !StartsWith(header.value, BearerPrefix)
    ensures Gate(header, env, answers) == Reject(HttpResponse(401, ErrorMessage("Missing or invalid authorization header")))
    ensures !Consults(header, env)
  {
  }

  /**
   * With the configuration missing, every request whose header or token fails
   * is still the 401 of that check, and every other request is the 500;
   * the provider is asked about none of them.
   */
  lemma HeaderCheckPrecedesConfig(header: Option<string>, env: Env, answers: string -> UserAnswer)
    requires SupabaseConfig(env).None?
    ensures Gate(header, env, answers).Reject?
    ensures !UsableToken(header) ==> Gate(header, env, answers).response.status == 401
    ensures UsableToken(header) ==>
      Gate(header, env, answers).response ==
        HttpResponse(500, ErrorMessage("Server configuration error: Missing Supabase environment variables"))
    ensures !Consults(header, env)
  {
  }

  /** The general rule on four headers: none, lower-case prefix, blank token, good. */
  lemma HeaderCheckExamples(env: Env, answers: string -> UserAnswer)
    requires SupabaseConfig(env).None?
    ensures Gate(None, env, answers).response.status == 401
    ensures Gate(Some("bearer abc"), env, answers).response.status == 401
    ensures Gate(Some("Bearer  \t"), env, answers).response.status == 401
    ensures Gate(Some("Bearer abc"), env, answers).response.status == 500
  {
    assert !StartsWith("bearer abc", BearerPrefix) by {
      assert "bearer abc"[0] != BearerPrefix[0];
    }
    assert StartsWith("Bearer  \t", BearerPrefix) && IsBlank(TokenOf("Bearer  \t")) by {
      assert "Bearer  \t"[..7] == BearerPrefix;
      assert TokenOf("Bearer  \t") == " \t";
    }
    assert StartsWith("Bearer abc", BearerPrefix) && !IsBlank(TokenOf("Bearer abc")) by {
      assert "Bearer abc"[..7] == BearerPrefix;
      assert TokenOf("Bearer abc")[0] == 'a';
    }
  }

  /** The provider's answers other than a user all end in 401, carrying the provider's message. */
  lemma ProviderFailureIsUnauthorized(header: Option<string>, env: Env, answers: string -> UserAnswer)
    requires Consults(header, env)
    requires !answers(TokenOf(header.value)).Verified?
    ensures Gate(header, env, answers).response.status == 401
    ensures answers(TokenOf(header.value)).Rejected? ==>
      Gate(header, env, answers).response.body ==
        ErrorDetails("Invalid or expired token", Some(answers(TokenOf(header.value)).message))
  {
  }
}
