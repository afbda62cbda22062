/** The caching and request-shaping logic of the HTTP registry client
    (schemaRegistryClient.go). The network is a `Server` object that answers each
    request with a reply and records the requests it receives; JSON decoding is
    folded into the reply (a body that does not decode is `None`). */
module Client {
  import opened Common
  import opened Registry

  /** The `Content-Type` of every request. */
  const ContentType: string := "application/vnd.schemaregistry.v1+json"

  /** Either a username and password or a bearer token, never both. */
  datatype Credentials = Credentials(username: string, password: string, bearerToken: string)

  /** What a request carries in its `Authorization` header: nothing, HTTP Basic
      credentials (`req.SetBasicAuth`), or a header value spelled out. */
  datatype Authorization =
    | NoAuthorization
    | BasicAuth(username: string, password: string)
    | AuthorizationHeader(value: string)

  /** The JSON body of a register or look-up call. An empty `schemaType` is omitted
      from the JSON (`omitempty`). */
  datatype SchemaRequest = SchemaRequest(schema: string, schemaType: string, references: seq<Reference>)

  /** The JSON body the registry answers with. */
  datatype SchemaResponse = SchemaResponse(
    subject: string,
    version: int,
    schema: string,
    schemaType: Option<SchemaType>,
    id: int,
    references: seq<Reference>)

  datatype Request = Request(
    verb: string,
    url: string,
    authorization: Authorization,
    contentType: string,
    body: Option<SchemaRequest>)

  /** The registry's answer: a status code and the body decoded as a
      `SchemaResponse` (`None` when it does not decode), or a transport failure. */
  datatype Reply = Delivered(statusCode: int, body: Option<SchemaResponse>) | NetworkError(reason: string)

  // ---------------------------------------------------------------------------
  // Strings used by the auth rule
  // ---------------------------------------------------------------------------

  function ToLowerChar(c: char): char
  {
    if 'A' <= c <= 'Z' then (c as int + 32) as char else c
  }

  /** `strings.ToLower`, on ASCII letters. */
  function ToLower(s: string): (r: string)
    ensures |r| == |s|
    ensures forall i :: 0 <= i < |s| ==> r[i] == ToLowerChar(s[i])
  {
    seq(|s|, i requires 0 <= i < |s| => ToLowerChar(s[i]))
  }

  /** `strings.Contains`. */
  predicate Contains(s: string, sub: string)
  {
    exists i :: 0 <= i <= |s| && sub <= s[i..]
  }

  const CloudHost: string := "confluent.cloud"

  /** The credential rule of `httpRequest`: a username and password go as HTTP Basic
      credentials; otherwise a bearer token goes in the `Authorization` header, with
      the scheme `Basic` when `target`, lower-cased, names the Confluent Cloud
      domain and `Bearer` otherwise. */
  function Authorize(credentials: Option<Credentials>, target: string): (a: Authorization)
    ensures a.BasicAuth? <==>
              credentials.Some? && |credentials.value.username| > 0 && |credentials.value.password| > 0
    ensures a.BasicAuth? ==>
              a == BasicAuth(credentials.value.username, credentials.value.password)
    ensures a.AuthorizationHeader? <==>
              credentials.Some? && !a.BasicAuth? && |credentials.value.bearerToken| > 0
    ensures a.AuthorizationHeader? && Contains(ToLower(target), CloudHost) ==>
              a.value == "Basic " + credentials.value.bearerToken
    ensures a.AuthorizationHeader? && !Contains(ToLower(target), CloudHost) ==>
              a.value == "Bearer " + credentials.value.bearerToken
  {
    match credentials
    case None => NoAuthorization
    case Some(c) =>
      if |c.username| > 0 && |c.password| > 0 then BasicAuth(c.username, c.password)
      else if |c.bearerToken| > 0 then
        if Contains(ToLower(target), CloudHost) then AuthorizationHeader("Basic " + c.bearerToken)
        else AuthorizationHeader("Bearer " + c.bearerToken)
      else NoAuthorization
  }

  /** The rule as written: the domain is looked for in the request path `uri`,
      which never holds the registry's host. */
  function AuthorizationAsWritten(credentials: Option<Credentials>, uri: string): Authorization
  {
    Authorize(credentials, uri)
  }

  /** The rule as intended: the domain is looked for in the full URL, host
      included. */
  function AuthorizationFor(credentials: Option<Credentials>, url: string): Authorization
  {
    Authorize(credentials, url)
  }

  lemma ToLowerAppend(a: string, b: string)
    ensures ToLower(a + b) == ToLower(a) + ToLower(b)
  {
  }

  /** A registry whose URL names the Confluent Cloud domain, in any letter case, gets
      its bearer token under the `Basic` scheme on every request, whatever the path. */
  lemma CloudHostGetsBasicScheme(pre: string, host: string, post: string, uri: string, token: string)
    requires ToLower(host) == CloudHost
    requires |token| > 0
    ensures AuthorizationFor(Some(Credentials("", "", token)), pre + host + post + uri)
              == AuthorizationHeader("Basic " + token)
  {
    var url := pre + host + post + uri;
    assert url == pre + (host + (post + uri));
    ToLowerAppend(pre, host + (post + uri));
    ToLowerAppend(host, post + uri);
    var low := ToLower(url);
    assert CloudHost <= low[|pre|..];
  }

  /** A string shorter than the domain name cannot contain it. */
  lemma ShortNeverContains(s: string, sub: string)
    requires |s| < |sub|
    ensures !Contains(s, sub)
  {
    forall i | 0 <= i <= |s| ensures !(sub <= s[i..]) {
      assert |s[i..]| < |sub|;
    }
  }

  /** The rule as written sends a Confluent Cloud token under `Bearer`: the request
      path `/schemas/ids/1` is shorter than the domain name, so it cannot contain
      it, although the registry URL does. */
  lemma CloudTokenSentAsBearer()
    ensures var credentials := Some(Credentials("", "", "key"));
            AuthorizationAsWritten(credentials, "/schemas/ids/1") == AuthorizationHeader("Bearer key") &&
            AuthorizationFor(credentials, "https://psrc-1." + "confluent.cloud" + "" + "/schemas/ids/1")
              == AuthorizationHeader("Basic key")
  {
    var uri := "/schemas/ids/1";
    assert |ToLower(uri)| == 14;
    ShortNeverContains(ToLower(uri), CloudHost);
    CloudHostGetsBasicScheme("https://psrc-1.", "confluent.cloud", "", uri, "key");
  }

  // ---------------------------------------------------------------------------
  // Replies
  // ---------------------------------------------------------------------------

  /** The status check of `httpRequest`: any status outside 200..299 is an error. */
  function StatusOutcome(reply: Reply): (r: Outcome<Option<SchemaResponse>>)
    ensures r.Ok? <==> reply.Delivered? && 200 <= reply.statusCode <= 299
    ensures r.Ok? ==> r.value == reply.body
    ensures reply.NetworkError? ==> r == Err(NetworkFailure(reply.reason))
    ensures reply.Delivered? && !r.Ok? ==> r == Err(RegistryStatus(reply.statusCode))
  {
    match reply
    case NetworkError(reason) => Err(NetworkFailure(reason))
    case Delivered(statusCode, body) =>
      if statusCode < 200 || statusCode > 299 then Err(RegistryStatus(statusCode)) else Ok(body)
  }

  /** `json.Unmarshal` of the body into a `schemaResponse`. */
  function Decoded(r: Outcome<Option<SchemaResponse>>): Outcome<SchemaResponse>
  {
    match r
    case Ok(Some(body)) => Ok(body)
    case Ok(None) => Err(MalformedResponse)
    case Err(e) => Err(e)
    case Panic => Panic
  }

  /** The schema `GetSchema(schemaID)` builds from a reply: it keeps the id it asked
      for. */
  function SchemaById(schemaID: int, reply: Reply): (r: Outcome<Schema>)
    ensures r.Ok? <==> Decoded(StatusOutcome(reply)).Ok?
    ensures r.Ok? ==> r.value.id == schemaID && r.value.schema == reply.body.value.schema
                      && r.value.version == reply.body.value.version
  {
    match Decoded(StatusOutcome(reply))
    case Ok(b) => Ok(Schema(schemaID, b.schema, b.schemaType, b.version, b.references))
    case Err(e) => Err(e)
    case Panic => Panic
  }

  /** The schema `getVersion` and `LookupSchema` build from a reply: every field as
      the registry sent it. */
  function SchemaOfReply(reply: Reply): (r: Outcome<Schema>)
    ensures r.Ok? <==> Decoded(StatusOutcome(reply)).Ok?
    ensures r.Ok? ==> r.value.id == reply.body.value.id && r.value.version == reply.body.value.version
                      && r.value.schema == reply.body.value.schema
  {
    match Decoded(StatusOutcome(reply))
    case Ok(b) => Ok(Schema(b.id, b.schema, b.schemaType, b.version, b.references))
    case Err(e) => Err(e)
    case Panic => Panic
  }

  function SchemaByIdUri(schemaID: int): string
  {
    "/schemas/ids/" + Itoa(schemaID)
  }

  function SubjectVersionUri(subject: string, version: string): string
  {
    "/subjects/" + subject + "/versions/" + version
  }

  function SubjectVersionsUri(subject: string): string
  {
    "/subjects/" + subject + "/versions"
  }

  function SubjectUri(subject: string): string
  {
    "/subjects/" + subject
  }

  /** The registry at the other end of the wire (`http.Client.Do` and the server
      behind it): it answers each request by `respond` and records it. */
  class Server {
    const respond: Request -> Reply
    var requests: seq<Request>

    constructor(respond: Request -> Reply)
      ensures this.respond == respond && requests == []
    {
      this.respond := respond;
      requests := [];
    }

    method Do(req: Request) returns (reply: Reply)
      modifies this
      ensures requests == old(requests) + [req]
      ensures reply == respond(req)
    {
      requests := requests + [req];
      reply := respond(req);
    }
  }

  class SchemaRegistryClient {
    const schemaRegistryURL: string
    const httpClient: Server
    var credentials: Option<Credentials>
    var cachingEnabled: bool
    var idSchemaCache: map<int, Schema>
    var subjectSchemaCache: map<string, Schema>

    /** The id cache holds each schema under its own id. */
    ghost predicate Valid()
      reads this
    {
      forall id :: id in idSchemaCache ==> idSchemaCache[id].id == id
    }

    /** `NewSchemaRegistryClient(schemaRegistryURL)`: caching on, no credentials. */
    constructor(schemaRegistryURL: string, httpClient: Server)
      ensures this.schemaRegistryURL == schemaRegistryURL && this.httpClient == httpClient
      ensures credentials == None && cachingEnabled
      ensures idSchemaCache == map[] && subjectSchemaCache == map[]
      ensures Valid()
    {
      this.schemaRegistryURL := schemaRegistryURL;
      this.httpClient := httpClient;
      credentials := None;
      cachingEnabled := true;
      idSchemaCache := map[];
      subjectSchemaCache := map[];
    }

    /** The request `httpRequest(method, uri, body)` sends. */
    function RequestFor(verb: string, uri: string, body: Option<SchemaRequest>): Request
      reads this
    {
      var url := schemaRegistryURL + uri;
      Request(verb, url, AuthorizationFor(credentials, url), ContentType, body)
    }

    /** `httpRequest`: sends one request and checks its status. */
    method HttpRequest(verb: string, uri: string, body: Option<SchemaRequest>)
      returns (r: Outcome<Option<SchemaResponse>>)
      modifies httpClient
      ensures httpClient.requests == old(httpClient.requests) + [RequestFor(verb, uri, body)]
      ensures r == StatusOutcome(httpClient.respond(RequestFor(verb, uri, body)))
    {
      var req := RequestFor(verb, uri, body);
      var reply := httpClient.Do(req);
      r := StatusOutcome(reply);
    }

    /** `ResetCache`. */
    method ResetCache()
      modifies this
      ensures idSchemaCache == map[] && subjectSchemaCache == map[]
      ensures credentials == old(credentials) && cachingEnabled == old(cachingEnabled)
      ensures Valid()
    {
      idSchemaCache := map[];
      subjectSchemaCache := map[];
    }

    /** `CachingEnabled(value)`. */
    method CachingEnabled(value: bool)
      modifies this
      ensures cachingEnabled == value
      ensures credentials == old(credentials)
      ensures idSchemaCache == old(idSchemaCache) && subjectSchemaCache == old(subjectSchemaCache)
    {
      cachingEnabled := value;
    }

    /** `SetCredentials`: takes effect only when both parts are non-empty. */
    method SetCredentials(username: string, password: string)
      modifies this
      ensures |username| > 0 && |password| > 0 ==> credentials == Some(Credentials(username, password, ""))
      ensures !(|username| > 0 && |password| > 0) ==> credentials == old(credentials)
      ensures cachingEnabled == old(cachingEnabled)
      ensures idSchemaCache == old(idSchemaCache) && subjectSchemaCache == old(subjectSchemaCache)
    {
      if |username| > 0 && |password| > 0 {
        credentials := Some(Credentials(username, password, ""));
      }
    }

    /** `SetBearerToken`: a non-empty token replaces any credentials. */
    method SetBearerToken(token: string)
      modifies this
      ensures |token| > 0 ==> credentials == Some(Credentials("", "", token))
      ensures |token| == 0 ==> credentials == old(credentials)
      ensures cachingEnabled == old(cachingEnabled)
      ensures idSchemaCache == old(idSchemaCache) && subjectSchemaCache == old(subjectSchemaCache)
    {
      if |token| > 0 {
        credentials := Some(Credentials("", "", token));
      }
    }

    /** What `GetSchema(schemaID)` does: a cache hit answers without a request; a
        miss sends one GET and, with caching on, stores a successful answer under
        `schemaID`. */
    twostate predicate FetchedById(schemaID: int, new r: Outcome<Schema>)
      reads this, httpClient
    {
      var req := old(RequestFor("GET", SchemaByIdUri(schemaID), None));
      credentials == old(credentials) && cachingEnabled == old(cachingEnabled) &&
      subjectSchemaCache == old(subjectSchemaCache) &&
      if old(cachingEnabled) && schemaID in old(idSchemaCache) then
        r == Ok(old(idSchemaCache)[schemaID]) &&
        idSchemaCache == old(idSchemaCache) && httpClient.requests == old(httpClient.requests)
      else
        httpClient.requests == old(httpClient.requests) + [req] &&
        r == SchemaById(schemaID, httpClient.respond(req)) &&
        idSchemaCache == if cachingEnabled && r.Ok? then old(idSchemaCache)[schemaID := r.value] else old(idSchemaCache)
    }

    /** `GetSchema`. */
    method GetSchema(schemaID: int) returns (r: Outcome<Schema>)
      requires Valid()
      modifies this, httpClient
      ensures Valid()
      ensures FetchedById(schemaID, r)
      ensures r.Ok? ==> r.value.id == schemaID
    {
      if cachingEnabled && schemaID in idSchemaCache {
        return Ok(idSchemaCache[schemaID]);
      }
      var resp := HttpRequest("GET", SchemaByIdUri(schemaID), None);
      var decoded := Decoded(resp);
      if !decoded.Ok? {
        return if decoded.Err? then Err(decoded.error) else Panic;
      }
      var body := decoded.value;
      var schema := Schema(schemaID, body.schema, body.schemaType, body.version, body.references);
      if cachingEnabled {
        idSchemaCache := idSchemaCache[schemaID := schema];
      }
      r := Ok(schema);
    }

    /** What `getVersion(subject, version)` does: a hit on
        `cacheKey(subject, version)` answers without a request; a miss sends one GET
        and, with caching on, stores a successful answer under the key and under
        the schema's id. */
    twostate predicate FetchedVersion(subject: string, version: string, new r: Outcome<Schema>)
      reads this, httpClient
    {
      var key := CacheKey(subject, version);
      var req := old(RequestFor("GET", SubjectVersionUri(subject, version), None));
      credentials == old(credentials) && cachingEnabled == old(cachingEnabled) &&
      if old(cachingEnabled) && key in old(subjectSchemaCache) then
        r == Ok(old(subjectSchemaCache)[key]) &&
        idSchemaCache == old(idSchemaCache) && subjectSchemaCache == old(subjectSchemaCache) &&
        httpClient.requests == old(httpClient.requests)
      else
        httpClient.requests == old(httpClient.requests) + [req] &&
        r == SchemaOfReply(httpClient.respond(req)) &&
        if cachingEnabled && r.Ok? then
          subjectSchemaCache == old(subjectSchemaCache)[key := r.value] &&
          idSchemaCache == old(idSchemaCache)[r.value.id := r.value]
        else
          subjectSchemaCache == old(subjectSchemaCache) && idSchemaCache == old(idSchemaCache)
    }

    /** `getVersion`. */
    method GetVersion(subject: string, version: string) returns (r: Outcome<Schema>)
      requires Valid()
      modifies this, httpClient
      ensures Valid()
      ensures FetchedVersion(subject, version, r)
    {
      var key := CacheKey(subject, version);
      if cachingEnabled && key in subjectSchemaCache {
        return Ok(subjectSchemaCache[key]);
      }
      var resp := HttpRequest("GET", SubjectVersionUri(subject, version), None);
      var decoded := Decoded(resp);
      if !decoded.Ok? {
        return if decoded.Err? then Err(decoded.error) else Panic;
      }
      var body := decoded.value;
      var schema := Schema(body.id, body.schema, body.schemaType, body.version, body.references);
      if cachingEnabled {
        subjectSchemaCache := subjectSchemaCache[key := schema];
        idSchemaCache := idSchemaCache[schema.id := schema];
      }
      r := Ok(schema);
    }

    /** `GetLatestSchema`: the version token `latest`. */
    method GetLatestSchema(subject: string) returns (r: Outcome<Schema>)
      requires Valid()
      modifies this, httpClient
      ensures Valid()
      ensures FetchedVersion(subject, "latest", r)
    {
      r := GetVersion(subject, "latest");
    }

    /** `GetSchemaByVersion`: the version number in decimal. */
    method GetSchemaByVersion(subject: string, version: int) returns (r: Outcome<Schema>)
      requires Valid()
      modifies this, httpClient
      ensures Valid()
      ensures FetchedVersion(subject, Itoa(version), r)
    {
      r := GetVersion(subject, Itoa(version));
    }

    /** What `CreateSchema` does: an unknown type fails before any request. Otherwise
        the normalised text is POSTed; a failed POST is returned with the caches
        untouched. After a good answer the schema is read back by `GetSchema` with
        the id the registry answered (from the id cache, or by one GET), and that
        re-read schema, not the POST's answer, is the result. With caching on, a
        good result is stored under `cacheKey(subject, version)` and under its id;
        otherwise neither cache changes. */
    twostate predicate CreatedSchema(subject: string, schema: string, schemaType: SchemaType,
                                     references: seq<Reference>, new r: Outcome<Schema>)
      reads this, httpClient
    {
      var text := NormalizedSchema(schemaType, schema);
      credentials == old(credentials) && cachingEnabled == old(cachingEnabled) &&
      if text.Err? then
        r == Err(InvalidSchemaType) && httpClient.requests == old(httpClient.requests) &&
        idSchemaCache == old(idSchemaCache) && subjectSchemaCache == old(subjectSchemaCache)
      else
        var post := old(RequestFor("POST", SubjectVersionsUri(subject),
          Some(SchemaRequest(text.value, SchemaTypeString(schemaType), references))));
        var posted := Decoded(StatusOutcome(httpClient.respond(post)));
        if !posted.Ok? then
          r == (if posted.Err? then Err(posted.error) else Panic) &&
          httpClient.requests == old(httpClient.requests) + [post] &&
          idSchemaCache == old(idSchemaCache) && subjectSchemaCache == old(subjectSchemaCache)
        else
          var id := posted.value.id;
          var get := old(RequestFor("GET", SchemaByIdUri(id), None));
          (if old(cachingEnabled) && id in old(idSchemaCache) then
             r == Ok(old(idSchemaCache)[id]) && httpClient.requests == old(httpClient.requests) + [post]
           else
             r == SchemaById(id, httpClient.respond(get)) &&
             httpClient.requests == old(httpClient.requests) + [post, get]) &&
          if cachingEnabled && r.Ok? then
            subjectSchemaCache == old(subjectSchemaCache)[CacheKey(subject, Itoa(r.value.version)) := r.value] &&
            idSchemaCache == old(idSchemaCache)[r.value.id := r.value]
          else
            idSchemaCache == old(idSchemaCache) && subjectSchemaCache == old(subjectSchemaCache)
    }

    /** `CreateSchema`. */
    method CreateSchema(subject: string, schema: string, schemaType: SchemaType, references: seq<Reference>)
      returns (r: Outcome<Schema>)
      requires Valid()
      modifies this, httpClient
      ensures Valid()
      ensures CreatedSchema(subject, schema, schemaType, references, r)
      ensures r.Ok? ==> r.value.id == Decoded(StatusOutcome(httpClient.respond(old(RequestFor("POST",
                SubjectVersionsUri(subject), Some(SchemaRequest(NormalizedSchema(schemaType, schema).value,
                SchemaTypeString(schemaType), references))))))).value.id
    {
      var text := NormalizedSchema(schemaType, schema);
      if !text.Ok? {
        return Err(InvalidSchemaType);
      }
      var request := SchemaRequest(text.value, SchemaTypeString(schemaType), references);
      var resp := HttpRequest("POST", SubjectVersionsUri(subject), Some(request));
      var decoded := Decoded(resp);
      if !decoded.Ok? {
        return if decoded.Err? then Err(decoded.error) else Panic;
      }
      var newSchema := GetSchema(decoded.value.id);
      if !newSchema.Ok? {
        return newSchema;
      }
      if cachingEnabled {
        subjectSchemaCache := subjectSchemaCache[CacheKey(subject, Itoa(newSchema.value.version)) := newSchema.value];
        idSchemaCache := idSchemaCache[newSchema.value.id := newSchema.value];
      }
      r := newSchema;
    }

    /** `LookupSchema`: refuses an unknown type before any request; otherwise POSTs
        the normalised text to the subject and, with caching on, stores the answer
        under `cacheKey(subject, version)` and under its id. */
    method LookupSchema(subject: string, schema: string, schemaType: SchemaType, references: seq<Reference>)
      returns (r: Outcome<Schema>)
      requires Valid()
      modifies this, httpClient
      ensures Valid()
      ensures credentials == old(credentials) && cachingEnabled == old(cachingEnabled)
      ensures NormalizedSchema(schemaType, schema).Err? ==>
                r == Err(InvalidSchemaType) && httpClient.requests == old(httpClient.requests) &&
                idSchemaCache == old(idSchemaCache) && subjectSchemaCache == old(subjectSchemaCache)
      ensures NormalizedSchema(schemaType, schema).Ok? ==>
                var post := old(RequestFor("POST", SubjectUri(subject),
                  Some(SchemaRequest(NormalizedSchema(schemaType, schema).value, SchemaTypeString(schemaType), references))));
                httpClient.requests == old(httpClient.requests) + [post] &&
                r == SchemaOfReply(httpClient.respond(post)) &&
                if cachingEnabled && r.Ok? then
                  subjectSchemaCache == old(subjectSchemaCache)[CacheKey(subject, Itoa(r.value.version)) := r.value] &&
                  idSchemaCache == old(idSchemaCache)[r.value.id := r.value]
                else
                  subjectSchemaCache == old(subjectSchemaCache) && idSchemaCache == old(idSchemaCache)
    {
      var text := NormalizedSchema(schemaType, schema);
      if !text.Ok? {
        return Err(InvalidSchemaType);
      }
      var request := SchemaRequest(text.value, SchemaTypeString(schemaType), references);
      var resp := HttpRequest("POST", SubjectUri(subject), Some(request));
      var decoded := Decoded(resp);
      if !decoded.Ok? {
        return if decoded.Err? then Err(decoded.error) else Panic;
      }
      var body := decoded.value;
      var gotSchema := Schema(body.id, body.schema, body.schemaType, body.version, body.references);
      if cachingEnabled {
        subjectSchemaCache := subjectSchemaCache[CacheKey(subject, Itoa(gotSchema.version)) := gotSchema];
        idSchemaCache := idSchemaCache[gotSchema.id := gotSchema];
      }
      r := Ok(gotSchema);
    }
  }

  /** Two identical `GetSchemaByVersion` calls on a new client: the second is answered
      from the cache, so the registry sees exactly one request. */
  method RepeatedVersionLookup(url: string, respond: Request -> Reply)
    returns (first: Outcome<Schema>, second: Outcome<Schema>, requests: seq<Request>)
    ensures first.Ok? ==> second == first && |requests| == 1
    ensures !first.Ok? ==> |requests| == 2
  {
    var server := new Server(respond);
    var client := new SchemaRegistryClient(url, server);
    first := client.GetSchemaByVersion("test1", 1);
    second := client.GetSchemaByVersion("test1", 1);
    requests := server.requests;
  }
}
