/** The appliance API client of internal/gdp/client.go: the endpoint target,
    the bearer-token exchange, the error-keyword scanner, profile import in
    its two modes, bulk connector install, and the VA datasource
    registration, configuration and notification calls.

    Each operation takes the network's answer as a `Response` value and
    returns the request it sent (or None when it sent nothing) together
    with the Go `error` it returns. */
module GdpClient {
  import opened Http
  import opened Text

  /** The endpoint target {protocol, host, port}. */
  datatype Client = Client(protocol: string, host: string, port: string)

  /** NewClient leaves the protocol empty. */
  function NewClient(host: string, port: string): (c: Client)
    ensures c.host == host && c.port == port && c.protocol == ""
  {
    Client("", host, port)
  }

  /** NewInsecureClient keeps host and port and forces the protocol to https;
      every resource goes through it. */
  function NewInsecureClient(c: Client): (i: Client)
    ensures i.host == c.host && i.port == c.port && i.protocol == "https"
  {
    Client("https", c.host, c.port)
  }

  /** The URL `protocol://host:port<path>`. */
  function Url(c: Client, path: string): (url: string) {
    c.protocol + "://" + c.host + ":" + c.port + path
  }

  function Bearer(accessToken: string): (header: string) { "Bearer " + accessToken }

  function JsonHeaders(accessToken: string): (headers: map<string, string>) {
    map["Authorization" := Bearer(accessToken), "Content-Type" := "application/json"]
  }

  // ---------------------------------------------------------------------
  // Error-keyword scanner

  const ErrorKeywords: seq<string> :=
    ["not found", "not supported", "failed", "error", "invalid", "could not", "unable to", "does not exist"]

  /** The lower-cased message contains one of the eight error keywords. */
  predicate HasErrorKeyword(message: string) {
    exists k :: k in ErrorKeywords && Contains(ToLower(message), k)
  }

  /** containsErrorKeywords: lower-case the message once, then try each
      keyword in turn and stop at the first that occurs. */
  method ContainsErrorKeywords(message: string) returns (found: bool)
    ensures found <==> HasErrorKeyword(message)
  {
    var messageLower := ToLower(message);
    for i := 0 to |ErrorKeywords|
      invariant forall j :: 0 <= j < i ==> !Contains(messageLower, ErrorKeywords[j])
    {
      if Contains(messageLower, ErrorKeywords[i]) {
        return true;
      }
    }
    return false;
  }

  lemma KeywordsAreLowerCase()
    ensures forall k :: k in ErrorKeywords ==> NoUpper(k) && k != []
  {
  }

  /** The scan does not depend on letter case. */
  lemma {:induction false} KeywordScanIgnoresCase(message: string)
    ensures HasErrorKeyword(message) <==> HasErrorKeyword(ToLower(message))
  {
    ToLowerIdempotent(message);
  }

  /** A keyword written in any letter case anywhere in the message is found. */
  lemma {:induction false} KeywordAnywhereIsFound(pre: string, word: string, post: string)
    requires ToLower(word) in ErrorKeywords
    ensures HasErrorKeyword(pre + word + post)
  {
    var k := ToLower(word);
    ToLowerAppend(pre + word, post);
    ToLowerAppend(pre, word);
    assert ToLower(pre + word + post) == ToLower(pre) + k + ToLower(post);
    ContainsMiddle(ToLower(pre), k, ToLower(post));
  }

  /** The empty message carries no keyword, so the source's `Message != ""`
      guard never changes a verdict. */
  lemma EmptyMessageHasNoKeyword()
    ensures !HasErrorKeyword("")
  {
    assert ToLower("") == "";
    forall k | k in ErrorKeywords
      ensures !Contains(ToLower(""), k)
    {
      KeywordsAreLowerCase();
    }
  }

  /** The exact messages that make a bulk install fail. */
  const BulkInstallErrors: set<string> := {"One or more of the specified hosts could not be found"}

  /** Every denylisted message is also caught by the keyword scan. */
  lemma DenylistImpliesKeyword(m: string)
    requires m in BulkInstallErrors
    ensures HasErrorKeyword(m)
  {
    var pre, word, post := "One or more of the specified hosts ", "could not", " be found";
    assert m == pre + word + post;
    ToLowerOfLower(word);
    KeywordAnywhereIsFound(pre, word, post);
  }

  // ---------------------------------------------------------------------
  // Token exchange

  datatype OauthTokenResponse = OauthTokenResponse(accessToken: string)

  function TokenQuery(clientSecret: string, username: string, password: string, clientId: string): (query: map<string, string>) {
    map["client_id" := clientId, "client_secret" := clientSecret, "password" := password,
        "username" := username, "grant_type" := "password"]
  }

  /** generateAccessToken: POST to /oauth/token with the credentials in the
      query. Only status 400 is rejected; any other status whose body decodes
      yields the decoded token, which may be empty. */
  method GenerateAccessToken(c: Client, clientSecret: string, username: string, password: string, clientId: string,
                             resp: Response<OauthTokenResponse>)
    returns (sent: Request, result: Result<OauthTokenResponse>)
    ensures sent.verb == "POST" && sent.url == Url(c, "/oauth/token") && sent.body == NoBody
    ensures sent.headers == map[]
    ensures sent.query.Keys == {"client_id", "client_secret", "password", "username", "grant_type"}
    ensures sent.query["client_id"] == clientId && sent.query["client_secret"] == clientSecret
    ensures sent.query["username"] == username && sent.query["password"] == password
    ensures sent.query["grant_type"] == "password"
    ensures resp.SendFailed? ==> result == Failure(SendError)
    ensures resp.Received? && resp.status == StatusBadRequest ==> result == Failure(InvalidCredentials)
    ensures result.Success? <==> resp.Received? && resp.status != StatusBadRequest && resp.payload.Parsed?
    ensures result.Success? ==> result.value == resp.payload.value
  {
    sent := Request("POST", Url(c, "/oauth/token"), TokenQuery(clientSecret, username, password, clientId), map[], NoBody);
    if resp.SendFailed? {
      return sent, Failure(SendError);
    }
    if resp.status == StatusBadRequest {
      return sent, Failure(InvalidCredentials);
    }
    match resp.payload
    case Unreadable => result := Failure(ReadError);
    case Unparsable => result := Failure(DecodeError);
    case Parsed(otr) => result := Success(otr);
  }

  // ---------------------------------------------------------------------
  // Profile import

  datatype ImportProfilesFromFileResponse = ImportProfilesFromFileResponse(id: string, message: string)

  /** What the client machine reports for the import path: os.Stat fails,
      or it succeeds and then os.Open fails, copying the file fails, or the
      file's bytes are read. */
  datatype LocalFile = Absent | OpenFails | CopyFails | Readable(content: seq<byte>)

  function BoolText(b: bool): (text: string) { if b then "true" else "false" }

  /** The multipart content type; the boundary is chosen at random by the
      multipart writer and is a parameter here. */
  function FormDataContentType(boundary: string): (contentType: string) { "multipart/form-data; boundary=" + boundary }

  /** ImportProfilesFromFile. A path that exists locally is uploaded as a
      multipart form; any other path is sent as a server-side path in JSON.
      The response must have status 200 (201 included among the failures);
      an undecodable 200 body is a success, and a decoded one fails only when
      its Message carries an error keyword. */
  method ImportProfilesFromFile(c: Client, accessToken: string, pathToFile: string, updateMode: bool,
                                local: LocalFile, boundary: string, resp: Response<ImportProfilesFromFileResponse>)
    returns (sent: Option<Request>, outcome: Outcome)
    // request shape
    ensures sent.Some? <==> local.Absent? || local.Readable?
    ensures sent.Some? ==> sent.value.verb == "POST" && sent.value.url == Url(c, "/restAPI/importProfilesFromFile")
    ensures sent.Some? ==> sent.value.query == map[] && "Authorization" in sent.value.headers &&
                           sent.value.headers["Authorization"] == Bearer(accessToken)
    ensures sent.Some? ==> (sent.value.body.MultipartBody? <==> local.Readable?)
    ensures local.Readable? ==> sent.Some? && sent.value.body == MultipartBody([
      FilePart("path", Base(pathToFile), local.content),
      FieldPart("updateMode", BoolText(updateMode)),
      FieldPart("TestConnections", "false")])
    ensures local.Readable? ==> "Content-Type" in sent.value.headers && sent.value.headers["Content-Type"] == FormDataContentType(boundary)
    ensures local.Absent? ==> sent.Some? && sent.value.headers == JsonHeaders(accessToken)
    ensures local.Absent? ==> sent.value.body == JsonBody(JObject([("updateMode", JBool(updateMode)), ("path", JString(pathToFile))]))
    // verdict
    ensures local.OpenFails? ==> outcome == Err(FileOpenError(pathToFile))
    ensures local.CopyFails? ==> outcome == Err(FileCopyError)
    ensures sent.Some? && resp.SendFailed? ==> outcome == Err(SendError)
    ensures sent.Some? && resp.Received? && resp.payload.Unreadable? ==> outcome == Err(ReadError)
    ensures sent.Some? && resp.Received? && resp.status != StatusOK && !resp.payload.Unreadable? ==>
              outcome == Err(ServerError(resp.status))
    ensures sent.Some? && resp.Received? && resp.status == StatusOK && resp.payload.Parsed? && HasErrorKeyword(resp.payload.value.message) ==>
              outcome == Err(OperationFailed(resp.payload.value.message))
    ensures outcome.Ok? <==>
              sent.Some? && resp.Received? && resp.status == StatusOK &&
              (resp.payload.Unparsable? || (resp.payload.Parsed? && !HasErrorKeyword(resp.payload.value.message)))
  {
    var url := Url(c, "/restAPI/importProfilesFromFile");
    var isLocalFile := !local.Absent?;
    var req: Request;
    if isLocalFile {
      if local.OpenFails? {
        return None, Err(FileOpenError(pathToFile));
      }
      var parts: seq<Part> := [];
      if local.CopyFails? {
        return None, Err(FileCopyError);
      }
      parts := parts + [FilePart("path", Base(pathToFile), local.content)];
      var updateModeStr := "false";
      if updateMode {
        updateModeStr := "true";
      }
      parts := parts + [FieldPart("updateMode", updateModeStr)];
      parts := parts + [FieldPart("TestConnections", "false")];
      req := Request("POST", url, map[],
                     map["Authorization" := Bearer(accessToken), "Content-Type" := FormDataContentType(boundary)],
                     MultipartBody(parts));
    } else {
      var requestBody := JObject([("updateMode", JBool(updateMode)), ("path", JString(pathToFile))]);
      req := Request("POST", url, map[], JsonHeaders(accessToken), JsonBody(requestBody));
    }
    sent := Some(req);

    if resp.SendFailed? {
      return sent, Err(SendError);
    }
    if resp.payload.Unreadable? {
      return sent, Err(ReadError);
    }
    if resp.status != StatusOK {
      return sent, Err(ServerError(resp.status));
    }
    if resp.payload.Unparsable? {
      return sent, Ok;
    }
    var message := resp.payload.value.message;
    var failed := false;
    if message != "" {
      failed := ContainsErrorKeywords(message);
    }
    if failed {
      return sent, Err(OperationFailed(message));
    }
    EmptyMessageHasNoKeyword();
    outcome := Ok;
  }

  /** The unit test's successful import: "/path/to/file.json" is not on the
      client machine, so the JSON form is sent, and a 200 answer with an
      empty body is a success. */
  method ImportServerPathExample() returns (sent: Option<Request>, outcome: Outcome)
    ensures sent == Some(Request("POST", Url(Client("http", "127.0.0.1", "8080"), "/restAPI/importProfilesFromFile"), map[],
                                 JsonHeaders("test-token"),
                                 JsonBody(JObject([("updateMode", JBool(true)), ("path", JString("/path/to/file.json"))]))))
    ensures outcome == Ok
  {
    sent, outcome := ImportProfilesFromFile(Client("http", "127.0.0.1", "8080"), "test-token", "/path/to/file.json",
                                            true, Absent, "b", Received(StatusOK, Unparsable));
  }

  /** The unit test's server error: status 500 is an error. */
  method ImportServerErrorExample() returns (outcome: Outcome)
    ensures outcome == Err(ServerError(500))
  {
    var _, o := ImportProfilesFromFile(Client("http", "127.0.0.1", "8080"), "test-token", "/path/to/file.json",
                                       true, Absent, "b", Received(500, Unparsable));
    outcome := o;
  }

  /** A file that exists on the client machine is uploaded under its base
      name, with updateMode as text. */
  method ImportLocalFileExample(content: seq<byte>) returns (sent: Option<Request>)
    ensures sent.Some?
    ensures sent.value.body == MultipartBody([FilePart("path", "profiles.csv", content),
                                              FieldPart("updateMode", "false"),
                                              FieldPart("TestConnections", "false")])
  {
    BaseOfJoin("/tmp", "profiles.csv");
    var outcome;
    sent, outcome := ImportProfilesFromFile(Client("https", "gdp.example.com", "8443"), "t", "/tmp" + "/" + "profiles.csv",
                                      false, Readable(content), "b", Received(StatusOK, Unparsable));
  }

  // ---------------------------------------------------------------------
  // Bulk connector install

  datatype BulkInstallConnectorResponse = BulkInstallConnectorResponse(id: string, message: string)

  /** BulkInstallConnector as written: the body is decoded BEFORE the status
      is looked at, so an undecodable body is a success whatever the status.
      A decoded body then fails on a status other than 200, on a denylisted
      Message, or on a Message with an error keyword. */
  method BulkInstallConnector(c: Client, accessToken: string, udcName: string, gdpMuHost: string,
                              resp: Response<BulkInstallConnectorResponse>)
    returns (sent: Request, outcome: Outcome)
    ensures sent == Request("POST", Url(c, "/restAPI/bulkInstall"), map[], JsonHeaders(accessToken),
                            JsonBody(JObject([("profileNames", JString(udcName)), ("hosts", JString(gdpMuHost))])))
    ensures resp.SendFailed? ==> outcome == Err(SendError)
    ensures resp.Received? && resp.payload.Unreadable? ==> outcome == Err(ReadError)
    ensures resp.Received? && resp.payload.Unparsable? ==> outcome == Ok
    ensures resp.Received? && resp.payload.Parsed? && resp.status != StatusOK ==> outcome == Err(ServerError(resp.status))
    ensures resp.Received? && resp.payload.Parsed? && resp.status == StatusOK && HasErrorKeyword(resp.payload.value.message) ==>
              outcome == Err(OperationFailed(resp.payload.value.message))
    ensures outcome.Ok? <==>
              resp.Received? &&
              (resp.payload.Unparsable? ||
               (resp.payload.Parsed? && resp.status == StatusOK && !HasErrorKeyword(resp.payload.value.message)))
  {
    var requestBody := JObject([("profileNames", JString(udcName)), ("hosts", JString(gdpMuHost))]);
    sent := Request("POST", Url(c, "/restAPI/bulkInstall"), map[], JsonHeaders(accessToken), JsonBody(requestBody));
    if resp.SendFailed? {
      return sent, Err(SendError);
    }
    if resp.payload.Unreadable? {
      return sent, Err(ReadError);
    }
    if resp.payload.Unparsable? {
      return sent, Ok;
    }
    if resp.status != StatusOK {
      return sent, Err(ServerError(resp.status));
    }
    var message := resp.payload.value.message;
    if message in BulkInstallErrors {
      DenylistImpliesKeyword(message);
      return sent, Err(OperationFailed(message));
    }
    var failed := false;
    if message != "" {
      failed := ContainsErrorKeywords(message);
    }
    if failed {
      return sent, Err(OperationFailed(message));
    }
    EmptyMessageHasNoKeyword();
    outcome := Ok;
  }

  // ---------------------------------------------------------------------
  // VA datasource registration, configuration and notifications

  datatype ApiResponse = ApiResponse(id: string, message: string, error: string)

  /** RegisterVADataSource as written. The payload must decode into a map:
      a JSON object, or null, which decodes to the nil map and is sent as
      null again (the source panics on anything else). The body is read but
      never decoded, and on a status other than 200 or 201 the function
      returns its `err` variable, which is nil at that point: only a failed
      send or a failed read is an error. */
  method RegisterVADataSource(c: Client, accessToken: string, payload: Json, resp: Response<ApiResponse>)
    returns (sent: Request, outcome: Outcome)
    requires payload.JObject? || payload.JNull?
    ensures sent == Request("POST", Url(c, "/restAPI/datasource"), map[], JsonHeaders(accessToken), JsonBody(payload))
    ensures resp.SendFailed? ==> outcome == Err(SendError)
    ensures outcome.Ok? <==> resp.Received? && !resp.payload.Unreadable?
    ensures resp.Received? && resp.status != StatusOK && resp.status != StatusCreated && !resp.payload.Unreadable? ==>
              outcome == Ok
  {
    sent := Request("POST", Url(c, "/restAPI/datasource"), map[], JsonHeaders(accessToken), JsonBody(payload));
    if resp.SendFailed? {
      return sent, Err(SendError);
    }
    if resp.payload.Unreadable? {
      return sent, Err(ReadError);
    }
    if resp.status != StatusOK && resp.status != StatusCreated {
      // the function returns its `err` variable here, which is nil
      return sent, Ok;
    }
    outcome := Ok;
  }

  /** ConfigureVADataSource as written: a body that does not decode is an
      error; a decoded body is a success whatever the status, because the
      status branch returns the outer `err`, which is nil there. */
  method ConfigureVADataSource(c: Client, accessToken: string, payload: Json, resp: Response<ApiResponse>)
    returns (sent: Request, outcome: Outcome)
    ensures sent == Request("POST", Url(c, "/restAPI/va/config"), map[], JsonHeaders(accessToken), JsonBody(payload))
    ensures resp.SendFailed? ==> outcome == Err(SendError)
    ensures resp.Received? && resp.payload.Unreadable? ==> outcome == Err(ReadError)
    ensures resp.Received? && resp.payload.Unparsable? ==> outcome == Err(DecodeError)
    ensures outcome.Ok? <==> resp.Received? && resp.payload.Parsed?
  {
    sent := Request("POST", Url(c, "/restAPI/va/config"), map[], JsonHeaders(accessToken), JsonBody(payload));
    if resp.SendFailed? {
      return sent, Err(SendError);
    }
    match resp.payload
    case Unreadable => return sent, Err(ReadError);
    case Unparsable => return sent, Err(DecodeError);
    case Parsed(_) =>
    if resp.status != StatusOK && resp.status != StatusCreated {
      // the function returns its `err` variable here, which is nil
      return sent, Ok;
    }
    outcome := Ok;
  }

  /** ConfigureVANotifications as written: the same verdict as
      ConfigureVADataSource, against /restAPI/notifications. */
  method ConfigureVANotifications(c: Client, accessToken: string, payload: Json, resp: Response<ApiResponse>)
    returns (sent: Request, outcome: Outcome)
    ensures sent == Request("POST", Url(c, "/restAPI/notifications"), map[], JsonHeaders(accessToken), JsonBody(payload))
    ensures resp.SendFailed? ==> outcome == Err(SendError)
    ensures resp.Received? && resp.payload.Unreadable? ==> outcome == Err(ReadError)
    ensures resp.Received? && resp.payload.Unparsable? ==> outcome == Err(DecodeError)
    ensures outcome.Ok? <==> resp.Received? && resp.payload.Parsed?
  {
    sent := Request("POST", Url(c, "/restAPI/notifications"), map[], JsonHeaders(accessToken), JsonBody(payload));
    if resp.SendFailed? {
      return sent, Err(SendError);
    }
    match resp.payload
    case Unreadable => return sent, Err(ReadError);
    case Unparsable => return sent, Err(DecodeError);
    case Parsed(_) =>
    if resp.status != StatusOK && resp.status != StatusCreated {
      // the function returns its `err` variable here, which is nil
      return sent, Ok;
    }
    outcome := Ok;
  }

  // ---------------------------------------------------------------------
  // Findings: inputs on which the code as written departs from what its
  // tests and log messages show was meant, and the intended verdicts.

  /** As written, a bulk install answered by status 500 with an empty body
      succeeds, because the empty body fails to decode before the status is
      checked; the unit test for a server error expects a failure. */
  method BulkInstallServerErrorExample() returns (outcome: Outcome)
    ensures outcome == Ok
  {
    var _, o := BulkInstallConnector(Client("http", "localhost", "8443"), "test-token", "connector-profile",
                                     "host1.example.com", Received(500, Unparsable));
    outcome := o;
  }

  /** Bulk install with the status checked before the body is decoded, as
      ImportProfilesFromFile does and as the server-error test expects. */
  method BulkInstallConnectorChecked(c: Client, accessToken: string, udcName: string, gdpMuHost: string,
                                     resp: Response<BulkInstallConnectorResponse>)
    returns (sent: Request, outcome: Outcome)
    ensures sent == Request("POST", Url(c, "/restAPI/bulkInstall"), map[], JsonHeaders(accessToken),
                            JsonBody(JObject([("profileNames", JString(udcName)), ("hosts", JString(gdpMuHost))])))
    ensures resp.Received? && !resp.payload.Unreadable? && resp.status != StatusOK ==> outcome == Err(ServerError(resp.status))
    ensures outcome.Ok? <==>
              resp.Received? && resp.status == StatusOK &&
              (resp.payload.Unparsable? || (resp.payload.Parsed? && !HasErrorKeyword(resp.payload.value.message)))
  {
    sent, outcome := BulkInstallConnector(c, accessToken, udcName, gdpMuHost, resp);
    if resp.Received? && !resp.payload.Unreadable? && resp.status != StatusOK {
      outcome := Err(ServerError(resp.status));
    }
  }

  /** As written, the token call answered by status 500 with the body
      {"error":"internal server error"} succeeds with an empty token; the
      unit test for a server error expects a failure. */
  method TokenServerErrorExample() returns (result: Result<OauthTokenResponse>)
    ensures result == Success(OauthTokenResponse(""))
  {
    var _, r := GenerateAccessToken(Client("http", "127.0.0.1", "8443"), "secret", "user", "pass", "test_client_id",
                                    Received(500, Parsed(OauthTokenResponse(""))));
    result := r;
  }

  /** The token call with every status other than 200 rejected; 400 keeps
      its own credentials message. */
  method GenerateAccessTokenChecked(c: Client, clientSecret: string, username: string, password: string, clientId: string,
                                    resp: Response<OauthTokenResponse>)
    returns (sent: Request, result: Result<OauthTokenResponse>)
    ensures sent.verb == "POST" && sent.url == Url(c, "/oauth/token") && sent.body == NoBody
    ensures sent.headers == map[]
    ensures sent.query == TokenQuery(clientSecret, username, password, clientId)
    ensures resp.Received? && resp.status == StatusBadRequest ==> result == Failure(InvalidCredentials)
    ensures resp.Received? && resp.status != StatusBadRequest && resp.status != StatusOK ==> result == Failure(ServerError(resp.status))
    ensures result.Success? <==> resp.Received? && resp.status == StatusOK && resp.payload.Parsed?
    ensures result.Success? ==> result.value == resp.payload.value
  {
    sent, result := GenerateAccessToken(c, clientSecret, username, password, clientId, resp);
    if resp.Received? && resp.status != StatusBadRequest && resp.status != StatusOK {
      result := Failure(ServerError(resp.status));
    }
  }

  /** A null payload is accepted and sent as null. */
  method RegisterNullPayloadExample() returns (sent: Request, outcome: Outcome)
    ensures sent.body == JsonBody(JNull)
    ensures outcome == Ok
  {
    sent, outcome := RegisterVADataSource(Client("https", "gdp.example.com", "8443"), "token", JNull,
                                          Received(StatusOK, Unparsable));
  }

  /** As written, a registration answered by status 500 succeeds. */
  method RegisterServerErrorExample() returns (outcome: Outcome)
    ensures outcome == Ok
  {
    var _, o := RegisterVADataSource(Client("https", "gdp.example.com", "8443"), "token", JObject([]),
                                     Received(500, Parsed(ApiResponse("", "", "internal server error"))));
    outcome := o;
  }

  /** Registration with the logged status failure returned as an error. */
  method RegisterVADataSourceChecked(c: Client, accessToken: string, payload: Json, resp: Response<ApiResponse>)
    returns (sent: Request, outcome: Outcome)
    requires payload.JObject? || payload.JNull?
    ensures sent == Request("POST", Url(c, "/restAPI/datasource"), map[], JsonHeaders(accessToken), JsonBody(payload))
    ensures resp.Received? && !resp.payload.Unreadable? && resp.status != StatusOK && resp.status != StatusCreated ==>
              outcome == Err(ServerError(resp.status))
    ensures outcome.Ok? <==>
              resp.Received? && !resp.payload.Unreadable? && (resp.status == StatusOK || resp.status == StatusCreated)
  {
    sent, outcome := RegisterVADataSource(c, accessToken, payload, resp);
    if outcome.Ok? && resp.status != StatusOK && resp.status != StatusCreated {
      outcome := Err(ServerError(resp.status));
    }
  }

  /** As written, a VA configuration answered by status 500 with a decodable
      body succeeds. */
  method ConfigureServerErrorExample() returns (outcome: Outcome)
    ensures outcome == Ok
  {
    var _, o := ConfigureVADataSource(Client("https", "gdp.example.com", "8443"), "token", JObject([]),
                                      Received(500, Parsed(ApiResponse("", "", "internal server error"))));
    outcome := o;
  }

  /** VA configuration with the logged status failure returned as an error. */
  method ConfigureVADataSourceChecked(c: Client, accessToken: string, payload: Json, resp: Response<ApiResponse>)
    returns (sent: Request, outcome: Outcome)
    ensures sent == Request("POST", Url(c, "/restAPI/va/config"), map[], JsonHeaders(accessToken), JsonBody(payload))
    ensures resp.Received? && resp.payload.Parsed? && resp.status != StatusOK && resp.status != StatusCreated ==>
              outcome == Err(ServerError(resp.status))
    ensures outcome.Ok? <==>
              resp.Received? && resp.payload.Parsed? && (resp.status == StatusOK || resp.status == StatusCreated)
  {
    sent, outcome := ConfigureVADataSource(c, accessToken, payload, resp);
    if outcome.Ok? && resp.status != StatusOK && resp.status != StatusCreated {
      outcome := Err(ServerError(resp.status));
    }
  }

  /** As written, a notification configuration answered by status 500 with a
      decodable body succeeds. */
  method NotificationsServerErrorExample() returns (outcome: Outcome)
    ensures outcome == Ok
  {
    var _, o := ConfigureVANotifications(Client("https", "gdp.example.com", "8443"), "token", JObject([]),
                                         Received(500, Parsed(ApiResponse("", "", "internal server error"))));
    outcome := o;
  }

  /** Notification configuration with the logged status failure returned as
      an error. */
  method ConfigureVANotificationsChecked(c: Client, accessToken: string, payload: Json, resp: Response<ApiResponse>)
    returns (sent: Request, outcome: Outcome)
    ensures sent == Request("POST", Url(c, "/restAPI/notifications"), map[], JsonHeaders(accessToken), JsonBody(payload))
    ensures resp.Received? && resp.payload.Parsed? && resp.status != StatusOK && resp.status != StatusCreated ==>
              outcome == Err(ServerError(resp.status))
    ensures outcome.Ok? <==>
              resp.Received? && resp.payload.Parsed? && (resp.status == StatusOK || resp.status == StatusCreated)
  {
    sent, outcome := ConfigureVANotifications(c, accessToken, payload, resp);
    if outcome.Ok? && resp.status != StatusOK && resp.status != StatusCreated {
      outcome := Err(ServerError(resp.status));
    }
  }
}
