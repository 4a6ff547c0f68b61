/** The AWS Secrets Manager operations of internal/gdp/aws_secrets_manager.go:
    the client-shaped record and its constructor, the translation from the
    server-shaped records of the listing, the lookups built on the listing,
    and the create, update and delete calls with their accepted statuses. */
module SecretsManager {
  import opened Http
  import opened GdpClient

  /** The client-shaped record, as the provider sends it. */
  datatype AWSSecretsManagerConfig = AWSSecretsManagerConfig(
    name: string,
    authType: string,
    accessKeyID: string,
    secretAccessKey: string,
    secretKeyUsername: string,
    secretKeyPassword: string)

  /** NewAWSSecretsManagerConfig: each argument lands in the field of the
      same position. */
  function NewAWSSecretsManagerConfig(name: string, authType: string, accessKeyID: string, secretAccessKey: string,
                                      secretKeyUsername: string, secretKeyPassword: string): (c: AWSSecretsManagerConfig)
    ensures c.name == name && c.authType == authType && c.accessKeyID == accessKeyID
    ensures c.secretAccessKey == secretAccessKey
    ensures c.secretKeyUsername == secretKeyUsername && c.secretKeyPassword == secretKeyPassword
  {
    AWSSecretsManagerConfig(name, authType, accessKeyID, secretAccessKey, secretKeyUsername, secretKeyPassword)
  }

  /** The JSON form of a client-shaped record, with the struct's json tags. */
  function ConfigJson(config: AWSSecretsManagerConfig): (j: Json) {
    JObject([
      ("name", JString(config.name)),
      ("auth_type", JString(config.authType)),
      ("access_key_id", JString(config.accessKeyID)),
      ("secret_access_key", JString(config.secretAccessKey)),
      ("secret_key_username", JString(config.secretKeyUsername)),
      ("secret_key_password", JString(config.secretKeyPassword))])
  }

  /** The server-shaped record of the listing. */
  datatype ServerRecord = ServerRecord(
    id: int,
    name: string,
    accessKeyId: string,
    secretAccessKey: string,
    authType: string,
    roleARN: string,
    secretKeyUsernameIdentifier: string,
    secretKeyPasswordIdentifier: string,
    secretsManager: bool)

  /** The field-renaming translation from a server record to a client record;
      id, roleARN and secretsManager are dropped. */
  function ToClientConfig(r: ServerRecord): (c: AWSSecretsManagerConfig)
    ensures c.name == r.name && c.authType == r.authType && c.accessKeyID == r.accessKeyId
    ensures c.secretAccessKey == r.secretAccessKey
    ensures c.secretKeyUsername == r.secretKeyUsernameIdentifier
    ensures c.secretKeyPassword == r.secretKeyPasswordIdentifier
  {
    NewAWSSecretsManagerConfig(r.name, r.authType, r.accessKeyId, r.secretAccessKey,
                               r.secretKeyUsernameIdentifier, r.secretKeyPasswordIdentifier)
  }

  /** The dropped server fields have no influence on the client record. */
  lemma DroppedFieldsIgnored(r: ServerRecord, id: int, roleARN: string, secretsManager: bool)
    ensures ToClientConfig(r.(id := id, roleARN := roleARN, secretsManager := secretsManager)) == ToClientConfig(r)
  {
  }

  /** The listing, record by record. */
  function Translated(records: seq<ServerRecord>): (configs: seq<AWSSecretsManagerConfig>)
    ensures |configs| == |records|
    ensures forall i :: 0 <= i < |records| ==> configs[i] == ToClientConfig(records[i])
  {
    if records == [] then [] else [ToClientConfig(records[0])] + Translated(records[1..])
  }

  /** What GetAllAWSSecretsManagerConfigs returns for a response: any status
      other than 200 is an error (the body is then read only for the message),
      and the body must read and decode as an array of server records. */
  function ListedConfigs(resp: Response<seq<ServerRecord>>): (r: Result<seq<AWSSecretsManagerConfig>>)
    ensures r.Success? <==> resp.Received? && resp.status == StatusOK && resp.payload.Parsed?
    ensures resp.Received? && resp.status != StatusOK ==> r == Failure(ServerError(resp.status))
    ensures r.Success? ==> |r.value| == |resp.payload.value|
    ensures r.Success? ==> forall i :: 0 <= i < |r.value| ==> r.value[i] == ToClientConfig(resp.payload.value[i])
  {
    match resp
    case SendFailed => Failure(SendError)
    case Received(status, payload) =>
      if status != StatusOK then Failure(ServerError(status))
      else match payload
        case Unreadable => Failure(ReadError)
        case Unparsable => Failure(DecodeError)
        case Parsed(records) => Success(Translated(records))
  }

  /** The first configuration named `name`, if any. */
  function FindByName(configs: seq<AWSSecretsManagerConfig>, name: string): (r: Option<AWSSecretsManagerConfig>)
    ensures r.Some? ==> r.value.name == name
    ensures r.Some? ==> exists i :: 0 <= i < |configs| && configs[i] == r.value &&
                                   forall j :: 0 <= j < i ==> configs[j].name != name
    ensures r.None? <==> forall i :: 0 <= i < |configs| ==> configs[i].name != name
  {
    if configs == [] then None
    else if configs[0].name == name then Some(configs[0])
    else FindByName(configs[1..], name)
  }

  /** FindByName picks the configuration at the first index with that name. */
  lemma {:induction false} FindByNameIsFirst(configs: seq<AWSSecretsManagerConfig>, name: string, i: nat)
    requires i < |configs| && configs[i].name == name
    requires forall j :: 0 <= j < i ==> configs[j].name != name
    ensures FindByName(configs, name) == Some(configs[i])
  {
    if i > 0 {
      assert configs[0].name != name;
      FindByNameIsFirst(configs[1..], name, i - 1);
    }
  }

  /** What GetAWSSecretsManager returns: a listing error is wrapped, and
      otherwise the first match, or none without an error. */
  function Lookup(resp: Response<seq<ServerRecord>>, name: string): (r: Result<Option<AWSSecretsManagerConfig>>)
    ensures r.Failure? <==> ListedConfigs(resp).Failure?
    ensures r.Failure? ==> r.error == LookupError(ListedConfigs(resp).error)
    ensures r.Success? ==> r.value == FindByName(ListedConfigs(resp).value, name)
  {
    match ListedConfigs(resp)
    case Failure(e) => Failure(LookupError(e))
    case Success(configs) => Success(FindByName(configs, name))
  }

  /** A lookup in a successful listing finds a record exactly when the
      listing holds a record of that name, and what it finds has that name. */
  lemma LookupFinds(resp: Response<seq<ServerRecord>>, name: string)
    requires resp.Received? && resp.status == StatusOK && resp.payload.Parsed?
    ensures Lookup(resp, name).Success?
    ensures Lookup(resp, name).value.Some? <==>
              exists i :: 0 <= i < |resp.payload.value| && resp.payload.value[i].name == name
    ensures Lookup(resp, name).value.Some? ==> Lookup(resp, name).value.value.name == name
  {
    var configs := ListedConfigs(resp).value;
    assert forall i :: 0 <= i < |configs| ==> configs[i].name == resp.payload.value[i].name;
  }

  function ListRequest(c: Client, accessToken: string): (req: Request) {
    Request("GET", Url(c, "/restAPI/aws_secrets_manager"), map[], map["Authorization" := Bearer(accessToken)], NoBody)
  }

  /** GetAllAWSSecretsManagerConfigs: GET the listing and translate each
      record, in order. */
  method GetAllAWSSecretsManagerConfigs(c: Client, accessToken: string, resp: Response<seq<ServerRecord>>)
    returns (sent: Request, result: Result<seq<AWSSecretsManagerConfig>>)
    ensures sent == ListRequest(c, accessToken)
    ensures result == ListedConfigs(resp)
  {
    sent := ListRequest(c, accessToken);
    if resp.SendFailed? {
      return sent, Failure(SendError);
    }
    if resp.status != StatusOK {
      return sent, Failure(ServerError(resp.status));
    }
    match resp.payload
    case Unreadable => return sent, Failure(ReadError);
    case Unparsable => return sent, Failure(DecodeError);
    case Parsed(records) =>
    var configs: seq<AWSSecretsManagerConfig> := [];
    for i := 0 to |records|
      invariant |configs| == i
      invariant forall j :: 0 <= j < i ==> configs[j] == ToClientConfig(records[j])
    {
      var config := NewAWSSecretsManagerConfig(records[i].name, records[i].authType, records[i].accessKeyId,
                                               records[i].secretAccessKey, records[i].secretKeyUsernameIdentifier,
                                               records[i].secretKeyPasswordIdentifier);
      configs := configs + [config];
    }
    assert configs == Translated(records);
    result := Success(configs);
  }

  /** GetExistingAWSSecretsManagerNames: the Name of every listed
      configuration, in listing order. */
  method GetExistingAWSSecretsManagerNames(c: Client, accessToken: string, resp: Response<seq<ServerRecord>>)
    returns (sent: Request, result: Result<seq<string>>)
    ensures sent == ListRequest(c, accessToken)
    ensures ListedConfigs(resp).Failure? ==> result == Failure(LookupError(ListedConfigs(resp).error))
    ensures result.Success? <==> ListedConfigs(resp).Success?
    ensures result.Success? ==> |result.value| == |ListedConfigs(resp).value|
    ensures result.Success? ==> forall i :: 0 <= i < |result.value| ==> result.value[i] == ListedConfigs(resp).value[i].name
  {
    var listed;
    sent, listed := GetAllAWSSecretsManagerConfigs(c, accessToken, resp);
    if listed.Failure? {
      return sent, Failure(LookupError(listed.error));
    }
    var configs := listed.value;
    var names: seq<string> := [];
    for i := 0 to |configs|
      invariant |names| == i
      invariant forall j :: 0 <= j < i ==> names[j] == configs[j].name
    {
      names := names + [configs[i].name];
    }
    result := Success(names);
  }

  /** GetAWSSecretsManager: list, then scan for the first record with the
      given name. */
  method GetAWSSecretsManager(c: Client, accessToken: string, name: string, resp: Response<seq<ServerRecord>>)
    returns (sent: Request, result: Result<Option<AWSSecretsManagerConfig>>)
    ensures sent == ListRequest(c, accessToken)
    ensures result == Lookup(resp, name)
  {
    var listed;
    sent, listed := GetAllAWSSecretsManagerConfigs(c, accessToken, resp);
    if listed.Failure? {
      return sent, Failure(LookupError(listed.error));
    }
    var configs := listed.value;
    for i := 0 to |configs|
      invariant forall j :: 0 <= j < i ==> configs[j].name != name
    {
      if configs[i].name == name {
        FindByNameIsFirst(configs, name, i);
        return sent, Success(Some(configs[i]));
      }
    }
    result := Success(None);
  }

  /** The statuses create and update accept, and those delete accepts. */
  const WriteStatuses: set<int> := {StatusOK, StatusCreated}
  const DeleteStatuses: set<int> := {StatusOK, StatusNoContent}

  /** The verdict of a call that looks only at the status: a failed send is
      an error, and an answer succeeds iff its status is accepted. The body,
      and any failure to read it, play no part. */
  function StatusOutcome(resp: Response<()>, accepted: set<int>): (o: Outcome)
    ensures resp.SendFailed? ==> o == Err(SendError)
    ensures resp.Received? ==> (o.Ok? <==> resp.status in accepted)
    ensures resp.Received? && o.Err? ==> o == Err(ServerError(resp.status))
  {
    match resp
    case SendFailed => Err(SendError)
    case Received(status, _) => if status in accepted then Ok else Err(ServerError(status))
  }

  /** The request shared by create (POST) and update (PUT): the whole record
      as JSON, to the same path. */
  function WriteRequest(verb: string, c: Client, accessToken: string, config: AWSSecretsManagerConfig): (req: Request) {
    Request(verb, Url(c, "/restAPI/aws_secrets_manager"), map[], JsonHeaders(accessToken), JsonBody(ConfigJson(config)))
  }

  /** CreateAWSSecretsManager: POST the record; 200 and 201 are accepted. A
      failure to read the body is ignored. */
  method CreateAWSSecretsManager(c: Client, accessToken: string, config: AWSSecretsManagerConfig, resp: Response<()>)
    returns (sent: Request, outcome: Outcome)
    ensures sent == WriteRequest("POST", c, accessToken, config)
    ensures outcome == StatusOutcome(resp, WriteStatuses)
  {
    sent := WriteRequest("POST", c, accessToken, config);
    if resp.SendFailed? {
      return sent, Err(SendError);
    }
    if resp.status != StatusOK && resp.status != StatusCreated {
      return sent, Err(ServerError(resp.status));
    }
    outcome := Ok;
  }

  /** UpdateAWSSecretsManager: PUT the record; 200 and 201 are accepted. */
  method UpdateAWSSecretsManager(c: Client, accessToken: string, config: AWSSecretsManagerConfig, resp: Response<()>)
    returns (sent: Request, outcome: Outcome)
    ensures sent == WriteRequest("PUT", c, accessToken, config)
    ensures outcome == StatusOutcome(resp, WriteStatuses)
  {
    sent := WriteRequest("PUT", c, accessToken, config);
    if resp.SendFailed? {
      return sent, Err(SendError);
    }
    if resp.status != StatusOK && resp.status != StatusCreated {
      return sent, Err(ServerError(resp.status));
    }
    outcome := Ok;
  }

  /** Create and update differ only in the HTTP method. */
  lemma CreateAndUpdateShareBody(c: Client, accessToken: string, config: AWSSecretsManagerConfig)
    ensures WriteRequest("POST", c, accessToken, config).(verb := "PUT") == WriteRequest("PUT", c, accessToken, config)
  {
  }

  function DeleteRequest(c: Client, accessToken: string, name: string): (req: Request) {
    Request("DELETE", Url(c, "/restAPI/aws_secrets_manager"), map[], JsonHeaders(accessToken),
            JsonBody(JObject([("name", JString(name))])))
  }

  /** DeleteAWSSecretsManager: DELETE with the body {name}; 200 and 204 are
      accepted. */
  method DeleteAWSSecretsManager(c: Client, accessToken: string, name: string, resp: Response<()>)
    returns (sent: Request, outcome: Outcome)
    ensures sent == DeleteRequest(c, accessToken, name)
    ensures outcome == StatusOutcome(resp, DeleteStatuses)
  {
    sent := DeleteRequest(c, accessToken, name);
    if resp.SendFailed? {
      return sent, Err(SendError);
    }
    if resp.status != StatusOK && resp.status != StatusNoContent {
      return sent, Err(ServerError(resp.status));
    }
    outcome := Ok;
  }
}
