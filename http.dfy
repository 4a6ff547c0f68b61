/** Wire-level vocabulary shared by the appliance client: JSON values, request
    shapes, the abstract answer of the network, and the client's error taxonomy.
    JSON encoding and decoding themselves are library behaviour and are not
    modelled: a request carries the JSON value that is marshalled, and a
    response carries the outcome of unmarshalling its body. */
module Http {

  newtype byte = b: int | 0 <= b < 256

  datatype Option<+T> = None | Some(value: T)

  /** A JSON value. Object members keep the order in which encoding/json
      writes the fields of a struct; a number is kept as its literal text. */
  datatype Json =
    | JNull
    | JBool(b: bool)
    | JNumber(text: string)
    | JString(s: string)
    | JArray(items: seq<Json>)
    | JObject(members: seq<(string, Json)>)

  /** The value of the first member named `key` in an object. (encoding/json
      keeps the last of duplicate keys when decoding; every object this model
      builds has distinct keys, so the two agree on them.) */
  function Member(j: Json, key: string): (r: Option<Json>)
    ensures r.Some? ==> j.JObject? && exists i :: 0 <= i < |j.members| && j.members[i] == (key, r.value)
    ensures j.JObject? && r.None? ==> forall i :: 0 <= i < |j.members| ==> j.members[i].0 != key
  {
    if !j.JObject? then None else FirstMember(j.members, key)
  }

  function FirstMember(members: seq<(string, Json)>, key: string): (r: Option<Json>)
    ensures r.Some? ==> exists i :: 0 <= i < |members| && members[i] == (key, r.value)
    ensures r.None? ==> forall i :: 0 <= i < |members| ==> members[i].0 != key
  {
    if members == [] then None
    else if members[0].0 == key then Some(members[0].1)
    else FirstMember(members[1..], key)
  }

  /** Looking up the key of the member at index `i` finds that member when
      no earlier member has the same key. */
  lemma {:induction false} FirstMemberAt(members: seq<(string, Json)>, i: nat)
    requires i < |members|
    requires forall k :: 0 <= k < i ==> members[k].0 != members[i].0
    ensures FirstMember(members, members[i].0) == Some(members[i].1)
  {
    if i > 0 {
      FirstMemberAt(members[1..], i - 1);
    }
  }

  lemma MemberAt(j: Json, i: nat)
    requires j.JObject? && i < |j.members|
    requires forall k :: 0 <= k < i ==> j.members[k].0 != j.members[i].0
    ensures Member(j, j.members[i].0) == Some(j.members[i].1)
  {
    FirstMemberAt(j.members, i);
  }

  /** The member names of an object, in order. */
  function Keys(j: Json): (r: seq<string>)
    requires j.JObject?
    ensures |r| == |j.members|
    ensures forall i :: 0 <= i < |r| ==> r[i] == j.members[i].0
  {
    seq(|j.members|, i requires 0 <= i < |j.members| => j.members[i].0)
  }

  /** One part of a multipart/form-data body. */
  datatype Part =
    | FilePart(field: string, fileName: string, content: seq<byte>)
    | FieldPart(field: string, value: string)

  datatype Body =
    | NoBody
    | JsonBody(json: Json)
    | MultipartBody(parts: seq<Part>)

  /** An HTTP request as it leaves the client: method (verb), URL without its query,
      the query parameters, the headers and the body. */
  datatype Request = Request(
    verb: string,
    url: string,
    query: map<string, string>,
    headers: map<string, string>,
    body: Body)

  /** What reading and decoding a response body gave: io.ReadAll failed, the
      bytes were read but are not the expected JSON, or they decoded to M. */
  datatype Payload<+M> = Unreadable | Unparsable | Parsed(value: M)

  /** The network's answer to one request: sending failed, or a status code
      arrived together with a body. */
  datatype Response<+M> = SendFailed | Received(status: int, payload: Payload<M>)

  const StatusOK: int := 200
  const StatusCreated: int := 201
  const StatusNoContent: int := 204
  const StatusBadRequest: int := 400

  /** The errors the client returns; each stands for one family of
      `fmt.Errorf` messages in the source. */
  datatype Error =
    | SendError                         // httpClient.Do failed
    | ReadError                         // reading the response body failed
    | DecodeError                       // the body is not the expected JSON
    | InvalidCredentials                // the token endpoint answered 400
    | ServerError(status: int)          // "error response from server: ..., status code: N"
    | OperationFailed(message: string)  // 2xx whose Message reports a failure
    | FileOpenError(path: string)       // os.Open of a local import file failed
    | FileCopyError                     // copying the local file into the form failed
    | LookupError(cause: Error)         // listing secret-store configurations failed

  /** A Go `error` result: nil, or an error. */
  datatype Outcome = Ok | Err(error: Error)

  /** A Go `(T, error)` result. */
  datatype Result<+T> = Success(value: T) | Failure(error: Error)
}
