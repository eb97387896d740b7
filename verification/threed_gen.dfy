/** The 3D-generation task endpoint (commons/api/threed_gen.py): the posted
    task data is parsed, file completions are reduced to their file name,
    the uploaded files are attached, and the outcome becomes an HTTP status.
    JSON parsing, model validation and sending to the validator are
    parameters. */
module ThreedGen {
  import opened Common
  import opened Protocol

  const ResponsesKey := "responses"
  const CompletionKey := "completion"
  const FilenameKey := "filename"

  const EmptyBody := "Request body is empty"
  const InvalidJson := "Invalid JSON in request body"
  const InvalidData := "Invalid request data"
  const InvalidDataPrefix := "Invalid request data: "
  const InternalError := "Internal server error"

  /** A JSON reply: an error message, or the encoded result. */
  datatype Body<T> = Message(message: string) | Content(content: T)
  datatype HttpReply<T> = HttpReply(status: int, body: Body<T>)

  /** The exceptions walking the request data can raise. */
  datatype Raised = KeyErr | TypeErr

  /** One response of the loop: a dict completion holding a file name is
      replaced by a dict with only that name; a response without a
      completion raises `KeyError`, one that is not a dict `TypeError`. */
  function SanitizeResponse(response: Json): (r: Result<Json, Raised>)
    ensures !response.JObject? ==> r == Err(TypeErr)
    ensures response.JObject? && CompletionKey !in response.fields ==> r == Err(KeyErr)
    ensures r.Ok? ==> r.value.JObject? && r.value.fields.Keys == response.fields.Keys
    ensures r.Ok? ==> forall k :: k in response.fields && k != CompletionKey ==> r.value.fields[k] == response.fields[k]
    ensures r.Ok? ==>
      var c := response.fields[CompletionKey];
      && (c.JObject? && FilenameKey in c.fields ==>
           r.value.fields[CompletionKey] == JObject(map[FilenameKey := c.fields[FilenameKey]]))
      && (!(c.JObject? && FilenameKey in c.fields) ==> r.value == response)
  {
    match response
    case JObject(fields) =>
      if CompletionKey !in fields then Err(KeyErr)
      else
        var c := fields[CompletionKey];
        if c.JObject? && FilenameKey in c.fields then
          Ok(JObject(fields[CompletionKey := JObject(map[FilenameKey := c.fields[FilenameKey]])]))
        else Ok(response)
    case _ => Err(TypeErr)
  }

  /** Sanitising a response a second time changes nothing. */
  lemma SanitizeIdempotent(response: Json)
    requires SanitizeResponse(response).Ok?
    ensures SanitizeResponse(SanitizeResponse(response).value) == SanitizeResponse(response)
  {
    var once := SanitizeResponse(response).value;
    var c := response.fields[CompletionKey];
    if c.JObject? && FilenameKey in c.fields {
      assert once.fields[CompletionKey].fields[FilenameKey] == c.fields[FilenameKey];
      assert once.fields[CompletionKey] == JObject(map[FilenameKey := c.fields[FilenameKey]]);
      assert once.fields[CompletionKey := JObject(map[FilenameKey := c.fields[FilenameKey]])] == once.fields;
    }
  }

  /** What `for response in request_data["responses"]` iterates over: a
      list's items; a non-empty dict or string yields keys or characters,
      which the loop body cannot index by a string (`TypeError`); anything
      else is not iterable. */
  function ResponseItems(responses: Json): (r: Result<seq<Json>, Raised>)
    ensures r.Ok? <==> responses.JArray? || responses == JObject(map[]) || responses == JString("")
  {
    match responses
    case JArray(items) => Ok(items)
    case JObject(fields) => if fields == map[] then Ok([]) else Err(TypeErr)
    case JString(s) => if s == "" then Ok([]) else Err(TypeErr)
    case _ => Err(TypeErr)
  }

  /** The loop over the responses, rewriting each in place; the first
      exception ends it. */
  method SanitizeResponses(items: seq<Json>) returns (r: Result<seq<Json>, Raised>)
    ensures r == MapResults(items, SanitizeResponse)
    ensures r.Ok? ==> |r.value| == |items| && forall i :: 0 <= i < |items| ==> SanitizeResponse(items[i]) == Ok(r.value[i])
  {
    var out := items;
    var i := 0;
    while i < |items|
      invariant 0 <= i <= |items| == |out|
      invariant MapResults(items[..i], SanitizeResponse) == Ok(out[..i])
      invariant out[i..] == items[i..]
    {
      var s := SanitizeResponse(out[i]);
      MapResultsStep(items, SanitizeResponse, i);
      if s.Err? {
        MapResultsErrStays(items, SanitizeResponse, i + 1);
        return Err(s.error);
      }
      out := out[i := s.value];
      assert out[..i + 1] == out[..i] + [s.value];
      i := i + 1;
    }
    assert items[..i] == items && out[..i] == out;
    r := Ok(out);
  }

  /** The request data after the loop: the `responses` list replaced by its
      sanitised copy (an empty dict or string stays as it was). */
  function WithResponses(fields: map<string, Json>, sanitized: seq<Json>): map<string, Json>
    requires ResponsesKey in fields
  {
    if fields[ResponsesKey].JArray? then fields[ResponsesKey := JArray(sanitized)] else fields
  }

  /** The request data once its responses are walked: `KeyError` without a
      `responses` key or when a response lacks a completion, `TypeError`
      when something is not the expected list or dict; otherwise the same
      data with every response sanitised. */
  function PrepareData(fields: map<string, Json>): (r: Result<map<string, Json>, Raised>)
    ensures ResponsesKey !in fields ==> r == Err(KeyErr)
    ensures ResponsesKey in fields && ResponseItems(fields[ResponsesKey]).Err? ==> r == Err(TypeErr)
    ensures r.Ok? ==> r.value.Keys == fields.Keys
    ensures r.Ok? ==> forall k :: k in fields && k != ResponsesKey ==> r.value[k] == fields[k]
    ensures r.Ok? && fields[ResponsesKey].JArray? ==>
      var items := fields[ResponsesKey].items;
      && r.value[ResponsesKey].JArray? && |r.value[ResponsesKey].items| == |items|
      && forall i :: 0 <= i < |items| ==> SanitizeResponse(items[i]) == Ok(r.value[ResponsesKey].items[i])
    ensures r.Err? && ResponsesKey in fields && fields[ResponsesKey].JArray? ==>
      exists i :: 0 <= i < |fields[ResponsesKey].items| && SanitizeResponse(fields[ResponsesKey].items[i]) == Err(r.error)
  {
    if ResponsesKey !in fields then Err(KeyErr)
    else
      match ResponseItems(fields[ResponsesKey])
      case Err(e) => Err(e)
      case Ok(items) =>
        match MapResults(items, SanitizeResponse)
        case Err(e) => Err(e)
        case Ok(sanitized) => Ok(WithResponses(fields, sanitized))
  }

  /** The reply for an exception caught while reading the data. */
  function ErrorReply<T>(e: Raised): (reply: HttpReply<T>)
    ensures reply.status == 400 <==> e.KeyErr?
    ensures reply.body.Message?
  {
    if e.KeyErr? then HttpReply(400, Message(InvalidData)) else HttpReply(500, Message(InternalError))
  }

  /** `files if files else []`. */
  function Attached<F>(files: Option<seq<F>>): seq<F>
  {
    if files.Some? then files.value else []
  }

  /** `create_3d_gen_task`: 400 for text that is not JSON, for an empty
      body, for missing keys and for data the request model rejects (with
      its message); 500 for anything else that goes wrong while reading the
      data or sending it; otherwise the validator's answer. Uploaded files
      default to the empty list. */
  method CreateThreedGenTask<F, Req, Resp>(taskData: string, files: Option<seq<F>>,
                                           parse: string -> Option<Json>,
                                           validate: (map<string, Json>, seq<F>) -> Result<Req, string>,
                                           send: Req -> Result<Resp, string>)
    returns (reply: HttpReply<Resp>, sent: Option<Req>)
    ensures reply.status == 200 || reply.status == 400 || reply.status == 500
    ensures reply.status == 200 <==> sent.Some? && send(sent.value).Ok?
    ensures reply.status == 200 ==> reply.body == Content(send(sent.value).value)
    ensures parse(taskData).None? ==> reply == HttpReply(400, Message(InvalidJson)) && sent.None?
    ensures parse(taskData).Some? && !Truthy(parse(taskData).value) ==>
      reply == HttpReply(400, Message(EmptyBody)) && sent.None?
    ensures parse(taskData).Some? && Truthy(parse(taskData).value) && !parse(taskData).value.JObject? ==>
      reply == HttpReply(500, Message(InternalError)) && sent.None?
    ensures parse(taskData).Some? && Truthy(parse(taskData).value) && parse(taskData).value.JObject? ==>
      match PrepareData(parse(taskData).value.fields)
      case Err(e) => reply == ErrorReply(e) && sent.None?
      case Ok(data) =>
        match validate(data, Attached(files))
        case Err(msg) => reply == HttpReply(400, Message(InvalidDataPrefix + msg)) && sent.None?
        case Ok(req) => sent == Some(req) && (send(req).Err? ==> reply == HttpReply(500, Message(InternalError)))
  {
    sent := None;
    var requestData := parse(taskData);
    if requestData.None? {
      return HttpReply(400, Message(InvalidJson)), None;
    }
    if !Truthy(requestData.value) {
      return HttpReply(400, Message(EmptyBody)), None;
    }
    if !requestData.value.JObject? {
      return HttpReply(500, Message(InternalError)), None;
    }
    var fields := requestData.value.fields;
    if ResponsesKey !in fields {
      return ErrorReply(KeyErr), None;
    }
    var items := ResponseItems(fields[ResponsesKey]);
    if items.Err? {
      return ErrorReply(items.error), None;
    }
    var sanitized := SanitizeResponses(items.value);
    if sanitized.Err? {
      return ErrorReply(sanitized.error), None;
    }
    var data := WithResponses(fields, sanitized.value);
    var validated := validate(data, Attached(files));
    if validated.Err? {
      return HttpReply(400, Message(InvalidDataPrefix + validated.error)), None;
    }
    sent := Some(validated.value);
    var response := send(validated.value);
    if response.Err? {
      return HttpReply(500, Message(InternalError)), sent;
    }
    reply := HttpReply(200, Content(response.value));
  }
}
