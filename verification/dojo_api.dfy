/** The Dojo worker API client of commons/human_feedback/dojo.py: request
    serialisation and the two bounded retry loops. The HTTP exchange of
    each attempt is an input outcome; the environment variable
    `TASK_MAX_RESULTS` is a parameter; the random jitter added to each
    back-off delay is left out, so a wait is its base `BASE_DELAY * 2^k`. */
module DojoApi {
  import opened Common
  import opened Protocol

  const MaxRetries: nat := 5
  const BaseDelay: nat := 1
  const CodeGenTaskTitle := "LLM Code Generation Task"

  // ---------------------------------------------------------------- max results

  /** Python's `int(s)` for an optional sign followed by decimal digits. */
  function ParseInt(s: string): (r: Option<int>)
    ensures AllDigits(s) && s != [] ==> r == Some(DigitsValue(s))
  {
    if s != [] && AllDigits(s) then Some(DigitsValue(s))
    else if |s| >= 2 && s[0] == '+' && AllDigits(s[1..]) then Some(DigitsValue(s[1..]))
    else if |s| >= 2 && s[0] == '-' && AllDigits(s[1..]) then Some(-(DigitsValue(s[1..]) as int))
    else None
  }

  /** `_get_max_results_param`: 1 when `TASK_MAX_RESULTS` is unset or
      empty, otherwise its integer value; a value `int` cannot read raises
      `ValueError`. */
  function GetMaxResultsParam(env: Option<string>): (r: Result<int, string>)
    ensures !Present(env) ==> r == Ok(1)
    ensures Present(env) && AllDigits(env.value) ==> r == Ok(DigitsValue(env.value))
    ensures Present(env) && (exists i :: 0 <= i < |env.value| && !IsDigit(env.value[i]) && env.value[i] != '+' && env.value[i] != '-')
      ==> r.Err?
  {
    if !Present(env) then Ok(1)
    else match ParseInt(env.value)
      case Some(n) => Ok(n)
      case None => Err(env.value)
  }

  /** A count written out in decimal is read back as that count. */
  lemma MaxResultsOfDecimal(n: nat)
    ensures GetMaxResultsParam(Some(NatToString(n))) == Ok(n)
  {
    NatToStringRoundTrip(n);
  }

  // ---------------------------------------------------------------- serialisation

  datatype SerializedCompletion = SerializedCompletion(model: string, completion: Json)

  /** The dictionary `serialize_task_request` builds. */
  datatype TaskData = TaskData(prompt: string, responses: seq<SerializedCompletion>, taskType: string)

  /** `serialize_task_request`: the prompt, the task type upper-cased, and
      one `{model, completion}` entry per completion response, in order. */
  method SerializeTaskRequest(data: TaskSynapseObject) returns (output: TaskData)
    ensures output.prompt == data.prompt
    ensures output.taskType == AsciiUpper(data.taskType)
    ensures |output.responses| == |data.completionResponses|
    ensures forall i :: 0 <= i < |output.responses| ==>
      output.responses[i] == SerializedCompletion(data.completionResponses[i].model, data.completionResponses[i].completion)
  {
    output := TaskData(data.prompt, [], AsciiUpper(data.taskType));
    var i := 0;
    while i < |data.completionResponses|
      invariant 0 <= i <= |data.completionResponses|
      invariant output.prompt == data.prompt && output.taskType == AsciiUpper(data.taskType)
      invariant |output.responses| == i
      invariant forall j :: 0 <= j < i ==>
        output.responses[j] == SerializedCompletion(data.completionResponses[j].model, data.completionResponses[j].completion)
    {
      var completion := data.completionResponses[i];
      output := output.(responses := output.responses + [SerializedCompletion(completion.model, completion.completion)]);
      i := i + 1;
    }
  }

  // ---------------------------------------------------------------- back-off

  function Pow2(k: nat): (p: nat)
    ensures p >= 1
  {
    if k == 0 then 1 else 2 * Pow2(k - 1)
  }

  function Sum(s: seq<nat>): nat
  {
    if s == [] then 0 else Sum(s[..|s| - 1]) + s[|s| - 1]
  }

  lemma SumSnoc(s: seq<nat>, x: nat)
    ensures Sum(s + [x]) == Sum(s) + x
  {
    assert (s + [x])[..|s|] == s;
  }

  /** The base delays after failed attempts `0 .. n-1`. */
  function Backoff(n: nat): (ws: seq<nat>)
    ensures |ws| == n
    ensures forall k :: 0 <= k < n ==> ws[k] == BaseDelay * Pow2(k)
  {
    if n == 0 then [] else Backoff(n - 1) + [BaseDelay * Pow2(n - 1)]
  }

  /** Waiting after each of the first `n` attempts costs `2^n - 1` seconds
      before jitter: at most 15 for the four waits of five attempts. */
  lemma {:induction false} BackoffTotal(n: nat)
    ensures Sum(Backoff(n)) == BaseDelay * (Pow2(n) - 1)
  {
    if n > 0 {
      BackoffTotal(n - 1);
      assert Backoff(n)[..n - 1] == Backoff(n - 1);
    }
  }

  // ---------------------------------------------------------------- create_task

  /** The JSON object of a response, reduced to the keys read. */
  datatype ResponseJson = ResponseJson(body: Option<seq<string>>, error: Option<Json>)

  /** What one `post` gave: a transport failure (`httpx.RequestError`), or a
      response with its status, its text and its JSON (`None` when the text
      is not JSON). */
  datatype PostOutcome =
    | RequestFailed
    | Response(status: int, text: string, json: Option<ResponseJson>)

  datatype ErrorKind = HttpError | JsonDecodeError | UnexpectedError

  /** The tag of lines 162-170. */
  function ErrorMsg(k: ErrorKind): string
  {
    match k
    case HttpError => "HTTP error"
    case JsonDecodeError => "JSON decode error"
    case UnexpectedError => "unexpected error"
  }

  datatype CreateTaskFailed =
    | FailedDueTo(errorMsg: string, responseText: string, responseJson: Option<ResponseJson>)
    | FailedAfterRetries(retries: nat)

  /** How one attempt of `create_task` ends: with task ids, with an
      exception of some kind, or with a non-200 response in the 2xx range,
      which `raise_for_status` lets through. */
  datatype AttemptEnd = Created(taskIds: seq<string>) | Raised(kind: ErrorKind) | PassedOn

  /** One attempt, in the order of the `try` block: reading
      `TASK_MAX_RESULTS` (a `ValueError`), `post`, `json()`, the `body` key
      on 200 (a `KeyError` when absent), the `error` key otherwise, then
      `raise_for_status`. */
  function Attempt(maxResults: Result<int, string>, o: PostOutcome): AttemptEnd
  {
    if maxResults.Err? then Raised(UnexpectedError)
    else match o
      case RequestFailed => Raised(HttpError)
      case Response(status, _, json) =>
        if json.None? then Raised(JsonDecodeError)
        else if status == 200 then
          if json.value.body.Some? then Created(json.value.body.value) else Raised(UnexpectedError)
        else if json.value.error.None? then Raised(UnexpectedError)
        else if !(200 <= status < 300) then Raised(HttpError)
        else PassedOn
  }

  /** The delays slept during the first `n` attempts: one after each attempt
      that raised. */
  function Waits(maxResults: Result<int, string>, outcomes: seq<PostOutcome>, n: nat): (ws: seq<nat>)
    requires n <= |outcomes|
    ensures |ws| <= n
  {
    if n == 0 then []
    else if Attempt(maxResults, outcomes[n - 1]).Raised? then Waits(maxResults, outcomes, n - 1) + [BaseDelay * Pow2(n - 1)]
    else Waits(maxResults, outcomes, n - 1)
  }

  /** The waits never exceed the full back-off schedule. */
  lemma {:induction false} WaitsBounded(maxResults: Result<int, string>, outcomes: seq<PostOutcome>, n: nat)
    requires n <= |outcomes|
    ensures Sum(Waits(maxResults, outcomes, n)) <= Sum(Backoff(n))
  {
    if n > 0 {
      WaitsBounded(maxResults, outcomes, n - 1);
      if Attempt(maxResults, outcomes[n - 1]).Raised? {
        SumSnoc(Waits(maxResults, outcomes, n - 1), BaseDelay * Pow2(n - 1));
      }
      SumSnoc(Backoff(n - 1), BaseDelay * Pow2(n - 1));
    }
  }

  /** `response_data["text"]` after `n` attempts: the text of the last
      response received, `""` before any. */
  function LastText(maxResults: Result<int, string>, outcomes: seq<PostOutcome>, n: nat): string
    requires n <= |outcomes|
  {
    if n == 0 then ""
    else if maxResults.Ok? && outcomes[n - 1].Response? then outcomes[n - 1].text
    else LastText(maxResults, outcomes, n - 1)
  }

  /** `response_data["json"]` after `n` attempts: the last JSON decoded,
      `None` for the initial `{}`. */
  function LastJson(maxResults: Result<int, string>, outcomes: seq<PostOutcome>, n: nat): Option<ResponseJson>
    requires n <= |outcomes|
  {
    if n == 0 then None
    else if maxResults.Ok? && outcomes[n - 1].Response? && outcomes[n - 1].json.Some? then outcomes[n - 1].json
    else LastJson(maxResults, outcomes, n - 1)
  }

  /** `create_task`: at most five attempts. The first 200 response with a
      `body` ends it with that body. An exception in attempts 1-4 is
      followed by a wait of `2^attempt`; in attempt 5 it becomes
      `CreateTaskFailed` tagged by its kind, with the last response's text
      and JSON. After five attempts that neither succeeded nor ended that
      way, `CreateTaskFailed` names the retry count. */
  method CreateTask(request: TaskSynapseObject, env: Option<string>, outcomes: seq<PostOutcome>)
    returns (r: Result<seq<string>, CreateTaskFailed>, attempts: nat, waits: seq<nat>)
    requires |outcomes| == MaxRetries
    ensures 1 <= attempts <= MaxRetries
    ensures forall j :: 0 <= j < attempts - 1 ==> !Attempt(GetMaxResultsParam(env), outcomes[j]).Created?
    ensures r.Ok? <==> Attempt(GetMaxResultsParam(env), outcomes[attempts - 1]).Created?
    ensures r.Ok? ==> r.value == Attempt(GetMaxResultsParam(env), outcomes[attempts - 1]).taskIds
    ensures r.Err? ==>
      && attempts == MaxRetries
      && r.error == match Attempt(GetMaxResultsParam(env), outcomes[MaxRetries - 1])
      case Raised(kind) =>
        FailedDueTo(ErrorMsg(kind), LastText(GetMaxResultsParam(env), outcomes, MaxRetries), LastJson(GetMaxResultsParam(env), outcomes, MaxRetries))
      case _ => FailedAfterRetries(MaxRetries)
    ensures waits == Waits(GetMaxResultsParam(env), outcomes, if attempts < MaxRetries then attempts else MaxRetries - 1)
  {
    ghost var mr := GetMaxResultsParam(env);
    var text := "";
    var json: Option<ResponseJson> := None;
    waits := [];
    var attempt := 0;
    while attempt < MaxRetries
      invariant 0 <= attempt <= MaxRetries
      invariant forall j :: 0 <= j < attempt ==> !Attempt(mr, outcomes[j]).Created?
      invariant attempt == MaxRetries ==> Attempt(mr, outcomes[MaxRetries - 1]).PassedOn?
      invariant waits == Waits(mr, outcomes, attempt)
      invariant text == LastText(mr, outcomes, attempt) && json == LastJson(mr, outcomes, attempt)
    {
      var raised: Option<ErrorKind> := None;
      var maxResults := GetMaxResultsParam(env);
      if maxResults.Err? {
        raised := Some(UnexpectedError);
      } else {
        var o := outcomes[attempt];
        if o.RequestFailed? {
          raised := Some(HttpError);
        } else {
          text := o.text;
          if o.json.None? {
            raised := Some(JsonDecodeError);
          } else {
            json := o.json;
            if o.status == 200 {
              if o.json.value.body.Some? {
                return Ok(o.json.value.body.value), attempt + 1, waits;
              }
              raised := Some(UnexpectedError);
            } else if o.json.value.error.None? {
              raised := Some(UnexpectedError);
            } else if !(200 <= o.status < 300) {
              raised := Some(HttpError);
            }
          }
        }
      }
      if raised.Some? {
        if attempt < MaxRetries - 1 {
          waits := waits + [BaseDelay * Pow2(attempt)];
        } else {
          return Err(FailedDueTo(ErrorMsg(raised.value), text, json)), attempt + 1, waits;
        }
      }
      attempt := attempt + 1;
    }
    return Err(FailedAfterRetries(MaxRetries)), MaxRetries, waits;
  }

  // ---------------------------------------------------------------- task results

  /** What one fetch gave: an exception (transport, status or JSON), or the
      decoded response. */
  datatype FetchOutcome = FetchFailed | Fetched(response: Json)

  /** `response.get("body", {}).get("taskResults")`: `None` for a missing
      key or a JSON `null`; `Err` when a `.get` meets something that is not
      an object, which raises `AttributeError`. */
  function TaskResultsOf(response: Json): Result<Option<Json>, ()>
  {
    match response
    case JObject(fields) =>
      var body := if "body" in fields then fields["body"] else JObject(map[]);
      (match body
       case JObject(bodyFields) =>
         if "taskResults" in bodyFields && bodyFields["taskResults"] != JNull then Ok(Some(bodyFields["taskResults"]))
         else Ok(None)
       case _ => Err(()))
    case _ => Err(())
  }

  /** The attempt raised. */
  predicate FetchRaised(o: FetchOutcome)
  {
    o.FetchFailed? || TaskResultsOf(o.response).Err?
  }

  /** `get_task_results_by_task_id`: the first attempt that does not raise
      decides — its task results when present and non-empty, `None`
      otherwise; an attempt that raises is followed by a wait of
      `2^attempt`, except the fifth, after which the answer is `None`. */
  method GetTaskResultsByTaskId(taskId: string, outcomes: seq<FetchOutcome>)
    returns (r: Option<Json>, attempts: nat, waits: seq<nat>)
    requires |outcomes| == MaxRetries
    ensures 1 <= attempts <= MaxRetries
    ensures forall j :: 0 <= j < attempts - 1 ==> FetchRaised(outcomes[j])
    ensures !FetchRaised(outcomes[attempts - 1]) || attempts == MaxRetries
    ensures r.Some? <==>
      && !FetchRaised(outcomes[attempts - 1])
      && TaskResultsOf(outcomes[attempts - 1].response).value.Some?
      && Truthy(TaskResultsOf(outcomes[attempts - 1].response).value.value)
    ensures r.Some? ==> r == TaskResultsOf(outcomes[attempts - 1].response).value
    ensures waits == Backoff(attempts - 1)
  {
    waits := [];
    var attempt := 0;
    while attempt < MaxRetries
      invariant 0 <= attempt < MaxRetries
      invariant forall j :: 0 <= j < attempt ==> FetchRaised(outcomes[j])
      invariant waits == Backoff(attempt)
    {
      var o := outcomes[attempt];
      var results := if o.Fetched? then TaskResultsOf(o.response) else Err(());
      if results.Ok? {
        if results.value.None? || !Truthy(results.value.value) {
          return None, attempt + 1, waits;
        }
        return results.value, attempt + 1, waits;
      }
      if attempt < MaxRetries - 1 {
        waits := waits + [BaseDelay * Pow2(attempt)];
      } else {
        return None, attempt + 1, waits;
      }
      attempt := attempt + 1;
    }
    assert false;
  }
}
