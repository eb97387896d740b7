/** The wire objects exchanged between validator, miner and the Dojo worker
    API (the `dojo.protocol` types), reduced to the fields the core reads or
    writes. dojo/protocol.py is not part of this model: the shapes below are
    those the core files construct and inspect. */
module Protocol {
  import opened Common

  /** A JSON value as produced by `json.loads`. Numbers are integers here. */
  datatype Json =
    | JNull
    | JBool(b: bool)
    | JNumber(n: int)
    | JString(s: string)
    | JArray(items: seq<Json>)
    | JObject(fields: map<string, Json>)

  /** Python truthiness of a decoded JSON value. */
  predicate Truthy(j: Json)
  {
    match j
    case JNull => false
    case JBool(b) => b
    case JNumber(n) => n != 0
    case JString(s) => s != ""
    case JArray(items) => items != []
    case JObject(fields) => fields != map[]
  }

  /** The four criteria classes a feedback request can carry. */
  datatype CriteriaType =
    | RankingCriteria(options: seq<string>)
    | ScoreCriteria(min: real, max: real)
    | MultiSelectCriteria(options: seq<string>)
    | MultiScoreCriteria(options: seq<string>, min: real, max: real)

  /** `CriteriaTypeEnum`; `OtherKind` stands for any stored value outside the
      four the mappers know. */
  datatype CriteriaTypeEnum =
    | RANKING_CRITERIA
    | SCORE
    | MULTI_SELECT
    | MULTI_SCORE
    | OtherKind(name: string)

  /** The `type` attribute each criteria class carries. */
  function KindOf(c: CriteriaType): (k: CriteriaTypeEnum)
    ensures !k.OtherKind?
  {
    match c
    case RankingCriteria(_) => RANKING_CRITERIA
    case ScoreCriteria(_, _) => SCORE
    case MultiSelectCriteria(_) => MULTI_SELECT
    case MultiScoreCriteria(_, _, _) => MULTI_SCORE
  }

  datatype CompletionResponse = CompletionResponse(
    completionId: string,
    model: string,
    completion: Json,
    rankId: Option<int>,
    score: Option<real>,
    criteriaTypes: seq<CriteriaType>)

  /** `bt.TerminalInfo`: only the hotkey is used. */
  datatype TerminalInfo = TerminalInfo(hotkey: Option<string>)

  /** The axon or dendrite of a request carries a usable hotkey. */
  predicate HasHotkey(t: Option<TerminalInfo>)
  {
    t.Some? && Present(t.value.hotkey)
  }

  /** `FeedbackRequest`; `expireAt` is a time stamp (ISO-8601 text in the
      source, see README). */
  datatype FeedbackRequest = FeedbackRequest(
    requestId: string,
    prompt: string,
    taskType: string,
    criteriaTypes: seq<CriteriaType>,
    completionResponses: seq<CompletionResponse>,
    dojoTaskId: Option<string>,
    expireAt: Option<int>,
    axon: Option<TerminalInfo>,
    dendrite: Option<TerminalInfo>,
    groundTruth: Dict<string, int>)

  /** `TaskSynapseObject`, the newer synapse the database mappers accept. */
  datatype TaskSynapseObject = TaskSynapseObject(
    taskId: string,
    previousTaskId: Option<string>,
    prompt: string,
    taskType: string,
    expireAt: int,
    completionResponses: seq<CompletionResponse>,
    groundTruth: Dict<string, int>,
    minerHotkey: Option<string>,
    minerColdkey: Option<string>,
    dojoTaskId: Option<string>)

  /** One worker's answer for one criterion: model id to rank or score. */
  datatype ResultData = ResultData(kind: CriteriaTypeEnum, value: Dict<string, real>)

  datatype TaskResult = TaskResult(
    id: string,
    status: string,
    createdAt: string,
    updatedAt: string,
    resultData: seq<ResultData>,
    workerId: string,
    taskId: string)

  /** `TaskResultRequest`, the synapse a validator sends to fetch results. */
  datatype TaskResultRequest = TaskResultRequest(taskId: Option<string>, taskResults: seq<TaskResult>)
}
