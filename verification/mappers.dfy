/** Translations between protocol objects and database records
    (database/mappers.py). Prisma create-inputs and models become datatypes;
    `Json(json.dumps(x))` on the way in and `json.loads` on the way out are
    taken as inverse encodings and dropped. */
module Mappers {
  import opened Common
  import opened Protocol

  /** The exceptions the mappers raise. */
  datatype MapError =
    | ValueError(reason: string)
    | InvalidValidatorRequest(reason: string)
    | InvalidMinerResponse(reason: string)
    | InvalidCompletion(reason: string)

  // ------------------------------------------------------------- records

  /** The `config` JSON of a criterion: the keys present in the dict. */
  datatype CriteriaConfig = CriteriaConfig(min: Option<real>, max: Option<real>, options: Option<seq<string>>)

  datatype CriterionCreateInput = CriterionCreateInput(criteriaType: CriteriaTypeEnum, config: CriteriaConfig)

  datatype CompletionCreateInput = CompletionCreateInput(
    validatorTaskId: string,
    model: string,
    completion: Json,
    criterion: Option<seq<CriterionCreateInput>>)

  datatype GroundTruthCreateInput = GroundTruthCreateInput(
    validatorTaskId: string,
    obfuscatedModelId: string,
    realModelId: string,
    rankId: int)

  datatype ValidatorTaskCreateInput = ValidatorTaskCreateInput(
    id: string,
    previousTaskId: Option<string>,
    prompt: string,
    taskType: string,
    expireAt: int,
    isProcessed: bool,
    completions: seq<CompletionCreateInput>,
    groundTruth: seq<GroundTruthCreateInput>)

  datatype MinerResponseCreateInput = MinerResponseCreateInput(
    validatorTaskId: string,
    dojoTaskId: string,
    hotkey: string,
    coldkey: string)

  /** A stored `Criteria_Type_Model` row; absent columns are `None`. */
  datatype CriteriaTypeModel = CriteriaTypeModel(
    kind: CriteriaTypeEnum,
    feedbackRequestId: string,
    options: Option<seq<string>>,
    min: Option<real>,
    max: Option<real>)

  /** A stored `Completion_Response_Model` row. */
  datatype CompletionResponseModel = CompletionResponseModel(
    completionId: string,
    model: string,
    completion: Json,
    rankId: Option<int>,
    score: Option<real>,
    feedbackRequestId: string)

  /** A stored `Ground_Truth_Model` row. */
  datatype GroundTruthModel = GroundTruthModel(obfuscatedModelId: string, realModelId: string, rankId: int)

  /** `Feedback_Request_ModelCreateInput` for a validator request (no parent)
      or a miner response (with parent). */
  datatype FeedbackRequestCreateInput = FeedbackRequestCreateInput(
    requestId: string,
    taskType: string,
    prompt: string,
    hotkey: string,
    expireAt: int,
    dojoTaskId: Option<string>,
    parentId: Option<string>)

  /** A stored `Feedback_Request_Model` row with its included relations. */
  datatype FeedbackRequestModel = FeedbackRequestModel(
    id: string,
    requestId: string,
    prompt: string,
    taskType: string,
    hotkey: string,
    expireAt: int,
    dojoTaskId: Option<string>,
    parentId: Option<string>,
    isProcessed: bool,
    createdAt: int,
    criteriaTypes: seq<CriteriaTypeModel>,
    completions: seq<CompletionResponseModel>,
    groundTruths: seq<GroundTruthModel>)

  // ------------------------------------------------------------- criteria on completions

  /** Criteria the validator-task mapper can attach to a completion. */
  predicate Attachable(c: CriteriaType)
  {
    c.ScoreCriteria? || c.MultiSelectCriteria?
  }

  /** `_map_criteria_type_to_enum`: only Score and MultiSelect have a column
      value; every other class raises `ValueError`. */
  function MapCriteriaTypeToEnum(c: CriteriaType): (r: Result<CriteriaTypeEnum, MapError>)
    ensures r.Ok? <==> Attachable(c)
    ensures r.Ok? ==> r.value == KindOf(c)
  {
    match c
    case ScoreCriteria(_, _) => Ok(SCORE)
    case MultiSelectCriteria(_) => Ok(MULTI_SELECT)
    case _ => Err(ValueError("Unknown criteria type"))
  }

  /** `_get_criteria_config`: Score keeps its bounds, MultiSelect its options,
      anything else gives an empty config. */
  function GetCriteriaConfig(c: CriteriaType): (r: CriteriaConfig)
    ensures c.ScoreCriteria? ==> r == CriteriaConfig(Some(c.min), Some(c.max), None)
    ensures c.MultiSelectCriteria? ==> r == CriteriaConfig(None, None, Some(c.options))
    ensures !Attachable(c) ==> r == CriteriaConfig(None, None, None)
  {
    match c
    case ScoreCriteria(lo, hi) => CriteriaConfig(Some(lo), Some(hi), None)
    case MultiSelectCriteria(opts) => CriteriaConfig(None, None, Some(opts))
    case _ => CriteriaConfig(None, None, None)
  }

  /** The list comprehension of lines 71-77: one criterion per criteria type,
      in order, or the `ValueError` of the first one that has no column value. */
  function MapCriteria(cs: seq<CriteriaType>): (r: Result<seq<CriterionCreateInput>, MapError>)
    ensures r.Ok? <==> forall i :: 0 <= i < |cs| ==> Attachable(cs[i])
    ensures r.Ok? ==> |r.value| == |cs| && forall i :: 0 <= i < |cs| ==>
      r.value[i] == CriterionCreateInput(KindOf(cs[i]), GetCriteriaConfig(cs[i]))
  {
    if cs == [] then Ok([])
    else
      match MapCriteriaTypeToEnum(cs[0])
      case Err(e) => Err(e)
      case Ok(kind) =>
        match MapCriteria(cs[1..])
        case Err(e) => Err(e)
        case Ok(rest) => Ok([CriterionCreateInput(kind, GetCriteriaConfig(cs[0]))] + rest)
  }

  // ------------------------------------------------------------- validator task

  /** The ground-truth comprehension of lines 83-96: one record per
      (model id, rank) item, with the model id as both obfuscated and real id. */
  function GroundTruthInputs(taskId: string, gt: Dict<string, int>): (r: seq<GroundTruthCreateInput>)
    ensures |r| == |gt|
    ensures forall i :: 0 <= i < |gt| ==>
      r[i] == GroundTruthCreateInput(taskId, gt[i].0, gt[i].0, gt[i].1)
  {
    seq(|gt|, i requires 0 <= i < |gt| => GroundTruthCreateInput(taskId, gt[i].0, gt[i].0, gt[i].1))
  }

  /** The completion input built for one response of the synapse. */
  predicate IsCompletionInputFor(c: CompletionCreateInput, taskId: string, resp: CompletionResponse)
  {
    && c.validatorTaskId == taskId
    && c.model == resp.model
    && c.completion == resp.completion
    && (resp.criteriaTypes == [] ==> c.criterion.None?)
    && (resp.criteriaTypes != [] ==> c.criterion.Some? && MapCriteria(resp.criteriaTypes) == Ok(c.criterion.value))
  }

  /** `map_task_synapse_object_to_validator_task`: one completion input per
      completion response, in order, each tagged with the task id and the
      response's model and carrying criteria only when the response has some;
      the task is created unprocessed. A Ranking or MultiScore criterion on
      any response raises `ValueError`. */
  method MapTaskSynapseToValidatorTask(synapse: TaskSynapseObject) returns (r: Result<ValidatorTaskCreateInput, MapError>)
    ensures r.Ok? <==> forall i, j ::
      (0 <= i < |synapse.completionResponses| && 0 <= j < |synapse.completionResponses[i].criteriaTypes|) ==>
        Attachable(synapse.completionResponses[i].criteriaTypes[j])
    ensures r.Ok? ==>
      && r.value.id == synapse.taskId
      && r.value.previousTaskId == synapse.previousTaskId
      && r.value.prompt == synapse.prompt
      && r.value.taskType == synapse.taskType
      && r.value.expireAt == synapse.expireAt
      && !r.value.isProcessed
      && |r.value.completions| == |synapse.completionResponses|
      && (forall i :: 0 <= i < |synapse.completionResponses| ==>
            IsCompletionInputFor(r.value.completions[i], synapse.taskId, synapse.completionResponses[i]))
      && r.value.groundTruth == GroundTruthInputs(synapse.taskId, synapse.groundTruth)
  {
    var responses := synapse.completionResponses;
    var completions: seq<CompletionCreateInput> := [];
    var i := 0;
    while i < |responses|
      invariant 0 <= i <= |responses|
      invariant |completions| == i
      invariant forall k :: 0 <= k < i ==> IsCompletionInputFor(completions[k], synapse.taskId, responses[k])
      invariant forall k, j :: 0 <= k < i && 0 <= j < |responses[k].criteriaTypes| ==>
        Attachable(responses[k].criteriaTypes[j])
    {
      var resp := responses[i];
      var completion := CompletionCreateInput(synapse.taskId, resp.model, resp.completion, None);
      if resp.criteriaTypes != [] {
        var criteria := MapCriteria(resp.criteriaTypes);
        if criteria.Err? {
          return Err(criteria.error);
        }
        completion := completion.(criterion := Some(criteria.value));
      }
      completions := completions + [completion];
      i := i + 1;
    }
    r := Ok(ValidatorTaskCreateInput(
      synapse.taskId, synapse.previousTaskId, synapse.prompt, synapse.taskType, synapse.expireAt,
      false, completions, GroundTruthInputs(synapse.taskId, synapse.groundTruth)));
  }

  /** `map_task_synapse_object_to_miner_response`: a miner response needs a
      hotkey, a coldkey and a Dojo task id, and copies exactly those. */
  function MapTaskSynapseToMinerResponse(synapse: TaskSynapseObject, validatorTaskId: string)
    : (r: Result<MinerResponseCreateInput, MapError>)
    ensures r.Ok? <==> Present(synapse.minerHotkey) && Present(synapse.minerColdkey) && Present(synapse.dojoTaskId)
    ensures r.Ok? ==> r.value == MinerResponseCreateInput(
      validatorTaskId, synapse.dojoTaskId.value, synapse.minerHotkey.value, synapse.minerColdkey.value)
    ensures !Present(synapse.minerHotkey) || !Present(synapse.minerColdkey) ==>
      r == Err(ValueError("Miner hotkey and coldkey are required"))
  {
    if !Present(synapse.minerHotkey) || !Present(synapse.minerColdkey) then
      Err(ValueError("Miner hotkey and coldkey are required"))
    else if !Present(synapse.dojoTaskId) then
      Err(ValueError("Dojo task ID is required"))
    else
      Ok(MinerResponseCreateInput(validatorTaskId, synapse.dojoTaskId.value,
        synapse.minerHotkey.value, synapse.minerColdkey.value))
  }

  // ------------------------------------------------------------- criteria models

  /** `map_criteria_type_model_to_criteria_type`: missing options read as
      `[]`, missing bounds as `0.0`; a kind outside the four raises. */
  function MapCriteriaTypeModelToCriteriaType(m: CriteriaTypeModel): (r: Result<CriteriaType, MapError>)
    ensures r.Ok? <==> !m.kind.OtherKind?
    ensures r.Ok? ==> KindOf(r.value) == m.kind
    ensures r.Ok? && !r.value.ScoreCriteria? ==>
      r.value.options == (if m.options.Some? then m.options.value else [])
    ensures r.Ok? && (r.value.ScoreCriteria? || r.value.MultiScoreCriteria?) ==>
      && r.value.min == (if m.min.Some? then m.min.value else 0.0)
      && r.value.max == (if m.max.Some? then m.max.value else 0.0)
  {
    var options := if m.options.Some? then m.options.value else [];
    var lo := if m.min.Some? then m.min.value else 0.0;
    var hi := if m.max.Some? then m.max.value else 0.0;
    match m.kind
    case RANKING_CRITERIA => Ok(RankingCriteria(options))
    case SCORE => Ok(ScoreCriteria(lo, hi))
    case MULTI_SELECT => Ok(MultiSelectCriteria(options))
    case MULTI_SCORE => Ok(MultiScoreCriteria(options, lo, hi))
    case OtherKind(_) => Err(ValueError("Failed to map criteria type model to criteria type"))
  }

  /** `map_criteria_type_to_model`: every criteria class gets its kind, the
      parent request id and the fields it owns; reading the row back gives the
      same criteria object. */
  function MapCriteriaTypeToModel(c: CriteriaType, feedbackRequestId: string): (m: CriteriaTypeModel)
    ensures m.kind == KindOf(c) && m.feedbackRequestId == feedbackRequestId
    ensures MapCriteriaTypeModelToCriteriaType(m) == Ok(c)
  {
    match c
    case RankingCriteria(opts) => CriteriaTypeModel(RANKING_CRITERIA, feedbackRequestId, Some(opts), None, None)
    case ScoreCriteria(lo, hi) => CriteriaTypeModel(SCORE, feedbackRequestId, Some([]), Some(lo), Some(hi))
    case MultiSelectCriteria(opts) => CriteriaTypeModel(MULTI_SELECT, feedbackRequestId, Some(opts), None, None)
    case MultiScoreCriteria(opts, lo, hi) => CriteriaTypeModel(MULTI_SCORE, feedbackRequestId, Some(opts), Some(lo), Some(hi))
  }

  /** `map_completion_response_to_model`: the stored row keeps everything but
      the response's own criteria. */
  function MapCompletionResponseToModel(c: CompletionResponse, feedbackRequestId: string): (m: CompletionResponseModel)
    ensures ReadCompletion(m) == c.(criteriaTypes := [])
    ensures m.feedbackRequestId == feedbackRequestId
  {
    CompletionResponseModel(c.completionId, c.model, c.completion, c.rankId, c.score, feedbackRequestId)
  }

  /** The completion comprehension of lines 325-334. */
  function ReadCompletion(m: CompletionResponseModel): CompletionResponse
  {
    CompletionResponse(m.completionId, m.model, m.completion, m.rankId, m.score, [])
  }

  // ------------------------------------------------------------- feedback requests

  /** `map_parent_feedback_request_to_model` with the clock as `now`: a
      validator request needs a dendrite hotkey and an expiry that is not in
      the past. */
  function MapParentFeedbackRequestToModel(request: FeedbackRequest, now: int)
    : (r: Result<FeedbackRequestCreateInput, MapError>)
    ensures r.Ok? <==> HasHotkey(request.dendrite) && request.expireAt.Some? && request.expireAt.value >= now
    ensures r.Err? ==> r.error.InvalidValidatorRequest?
    ensures r.Ok? ==> r.value == FeedbackRequestCreateInput(
      request.requestId, request.taskType, request.prompt, request.dendrite.value.hotkey.value,
      request.expireAt.value, None, None)
  {
    if !HasHotkey(request.dendrite) then Err(InvalidValidatorRequest("Validator Hotkey is required"))
    else if request.expireAt.None? then Err(InvalidValidatorRequest("Expire at is required"))
    else if request.expireAt.value < now then Err(InvalidValidatorRequest("Expire at must be in the future"))
    else Ok(FeedbackRequestCreateInput(request.requestId, request.taskType, request.prompt,
      request.dendrite.value.hotkey.value, request.expireAt.value, None, None))
  }

  /** `map_child_feedback_request_to_model`: a miner response needs an axon
      hotkey, a parent id and a Dojo task id. */
  function MapChildFeedbackRequestToModel(request: FeedbackRequest, parentId: string, expireAt: int)
    : (r: Result<FeedbackRequestCreateInput, MapError>)
    ensures r.Ok? <==> HasHotkey(request.axon) && parentId != "" && Present(request.dojoTaskId)
    ensures r.Err? ==> r.error.InvalidMinerResponse?
    ensures r.Ok? ==> r.value == FeedbackRequestCreateInput(
      request.requestId, request.taskType, request.prompt, request.axon.value.hotkey.value,
      expireAt, request.dojoTaskId, Some(parentId))
  {
    if !HasHotkey(request.axon) then Err(InvalidMinerResponse("Miner Hotkey is required"))
    else if parentId == "" then Err(InvalidMinerResponse("Parent ID is required"))
    else if !Present(request.dojoTaskId) then Err(InvalidMinerResponse("Dojo Task ID is required"))
    else Ok(FeedbackRequestCreateInput(request.requestId, request.taskType, request.prompt,
      request.axon.value.hotkey.value, expireAt, request.dojoTaskId, Some(parentId)))
  }

  /** The criteria comprehension of lines 316-319: all rows, or the error of
      the first row of unknown kind. */
  function ReadCriteria(ms: seq<CriteriaTypeModel>): (r: Result<seq<CriteriaType>, MapError>)
    ensures r.Ok? <==> forall i :: 0 <= i < |ms| ==> !ms[i].kind.OtherKind?
    ensures r.Ok? ==> |r.value| == |ms| && forall i :: 0 <= i < |ms| ==>
      Ok(r.value[i]) == MapCriteriaTypeModelToCriteriaType(ms[i])
  {
    if ms == [] then Ok([])
    else
      match MapCriteriaTypeModelToCriteriaType(ms[0])
      case Err(e) => Err(e)
      case Ok(c) =>
        match ReadCriteria(ms[1..])
        case Err(e) => Err(e)
        case Ok(rest) => Ok([c] + rest)
  }

  /** The rank of the last ground-truth row for obfuscated id `k`. */
  function LastRank(gts: seq<GroundTruthModel>, k: string): Option<int>
  {
    if gts == [] then None
    else if gts[|gts| - 1].obfuscatedModelId == k then Some(gts[|gts| - 1].rankId)
    else LastRank(gts[..|gts| - 1], k)
  }

  /** The ground-truth dictionary lines 338-340 build: each row's rank is
      stored under its obfuscated id, in row order. */
  function GroundTruthDict(gts: seq<GroundTruthModel>): Dict<string, int>
  {
    if gts == [] then []
    else Set(GroundTruthDict(gts[..|gts| - 1]), gts[|gts| - 1].obfuscatedModelId, gts[|gts| - 1].rankId)
  }

  /** In the built dictionary every obfuscated id holds the rank of the last
      row naming it, and ids no row names are absent. */
  lemma {:induction false} GroundTruthDictLastWins(gts: seq<GroundTruthModel>)
    ensures forall k :: Get(GroundTruthDict(gts), k) == LastRank(gts, k)
    decreases |gts|
  {
    if gts != [] {
      var init := gts[..|gts| - 1];
      GroundTruthDictLastWins(init);
      SetProperties(GroundTruthDict(init), gts[|gts| - 1].obfuscatedModelId, gts[|gts| - 1].rankId);
    }
  }

  /** The loop of lines 338-340. */
  method GroundTruthOf(gts: seq<GroundTruthModel>) returns (gt: Dict<string, int>)
    ensures gt == GroundTruthDict(gts)
    ensures forall k :: Get(gt, k) == LastRank(gts, k)
  {
    gt := [];
    var i := 0;
    while i < |gts|
      invariant 0 <= i <= |gts|
      invariant gt == GroundTruthDict(gts[..i])
    {
      assert gts[..i + 1][..i] == gts[..i];
      gt := Set(gt, gts[i].obfuscatedModelId, gts[i].rankId);
      i := i + 1;
    }
    assert gts[..i] == gts;
    GroundTruthDictLastWins(gts);
  }

  /** Lines 368-371 re-raise every failure as a `ValueError` whose message
      prefixes the original one with this. */
  const RequestMapFailure := "Failed to map Feedback_Request_Model to FeedbackRequest: "

  /** `map_feedback_request_model_to_feedback_request` as a value: a row
      without completions, or with a criteria row of unknown kind, fails with
      a `ValueError` naming the reason; otherwise the request carries the
      row's fields, and the hotkey goes to the axon (miner, no ground truth)
      or to the dendrite (validator, with ground truth). */
  function FeedbackRequestOf(m: FeedbackRequestModel, isMiner: bool): (r: Result<FeedbackRequest, MapError>)
    ensures r.Ok? <==> m.completions != [] && ReadCriteria(m.criteriaTypes).Ok?
    ensures r.Err? ==> r.error.ValueError? && RequestMapFailure <= r.error.reason
  {
    var criteria := ReadCriteria(m.criteriaTypes);
    if criteria.Err? then Err(ValueError(RequestMapFailure + criteria.error.reason))
    else if m.completions == [] then
      Err(ValueError(RequestMapFailure + "No completion responses found to map"))
    else
      var completions := seq(|m.completions|, i requires 0 <= i < |m.completions| => ReadCompletion(m.completions[i]));
      if isMiner then
        Ok(FeedbackRequest(m.requestId, m.prompt, m.taskType, criteria.value, completions,
          m.dojoTaskId, Some(m.expireAt), Some(TerminalInfo(Some(m.hotkey))), None, []))
      else
        Ok(FeedbackRequest(m.requestId, m.prompt, m.taskType, criteria.value, completions,
          m.dojoTaskId, Some(m.expireAt), None, Some(TerminalInfo(Some(m.hotkey))), GroundTruthDict(m.groundTruths)))
  }

  /** What a successful `FeedbackRequestOf` carries. */
  lemma FeedbackRequestOfContent(m: FeedbackRequestModel, isMiner: bool)
    ensures var r := FeedbackRequestOf(m, isMiner); r.Ok? ==>
      && r.value.requestId == m.requestId
      && r.value.prompt == m.prompt
      && r.value.taskType == m.taskType
      && r.value.dojoTaskId == m.dojoTaskId
      && r.value.expireAt == Some(m.expireAt)
      && Ok(r.value.criteriaTypes) == ReadCriteria(m.criteriaTypes)
      && |r.value.completionResponses| == |m.completions|
      && (forall i :: 0 <= i < |m.completions| ==> r.value.completionResponses[i] == ReadCompletion(m.completions[i]))
      && (isMiner ==> r.value.axon == Some(TerminalInfo(Some(m.hotkey))) && r.value.dendrite.None? && r.value.groundTruth == [])
      && (!isMiner ==>
            && r.value.dendrite == Some(TerminalInfo(Some(m.hotkey)))
            && r.value.axon.None?
            && forall k :: Get(r.value.groundTruth, k) == LastRank(m.groundTruths, k))
  {
    GroundTruthDictLastWins(m.groundTruths);
  }

  /** `map_feedback_request_model_to_feedback_request` as the source runs it,
      filling the ground truth with the loop of lines 338-340. */
  method MapFeedbackRequestModelToFeedbackRequest(m: FeedbackRequestModel, isMiner: bool)
    returns (r: Result<FeedbackRequest, MapError>)
    ensures r == FeedbackRequestOf(m, isMiner)
  {
    var criteria := ReadCriteria(m.criteriaTypes);
    if criteria.Err? {
      return Err(ValueError(RequestMapFailure + criteria.error.reason));
    }
    if m.completions == [] {
      return Err(ValueError(RequestMapFailure + "No completion responses found to map"));
    }
    var completions := seq(|m.completions|, i requires 0 <= i < |m.completions| => ReadCompletion(m.completions[i]));
    var gt := GroundTruthOf(m.groundTruths);
    if isMiner {
      r := Ok(FeedbackRequest(m.requestId, m.prompt, m.taskType, criteria.value, completions,
        m.dojoTaskId, Some(m.expireAt), Some(TerminalInfo(Some(m.hotkey))), None, []));
    } else {
      r := Ok(FeedbackRequest(m.requestId, m.prompt, m.taskType, criteria.value, completions,
        m.dojoTaskId, Some(m.expireAt), None, Some(TerminalInfo(Some(m.hotkey))), gt));
    }
  }

  /** A later ground-truth row for the same obfuscated id overrides an earlier
      one, whatever lies between them. */
  lemma {:induction false} LastRankOverrides(gts: seq<GroundTruthModel>, g: GroundTruthModel, rest: seq<GroundTruthModel>)
    requires forall i :: 0 <= i < |rest| ==> rest[i].obfuscatedModelId != g.obfuscatedModelId
    ensures LastRank(gts + [g] + rest, g.obfuscatedModelId) == Some(g.rankId)
    decreases |rest|
  {
    var all := gts + [g] + rest;
    if rest == [] {
      assert all[|all| - 1] == g;
    } else {
      assert all[..|all| - 1] == gts + [g] + rest[..|rest| - 1];
      assert all[|all| - 1] == rest[|rest| - 1];
      LastRankOverrides(gts, g, rest[..|rest| - 1]);
    }
  }
}
