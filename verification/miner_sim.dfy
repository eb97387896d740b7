/** The miner simulator of simulator/miner.py: a store-then-consume-once
    key/value machine. Redis becomes a map from key to the stored request
    (its JSON round trip is the identity and its ten-hour expiry is left
    out); fresh UUIDs and the current time are parameters. */
module MinerSim {
  import opened Common
  import opened Protocol

  const FeedbackPrefix := "feedback:"
  const Completed := "COMPLETED"

  /** `f"feedback:{request_id}"`. */
  function FeedbackKey(requestId: string): (k: string)
    ensures |k| == |requestId| + |FeedbackPrefix|
    ensures k[|FeedbackPrefix|..] == requestId
  {
    FeedbackPrefix + requestId
  }

  /** Different requests are stored under different keys. */
  lemma FeedbackKeyInjective(a: string, b: string)
    requires FeedbackKey(a) == FeedbackKey(b)
    ensures a == b
  {
    assert a == FeedbackKey(a)[|FeedbackPrefix|..];
  }

  /** What `forward_feedback_request` accepts: a dendrite with a hotkey and
      at least one completion response. */
  predicate Accepted(synapse: FeedbackRequest)
  {
    HasHotkey(synapse.dendrite) && synapse.completionResponses != []
  }

  /** The ground truth as the `value` of a `Result` (ranks as floats). */
  function GroundTruthValue(gt: Dict<string, int>): (v: Dict<string, real>)
    ensures Keys(v) == Keys(gt)
    ensures forall i :: 0 <= i < |gt| ==> v[i].1 == gt[i].1 as real
  {
    seq(|gt|, i requires 0 <= i < |gt| => (gt[i].0, gt[i].1 as real))
  }

  /** The one `TaskResult` built for a stored request; `None` where indexing
      `criteria_types[0]` raises. */
  function ResultFor(stored: FeedbackRequest, taskId: string, resultId: string, workerId: string, now: string): (r: Option<TaskResult>)
    ensures r.Some? <==> stored.criteriaTypes != []
    ensures r.Some? ==>
      && r.value.status == Completed
      && r.value.taskId == taskId
      && |r.value.resultData| == 1
      && r.value.resultData[0].kind == KindOf(stored.criteriaTypes[0])
      && r.value.resultData[0].value == GroundTruthValue(stored.groundTruth)
  {
    if stored.criteriaTypes == [] then None
    else Some(TaskResult(resultId, Completed, now, now,
      [ResultData(KindOf(stored.criteriaTypes[0]), GroundTruthValue(stored.groundTruth))], workerId, taskId))
  }

  class MinerSim {
    /** The Redis store. */
    var store: map<string, FeedbackRequest>
    var hotkeyToRequest: map<string, FeedbackRequest>

    constructor ()
      ensures store == map[] && hotkeyToRequest == map[]
    {
      store := map[];
      hotkeyToRequest := map[];
    }

    /** `forward_feedback_request`: a request without a dendrite hotkey or
        without completion responses comes back unchanged and nothing is
        stored. Otherwise a copy with its completion responses emptied,
        but still holding its ground truth, is stored under
        `feedback:<request_id>`; the request itself comes back with
        `dojo_task_id = request_id` and an empty ground truth, and is what
        `hotkey_to_request` now holds for the dendrite hotkey. */
    method ForwardFeedbackRequest(synapse: FeedbackRequest) returns (out: FeedbackRequest)
      modifies this
      ensures !Accepted(synapse) ==>
        out == synapse && store == old(store) && hotkeyToRequest == old(hotkeyToRequest)
      ensures Accepted(synapse) ==>
        && out == synapse.(dojoTaskId := Some(synapse.requestId), groundTruth := [])
        && store == old(store)[FeedbackKey(synapse.requestId) := synapse.(completionResponses := [])]
        && hotkeyToRequest == old(hotkeyToRequest)[synapse.dendrite.value.hotkey.value := out]
    {
      if !HasHotkey(synapse.dendrite) {
        return synapse;
      }
      if synapse.completionResponses == [] {
        return synapse;
      }
      var copy := synapse.(completionResponses := []);
      out := synapse.(dojoTaskId := Some(synapse.requestId));
      // The map holds the same object that is cleared below.
      var cleared := out.(groundTruth := []);
      hotkeyToRequest := hotkeyToRequest[synapse.dendrite.value.hotkey.value := cleared];
      store := store[FeedbackKey(synapse.requestId) := copy];
      out := cleared;
    }

    /** `forward_task_result_request`: without a task id, or with nothing
        stored for it, the request comes back unchanged. For a stored
        request with criteria it gains exactly one completed result, whose
        value is the stored ground truth, and the entry is deleted; when
        the stored request has no criteria, building the result raises and
        the entry stays. */
    method ForwardTaskResultRequest(synapse: TaskResultRequest, resultId: string, workerId: string, now: string)
      returns (out: TaskResultRequest)
      modifies this
      ensures hotkeyToRequest == old(hotkeyToRequest)
      ensures !Present(synapse.taskId) || FeedbackKey(synapse.taskId.value) !in old(store) ==>
        out == synapse && store == old(store)
      ensures Present(synapse.taskId) && FeedbackKey(synapse.taskId.value) in old(store) ==>
        var key := FeedbackKey(synapse.taskId.value);
        match ResultFor(old(store)[key], synapse.taskId.value, resultId, workerId, now)
        case None => out == synapse && store == old(store)
        case Some(result) => out == synapse.(taskResults := [result]) && store == old(store) - {key}
    {
      if !Present(synapse.taskId) {
        return synapse;
      }
      var key := FeedbackKey(synapse.taskId.value);
      if key !in store {
        return synapse;
      }
      var feedbackRequest := store[key];
      var result := ResultFor(feedbackRequest, synapse.taskId.value, resultId, workerId, now);
      if result.None? {
        return synapse;
      }
      out := synapse.(taskResults := [result.value]);
      store := store - {key};
    }
  }

  /** A result is handed out at most once: asking twice for the same task
      leaves the second request as it was sent. */
  method AskTwice(sim: MinerSim, synapse: TaskResultRequest, ids: (string, string, string, string), now: string)
    returns (first: TaskResultRequest, second: TaskResultRequest)
    modifies sim
    ensures second == synapse
  {
    first := sim.ForwardTaskResultRequest(synapse, ids.0, ids.1, now);
    second := sim.ForwardTaskResultRequest(synapse, ids.2, ids.3, now);
  }

  /** The request a validator sends is answered, when the miner is asked
      for its task id, with the ground truth it carried, even though the
      synapse returned to the validator had its ground truth cleared. */
  method StoreThenAnswer(sim: MinerSim, synapse: FeedbackRequest, resultId: string, workerId: string, now: string)
    returns (returned: FeedbackRequest, answer: TaskResultRequest)
    requires Accepted(synapse) && synapse.requestId != "" && synapse.criteriaTypes != []
    modifies sim
    ensures returned.groundTruth == [] && returned.dojoTaskId == Some(synapse.requestId)
    ensures |answer.taskResults| == 1 && |answer.taskResults[0].resultData| == 1
    ensures answer.taskResults[0].resultData[0].kind == KindOf(synapse.criteriaTypes[0])
    ensures answer.taskResults[0].resultData[0].value == GroundTruthValue(synapse.groundTruth)
    ensures FeedbackKey(synapse.requestId) !in sim.store
  {
    returned := sim.ForwardFeedbackRequest(synapse);
    answer := sim.ForwardTaskResultRequest(TaskResultRequest(returned.dojoTaskId, []), resultId, workerId, now);
  }
}
