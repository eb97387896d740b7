/** Score aggregation of the Dojo task tracker (commons/dojo_task_tracker.py):
    worker results are folded into per-model average rank and average score,
    and the averages are written back into the miners' completions. */
module TaskTracker {
  import opened Common
  import opened Protocol

  // ------------------------------------------------------------- singleton

  class DojoTaskTracker {
    constructor ()
    {
    }
  }

  /** The class object of `DojoTaskTracker` with its class attributes
      `_instance` and `_should_exit`. */
  class DojoTaskTrackerClass {
    var instance: DojoTaskTracker?
    var shouldExit: bool

    constructor ()
      ensures instance == null && !shouldExit
    {
      instance := null;
      shouldExit := false;
    }

    /** `DojoTaskTracker()`: the first call creates the instance, every later
        call returns that same instance. */
    method New() returns (t: DojoTaskTracker)
      modifies this`instance
      ensures instance == t
      ensures old(instance) != null ==> t == old(instance)
      ensures old(instance) == null ==> fresh(t)
    {
      if instance == null {
        instance := new DojoTaskTracker();
      }
      t := instance;
    }
  }

  // ------------------------------------------------------------- specification of the averages

  /** `obfuscated_to_real_model_id.get(model_id, model_id)`. */
  function Translate(realIds: map<string, string>, id: string): string
  {
    if id in realIds then realIds[id] else id
  }

  /** Every worker entry of every task result, in iteration order. */
  function AllData(trs: seq<TaskResult>): seq<ResultData>
  {
    if trs == [] then [] else AllData(trs[..|trs| - 1]) + trs[|trs| - 1].resultData
  }

  /** The sum of the values in `items` whose key translates to `id`. */
  function ItemsTotal(items: Dict<string, real>, realIds: map<string, string>, id: string): real
  {
    if items == [] then 0.0
    else
      var last := items[|items| - 1];
      ItemsTotal(items[..|items| - 1], realIds, id) + (if Translate(realIds, last.0) == id then last.1 else 0.0)
  }

  /** The translated keys of `items`. */
  function ItemsKeys(items: Dict<string, real>, realIds: map<string, string>): set<string>
  {
    if items == [] then {}
    else ItemsKeys(items[..|items| - 1], realIds) + {Translate(realIds, items[|items| - 1].0)}
  }

  /** The sum, over the entries of type `kind`, of the values credited to `id`. */
  function KindTotal(ds: seq<ResultData>, kind: CriteriaTypeEnum, realIds: map<string, string>, id: string): real
  {
    if ds == [] then 0.0
    else
      var last := ds[|ds| - 1];
      KindTotal(ds[..|ds| - 1], kind, realIds, id) + (if last.kind == kind then ItemsTotal(last.value, realIds, id) else 0.0)
  }

  /** The number of entries of type `kind`: the divisor of every average. */
  function KindCount(ds: seq<ResultData>, kind: CriteriaTypeEnum): nat
  {
    if ds == [] then 0
    else KindCount(ds[..|ds| - 1], kind) + (if ds[|ds| - 1].kind == kind then 1 else 0)
  }

  /** The translated model ids named by the entries of type `kind`. */
  function KindKeys(ds: seq<ResultData>, kind: CriteriaTypeEnum, realIds: map<string, string>): set<string>
  {
    if ds == [] then {}
    else
      var last := ds[|ds| - 1];
      KindKeys(ds[..|ds| - 1], kind, realIds) + (if last.kind == kind then ItemsKeys(last.value, realIds) else {})
  }

  /** The average map `_calculate_averages` returns for one result type. */
  function Averages(ds: seq<ResultData>, kind: CriteriaTypeEnum, realIds: map<string, string>): map<string, real>
  {
    map id | id in KindKeys(ds, kind, realIds) ::
      if KindCount(ds, kind) == 0 then 0.0 else KindTotal(ds, kind, realIds, id) / (KindCount(ds, kind) as real)
  }

  // ------------------------------------------------------------- properties of the specification

  /** A model id is an output key exactly when some item of some entry of the
      given type translates to it. */
  lemma {:induction false} KindKeysMembership(ds: seq<ResultData>, kind: CriteriaTypeEnum, realIds: map<string, string>, id: string)
    ensures id in KindKeys(ds, kind, realIds) <==>
      exists i, j :: 0 <= i < |ds| && ds[i].kind == kind && 0 <= j < |ds[i].value| && Translate(realIds, ds[i].value[j].0) == id
    decreases |ds|
  {
    if ds != [] {
      var init, last := ds[..|ds| - 1], ds[|ds| - 1];
      KindKeysMembership(init, kind, realIds, id);
      ItemsKeysMembership(last.value, realIds, id);
      if id in KindKeys(ds, kind, realIds) {
        if id !in KindKeys(init, kind, realIds) {
          var j :| 0 <= j < |last.value| && Translate(realIds, last.value[j].0) == id;
          assert ds[|ds| - 1].value[j] == last.value[j];
        } else {
          var i, j :| 0 <= i < |init| && init[i].kind == kind && 0 <= j < |init[i].value| && Translate(realIds, init[i].value[j].0) == id;
          assert ds[i] == init[i];
        }
      }
      if exists i, j :: 0 <= i < |ds| && ds[i].kind == kind && 0 <= j < |ds[i].value| && Translate(realIds, ds[i].value[j].0) == id {
        var i, j :| 0 <= i < |ds| && ds[i].kind == kind && 0 <= j < |ds[i].value| && Translate(realIds, ds[i].value[j].0) == id;
        if i < |init| {
          assert init[i] == ds[i];
        }
      }
    }
  }

  lemma {:induction false} ItemsKeysMembership(items: Dict<string, real>, realIds: map<string, string>, id: string)
    ensures id in ItemsKeys(items, realIds) <==> exists j :: 0 <= j < |items| && Translate(realIds, items[j].0) == id
    decreases |items|
  {
    if items != [] {
      var init := items[..|items| - 1];
      ItemsKeysMembership(init, realIds, id);
      if exists j :: 0 <= j < |items| && Translate(realIds, items[j].0) == id {
        var j :| 0 <= j < |items| && Translate(realIds, items[j].0) == id;
        if j < |init| {
          assert init[j] == items[j];
        }
      }
    }
  }

  /** Division by zero cannot happen: a key exists only if an entry of its
      type was counted. */
  lemma {:induction false} KeysNeedCount(ds: seq<ResultData>, kind: CriteriaTypeEnum, realIds: map<string, string>)
    ensures KindKeys(ds, kind, realIds) != {} ==> KindCount(ds, kind) > 0
    decreases |ds|
  {
    if ds != [] {
      KeysNeedCount(ds[..|ds| - 1], kind, realIds);
    }
  }

  /** Entries of another type never move a total, a count or a key set. */
  lemma {:induction false} OtherKindsIgnored(ds: seq<ResultData>, extra: ResultData, kind: CriteriaTypeEnum, realIds: map<string, string>, id: string)
    requires extra.kind != kind
    ensures KindTotal(ds + [extra], kind, realIds, id) == KindTotal(ds, kind, realIds, id)
    ensures KindCount(ds + [extra], kind) == KindCount(ds, kind)
    ensures KindKeys(ds + [extra], kind, realIds) == KindKeys(ds, kind, realIds)
  {
    assert (ds + [extra])[..|ds|] == ds;
  }

  /** Every average is the total over all entries of that type divided by the
      number of such entries, not by the number of entries naming the model. */
  lemma {:induction false} AveragesAreTotalsOverCount(ds: seq<ResultData>, kind: CriteriaTypeEnum, realIds: map<string, string>, id: string)
    requires id in Averages(ds, kind, realIds)
    ensures KindCount(ds, kind) > 0
    ensures Averages(ds, kind, realIds)[id] * (KindCount(ds, kind) as real) == KindTotal(ds, kind, realIds, id)
  {
    KeysNeedCount(ds, kind, realIds);
    var n := KindCount(ds, kind) as real;
    var t := KindTotal(ds, kind, realIds, id);
    assert Averages(ds, kind, realIds)[id] == t / n;
    assert (t / n) * n == t;
  }

  // ------------------------------------------------------------- `_calculate_averages`

  function GetOrZero(m: map<string, real>, k: string): real
  {
    if k in m then m[k] else 0.0
  }

  /** The innermost loop: add each item of one entry to the `defaultdict`. */
  method AddItems(acc: map<string, real>, items: Dict<string, real>, realIds: map<string, string>)
    returns (acc': map<string, real>)
    ensures acc'.Keys == acc.Keys + ItemsKeys(items, realIds)
    ensures forall id :: GetOrZero(acc', id) == GetOrZero(acc, id) + ItemsTotal(items, realIds, id)
  {
    acc' := acc;
    var k := 0;
    while k < |items|
      invariant 0 <= k <= |items|
      invariant acc'.Keys == acc.Keys + ItemsKeys(items[..k], realIds)
      invariant forall id :: GetOrZero(acc', id) == GetOrZero(acc, id) + ItemsTotal(items[..k], realIds, id)
    {
      var realId := Translate(realIds, items[k].0);
      assert items[..k + 1][..k] == items[..k];
      acc' := acc'[realId := GetOrZero(acc', realId) + items[k].1];
      k := k + 1;
    }
    assert items[..k] == items;
  }

  /** Divide every accumulated sum by `n`, key by key. */
  method DivideAll(sums: map<string, real>, n: nat) returns (avg: map<string, real>)
    requires sums != map[] ==> n > 0
    ensures avg.Keys == sums.Keys
    ensures forall id :: id in avg ==> avg[id] == sums[id] / (n as real)
  {
    avg := sums;
    var todo := sums.Keys;
    while todo != {}
      invariant todo <= sums.Keys && avg.Keys == sums.Keys
      invariant forall id :: id in avg ==> avg[id] == if id in todo then sums[id] else sums[id] / (n as real)
      decreases todo
    {
      var id :| id in todo;
      avg := avg[id := sums[id] / (n as real)];
      todo := todo - {id};
    }
  }

  /** The accumulators after folding the entries `ds`: per-type key sets,
      sums and entry counts. */
  ghost predicate Folded(ds: seq<ResultData>, realIds: map<string, string>,
                   rankSums: map<string, real>, scoreSums: map<string, real>, numRanks: nat, numScores: nat)
  {
    && rankSums.Keys == KindKeys(ds, RANKING_CRITERIA, realIds)
    && scoreSums.Keys == KindKeys(ds, MULTI_SCORE, realIds)
    && (forall id :: GetOrZero(rankSums, id) == KindTotal(ds, RANKING_CRITERIA, realIds, id))
    && (forall id :: GetOrZero(scoreSums, id) == KindTotal(ds, MULTI_SCORE, realIds, id))
    && numRanks == KindCount(ds, RANKING_CRITERIA)
    && numScores == KindCount(ds, MULTI_SCORE)
  }

  /** The loop over one task result's entries (lines 175-191). */
  method FoldEntries(ghost before: seq<ResultData>, data: seq<ResultData>, realIds: map<string, string>,
                     rankSums: map<string, real>, scoreSums: map<string, real>, numRanks: nat, numScores: nat)
    returns (rankSums': map<string, real>, scoreSums': map<string, real>, numRanks': nat, numScores': nat)
    requires Folded(before, realIds, rankSums, scoreSums, numRanks, numScores)
    ensures Folded(before + data, realIds, rankSums', scoreSums', numRanks', numScores')
  {
    rankSums', scoreSums', numRanks', numScores' := rankSums, scoreSums, numRanks, numScores;
    var j := 0;
    assert before + data[..0] == before;
    while j < |data|
      invariant 0 <= j <= |data|
      invariant Folded(before + data[..j], realIds, rankSums', scoreSums', numRanks', numScores')
    {
      ghost var prefix := before + data[..j];
      assert (before + data[..j + 1])[..|prefix|] == prefix;
      assert (before + data[..j + 1])[|prefix|] == data[j];
      if data[j].kind == RANKING_CRITERIA {
        rankSums' := AddItems(rankSums', data[j].value, realIds);
        numRanks' := numRanks' + 1;
      } else if data[j].kind == MULTI_SCORE {
        scoreSums' := AddItems(scoreSums', data[j].value, realIds);
        numScores' := numScores' + 1;
      }
      j := j + 1;
    }
    assert data[..j] == data;
  }

  /** `_calculate_averages`: per translated model id, the mean rank over all
      ranking entries and the mean score over all multi-score entries; other
      entry types are ignored. */
  method CalculateAverages(taskResults: seq<TaskResult>, realIds: map<string, string>)
    returns (avgRank: map<string, real>, avgScore: map<string, real>)
    ensures avgRank == Averages(AllData(taskResults), RANKING_CRITERIA, realIds)
    ensures avgScore == Averages(AllData(taskResults), MULTI_SCORE, realIds)
  {
    var rankSums: map<string, real> := map[];
    var scoreSums: map<string, real> := map[];
    var numRanks: nat, numScores: nat := 0, 0;
    var i := 0;
    while i < |taskResults|
      invariant 0 <= i <= |taskResults|
      invariant Folded(AllData(taskResults[..i]), realIds, rankSums, scoreSums, numRanks, numScores)
    {
      assert taskResults[..i + 1][..i] == taskResults[..i];
      assert AllData(taskResults[..i + 1]) == AllData(taskResults[..i]) + taskResults[i].resultData;
      rankSums, scoreSums, numRanks, numScores :=
        FoldEntries(AllData(taskResults[..i]), taskResults[i].resultData, realIds, rankSums, scoreSums, numRanks, numScores);
      i := i + 1;
    }
    assert taskResults[..i] == taskResults;
    ghost var all := AllData(taskResults);
    KeysNeedCount(all, RANKING_CRITERIA, realIds);
    KeysNeedCount(all, MULTI_SCORE, realIds);
    avgRank := DivideAll(rankSums, numRanks);
    avgScore := DivideAll(scoreSums, numScores);
    DividedSumsAreAverages(all, RANKING_CRITERIA, realIds, rankSums, numRanks, avgRank);
    DividedSumsAreAverages(all, MULTI_SCORE, realIds, scoreSums, numScores, avgScore);
  }

  lemma DividedSumsAreAverages(ds: seq<ResultData>, kind: CriteriaTypeEnum, realIds: map<string, string>,
                               sums: map<string, real>, n: nat, avg: map<string, real>)
    requires sums.Keys == KindKeys(ds, kind, realIds) && n == KindCount(ds, kind)
    requires forall id :: GetOrZero(sums, id) == KindTotal(ds, kind, realIds, id)
    requires sums != map[] ==> n > 0
    requires avg.Keys == sums.Keys && forall id :: id in avg ==> avg[id] == sums[id] / (n as real)
    ensures avg == Averages(ds, kind, realIds)
  {
    KeysNeedCount(ds, kind, realIds);
    var spec := Averages(ds, kind, realIds);
    forall id | id in avg
      ensures avg[id] == spec[id]
    {
      assert GetOrZero(sums, id) == sums[id];
    }
  }


  // ------------------------------------------------------------- updating completions

  /** Python's `int(x)` on a float: truncation toward zero. */
  function Trunc(x: real): (r: int)
    ensures x >= 0.0 ==> r as real <= x < r as real + 1.0
    ensures x < 0.0 ==> r as real - 1.0 < x <= r as real
  {
    if x >= 0.0 then x.Floor else -((-x).Floor)
  }

  /** Lines 142-149 for one completion: the rank becomes the truncated average
      rank and the score the average score, each only when the model has one;
      nothing else changes. */
  function UpdatedCompletion(c: CompletionResponse, avgRank: map<string, real>, avgScore: map<string, real>)
    : (c': CompletionResponse)
    ensures c'.rankId == (if c.model in avgRank then Some(Trunc(avgRank[c.model])) else c.rankId)
    ensures c'.score == (if c.model in avgScore then Some(avgScore[c.model]) else c.score)
    ensures c' == c.(rankId := c'.rankId, score := c'.score)
  {
    var withRank := if c.model in avgRank then c.(rankId := Some(Trunc(avgRank[c.model]))) else c;
    if c.model in avgScore then withRank.(score := Some(avgScore[c.model])) else withRank
  }

  /** The update loop over one miner response's completions. */
  method UpdateCompletions(cs: seq<CompletionResponse>, avgRank: map<string, real>, avgScore: map<string, real>)
    returns (out: seq<CompletionResponse>)
    ensures |out| == |cs|
    ensures forall i :: 0 <= i < |cs| ==> out[i] == UpdatedCompletion(cs[i], avgRank, avgScore)
  {
    out := cs;
    var i := 0;
    while i < |cs|
      invariant 0 <= i <= |cs| && |out| == |cs|
      invariant forall k :: 0 <= k < i ==> out[k] == UpdatedCompletion(cs[k], avgRank, avgScore)
      invariant forall k :: i <= k < |cs| ==> out[k] == cs[k]
    {
      var c := cs[i];
      if c.model in avgRank {
        c := c.(rankId := Some(Trunc(avgRank[c.model])));
      }
      if c.model in avgScore {
        c := c.(score := Some(avgScore[c.model]));
      }
      out := out[i := c];
      i := i + 1;
    }
  }

  /** A miner response the monitor can query: axon, hotkey and Dojo task id. */
  predicate Queryable(m: FeedbackRequest)
  {
    HasHotkey(m.axon) && Present(m.dojoTaskId)
  }

  /** The miner response after the monitor has folded in the results it
      fetched for it (no results: left as it was). */
  function AfterResults(m: FeedbackRequest, results: seq<TaskResult>, realIds: map<string, string>): FeedbackRequest
  {
    if results == [] then m
    else
      var ds := AllData(results);
      var avgRank := Averages(ds, RANKING_CRITERIA, realIds);
      var avgScore := Averages(ds, MULTI_SCORE, realIds);
      m.(completionResponses := seq(|m.completionResponses|, i requires 0 <= i < |m.completionResponses| =>
        UpdatedCompletion(m.completionResponses[i], avgRank, avgScore)))
  }

  /** Lines 109-149 for one task: responses are processed in order; the first
      one lacking an axon, a hotkey or a Dojo task id raises
      `InvalidMinerResponse` (`failedAt`), leaving it and all later responses
      untouched; a response with no fetched results is skipped. `fetched[i]`
      is what the miner returned for response `i`. */
  method ProcessMinerResponses(responses: seq<FeedbackRequest>, fetched: seq<seq<TaskResult>>, realIds: map<string, string>)
    returns (updated: seq<FeedbackRequest>, failedAt: Option<nat>)
    requires |fetched| == |responses|
    ensures |updated| == |responses|
    ensures failedAt.None? <==> forall i :: 0 <= i < |responses| ==> Queryable(responses[i])
    ensures failedAt.Some? ==> failedAt.value < |responses| && !Queryable(responses[failedAt.value])
    ensures failedAt.Some? ==> forall i :: 0 <= i < failedAt.value ==> Queryable(responses[i])
    ensures forall i :: 0 <= i < |responses| ==>
      updated[i] == if failedAt.None? || i < failedAt.value then AfterResults(responses[i], fetched[i], realIds) else responses[i]
  {
    updated := responses;
    failedAt := None;
    var i := 0;
    while i < |responses|
      invariant 0 <= i <= |responses| && |updated| == |responses|
      invariant forall k :: 0 <= k < i ==> Queryable(responses[k])
      invariant forall k :: 0 <= k < i ==> updated[k] == AfterResults(responses[k], fetched[k], realIds)
      invariant forall k :: i <= k < |responses| ==> updated[k] == responses[k]
    {
      var m := responses[i];
      if !Queryable(m) {
        failedAt := Some(i);
        return;
      }
      var results := fetched[i];
      if results != [] {
        var avgRank, avgScore := CalculateAverages(results, realIds);
        var cs := UpdateCompletions(m.completionResponses, avgRank, avgScore);
        updated := updated[i := m.(completionResponses := cs)];
      }
      i := i + 1;
    }
  }
}
