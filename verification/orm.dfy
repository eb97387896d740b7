/** The task queries and updates of commons/orm.py over an in-memory table of
    `Feedback_Request_Model` rows. A validator request is a row without a
    parent; each miner response is a row whose `parentId` is the id of the
    validator request it answers. Completions are kept inside their row, each
    carrying the id of the row it belongs to (`feedbackRequestId`). The clock
    is the parameter `now`. */
module Orm {
  import opened Common
  import opened Protocol
  import opened Mappers

  type Row = FeedbackRequestModel

  /** The exceptions `get_unexpired_tasks` raises. */
  datatype OrmError =
    | NoNewUnexpiredTasksYet
    | UnexpiredTasksAlreadyProcessed
    | MappingFailed(e: MapError)

  /** `DendriteQueryResponse`: one task, as one validator request with the
      miner responses to it. */
  datatype DendriteQueryResponse = DendriteQueryResponse(request: FeedbackRequest, minerResponses: seq<FeedbackRequest>)

  // ------------------------------------------------------------- selection

  /** `{"in": hotkeys, "mode": "insensitive"}`: the hotkey equals one of the
      given hotkeys ignoring ASCII case. */
  predicate HotkeyIn(h: string, hotkeys: seq<string>)
  {
    exists i :: 0 <= i < |hotkeys| && AsciiLower(hotkeys[i]) == AsciiLower(h)
  }

  /** `{"child_requests": {"some": {}}}`. */
  predicate HasChild(rows: seq<Row>, r: Row)
  {
    exists j :: 0 <= j < |rows| && rows[j].parentId == Some(r.id)
  }

  /** The two `where` inputs of lines 65-87, differing only in `is_processed`:
      a row of one of the hotkeys, with at least one child, whose expiry lies
      strictly after `now`. */
  predicate UnexpiredTask(rows: seq<Row>, hotkeys: seq<string>, now: int, processed: bool, r: Row)
  {
    HotkeyIn(r.hotkey, hotkeys) && HasChild(rows, r) && r.expireAt > now && r.isProcessed == processed
  }

  /** The rows a `where` input selects, in table order. */
  function UnexpiredTasks(rows: seq<Row>, hotkeys: seq<string>, now: int, processed: bool): seq<Row>
  {
    Filter(rows, r => UnexpiredTask(rows, hotkeys, now, processed, r))
  }

  // ------------------------------------------------------------- order

  /** No row is newer than the one before it. */
  predicate NewestFirst(s: seq<Row>)
  {
    forall i :: 0 < i < |s| ==> s[i - 1].createdAt >= s[i].createdAt
  }

  /** Puts `x` in front of the first row that is not newer than it. */
  function InsertNewestFirst(x: Row, s: seq<Row>): (r: seq<Row>)
    requires NewestFirst(s)
    ensures NewestFirst(r)
    ensures multiset(r) == multiset(s) + multiset{x}
    ensures |r| == |s| + 1
    ensures r != [] && (r[0] == x || (s != [] && r[0] == s[0]))
  {
    if s == [] then [x]
    else if x.createdAt >= s[0].createdAt then [x] + s
    else
      var t := InsertNewestFirst(x, s[1..]);
      assert s == [s[0]] + s[1..];
      [s[0]] + t
  }

  /** `order={"created_at": "desc"}`: the rows newest first; rows created at
      the same instant keep their table order. */
  function SortNewestFirst(s: seq<Row>): (r: seq<Row>)
    ensures NewestFirst(r)
    ensures multiset(r) == multiset(s)
    ensures |r| == |s|
  {
    if s == [] then []
    else
      assert s == [s[0]] + s[1..];
      InsertNewestFirst(s[0], SortNewestFirst(s[1..]))
  }

  /** The unprocessed tasks in the order the batches take them. */
  function OrderedTasks(rows: seq<Row>, hotkeys: seq<string>, now: int): seq<Row>
  {
    SortNewestFirst(UnexpiredTasks(rows, hotkeys, now, false))
  }

  // ------------------------------------------------------------- batches

  function Min(a: int, b: int): int
  {
    if a <= b then a else b
  }

  /** `skip=i, take=batchSize` for `i` in `range(start, |s|, batchSize)`:
      the consecutive batches of at most `batchSize` rows from `start` on. */
  function Pages(s: seq<Row>, start: nat, batchSize: nat): seq<seq<Row>>
    requires batchSize > 0 && start <= |s|
    decreases |s| - start
  {
    if start == |s| then []
    else [s[start..Min(start + batchSize, |s|)]] + Pages(s, Min(start + batchSize, |s|), batchSize)
  }

  function Concat(pages: seq<seq<Row>>): seq<Row>
  {
    if pages == [] then [] else pages[0] + Concat(pages[1..])
  }

  /** The batches cover the ordered tasks exactly, in order. */
  lemma {:induction false} PagesConcat(s: seq<Row>, start: nat, batchSize: nat)
    requires batchSize > 0 && start <= |s|
    ensures Concat(Pages(s, start, batchSize)) == s[start..]
    decreases |s| - start
  {
    if start < |s| {
      var next := Min(start + batchSize, |s|);
      PagesConcat(s, next, batchSize);
      assert Pages(s, start, batchSize)[1..] == Pages(s, next, batchSize);
      assert s[start..] == s[start..next] + s[next..];
    }
  }

  /** Each batch is non-empty and holds at most `batchSize` rows, and there
      are ceil((|s| - start) / batchSize) of them. */
  lemma {:induction false} PagesSizes(s: seq<Row>, start: nat, batchSize: nat)
    requires batchSize > 0 && start <= |s|
    ensures forall j :: 0 <= j < |Pages(s, start, batchSize)| ==> 0 < |Pages(s, start, batchSize)[j]| <= batchSize
    ensures (|Pages(s, start, batchSize)| - 1) * batchSize < |s| - start <= |Pages(s, start, batchSize)| * batchSize
    decreases |s| - start
  {
    if start < |s| {
      var next := Min(start + batchSize, |s|);
      var rest := Pages(s, next, batchSize);
      PagesSizes(s, next, batchSize);
      assert Pages(s, start, batchSize) == [s[start..next]] + rest;
      assert |rest| * batchSize + batchSize == (|rest| + 1) * batchSize;
    }
  }

  /** `[r.id for r in validator_requests]`. */
  function Ids(page: seq<Row>): (ids: seq<string>)
    ensures |ids| == |page|
    ensures forall i :: 0 <= i < |page| ==> ids[i] == page[i].id
  {
    seq(|page|, i requires 0 <= i < |page| => page[i].id)
  }

  /** The miner-response query of lines 121-128: unprocessed rows whose parent
      is in the batch, newest first. */
  function MinerRowsFor(rows: seq<Row>, page: seq<Row>): seq<Row>
  {
    SortNewestFirst(Filter(rows, (m: Row) => m.parentId.Some? && m.parentId.value in Ids(page) && !m.isProcessed))
  }

  /** `[m for m in miner_responses if m.parent_id == validator_request.id]`. */
  function ChildrenOf(miners: seq<Row>, id: string): seq<Row>
  {
    Filter(miners, (m: Row) => m.parentId == Some(id))
  }

  /** Rows as a one-level `include` of `child_requests` loads them: their
      own columns only, with no criteria, completions or ground truths. */
  function WithoutRelations(ms: seq<Row>): seq<Row>
  {
    seq(|ms|, i requires 0 <= i < |ms| => ms[i].(criteriaTypes := [], completions := [], groundTruths := []))
  }

  /** Maps rows one after the other; the first failure is the result. */
  function MapAll(ms: seq<Row>, isMiner: bool): Result<seq<FeedbackRequest>, MapError>
  {
    MapResults(ms, (m: Row) => FeedbackRequestOf(m, isMiner))
  }

  /** Each mapped miner row names its miner's hotkey on the axon. */
  lemma MinerResponsesCarryHotkeys(ms: seq<Row>)
    ensures MapAll(ms, true).Ok? ==>
      forall k :: 0 <= k < |ms| ==> MapAll(ms, true).value[k].axon == Some(TerminalInfo(Some(ms[k].hotkey)))
  {
    forall k | 0 <= k < |ms|
      ensures FeedbackRequestOf(ms[k], true).Ok? ==> FeedbackRequestOf(ms[k], true).value.axon == Some(TerminalInfo(Some(ms[k].hotkey)))
    {
      FeedbackRequestOfContent(ms[k], true);
    }
  }

  /** One task of a batch: the validator request mapped as such, its miner
      responses mapped as miner requests. */
  function EntryFor(v: Row, miners: seq<Row>): Result<DendriteQueryResponse, MapError>
  {
    match FeedbackRequestOf(v, false)
    case Err(e) => Err(e)
    case Ok(request) =>
      match MapAll(ChildrenOf(miners, v.id), true)
      case Err(e) => Err(e)
      case Ok(responses) => Ok(DendriteQueryResponse(request, responses))
  }

  /** The responses list of lines 130-153 for a batch. */
  function Entries(page: seq<Row>, miners: seq<Row>): Result<seq<DendriteQueryResponse>, MapError>
  {
    MapResults(page, (v: Row) => EntryFor(v, miners))
  }

  /** What a batch yields. */
  function PageEntries(rows: seq<Row>, page: seq<Row>): Result<seq<DendriteQueryResponse>, MapError>
  {
    Entries(page, MinerRowsFor(rows, page))
  }

  /** The miner responses attached to a task of a batch are exactly the
      table's unprocessed rows whose parent is that task, each as often as it
      occurs in the table. */
  lemma ChildrenAreUnprocessedResponses(rows: seq<Row>, page: seq<Row>, k: nat, x: Row)
    requires k < |page|
    ensures multiset(ChildrenOf(MinerRowsFor(rows, page), page[k].id))[x]
      == if x.parentId == Some(page[k].id) && !x.isProcessed then multiset(rows)[x] else 0
  {
    var inBatch := (m: Row) => m.parentId.Some? && m.parentId.value in Ids(page) && !m.isProcessed;
    var isChild := (m: Row) => m.parentId == Some(page[k].id);
    var miners := MinerRowsFor(rows, page);
    FilterCounts(miners, isChild, x);
    FilterCounts(rows, inBatch, x);
    assert Ids(page)[k] == page[k].id;
  }

  /** Lines 130-153 for one batch. */
  method BuildEntries(page: seq<Row>, miners: seq<Row>) returns (r: Result<seq<DendriteQueryResponse>, MapError>)
    ensures r == Entries(page, miners)
  {
    var entry := (v: Row) => EntryFor(v, miners);
    var responses: seq<DendriteQueryResponse> := [];
    var i := 0;
    while i < |page|
      invariant 0 <= i <= |page|
      invariant MapResults(page[..i], entry) == Ok(responses)
    {
      MapResultsStep(page, entry, i);
      var request := MapFeedbackRequestModelToFeedbackRequest(page[i], false);
      if request.Err? {
        assert entry(page[i]) == Err(request.error);
        MapResultsErrStays(page, entry, i + 1);
        return Err(request.error);
      }
      var children := MapAll(ChildrenOf(miners, page[i].id), true);
      if children.Err? {
        assert entry(page[i]) == Err(children.error);
        MapResultsErrStays(page, entry, i + 1);
        return Err(children.error);
      }
      assert entry(page[i]) == Ok(DendriteQueryResponse(request.value, children.value));
      responses := responses + [DendriteQueryResponse(request.value, children.value)];
      i := i + 1;
    }
    assert page[..i] == page;
    r := Ok(responses);
  }

  /** Lines 198-205: the rows of a request id that have no parent. */
  function ValidatorRows(rows: seq<Row>, requestId: string): seq<Row>
  {
    Filter(rows, (r: Row) => r.requestId == requestId && r.parentId.None?)
  }

  /** Every row of the ordered tasks is an unprocessed task and each such
      task occurs in the batches as often as in the table, newest first. */
  lemma BatchesCoverUnprocessedTasks(rows: seq<Row>, hotkeys: seq<string>, now: int, batchSize: nat)
    requires batchSize > 0
    ensures var all := Concat(Pages(OrderedTasks(rows, hotkeys, now), 0, batchSize));
      && multiset(all) == multiset(UnexpiredTasks(rows, hotkeys, now, false))
      && NewestFirst(all)
  {
    var ordered := OrderedTasks(rows, hotkeys, now);
    PagesConcat(ordered, 0, batchSize);
    assert ordered[0..] == ordered;
  }

  // ------------------------------------------------------------- completions

  /** `(request_id, hotkey)` of every row: the columns `find_first` of lines
      273-278 filters on. */
  function RowKeys(rows: seq<Row>): (ks: seq<(string, string)>)
    ensures |ks| == |rows|
    ensures forall i :: 0 <= i < |rows| ==> ks[i] == (rows[i].requestId, rows[i].hotkey)
  {
    seq(|rows|, i requires 0 <= i < |rows| => (rows[i].requestId, rows[i].hotkey))
  }

  /** `find_first`: the position of the first row with the given key. */
  function FirstIndex(ks: seq<(string, string)>, key: (string, string)): (r: Option<nat>)
    ensures r.Some? <==> key in ks
    ensures r.Some? ==> r.value < |ks| && ks[r.value] == key && forall j :: 0 <= j < r.value ==> ks[j] != key
  {
    if ks == [] then None
    else if ks[0] == key then Some(0)
    else
      assert ks == [ks[0]] + ks[1..];
      match FirstIndex(ks[1..], key)
      case None => None
      case Some(j) => Some(j + 1)
  }

  /** Every miner response names a hotkey on its axon (lines 251-256). */
  predicate AllHaveHotkeys(mrs: seq<FeedbackRequest>)
  {
    forall k :: 0 <= k < |mrs| ==> HasHotkey(mrs[k].axon)
  }

  function MinerHotkey(r: FeedbackRequest): string
    requires HasHotkey(r.axon)
  {
    r.axon.value.hotkey.value
  }

  /** The response names a hotkey and some row of the request has it: the
      `find_first` of lines 271-276 finds a row. */
  predicate Matched(rows: seq<Row>, requestId: string, mr: FeedbackRequest)
  {
    HasHotkey(mr.axon) && (requestId, MinerHotkey(mr)) in RowKeys(rows)
  }

  /** The first `n` responses all find a row. */
  ghost predicate MatchedUpTo(rows: seq<Row>, requestId: string, mrs: seq<FeedbackRequest>, n: nat)
  {
    forall j :: 0 <= j < n && j < |mrs| ==> Matched(rows, requestId, mrs[j])
  }

  /** `miner_hotkeys` of lines 250-256. */
  function MinerHotkeys(mrs: seq<FeedbackRequest>): (hs: seq<string>)
    requires AllHaveHotkeys(mrs)
    ensures |hs| == |mrs|
    ensures forall k :: 0 <= k < |mrs| ==> hs[k] == MinerHotkey(mrs[k])
  {
    seq(|mrs|, k requires 0 <= k < |mrs| => MinerHotkey(mrs[k]))
  }

  /** The ids of the rows found by lines 258-260. */
  function FoundIds(rows: seq<Row>, requestId: string, hotkeys: seq<string>): set<string>
  {
    set i | 0 <= i < |rows| && rows[i].requestId == requestId && rows[i].hotkey in hotkeys :: rows[i].id
  }

  /** `completion_response_model.delete_many` of the completions whose
      `feedback_request_id` is in `ids`. */
  function DropCompletions(rows: seq<Row>, ids: set<string>): (r: seq<Row>)
    ensures |r| == |rows|
    ensures forall i :: 0 <= i < |rows| ==>
      r[i] == rows[i].(completions := Filter(rows[i].completions, (c: CompletionResponseModel) => c.feedbackRequestId !in ids))
  {
    seq(|rows|, i requires 0 <= i < |rows| =>
      rows[i].(completions := Filter(rows[i].completions, (c: CompletionResponseModel) => c.feedbackRequestId !in ids)))
  }

  /** The two deletions of lines 244-246 and 263-267. */
  function Cleared(rows: seq<Row>, requestId: string, mrs: seq<FeedbackRequest>): seq<Row>
    requires AllHaveHotkeys(mrs)
  {
    DropCompletions(DropCompletions(rows, {requestId}), FoundIds(rows, requestId, MinerHotkeys(mrs)))
  }

  /** The completion rows lines 284-289 create for one response. */
  function MapCompletions(cs: seq<CompletionResponse>, rowId: string): (ms: seq<CompletionResponseModel>)
    ensures |ms| == |cs|
    ensures forall j :: 0 <= j < |cs| ==> ms[j] == MapCompletionResponseToModel(cs[j], rowId)
  {
    seq(|cs|, j requires 0 <= j < |cs| => MapCompletionResponseToModel(cs[j], rowId))
  }

  /** The completions lines 270-289 add to row `i` for the first `n`
      responses: in response order, those of each response whose
      `find_first` lands on row `i`. */
  function Added(rows: seq<Row>, requestId: string, mrs: seq<FeedbackRequest>, n: nat, i: nat): seq<CompletionResponseModel>
    requires AllHaveHotkeys(mrs) && n <= |mrs| && i < |rows|
  {
    if n == 0 then []
    else
      Added(rows, requestId, mrs, n - 1, i)
      + (if FirstIndex(RowKeys(rows), (requestId, MinerHotkey(mrs[n - 1]))) == Some(i)
         then MapCompletions(mrs[n - 1].completionResponses, rows[i].id) else [])
  }

  /** Row by row, `rows` differs from `table` at most in the completions. */
  ghost predicate SameButCompletions(table: seq<Row>, rows: seq<Row>)
  {
    |rows| == |table| && forall i :: 0 <= i < |rows| ==> rows[i] == table[i].(completions := rows[i].completions)
  }

  /** `rows` is `table` with the completions of the first `n` of `mrs` appended as `Added`
      says, and otherwise unchanged. */
  ghost predicate Appended(table: seq<Row>, rows: seq<Row>, requestId: string, mrs: seq<FeedbackRequest>, n: nat)
  {
    && AllHaveHotkeys(mrs)
    && SameButCompletions(table, rows)
    && n <= |mrs|
    && (forall i :: 0 <= i < |rows| ==> rows[i].completions == table[i].completions + Added(table, requestId, mrs, n, i))
  }

  /** Lines 283-288: the response's completions stored under row `idx`. */
  function AppendAt(rows: seq<Row>, idx: nat, mr: FeedbackRequest): (r: seq<Row>)
    requires idx < |rows|
    ensures |r| == |rows|
    ensures forall i :: 0 <= i < |rows| && i != idx ==> r[i] == rows[i]
    ensures r[idx] == rows[idx].(completions := rows[idx].completions + MapCompletions(mr.completionResponses, rows[idx].id))
  {
    rows[idx := rows[idx].(completions := rows[idx].completions + MapCompletions(mr.completionResponses, rows[idx].id))]
  }

  /** Storing completions under one row changes no other field. */
  lemma AppendKeepsRest(table: seq<Row>, rows: seq<Row>, idx: nat, mr: FeedbackRequest)
    requires SameButCompletions(table, rows) && idx < |rows|
    ensures SameButCompletions(table, AppendAt(rows, idx, mr))
  {
  }

  /** Storing the next response's completions under the row its key first
      lands on keeps each row's completions equal to `Added`. */
  lemma AppendAddsNext(table: seq<Row>, rows: seq<Row>, requestId: string, mrs: seq<FeedbackRequest>, k: nat)
    requires AllHaveHotkeys(mrs) && k < |mrs|
    requires SameButCompletions(table, rows)
    requires forall i :: 0 <= i < |rows| ==> rows[i].completions == table[i].completions + Added(table, requestId, mrs, k, i)
    requires Matched(table, requestId, mrs[k])
    ensures var next := AppendAt(rows, FirstIndex(RowKeys(table), (requestId, MinerHotkey(mrs[k]))).value, mrs[k]);
      forall i :: 0 <= i < |next| ==> next[i].completions == table[i].completions + Added(table, requestId, mrs, k + 1, i)
  {
  }

  /** Appending the next response's completions to the row its key first
      lands on extends `Appended` by that response. */
  lemma AppendStep(table: seq<Row>, rows: seq<Row>, requestId: string, mrs: seq<FeedbackRequest>, k: nat)
    requires k < |mrs|
    requires Appended(table, rows, requestId, mrs, k)
    requires Matched(table, requestId, mrs[k])
    ensures Appended(table, AppendAt(rows, FirstIndex(RowKeys(table), (requestId, MinerHotkey(mrs[k]))).value, mrs[k]),
      requestId, mrs, k + 1)
  {
    AppendKeepsRest(table, rows, FirstIndex(RowKeys(table), (requestId, MinerHotkey(mrs[k]))).value, mrs[k]);
    AppendAddsNext(table, rows, requestId, mrs, k);
  }

  /** Each stored completion belongs to the row that holds it. */
  predicate OwnCompletions(rows: seq<Row>)
  {
    forall i, j :: 0 <= i < |rows| && 0 <= j < |rows[i].completions| ==> rows[i].completions[j].feedbackRequestId == rows[i].id
  }

  /** Row ids are primary keys. */
  predicate DistinctIds(rows: seq<Row>)
  {
    forall i, j :: 0 <= i < j < |rows| ==> rows[i].id != rows[j].id
  }

  /** A row of the request answered by one of the responses. */
  predicate Answered(r: Row, requestId: string, mrs: seq<FeedbackRequest>)
    requires AllHaveHotkeys(mrs)
  {
    r.requestId == requestId && r.hotkey in MinerHotkeys(mrs)
  }

  /** Deleting completions changes no row's id, request id or hotkey. */
  lemma DropKeepsKeys(rows: seq<Row>, ids: set<string>, requestId: string, hotkeys: seq<string>)
    ensures RowKeys(DropCompletions(rows, ids)) == RowKeys(rows)
    ensures FoundIds(DropCompletions(rows, ids), requestId, hotkeys) == FoundIds(rows, requestId, hotkeys)
  {
    var d := DropCompletions(rows, ids);
    assert forall i :: 0 <= i < |rows| ==> d[i].id == rows[i].id && d[i].requestId == rows[i].requestId && d[i].hotkey == rows[i].hotkey;
  }

  /** Only a row of the request answered by one of the first `n`
      responses gets new completions. */
  lemma {:induction false} AddedOnlyToAnswered(rows: seq<Row>, requestId: string, mrs: seq<FeedbackRequest>, n: nat, i: nat)
    requires AllHaveHotkeys(mrs) && n <= |mrs| && i < |rows|
    ensures Added(rows, requestId, mrs, n, i) != [] ==>
      rows[i].requestId == requestId && exists k :: 0 <= k < n && MinerHotkeys(mrs)[k] == rows[i].hotkey
    decreases n
  {
    if n > 0 {
      AddedOnlyToAnswered(rows, requestId, mrs, n - 1, i);
      if FirstIndex(RowKeys(rows), (requestId, MinerHotkey(mrs[n - 1]))) == Some(i) {
        assert MinerHotkeys(mrs)[n - 1] == rows[i].hotkey;
      }
    }
  }

  /** An answered row loses all its completions to the deletions, since
      each of them carries the row's own id. */
  lemma ClearedAnswered(rows: seq<Row>, requestId: string, mrs: seq<FeedbackRequest>, i: nat)
    requires AllHaveHotkeys(mrs) && i < |rows|
    requires OwnCompletions(rows) && Answered(rows[i], requestId, mrs)
    ensures Cleared(rows, requestId, mrs)[i].completions == []
  {
    var found := FoundIds(rows, requestId, MinerHotkeys(mrs));
    var once := DropCompletions(rows, {requestId});
    assert rows[i].id in found;
    if rows[i].id != requestId {
      assert once[i].completions == rows[i].completions;
    }
  }

  /** A row that is not answered keeps its completions, unless its own id is
      the request id; row ids are unique, so no answered row shares its id. */
  lemma ClearedOthers(rows: seq<Row>, requestId: string, mrs: seq<FeedbackRequest>, i: nat)
    requires AllHaveHotkeys(mrs) && i < |rows|
    requires OwnCompletions(rows) && DistinctIds(rows)
    requires !Answered(rows[i], requestId, mrs) && rows[i].id != requestId
    ensures Cleared(rows, requestId, mrs)[i].completions == rows[i].completions
  {
    var found := FoundIds(rows, requestId, MinerHotkeys(mrs));
    var once := DropCompletions(rows, {requestId});
    assert rows[i].id !in found;
    assert once[i].completions == rows[i].completions;
  }

  /** With each completion held by its own row and row ids unique, an
      update replaces the completions of every answered row of the request
      by the new ones, and leaves every other row as it was, except a row
      whose own id equals the request id, which loses its completions. */
  lemma UpdateReplacesCompletions(rows: seq<Row>, requestId: string, mrs: seq<FeedbackRequest>, i: nat)
    requires AllHaveHotkeys(mrs) && i < |rows|
    requires OwnCompletions(rows) && DistinctIds(rows)
    ensures var cleared := Cleared(rows, requestId, mrs);
      var after := cleared[i].completions + Added(cleared, requestId, mrs, |mrs|, i);
      && (Answered(rows[i], requestId, mrs) ==> after == Added(cleared, requestId, mrs, |mrs|, i))
      && (!Answered(rows[i], requestId, mrs) && rows[i].id != requestId ==> after == rows[i].completions)
  {
    var cleared := Cleared(rows, requestId, mrs);
    AddedOnlyToAnswered(cleared, requestId, mrs, |mrs|, i);
    if Answered(rows[i], requestId, mrs) {
      ClearedAnswered(rows, requestId, mrs, i);
    } else {
      assert cleared[i].hotkey == rows[i].hotkey && cleared[i].requestId == rows[i].requestId;
      if rows[i].id != requestId {
        ClearedOthers(rows, requestId, mrs, i);
      }
    }
  }

  // ------------------------------------------------------------- the table

  /** The rows after the loop of lines 270-289 has stored each response's
      completions under the first row of the request with its hotkey,
      stopping at the first response no row matches. */
  method AppendAll(table: seq<Row>, requestId: string, mrs: seq<FeedbackRequest>) returns (rows: seq<Row>, ok: bool)
    requires AllHaveHotkeys(mrs)
    ensures SameButCompletions(table, rows)
    ensures ok <==> forall k :: 0 <= k < |mrs| ==> Matched(table, requestId, mrs[k])
    ensures ok ==> Appended(table, rows, requestId, mrs, |mrs|)
  {
    rows := table;
    var k := 0;
    while k < |mrs|
      invariant 0 <= k <= |mrs|
      invariant Appended(table, rows, requestId, mrs, k)
      invariant MatchedUpTo(table, requestId, mrs, k)
    {
      var idx := FirstIndex(RowKeys(table), (requestId, MinerHotkey(mrs[k])));
      if idx.None? {
        assert !Matched(table, requestId, mrs[k]);
        return rows, false;
      }
      assert Matched(table, requestId, mrs[k]);
      assert MatchedUpTo(table, requestId, mrs, k + 1);
      AppendStep(table, rows, requestId, mrs, k);
      rows := AppendAt(rows, idx.value, mrs[k]);
      k := k + 1;
    }
    return rows, true;
  }

  class TaskStore {
    var rows: seq<Row>

    constructor (rows: seq<Row>)
      ensures this.rows == rows
    {
      this.rows := rows;
    }

    /** The batches a task query reads. */
    function TaskPages(hotkeys: seq<string>, batchSize: nat, now: int): seq<seq<Row>>
      requires batchSize > 0
      reads this
    {
      Pages(OrderedTasks(rows, hotkeys, now), 0, batchSize)
    }

    /** `get_unexpired_tasks` with the clock as `now`: with no unprocessed
        task it fails at once, naming whether processed tasks exist; otherwise
        it yields each batch flagged `true` and then an empty batch flagged
        `false`, stopping with the mapping error of the first batch that
        holds a row the mapper rejects. */
    method GetUnexpiredTasks(hotkeys: seq<string>, batchSize: nat, now: int)
      returns (batches: seq<(seq<DendriteQueryResponse>, bool)>, failure: Option<OrmError>)
      requires batchSize > 0
      ensures UnexpiredTasks(rows, hotkeys, now, false) == [] ==>
        batches == [] && failure == Some(
          if UnexpiredTasks(rows, hotkeys, now, true) != [] then UnexpiredTasksAlreadyProcessed else NoNewUnexpiredTasksYet)
      ensures UnexpiredTasks(rows, hotkeys, now, false) != [] ==>
        var pages := TaskPages(hotkeys, batchSize, now);
        && (failure.None? <==> AllBuild(Builder(rows), pages))
        && YieldedInOrder(Builder(rows), pages, batches)
        && (failure.None? ==> |batches| == |pages| + 1 && batches[|pages|] == ([], false))
        && (failure.Some? ==>
              && |batches| < |pages|
              && failure.value.MappingFailed?
              && Builder(rows)(pages[|batches|]) == Err(failure.value.e))
    {
      var unprocessed := UnexpiredTasks(rows, hotkeys, now, false);
      if unprocessed == [] {
        var processed := UnexpiredTasks(rows, hotkeys, now, true);
        batches := [];
        failure := Some(if processed != [] then UnexpiredTasksAlreadyProcessed else NoNewUnexpiredTasksYet);
        return;
      }
      var error;
      batches, error := YieldBatches(rows, SortNewestFirst(unprocessed), batchSize, Builder(rows));
      failure := if error.Some? then Some(MappingFailed(error.value)) else None;
    }

    /** `get_num_processed_tasks`: the processed validator requests. */
    function NumProcessedTasks(): (n: nat)
      reads this
      ensures n <= |rows|
      ensures n == 0 <==> forall i :: 0 <= i < |rows| ==> !(rows[i].isProcessed && rows[i].parentId.None?)
    {
      |Filter(rows, (r: Row) => r.isProcessed && r.parentId.None?)|
    }

    /** `mark_tasks_processed_by_request_ids`: every row whose `id` (not its
        request id) is listed becomes processed; nothing else changes, and an
        empty list changes nothing. The count of processed tasks never
        drops. */
    method MarkTasksProcessedByRequestIds(ids: seq<string>)
      modifies this
      ensures |rows| == |old(rows)|
      ensures forall i :: 0 <= i < |rows| ==>
        rows[i] == old(rows)[i].(isProcessed := old(rows)[i].isProcessed || old(rows)[i].id in ids)
      ensures ids == [] ==> rows == old(rows)
      ensures NumProcessedTasks() >= old(NumProcessedTasks())
    {
      if ids == [] {
        return;
      }
      ghost var before := rows;
      var i := 0;
      while i < |rows|
        invariant 0 <= i <= |rows| == |before|
        invariant forall j :: 0 <= j < i ==> rows[j] == before[j].(isProcessed := before[j].isProcessed || before[j].id in ids)
        invariant forall j :: i <= j < |rows| ==> rows[j] == before[j]
      {
        if rows[i].id in ids {
          rows := rows[i := rows[i].(isProcessed := true)];
        }
        i := i + 1;
      }
      FilterMonotone(before, rows, (r: Row) => r.isProcessed && r.parentId.None?);
    }

    /** Lines 244-246 and 263-267: `delete_many` on the completions whose
        owner id is in `ids`. */
    method DropCompletionsOf(ids: set<string>)
      modifies this
      ensures rows == DropCompletions(old(rows), ids)
    {
      var i := 0;
      while i < |rows|
        invariant 0 <= i <= |rows| == |old(rows)|
        invariant forall j :: 0 <= j < i ==> rows[j] == DropCompletions(old(rows), ids)[j]
        invariant forall j :: i <= j < |rows| ==> rows[j] == old(rows)[j]
      {
        rows := rows[i := rows[i].(completions := Filter(rows[i].completions, (c: CompletionResponseModel) => c.feedbackRequestId !in ids))];
        i := i + 1;
      }
    }

    /** `update_miner_completions_by_request_id`: only completions change.
        It succeeds exactly when every response names a hotkey and some row
        of the request has that hotkey; then each row holds, after the
        deletions, the completions of the responses whose `find_first`
        lands on it. A failure leaves what was done before it in place. */
    method UpdateMinerCompletionsByRequestId(requestId: string, mrs: seq<FeedbackRequest>) returns (ok: bool)
      modifies this
      ensures |rows| == |old(rows)|
      ensures forall i :: 0 <= i < |rows| ==> rows[i] == old(rows)[i].(completions := rows[i].completions)
      ensures ok <==> forall k :: 0 <= k < |mrs| ==> Matched(old(rows), requestId, mrs[k])
      ensures ok ==> var cleared := Cleared(old(rows), requestId, mrs);
        forall i :: 0 <= i < |rows| ==> rows[i].completions == cleared[i].completions + Added(cleared, requestId, mrs, |mrs|, i)
    {
      DropCompletionsOf({requestId});
      var hotkeys := CollectHotkeys(mrs);
      if hotkeys.None? {
        return false;
      }
      DropKeepsKeys(old(rows), {requestId}, requestId, hotkeys.value);
      DropCompletionsOf(FoundIds(rows, requestId, hotkeys.value));
      DropKeepsKeys(DropCompletions(old(rows), {requestId}), FoundIds(old(rows), requestId, hotkeys.value), requestId, hotkeys.value);
      assert rows == Cleared(old(rows), requestId, mrs);
      rows, ok := AppendAll(rows, requestId, mrs);
    }

    /** The loop of lines 251-256: the hotkeys of the responses, or `None`
        at the first response without one. */
    static method CollectHotkeys(mrs: seq<FeedbackRequest>) returns (hotkeys: Option<seq<string>>)
      ensures hotkeys.Some? <==> AllHaveHotkeys(mrs)
      ensures hotkeys.Some? ==> hotkeys.value == MinerHotkeys(mrs)
    {
      var hs: seq<string> := [];
      var k := 0;
      while k < |mrs|
        invariant 0 <= k <= |mrs|
        invariant AllHaveHotkeys(mrs[..k]) && hs == MinerHotkeys(mrs[..k])
      {
        if !HasHotkey(mrs[k].axon) {
          return None;
        }
        hs := hs + [MinerHotkey(mrs[k])];
        k := k + 1;
        assert mrs[..k][..k - 1] == mrs[..k - 1];
      }
      assert mrs[..k] == mrs;
      return Some(hs);
    }

    /** `get_task_by_request_id` with the children loaded together with
        their completions and criteria (a nested include): the task whose
        request id is given, when exactly one validator request carries it,
        that request has miner responses, and every row maps; otherwise
        `None`. */
    function GetTaskByRequestId(requestId: string): (r: Option<DendriteQueryResponse>)
      reads this
      ensures var vs := ValidatorRows(rows, requestId);
        r.Some? <==>
          && |vs| == 1
          && ChildrenOf(rows, vs[0].id) != []
          && FeedbackRequestOf(vs[0], false).Ok?
          && forall k :: 0 <= k < |ChildrenOf(rows, vs[0].id)| ==> FeedbackRequestOf(ChildrenOf(rows, vs[0].id)[k], true).Ok?
      ensures r.Some? ==>
        var v := ValidatorRows(rows, requestId)[0];
        var children := ChildrenOf(rows, v.id);
        && r.value.request.requestId == requestId
        && r.value.request.dendrite == Some(TerminalInfo(Some(v.hotkey)))
        && |r.value.minerResponses| == |children|
        && forall k :: 0 <= k < |children| ==>
             r.value.minerResponses[k] == FeedbackRequestOf(children[k], true).value
             && r.value.minerResponses[k].axon == Some(TerminalInfo(Some(children[k].hotkey)))
    {
      var vs := ValidatorRows(rows, requestId);
      if |vs| != 1 then None
      else
        var v := vs[0];
        var children := ChildrenOf(rows, v.id);
        if children == [] then None
        else
          match MapAll(children, true)
          case Err(_) => None
          case Ok(responses) =>
            match FeedbackRequestOf(v, false)
            case Err(_) => None
            case Ok(request) =>
              FeedbackRequestOfContent(v, false);
              MinerResponsesCarryHotkeys(children);
              Some(DendriteQueryResponse(request, responses))
    }

    /** `get_task_by_request_id` as written: `"child_requests": True` loads
        the children without their relations, so the first child fails to
        map for lack of completions, the `ValueError` is caught and the
        result is always `None`. */
    function GetTaskByRequestIdAsWritten(requestId: string): (r: Option<DendriteQueryResponse>)
      reads this
      ensures r.None?
    {
      var vs := ValidatorRows(rows, requestId);
      if |vs| != 1 then None
      else
        var v := vs[0];
        var children := WithoutRelations(ChildrenOf(rows, v.id));
        if children == [] then None
        else
          // the comprehension over the children raises at the first one
          assert FeedbackRequestOf(children[0], true).Err?;
          assert MapAll(children, true).Err?;
          None
    }
  }

  /** A validator request "v" for request id "r" with one miner response
      that has a completion; no criteria. */
  function LostChildrenRows(): seq<Row>
  {
    var completion := CompletionResponseModel("c", "m", JNull, None, None, "w");
    [ FeedbackRequestModel("v", "r", "p", "t", "hv", 0, None, None, false, 0, [], [completion], []),
      FeedbackRequestModel("w", "r", "p", "t", "hm", 0, None, Some("v"), false, 0, [], [completion], []) ]
  }

  /** On those rows the task is there to be found, but the one-level
      include loses it. */
  lemma ChildRelationsLost(store: TaskStore)
    requires store.rows == LostChildrenRows()
    ensures store.GetTaskByRequestId("r").Some?
    ensures store.GetTaskByRequestIdAsWritten("r").None?
  {
    var rows := LostChildrenRows();
    assert ValidatorRows(rows, "r") == [rows[0]];
    assert ChildrenOf(rows, "v") == [rows[1]];
  }

  /** `PageEntries` of a table, as a function of the batch. */
  ghost function Builder(rows: seq<Row>): seq<Row> -> Result<seq<DendriteQueryResponse>, MapError>
  {
    (page: seq<Row>) => PageEntries(rows, page)
  }

  /** Lines 110-153: the miner-response query and the responses list for one
      batch. */
  method BuildPage(rows: seq<Row>, page: seq<Row>, ghost build: seq<Row> -> Result<seq<DendriteQueryResponse>, MapError>)
    returns (r: Result<seq<DendriteQueryResponse>, MapError>)
    requires forall p {:trigger PageEntries(rows, p)} :: build(p) == PageEntries(rows, p)
    ensures r == build(page)
  {
    assert build(page) == PageEntries(rows, page);
    var miners := SortNewestFirst(Filter(rows, (m: Row) => m.parentId.Some? && m.parentId.value in Ids(page) && !m.isProcessed));
    r := BuildEntries(page, miners);
  }

  /** The batches before position `|batches|` were yielded as `build`
      produced them, each flagged `true`. */
  ghost predicate YieldedInOrder(build: seq<Row> -> Result<seq<DendriteQueryResponse>, MapError>,
                                 pages: seq<seq<Row>>, batches: seq<(seq<DendriteQueryResponse>, bool)>)
  {
    forall j :: 0 <= j < |batches| && j < |pages| ==>
      build(pages[j]).Ok? && batches[j] == (build(pages[j]).value, true)
  }

  /** Every batch maps without error. */
  ghost predicate AllBuild(build: seq<Row> -> Result<seq<DendriteQueryResponse>, MapError>, pages: seq<seq<Row>>)
  {
    forall j :: 0 <= j < |pages| ==> build(pages[j]).Ok?
  }

  /** The loop of lines 108-159 over the ordered tasks; `build` is what a
      batch yields (`PageEntries` of the table). */
  method YieldBatches(rows: seq<Row>, ordered: seq<Row>, batchSize: nat,
                      ghost build: seq<Row> -> Result<seq<DendriteQueryResponse>, MapError>)
    returns (batches: seq<(seq<DendriteQueryResponse>, bool)>, error: Option<MapError>)
    requires batchSize > 0
    requires forall p {:trigger PageEntries(rows, p)} :: build(p) == PageEntries(rows, p)
    ensures var pages := Pages(ordered, 0, batchSize);
      && (error.None? <==> AllBuild(build, pages))
      && YieldedInOrder(build, pages, batches)
      && (error.None? ==> |batches| == |pages| + 1 && batches[|pages|] == ([], false))
      && (error.Some? ==> |batches| < |pages| && build(pages[|batches|]) == Err(error.value))
  {
    ghost var pages := Pages(ordered, 0, batchSize);
    ghost var done: seq<seq<Row>> := [];
    var i := 0;
    batches := [];
    while i < |ordered|
      invariant 0 <= i <= |ordered|
      invariant |batches| == |done|
      invariant pages == done + Pages(ordered, i, batchSize)
      invariant YieldedInOrder(build, done, batches)
      decreases |ordered| - i
    {
      var next := Min(i + batchSize, |ordered|);
      var page := ordered[i..next];
      var entries := BuildPage(rows, page, build);
      if entries.Err? {
        assert pages[|batches|] == page;
        return batches, Some(entries.error);
      }
      assert pages == (done + [page]) + Pages(ordered, next, batchSize);
      batches := batches + [(entries.value, true)];
      done := done + [page];
      i := next;
    }
    batches := batches + [([], false)];
    error := None;
  }
}
