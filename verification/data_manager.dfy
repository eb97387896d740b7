/** Saving the validator state (commons/data_manager.py): the nested map
    request id -> miner hotkey -> task id is flattened into one state row per
    (request, miner, obfuscated model), and the score vector is kept as a
    single record. The database tables are in-memory sequences. */
module DataManager {
  import opened Common

  // ------------------------------------------------------------- singleton

  /** A `DataManager` instance; `step` is an attribute nothing in the class
      sets, so it may be missing (`None`). */
  class DataManager {
    var step: Option<int>

    constructor ()
      ensures step == None
    {
      step := None;
    }
  }

  /** The class object of `DataManager` with its class attribute `_instance`. */
  class DataManagerClass {
    var instance: DataManager?

    constructor ()
      ensures instance == null
    {
      instance := null;
    }

    /** `DataManager()`: the first call creates the instance, every later
        call returns that same instance. */
    method New() returns (m: DataManager)
      modifies this
      ensures instance == m
      ensures old(instance) != null ==> m == old(instance)
      ensures old(instance) == null ==> fresh(m)
    {
      if instance == null {
        instance := new DataManager();
      }
      m := instance;
    }
  }

  // ------------------------------------------------------------- row flattening

  /** One row of the validator state table. */
  datatype StateRow = StateRow(requestId: string, minerHotkey: string, taskId: string, expireAt: string,
                               obfuscatedModel: string, realModel: string)

  /** Whether the lookups made for one (request, task) pair succeed:
      `model_map[request_id]` always, `task_to_expiry[task_id]` only when
      that request has models to iterate over. */
  predicate Found(requestId: string, taskId: string, modelMap: map<string, Dict<string, string>>, expiry: map<string, string>)
  {
    requestId in modelMap && (modelMap[requestId] == [] || taskId in expiry)
  }

  /** A row carries the expiry of its task and one model pair of its request. */
  predicate RowFrom(row: StateRow, modelMap: map<string, Dict<string, string>>, expiry: map<string, string>)
  {
    && row.taskId in expiry && row.expireAt == expiry[row.taskId]
    && row.requestId in modelMap && (row.obfuscatedModel, row.realModel) in modelMap[row.requestId]
  }

  /** The rows of one (request, miner, task) triple, one per model pair. */
  function HotkeyRows(requestId: string, hotkey: string, taskId: string, models: Dict<string, string>, expiry: map<string, string>)
    : (r: Result<seq<StateRow>, string>)
    ensures r.Ok? <==> models == [] || taskId in expiry
    ensures r.Ok? ==> |r.value| == |models|
    ensures r.Ok? ==> forall k :: 0 <= k < |r.value| ==>
      && r.value[k] == StateRow(requestId, hotkey, taskId, expiry[taskId], models[k].0, models[k].1)
  {
    if models == [] then Ok([])
    else if taskId !in expiry then Err(taskId)
    else Ok(seq(|models|, k requires 0 <= k < |models| => StateRow(requestId, hotkey, taskId, expiry[taskId], models[k].0, models[k].1)))
  }

  /** The rows of one request, miner by miner. */
  function RequestRows(requestId: string, hotkeys: Dict<string, string>, modelMap: map<string, Dict<string, string>>, expiry: map<string, string>)
    : (r: Result<seq<StateRow>, string>)
    ensures r.Ok? <==> forall j :: 0 <= j < |hotkeys| ==> Found(requestId, hotkeys[j].1, modelMap, expiry)
    ensures r.Ok? ==> |r.value| == RequestCount(requestId, hotkeys, modelMap)
    ensures r.Ok? ==> forall k :: 0 <= k < |r.value| ==> r.value[k].requestId == requestId && RowFrom(r.value[k], modelMap, expiry)
    decreases |hotkeys|
  {
    if hotkeys == [] then Ok([])
    else if requestId !in modelMap then
      assert !Found(requestId, hotkeys[0].1, modelMap, expiry);
      Err(requestId)
    else
      match HotkeyRows(requestId, hotkeys[0].0, hotkeys[0].1, modelMap[requestId], expiry)
      case Err(e) => Err(e)
      case Ok(first) =>
        match RequestRows(requestId, hotkeys[1..], modelMap, expiry)
        case Err(e) => Err(e)
        case Ok(rest) =>
          assert forall j :: 1 <= j < |hotkeys| ==> hotkeys[j] == hotkeys[1..][j - 1];
          Ok(first + rest)
  }

  /** The number of rows the comprehension yields when every lookup
      succeeds: the sum over requests of |miners| * |models|. */
  function RowCount(taskData: Dict<string, Dict<string, string>>, modelMap: map<string, Dict<string, string>>): nat
  {
    if taskData == [] then 0
    else RequestCount(taskData[0].0, taskData[0].1, modelMap) + RowCount(taskData[1..], modelMap)
  }

  function RequestCount(requestId: string, hotkeys: Dict<string, string>, modelMap: map<string, Dict<string, string>>): nat
  {
    if requestId in modelMap then |hotkeys| * |modelMap[requestId]| else 0
  }

  /** Every lookup the comprehension makes succeeds. */
  ghost predicate AllFound(taskData: Dict<string, Dict<string, string>>, modelMap: map<string, Dict<string, string>>, expiry: map<string, string>)
  {
    forall i, j :: 0 <= i < |taskData| && 0 <= j < |taskData[i].1| ==> Found(taskData[i].0, taskData[i].1[j].1, modelMap, expiry)
  }

  /** The nested comprehension of `validator_save`: requests, then miners,
      then model pairs, in order; the first missing key aborts it. */
  function FlattenRows(taskData: Dict<string, Dict<string, string>>, modelMap: map<string, Dict<string, string>>, expiry: map<string, string>)
    : (r: Result<seq<StateRow>, string>)
    decreases |taskData|
  {
    if taskData == [] then Ok([])
    else
      match RequestRows(taskData[0].0, taskData[0].1, modelMap, expiry)
      case Err(e) => Err(e)
      case Ok(first) =>
        match FlattenRows(taskData[1..], modelMap, expiry)
        case Err(e) => Err(e)
        case Ok(rest) => Ok(first + rest)
  }

  /** The flattening succeeds exactly when every lookup does, and then
      yields `RowCount` rows, each carrying its task's expiry and one model
      pair of its request. */
  lemma {:induction false} FlattenRowsSpec(taskData: Dict<string, Dict<string, string>>, modelMap: map<string, Dict<string, string>>, expiry: map<string, string>)
    ensures FlattenRows(taskData, modelMap, expiry).Ok? <==> AllFound(taskData, modelMap, expiry)
    ensures FlattenRows(taskData, modelMap, expiry).Ok? ==>
      && |FlattenRows(taskData, modelMap, expiry).value| == RowCount(taskData, modelMap)
      && forall k :: 0 <= k < |FlattenRows(taskData, modelMap, expiry).value| ==>
           RowFrom(FlattenRows(taskData, modelMap, expiry).value[k], modelMap, expiry)
    decreases |taskData|
  {
    if taskData != [] {
      FlattenRowsSpec(taskData[1..], modelMap, expiry);
      AllFoundSplit(taskData, modelMap, expiry);
    }
  }

  lemma AllFoundSplit(taskData: Dict<string, Dict<string, string>>, modelMap: map<string, Dict<string, string>>, expiry: map<string, string>)
    requires taskData != []
    ensures AllFound(taskData, modelMap, expiry) <==>
      && (forall j :: 0 <= j < |taskData[0].1| ==> Found(taskData[0].0, taskData[0].1[j].1, modelMap, expiry))
      && AllFound(taskData[1..], modelMap, expiry)
  {
    if (forall j :: 0 <= j < |taskData[0].1| ==> Found(taskData[0].0, taskData[0].1[j].1, modelMap, expiry))
       && AllFound(taskData[1..], modelMap, expiry) {
      forall i, j | 0 <= i < |taskData| && 0 <= j < |taskData[i].1|
        ensures Found(taskData[i].0, taskData[i].1[j].1, modelMap, expiry)
      {
        if i > 0 {
          assert taskData[i] == taskData[1..][i - 1];
        }
      }
    }
  }

  // ------------------------------------------------------------- saving

  predicate AllZero(scores: seq<real>)
  {
    forall i :: 0 <= i < |scores| ==> scores[i] == 0.0
  }

  /** `create_many(..., skip_duplicates=True)`: rows already in the table
      (or earlier in the batch) are skipped. */
  function AppendNew(table: seq<StateRow>, rows: seq<StateRow>): (t: seq<StateRow>)
    ensures |table| <= |t| <= |table| + |rows| && t[..|table|] == table
    ensures forall k :: 0 <= k < |rows| ==> rows[k] in t
    ensures forall k :: |table| <= k < |t| ==> t[k] !in t[..k]
    decreases |rows|
  {
    if rows == [] then table
    else
      var next := if rows[0] in table then table else table + [rows[0]];
      assert next[..|table|] == table;
      var t := AppendNew(next, rows[1..]);
      assert forall k :: 1 <= k < |rows| ==> rows[k] == rows[1..][k - 1];
      assert t[..|table|] == t[..|next|][..|table|];
      assert rows[0] in next;
      t
  }

  /** The stored score record. */
  datatype ScoreRecord = ScoreRecord(id: string, score: seq<real>)

  /** The two tables `validator_save` writes. */
  class Database {
    var stateRows: seq<StateRow>
    var scoreRecords: seq<ScoreRecord>

    constructor ()
      ensures stateRows == [] && scoreRecords == []
    {
      stateRows := [];
      scoreRecords := [];
    }
  }

  /** The score records after the single-record upsert: the first record
      found gets the new scores, or a record is created. */
  function UpsertScore(records: seq<ScoreRecord>, scores: seq<real>, newId: string): (r: seq<ScoreRecord>)
    ensures |r| == if records == [] then 1 else |records|
    ensures r[0].score == scores
    ensures records != [] ==> r[0].id == records[0].id && r[1..] == records[1..]
  {
    if records == [] then [ScoreRecord(newId, scores)]
    else records[0 := records[0].(score := scores)]
  }

  /** How a `validator_save` call ends. */
  datatype SaveOutcome =
    | Skipped                 // an instance exists with `step == 0`
    | AttributeErrorRaised    // an instance exists without `step`; not caught
    | Logged(reason: SaveError)
    | ZeroScoresWarned        // rows saved, all scores zero
    | Saved

  datatype SaveError = EmptyData | MissingKey(key: string) | NameError

  /** The guard ahead of the `try`. */
  function Guard(instance: DataManager?): (r: Option<SaveOutcome>)
    reads instance
    ensures r == Some(Skipped) <==> instance != null && instance.step == Some(0)
    ensures r == Some(AttributeErrorRaised) <==> instance != null && instance.step.None?
    ensures r.None? <==> instance == null || (instance.step.Some? && instance.step.value != 0)
  {
    if instance == null then None
    else if instance.step.None? then Some(AttributeErrorRaised)
    else if instance.step.value == 0 then Some(Skipped)
    else None
  }

  /** `validator_save` as written: `Validator_State_Model` is not imported,
      so every call that gets past the guards and the comprehension raises
      `NameError` at the state write, which is caught and logged; neither
      table ever changes. */
  method ValidatorSaveAsWritten(cls: DataManagerClass, db: Database, scores: seq<real>,
                                taskData: Dict<string, Dict<string, string>>,
                                modelMap: map<string, Dict<string, string>>, expiry: map<string, string>)
    returns (out: SaveOutcome)
    modifies db
    ensures db.stateRows == old(db.stateRows) && db.scoreRecords == old(db.scoreRecords)
    ensures out != Saved && out != ZeroScoresWarned
    ensures Guard(cls.instance).None? && (taskData != [] || !AllZero(scores)) && AllFound(taskData, modelMap, expiry) ==>
      out == Logged(NameError)
  {
    var g := Guard(cls.instance);
    if g.Some? {
      return g.value;
    }
    if taskData == [] && AllZero(scores) {
      return Logged(EmptyData);
    }
    FlattenRowsSpec(taskData, modelMap, expiry);
    var rows := FlattenRows(taskData, modelMap, expiry);
    if rows.Err? {
      return Logged(MissingKey(rows.error));
    }
    return Logged(NameError);
  }

  /** `validator_save` with the state model in scope: past the guards, an
      empty task map with all-zero scores is logged and nothing saved; a
      missing key aborts before any write; otherwise the new rows are added
      and, unless the scores are all zero, the single score record is
      updated or created. */
  method ValidatorSave(cls: DataManagerClass, db: Database, scores: seq<real>,
                       taskData: Dict<string, Dict<string, string>>,
                       modelMap: map<string, Dict<string, string>>, expiry: map<string, string>, newScoreId: string)
    returns (out: SaveOutcome)
    modifies db
    ensures Guard(cls.instance).Some? ==>
      out == Guard(cls.instance).value && db.stateRows == old(db.stateRows) && db.scoreRecords == old(db.scoreRecords)
    ensures Guard(cls.instance).None? && taskData == [] && AllZero(scores) ==>
      out == Logged(EmptyData) && db.stateRows == old(db.stateRows) && db.scoreRecords == old(db.scoreRecords)
    ensures Guard(cls.instance).None? && (taskData != [] || !AllZero(scores)) && !AllFound(taskData, modelMap, expiry) ==>
      out.Logged? && out.reason.MissingKey? && db.stateRows == old(db.stateRows) && db.scoreRecords == old(db.scoreRecords)
    ensures Guard(cls.instance).None? && (taskData != [] || !AllZero(scores)) && AllFound(taskData, modelMap, expiry) ==>
      && FlattenRows(taskData, modelMap, expiry).Ok?
      && db.stateRows == AppendNew(old(db.stateRows), FlattenRows(taskData, modelMap, expiry).value)
      && |db.stateRows| <= |old(db.stateRows)| + RowCount(taskData, modelMap)
      && (AllZero(scores) ==> out == ZeroScoresWarned && db.scoreRecords == old(db.scoreRecords))
      && (!AllZero(scores) ==> out == Saved && db.scoreRecords == UpsertScore(old(db.scoreRecords), scores, newScoreId))
  {
    var g := Guard(cls.instance);
    if g.Some? {
      return g.value;
    }
    if taskData == [] && AllZero(scores) {
      return Logged(EmptyData);
    }
    FlattenRowsSpec(taskData, modelMap, expiry);
    var rows := FlattenRows(taskData, modelMap, expiry);
    if rows.Err? {
      return Logged(MissingKey(rows.error));
    }
    db.stateRows := AppendNew(db.stateRows, rows.value);
    if AllZero(scores) {
      return ZeroScoresWarned;
    }
    db.scoreRecords := UpsertScore(db.scoreRecords, scores, newScoreId);
    return Saved;
  }

  /** Saving keeps a single score record: starting from at most one, the
      table holds exactly one afterwards, carrying the saved scores. */
  method SaveKeepsOneScore(cls: DataManagerClass, db: Database, scores: seq<real>,
                           taskData: Dict<string, Dict<string, string>>,
                           modelMap: map<string, Dict<string, string>>, expiry: map<string, string>, newScoreId: string)
    returns (out: SaveOutcome)
    requires |db.scoreRecords| <= 1
    modifies db
    ensures |db.scoreRecords| <= 1
    ensures out == Saved ==> |db.scoreRecords| == 1 && db.scoreRecords[0].score == scores
  {
    out := ValidatorSave(cls, db, scores, taskData, modelMap, expiry, newScoreId);
  }
}
