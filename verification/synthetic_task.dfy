/** The synthetic task script (scripts/create_synthetic_task.py): duplicate
    model names are made distinct by suffixing, the criteria list the
    models, and the HTML files of code answers are obfuscated one by one.
    The synthetic-data API, the obfuscator and the task creation are
    parameters or recorded calls. */
module SyntheticTask {
  import opened Common
  import opened Protocol

  const CodeGeneration := "CODE_GENERATION"
  const HtmlSuffix := ".html"
  const Underscore := '_'

  /** A file of a code answer. */
  datatype CodeFile = CodeFile(filename: string, content: string)

  /** A completion either is a code answer with files (it has a `files`
      attribute) or is anything else. */
  datatype Completion = CodeAnswer(files: seq<CodeFile>) | OtherCompletion(text: string)

  datatype SyntheticResponse = SyntheticResponse(model: string, completionId: string, completion: Completion)

  /** What the synthetic-data API returns; an absent ground truth is the
      empty dict. */
  datatype SyntheticQa = SyntheticQa(prompt: string, responses: seq<SyntheticResponse>, groundTruth: Dict<string, int>)

  /** A `FeedbackRequest` as this script builds it. */
  datatype SyntheticRequest = SyntheticRequest(taskType: string, criteriaTypes: seq<CriteriaType>, prompt: string,
                                               responses: seq<SyntheticResponse>, expireAt: int)

  // ------------------------------------------------------------- renaming

  /** `len(set(model_names)) == len(data.responses)`. */
  predicate DistinctModels(rs: seq<SyntheticResponse>)
  {
    forall i, j :: 0 <= i < j < |rs| ==> rs[i].model != rs[j].model
  }

  /** The response at `index` after the renaming step: `_<index>` is added
      to the model; a response the ground truth ranks also gets `_<rank>`
      and keeps its completion id, any other gets `_<index>` on its
      completion id. */
  function Renamed(r: SyntheticResponse, index: nat, gt: Dict<string, int>): (r': SyntheticResponse)
    ensures r'.completion == r.completion
    ensures HasKey(gt, r.completionId) ==>
      && r'.model == r.model + [Underscore] + NatToString(index) + [Underscore] + IntToString(Get(gt, r.completionId).value)
      && r'.completionId == r.completionId
    ensures !HasKey(gt, r.completionId) ==>
      && r'.model == r.model + [Underscore] + NatToString(index)
      && r'.completionId == r.completionId + [Underscore] + NatToString(index)
  {
    var model := r.model + [Underscore] + NatToString(index);
    if HasKey(gt, r.completionId) then
      r.(model := model + [Underscore] + IntToString(Get(gt, r.completionId).value))
    else
      r.(model := model, completionId := r.completionId + [Underscore] + NatToString(index))
  }

  /** The renaming block of `main`: nothing changes when the model names
      are already distinct; otherwise every response is renamed by its
      index. */
  method RenameDuplicates(responses: seq<SyntheticResponse>, gt: Dict<string, int>) returns (out: seq<SyntheticResponse>)
    ensures DistinctModels(responses) ==> out == responses
    ensures !DistinctModels(responses) ==>
      |out| == |responses| && forall i :: 0 <= i < |responses| ==> out[i] == Renamed(responses[i], i, gt)
  {
    if DistinctModels(responses) {
      return responses;
    }
    out := responses;
    var i := 0;
    while i < |out|
      invariant 0 <= i <= |out| == |responses|
      invariant forall k :: 0 <= k < i ==> out[k] == Renamed(responses[k], k, gt)
      invariant forall k :: i <= k < |out| ==> out[k] == responses[k]
    {
      out := out[i := Renamed(out[i], i, gt)];
      i := i + 1;
    }
  }

  predicate NoUnderscore(s: string)
  {
    forall k :: 0 <= k < |s| ==> s[k] != Underscore
  }

  /** The text after the last underscore is determined by the whole. */
  lemma LastSegment(x: string, s: string, y: string, t: string)
    requires NoUnderscore(s) && NoUnderscore(t)
    requires x + [Underscore] + s == y + [Underscore] + t
    ensures s == t
  {
    var w := x + [Underscore] + s;
    assert w == y + [Underscore] + t;
    if |s| < |t| {
      UnderscoreBefore(x, s);
      assert false;
    } else if |t| < |s| {
      UnderscoreBefore(y, t);
      assert false;
    }
    assert s == w[|w| - |s|..];
    assert t == w[|w| - |t|..];
  }

  lemma UnderscoreBefore(x: string, s: string)
    ensures (x + [Underscore] + s)[|x|] == Underscore
  {
  }

  /** Different indices are written differently. */
  lemma NatToStringInjective(i: nat, j: nat)
    requires NatToString(i) == NatToString(j)
    ensures i == j
  {
    NatToStringRoundTrip(i);
    NatToStringRoundTrip(j);
  }

  lemma IndexHasNoUnderscore(i: nat)
    ensures NoUnderscore(NatToString(i))
  {
    var s := NatToString(i);
    forall k | 0 <= k < |s|
      ensures s[k] != Underscore
    {
      assert IsDigit(s[k]);
    }
  }

  /** When the ground truth ranks none of the responses, renaming makes
      the model names distinct, as the script's warning promises. With
      ranked responses it does not always: a model `a_5` at index 1 and a
      model `a` ranked 1 at index 5 both become `a_5_1`. */
  lemma RenamedDistinctWithoutRanks(responses: seq<SyntheticResponse>, gt: Dict<string, int>, out: seq<SyntheticResponse>)
    requires |out| == |responses|
    requires forall i :: 0 <= i < |responses| ==> out[i] == Renamed(responses[i], i, gt)
    requires forall i :: 0 <= i < |responses| ==> !HasKey(gt, responses[i].completionId)
    ensures DistinctModels(out)
  {
    forall i, j | 0 <= i < j < |out|
      ensures out[i].model != out[j].model
    {
      if out[i].model == out[j].model {
        IndexHasNoUnderscore(i);
        IndexHasNoUnderscore(j);
        LastSegment(responses[i].model, NatToString(i), responses[j].model, NatToString(j));
        NatToStringInjective(i, j);
      }
    }
  }

  // ------------------------------------------------------------- criteria

  /** The single multi-score criterion over the models, from 1 to 100. */
  function TaskCriteria(responses: seq<SyntheticResponse>): (c: seq<CriteriaType>)
    ensures |c| == 1 && c[0].MultiScoreCriteria? && c[0].min == 1.0 && c[0].max == 100.0
    ensures |c[0].options| == |responses|
    ensures forall i :: 0 <= i < |responses| ==> c[0].options[i] == responses[i].model
  {
    [MultiScoreCriteria(seq(|responses|, i requires 0 <= i < |responses| => responses[i].model), 1.0, 100.0)]
  }

  // ------------------------------------------------------------- file obfuscation

  /** `file.filename.lower().endswith(".html")`. */
  predicate IsHtml(filename: string)
  {
    EndsWith(AsciiLower(filename), HtmlSuffix)
  }

  /** A file after the obfuscation pass: an HTML file gets what the
      obfuscator returns; any other file, and an HTML file the obfuscator
      fails on, keeps its content; the name never changes. */
  ghost predicate FileObfuscated(before: CodeFile, after: CodeFile, obfuscate: string -> Result<string, string>)
  {
    && after.filename == before.filename
    && (IsHtml(before.filename) && obfuscate(before.content).Ok? ==> after.content == obfuscate(before.content).value)
    && (!IsHtml(before.filename) || obfuscate(before.content).Err? ==> after.content == before.content)
  }

  ghost predicate ResponseObfuscated(before: SyntheticResponse, after: SyntheticResponse, obfuscate: string -> Result<string, string>)
  {
    && after.model == before.model && after.completionId == before.completionId
    && (before.completion.OtherCompletion? ==> after.completion == before.completion)
    && (before.completion.CodeAnswer? ==>
         && after.completion.CodeAnswer?
         && |after.completion.files| == |before.completion.files|
         && forall j :: 0 <= j < |before.completion.files| ==>
              FileObfuscated(before.completion.files[j], after.completion.files[j], obfuscate))
  }

  ghost predicate AllObfuscated(before: seq<SyntheticResponse>, after: seq<SyntheticResponse>, obfuscate: string -> Result<string, string>)
  {
    |after| == |before| && forall i :: 0 <= i < |before| ==> ResponseObfuscated(before[i], after[i], obfuscate)
  }

  /** The inner loop of `_obfuscate_completion_files`: each HTML file in
      turn; an exception on one is logged and the loop goes on. */
  method ObfuscateFiles(files: seq<CodeFile>, obfuscate: string -> Result<string, string>) returns (out: seq<CodeFile>)
    ensures |out| == |files|
    ensures forall j :: 0 <= j < |files| ==> FileObfuscated(files[j], out[j], obfuscate)
  {
    out := files;
    var j := 0;
    while j < |out|
      invariant 0 <= j <= |out| == |files|
      invariant forall k :: 0 <= k < j ==> FileObfuscated(files[k], out[k], obfuscate)
      invariant forall k :: j <= k < |out| ==> out[k] == files[k]
    {
      if IsHtml(out[j].filename) {
        var result := obfuscate(out[j].content);
        if result.Ok? {
          out := out[j := out[j].(content := result.value)];
        }
      }
      j := j + 1;
    }
  }

  /** `_obfuscate_completion_files`: the files of every code answer go
      through the obfuscation pass; other completions are left alone. */
  method ObfuscateCompletionFiles(responses: seq<SyntheticResponse>, obfuscate: string -> Result<string, string>)
    returns (out: seq<SyntheticResponse>)
    ensures AllObfuscated(responses, out, obfuscate)
  {
    out := responses;
    var i := 0;
    while i < |out|
      invariant 0 <= i <= |out| == |responses|
      invariant forall k :: 0 <= k < i ==> ResponseObfuscated(responses[k], out[k], obfuscate)
      invariant forall k :: i <= k < |out| ==> out[k] == responses[k]
    {
      if out[i].completion.CodeAnswer? {
        var files := ObfuscateFiles(out[i].completion.files, obfuscate);
        out := out[i := out[i].(completion := CodeAnswer(files))];
      }
      i := i + 1;
    }
  }

  // ------------------------------------------------------------- main

  function Request(data: SyntheticQa, responses: seq<SyntheticResponse>, expireAt: int): SyntheticRequest
  {
    SyntheticRequest(CodeGeneration, TaskCriteria(responses), data.prompt, responses, expireAt)
  }

  /** `main`, as the sequence of requests handed to `create_task`: none
      without synthetic data; otherwise the renamed request, then the same
      request with its HTML files obfuscated, then the second request. Both
      requests share the same response objects, so the second one's files
      are obfuscated a second time. The criteria are built before any
      obfuscation, from the renamed models. `accepted(k)` is the outcome of
      the k-th `create_task` call after its retries; a call that fails
      raises, nothing catches it, and the script stops there with `raised`
      set. */
  method CreateSyntheticTasks(data: Option<SyntheticQa>, expireAt: int,
                              firstPass: string -> Result<string, string>, secondPass: string -> Result<string, string>,
                              accepted: nat -> bool)
    returns (created: seq<SyntheticRequest>, raised: bool)
    ensures data.None? ==> created == [] && !raised
    ensures data.Some? ==>
      && 1 <= |created| <= 3
      && (forall k :: 0 <= k < |created| - 1 ==> accepted(k))
      && (raised <==> !accepted(|created| - 1))
      && (|created| < 3 ==> raised)
      && (forall k :: 0 <= k < |created| ==>
           && created[k].taskType == CodeGeneration && created[k].prompt == data.value.prompt
           && created[k].expireAt == expireAt && created[k].criteriaTypes == created[0].criteriaTypes)
      && created[0].criteriaTypes == TaskCriteria(created[0].responses)
      && (DistinctModels(data.value.responses) ==> created[0].responses == data.value.responses)
      && (|created| >= 2 ==> AllObfuscated(created[0].responses, created[1].responses, firstPass))
      && (|created| == 3 ==> AllObfuscated(created[1].responses, created[2].responses, secondPass))
  {
    if data.None? {
      return [], false;
    }
    var responses := RenameDuplicates(data.value.responses, data.value.groundTruth);
    var synapse := Request(data.value, responses, expireAt);
    var secondSynapse := Request(data.value, responses, expireAt);
    created := [synapse];
    if !accepted(0) {
      return created, true;
    }
    var once := ObfuscateCompletionFiles(responses, firstPass);
    synapse := synapse.(responses := once);
    created := created + [synapse];
    if !accepted(1) {
      return created, true;
    }
    var twice := ObfuscateCompletionFiles(once, secondPass);
    secondSynapse := secondSynapse.(responses := twice);
    created := created + [secondSynapse];
    raised := !accepted(2);
  }
}
