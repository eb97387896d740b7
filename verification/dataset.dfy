/** The dataset streams of commons/dataset.py. A streamed dataset is the
    finite sequence of rows it would yield; an iterator is the part of that
    sequence not yet consumed, and reloading a dataset (a fresh
    `load_dataset`) is a parameter giving the rows it would yield now. */
module Dataset {
  import opened Common

  // The dataset names (`DatasetName`) and the seed key.
  const AnthropicHhRlhf := "Anthropic/hh-rlhf"
  const StanfordShp := "stanfordnlp/SHP"
  const OpenaiWebgptComparisons := "openai/webgpt_comparisons"
  const AllOasstPrompts := "all_oasst_prompts"
  const Prompter := "prompter"

  /** The keys of `eval_datasets`, in insertion order. */
  const EvalNames := [AnthropicHhRlhf, StanfordShp, OpenaiWebgptComparisons]

  /** A preference pair: the preferred and the other completion. */
  datatype Pair = Pair(chosen: string, rejected: string)

  /** A WebGPT pair keeps the quotes each answer was written from. */
  datatype ContextPair = ContextPair(chosen: string, rejected: string, contextChosen: string, contextRejected: string)

  /** A Stanford SHP row: two human replies, their scores, and `labels`,
      which is 1 when reply A is the preferred one. */
  datatype ShpRow = ShpRow(scoreA: int, scoreB: int, labels: int, humanRefA: string, humanRefB: string)

  /** A WebGPT comparisons row: two answers, their scores and quotes. */
  datatype WebgptRow = WebgptRow(score0: real, score1: real, answer0: string, answer1: string, quotes0: string, quotes1: string)

  /** An OpenAssistant message row. */
  datatype OasstRow = OasstRow(parentId: Option<string>, role: string, text: string)

  /** What remains of a seed prompt row: its text. */
  datatype PromptRow = PromptRow(text: string)

  datatype DatasetError = KeyError | StopIteration

  /** The SHP filter and row map together: tied rows are dropped, and the
      reply the label prefers becomes `chosen`. */
  function ShpPair(row: ShpRow): (r: Option<Pair>)
    ensures r.None? <==> row.scoreA == row.scoreB
    ensures r.Some? ==> multiset{r.value.chosen, r.value.rejected} == multiset{row.humanRefA, row.humanRefB}
    ensures r.Some? && row.labels == 1 ==> r.value.chosen == row.humanRefA
    ensures r.Some? && row.labels != 1 ==> r.value.chosen == row.humanRefB
  {
    if row.scoreA == row.scoreB then None
    else if row.labels == 1 then Some(Pair(row.humanRefA, row.humanRefB))
    else Some(Pair(row.humanRefB, row.humanRefA))
  }

  /** The same row with its replies listed the other way round. */
  function SwapShp(row: ShpRow): ShpRow
    requires row.labels == 0 || row.labels == 1
  {
    ShpRow(row.scoreB, row.scoreA, 1 - row.labels, row.humanRefB, row.humanRefA)
  }

  /** The pair does not depend on which reply is listed first. */
  lemma ShpPairSymmetric(row: ShpRow)
    requires row.labels == 0 || row.labels == 1
    ensures ShpPair(SwapShp(row)) == ShpPair(row)
  {
  }

  /** The WebGPT filter and row map together: tied rows are dropped, the
      answer with the strictly higher score becomes `chosen`, and each
      answer's quotes go with it. */
  function WebgptPair(row: WebgptRow): (r: Option<ContextPair>)
    ensures r.None? <==> row.score0 == row.score1
    ensures r.Some? && row.score0 > row.score1 ==>
      r.value == ContextPair(row.answer0, row.answer1, row.quotes0, row.quotes1)
    ensures r.Some? && row.score1 > row.score0 ==>
      r.value == ContextPair(row.answer1, row.answer0, row.quotes1, row.quotes0)
  {
    if row.score0 == row.score1 then None
    else if row.score0 > row.score1 then Some(ContextPair(row.answer0, row.answer1, row.quotes0, row.quotes1))
    else Some(ContextPair(row.answer1, row.answer0, row.quotes1, row.quotes0))
  }

  function SwapWebgpt(row: WebgptRow): WebgptRow
  {
    WebgptRow(row.score1, row.score0, row.answer1, row.answer0, row.quotes1, row.quotes0)
  }

  /** The pair does not depend on which answer is listed first. */
  lemma WebgptPairSymmetric(row: WebgptRow)
    ensures WebgptPair(SwapWebgpt(row)) == WebgptPair(row)
  {
  }

  /** `_is_oasst_prompt`: a message without a parent, written by the
      prompter. */
  predicate IsOasstPrompt(row: OasstRow)
  {
    !Present(row.parentId) && row.role == Prompter
  }

  /** The OpenAssistant filter and row map together: only prompts are kept,
      reduced to their text. */
  function OasstPrompt(row: OasstRow): (r: Option<PromptRow>)
    ensures r.Some? <==> (row.parentId.None? || row.parentId.value == "") && row.role == Prompter
    ensures r.Some? ==> r.value.text == row.text
  {
    if IsOasstPrompt(row) then Some(PromptRow(row.text)) else None
  }

  /** A streamed `filter(...).map(...)`: the rows a row function keeps, in
      order. */
  function Stream<R, P>(rows: seq<R>, f: R -> Option<P>): (s: seq<P>)
    ensures |s| <= |rows|
    ensures (forall i :: 0 <= i < |rows| ==> f(rows[i]).None?) ==> s == []
  {
    if rows == [] then [] else Kept(rows[0], f) + Stream(rows[1..], f)
  }

  function Kept<R, P>(row: R, f: R -> Option<P>): (s: seq<P>)
    ensures |s| <= 1
  {
    match f(row)
    case Some(p) => [p]
    case None => []
  }

  /** Streams of consecutive parts of a dataset concatenate. */
  lemma {:induction false} StreamAppend<R, P>(a: seq<R>, b: seq<R>, f: R -> Option<P>)
    ensures Stream(a + b, f) == Stream(a, f) + Stream(b, f)
    decreases |a|
  {
    if a != [] {
      assert (a + b)[0] == a[0];
      assert (a + b)[1..] == a[1..] + b;
      StreamAppend(a[1..], b, f);
      calc {
        Stream(a + b, f);
        Kept(a[0], f) + Stream(a[1..] + b, f);
        Kept(a[0], f) + (Stream(a[1..], f) + Stream(b, f));
        (Kept(a[0], f) + Stream(a[1..], f)) + Stream(b, f);
      }
    } else {
      assert a + b == b;
    }
  }

  /** Every row of a stream comes from a row of the dataset, mapped. */
  lemma {:induction false} StreamFromRows<R, P>(rows: seq<R>, f: R -> Option<P>, k: nat)
    requires k < |Stream(rows, f)|
    ensures exists j :: 0 <= j < |rows| && f(rows[j]) == Some(Stream(rows, f)[k])
    decreases |rows|
  {
    assert Stream(rows, f) == Kept(rows[0], f) + Stream(rows[1..], f);
    match f(rows[0])
    case None =>
      StreamFromRows(rows[1..], f, k);
      var j :| 0 <= j < |rows[1..]| && f(rows[1..][j]) == Some(Stream(rows[1..], f)[k]);
      assert f(rows[j + 1]) == Some(Stream(rows, f)[k]);
    case Some(p) =>
      if k == 0 {
        assert f(rows[0]) == Some(Stream(rows, f)[k]);
      } else {
        StreamFromRows(rows[1..], f, k - 1);
        var j :| 0 <= j < |rows[1..]| && f(rows[1..][j]) == Some(Stream(rows[1..], f)[k - 1]);
        assert f(rows[j + 1]) == Some(Stream(rows, f)[k]);
      }
  }

  predicate IsEvalName(key: string)
  {
    key == AnthropicHhRlhf || key == StanfordShp || key == OpenaiWebgptComparisons
  }

  /** What a reload gives for `key`: only the three evaluation datasets are
      reloaded, any other exhausted iterator stays exhausted. */
  function Reload<T>(key: string, reloaded: seq<T>): (d: seq<T>)
    ensures !IsEvalName(key) ==> d == []
  {
    if IsEvalName(key) then reloaded else []
  }

  /** One `next` on an iterator holding `rest`, which is replaced by a
      fresh iterator over `d` once exhausted: the item and what remains;
      `None` when `d` is empty too. */
  function Step<T>(rest: seq<T>, d: seq<T>): (r: Option<(T, seq<T>)>)
    ensures r.None? <==> rest == [] && d == []
  {
    if rest != [] then Some((rest[0], rest[1..]))
    else if d != [] then Some((d[0], d[1..]))
    else None
  }

  /** `n` calls of `next_circular` on one key: the items drawn and what
      the iterator then holds; `None` when one of them raises. */
  function Draw<T>(rest: seq<T>, d: seq<T>, n: nat): (r: Option<(seq<T>, seq<T>)>)
    ensures r.Some? ==> |r.value.0| == n
    decreases n
  {
    if n == 0 then Some(([], rest))
    else match Step(rest, d)
      case None => None
      case Some((x, rest')) => Prepend([x], Draw(rest', d, n - 1))
  }

  function Prepend<T>(xs: seq<T>, r: Option<(seq<T>, seq<T>)>): (p: Option<(seq<T>, seq<T>)>)
    ensures p.Some? <==> r.Some?
    ensures p.Some? ==> p.value.0 == xs + r.value.0 && p.value.1 == r.value.1
  {
    match r
    case None => None
    case Some((items, rest)) => Some((xs + items, rest))
  }

  /** Drawing on after a first step is drawing one more from the start. */
  lemma DrawStep<T>(rest: seq<T>, d: seq<T>, n: nat, x: T, rest': seq<T>)
    requires Step(rest, d) == Some((x, rest'))
    ensures Draw(rest, d, n + 1) == Prepend([x], Draw(rest', d, n))
  {
  }

  lemma PrependNil<T>(r: Option<(seq<T>, seq<T>)>)
    ensures Prepend([], r) == r
  {
    if r.Some? {
      assert [] + r.value.0 == r.value.0;
    }
  }

  lemma PrependPrepend<T>(xs: seq<T>, ys: seq<T>, r: Option<(seq<T>, seq<T>)>)
    ensures Prepend(xs, Prepend(ys, r)) == Prepend(xs + ys, r)
  {
    if r.Some? {
      assert xs + (ys + r.value.0) == (xs + ys) + r.value.0;
    }
  }

  /** Without a reload, `n` draws are the next `n` items in order, and they
      fail exactly when fewer than `n` remain. */
  lemma {:induction false} DrawWithoutReload<T>(rest: seq<T>, n: nat)
    ensures Draw(rest, [], n).Some? <==> n <= |rest|
    ensures n <= |rest| ==> Draw(rest, [], n) == Some((rest[..n], rest[n..]))
    decreases n
  {
    if n > 0 && rest != [] {
      DrawWithoutReload(rest[1..], n - 1);
      if n <= |rest| {
        assert [rest[0]] + rest[1..][..n - 1] == rest[..n];
        assert rest[1..][n - 1..] == rest[n..];
      }
    }
  }

  /** With a non-empty reload, draws never fail, and the dataset goes
      round: after what remains come the reloaded items in order, and from
      then on they repeat, each `|d|` draws later. */
  lemma {:induction false} DrawCircular<T>(rest: seq<T>, d: seq<T>, n: nat)
    requires d != []
    ensures Draw(rest, d, n).Some?
    ensures Circular(Draw(rest, d, n).value.0, rest, d)
    decreases n
  {
    if n > 0 {
      var next := if rest != [] then rest[1..] else d[1..];
      DrawCircular(next, d, n - 1);
      var items := Draw(rest, d, n).value.0;
      var items' := Draw(next, d, n - 1).value.0;
      assert items == [items[0]] + items';
      if rest != [] {
        CircularFromRest(items, items', rest, d);
      } else {
        CircularFromReload(items, items', d);
      }
    }
  }

  /** `items` are what remained of `rest`, then the items of `d` in order,
      repeating with period `|d|`. */
  ghost predicate Circular<T>(items: seq<T>, rest: seq<T>, d: seq<T>)
  {
    && (forall i :: 0 <= i < |items| && i < |rest| ==> items[i] == rest[i])
    && (forall i :: |rest| <= i < |items| && i < |rest| + |d| ==> items[i] == d[i - |rest|])
    && (forall i :: |rest| + |d| <= i < |items| ==> items[i] == items[i - |d|])
  }

  /** `x` is what some row of the dataset maps to. */
  ghost predicate FromRows<R, P>(x: P, rows: seq<R>, f: R -> Option<P>)
  {
    exists j :: 0 <= j < |rows| && f(rows[j]) == Some(x)
  }

  lemma {:induction false} CircularItemFromRows<R, P>(items: seq<P>, rest: seq<P>, rows: seq<R>, f: R -> Option<P>, i: nat)
    requires Stream(rows, f) != [] && Circular(items, rest, Stream(rows, f))
    requires forall k :: 0 <= k < |rest| ==> FromRows(rest[k], rows, f)
    requires i < |items|
    ensures FromRows(items[i], rows, f)
    decreases i
  {
    var d := Stream(rows, f);
    if i < |rest| {
    } else if i < |rest| + |d| {
      StreamFromRows(rows, f, i - |rest|);
    } else {
      CircularItemFromRows(items, rest, rows, f, i - |d|);
    }
  }

  /** When a dataset's reload is the stream of its rows and its iterator
      holds only mapped rows, as any part of that stream does, every item
      drawn from it going round (as `get_batch` does) is a mapped row: a
      tied SHP or WebGPT comparison never reaches a batch. */
  lemma BatchFromRows<R, P>(items: seq<P>, rest: seq<P>, rows: seq<R>, f: R -> Option<P>)
    requires Stream(rows, f) != [] && Circular(items, rest, Stream(rows, f))
    requires forall k :: 0 <= k < |rest| ==> FromRows(rest[k], rows, f)
    ensures forall i :: 0 <= i < |items| ==> FromRows(items[i], rows, f)
  {
    forall i | 0 <= i < |items|
      ensures FromRows(items[i], rows, f)
    {
      CircularItemFromRows(items, rest, rows, f, i);
    }
  }

  /** What remains of a stream after `n` items holds only mapped rows. */
  lemma StreamSuffixFromRows<R, P>(rows: seq<R>, f: R -> Option<P>, n: nat)
    requires n <= |Stream(rows, f)|
    ensures forall k :: 0 <= k < |Stream(rows, f)[n..]| ==> FromRows(Stream(rows, f)[n..][k], rows, f)
  {
    forall k | 0 <= k < |Stream(rows, f)[n..]|
      ensures FromRows(Stream(rows, f)[n..][k], rows, f)
    {
      StreamFromRows(rows, f, n + k);
    }
  }

  lemma CircularFromRest<T>(items: seq<T>, items': seq<T>, rest: seq<T>, d: seq<T>)
    requires rest != [] && items == [rest[0]] + items'
    requires Circular(items', rest[1..], d)
    ensures Circular(items, rest, d)
  {
    forall i | |rest| + |d| <= i < |items|
      ensures items[i] == items[i - |d|]
    {
      assert items[i] == items'[i - 1];
    }
  }

  lemma CircularFromReload<T>(items: seq<T>, items': seq<T>, d: seq<T>)
    requires d != [] && items == [d[0]] + items'
    requires Circular(items', d[1..], d)
    ensures Circular(items, [], d)
  {
    forall i | 0 <= i < |items| && i < |d|
      ensures items[i] == d[i]
    {
      if i > 0 {
        assert items[i] == items'[i - 1];
      }
    }
    forall i | |d| <= i < |items|
      ensures items[i] == items[i - |d|]
    {
      assert items[i] == items'[i - 1];
      if i < 2 * |d| {
        assert items'[i - 1] == d[i - |d|];
      } else {
        assert items'[i - 1] == items'[i - 1 - |d|];
      }
    }
  }

  /** The live iterators of one module-level dict (`eval_datasets` or
      `seed_datasets`): for each key, the rows its iterator has not
      yielded yet. */
  class IteratorDict<T> {
    var remaining: map<string, seq<T>>

    constructor (datasets: map<string, seq<T>>)
      ensures remaining == datasets
    {
      remaining := datasets;
    }
  }

  /** `next_circular`: the next item of `key`'s iterator; an exhausted
      evaluation iterator is replaced by a fresh one over `reloaded` and
      that one's first item is returned. Exhaustion of any other key, or
      of the reload, raises `StopIteration`; a missing key `KeyError`. */
  method NextCircular<T>(dict: IteratorDict<T>, key: string, reloaded: seq<T>) returns (r: Result<T, DatasetError>)
    modifies dict
    ensures key !in old(dict.remaining) ==> r == Err(KeyError) && dict.remaining == old(dict.remaining)
    ensures key in old(dict.remaining) ==>
      match Step(old(dict.remaining)[key], Reload(key, reloaded))
      case Some((x, rest)) => r == Ok(x) && dict.remaining == old(dict.remaining)[key := rest]
      case None => r == Err(StopIteration) && dict.remaining == old(dict.remaining)[key := []]
  {
    if key !in dict.remaining {
      return Err(KeyError);
    }
    var it := dict.remaining[key];
    if it != [] {
      dict.remaining := dict.remaining[key := it[1..]];
      return Ok(it[0]);
    }
    if IsEvalName(key) {
      dict.remaining := dict.remaining[key := reloaded];
    }
    it := dict.remaining[key];
    if it == [] {
      return Err(StopIteration);
    }
    dict.remaining := dict.remaining[key := it[1..]];
    return Ok(it[0]);
  }

  /** `n` calls of `next_circular` on `key` in a list comprehension: the
      first exception ends it and propagates. */
  method DrawMany<T>(dict: IteratorDict<T>, key: string, reloaded: seq<T>, n: nat) returns (r: Result<seq<T>, DatasetError>)
    modifies dict
    ensures key !in old(dict.remaining) ==>
      dict.remaining == old(dict.remaining) && r == if n == 0 then Ok([]) else Err(KeyError)
    ensures key in old(dict.remaining) ==>
      match Draw(old(dict.remaining)[key], Reload(key, reloaded), n)
      case Some((items, rest)) => r == Ok(items) && dict.remaining == old(dict.remaining)[key := rest]
      case None => r == Err(StopIteration) && dict.remaining == old(dict.remaining)[key := []]
  {
    ghost var d := Reload(key, reloaded);
    var items := [];
    var i := 0;
    if key in dict.remaining {
      PrependNil(Draw(dict.remaining[key], d, n));
    }
    while i < n
      invariant 0 <= i <= n && |items| == i
      invariant key !in old(dict.remaining) ==> i == 0 && dict.remaining == old(dict.remaining)
      invariant key in old(dict.remaining) ==>
        && key in dict.remaining
        && dict.remaining == old(dict.remaining)[key := dict.remaining[key]]
        && Draw(old(dict.remaining)[key], d, n) == Prepend(items, Draw(dict.remaining[key], d, n - i))
    {
      ghost var before := if key in dict.remaining then dict.remaining[key] else [];
      var x := NextCircular(dict, key, reloaded);
      if x.Err? {
        return Err(x.error);
      }
      DrawStep(before, d, n - i - 1, x.value, dict.remaining[key]);
      PrependPrepend(items, [x.value], Draw(dict.remaining[key], d, n - i - 1));
      items := items + [x.value];
      i := i + 1;
    }
    assert items + [] == items;
    return Ok(items);
  }

  const BatchSize := 32

  /** The dataset `random.choice` picks from the keys of `eval_datasets`. */
  function BatchKey(pick: nat): (key: string)
    ensures IsEvalName(key)
  {
    EvalNames[pick % |EvalNames|]
  }

  /** `EvalDatasetManager.get_batch`: 32 items, all from the evaluation
      dataset `random.choice` picks, taken in order and going round when a
      dataset runs out; only that dataset's iterator moves. */
  method GetBatch<T>(evalDatasets: IteratorDict<T>, pick: nat, reloaded: seq<T>) returns (r: Result<seq<T>, DatasetError>)
    modifies evalDatasets
    ensures evalDatasets.remaining.Keys == old(evalDatasets.remaining).Keys
    ensures forall k :: k in old(evalDatasets.remaining) && k != BatchKey(pick) ==>
      evalDatasets.remaining[k] == old(evalDatasets.remaining)[k]
    ensures BatchKey(pick) !in old(evalDatasets.remaining) ==> r == Err(KeyError)
    ensures BatchKey(pick) in old(evalDatasets.remaining) ==>
      var rest := old(evalDatasets.remaining)[BatchKey(pick)];
      && (reloaded == [] ==> (r.Ok? <==> BatchSize <= |rest|) && (r.Ok? ==> r.value == rest[..BatchSize]))
      && (reloaded != [] ==> r.Ok? && |r.value| == BatchSize && Circular(r.value, rest, reloaded))
  {
    var key := BatchKey(pick);
    assert Reload(key, reloaded) == reloaded;
    if key in evalDatasets.remaining {
      var rest := evalDatasets.remaining[key];
      if reloaded != [] {
        DrawCircular(rest, reloaded, BatchSize);
      } else {
        DrawWithoutReload(rest, BatchSize);
      }
    }
    r := DrawMany(evalDatasets, key, reloaded, BatchSize);
  }

  function Texts(rows: seq<PromptRow>): (ts: seq<string>)
    ensures |ts| == |rows| && forall i :: 0 <= i < |rows| ==> ts[i] == rows[i].text
  {
    seq(|rows|, i requires 0 <= i < |rows| => rows[i].text)
  }

  /** `SeedDataManager.get_prompts`: the texts of the next `n` seed prompts
      in iterator order. The seed iterator is not reloaded, so fewer than
      `n` remaining prompts end in `StopIteration`. */
  method GetPrompts(seedDatasets: IteratorDict<PromptRow>, n: nat) returns (r: Result<seq<string>, DatasetError>)
    modifies seedDatasets
    ensures AllOasstPrompts in old(seedDatasets.remaining) ==>
      var rest := old(seedDatasets.remaining)[AllOasstPrompts];
      && (n <= |rest| ==> r == Ok(Texts(rest[..n])) && seedDatasets.remaining == old(seedDatasets.remaining)[AllOasstPrompts := rest[n..]])
      && (n > |rest| ==> r == Err(StopIteration) && seedDatasets.remaining == old(seedDatasets.remaining)[AllOasstPrompts := []])
    ensures AllOasstPrompts !in old(seedDatasets.remaining) ==>
      seedDatasets.remaining == old(seedDatasets.remaining) && r == if n == 0 then Ok([]) else Err(KeyError)
  {
    if AllOasstPrompts in seedDatasets.remaining {
      DrawWithoutReload(seedDatasets.remaining[AllOasstPrompts], n);
    }
    var rows := DrawMany(seedDatasets, AllOasstPrompts, [], n);
    if rows.Err? {
      return Err(rows.error);
    }
    return Ok(Texts(rows.value));
  }
}
