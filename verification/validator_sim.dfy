/** The validator simulator's fan-out (simulator/validator.py): the same
    request goes to every miner, in batches of ten, and the replies are
    collected in miner order. The dendrite is a parameter giving each
    miner's reply; every `forward` call is recorded with its arguments. */
module ValidatorSim {

  const BatchSize := 10
  const ForwardTimeout := 12

  /** One `dendrite.forward(axons=[axon], synapse=..., deserialize=..., timeout=...)`. */
  datatype ForwardCall<A, S> = ForwardCall(axons: seq<A>, synapse: S, deserialize: bool, timeout: int)

  /** The calls for a run of miners, one each, in order. */
  function CallsFor<A, S>(axons: seq<A>, synapse: S): (calls: seq<ForwardCall<A, S>>)
    ensures |calls| == |axons|
    ensures forall k :: 0 <= k < |axons| ==> calls[k] == ForwardCall([axons[k]], synapse, false, ForwardTimeout)
  {
    seq(|axons|, k requires 0 <= k < |axons| => ForwardCall([axons[k]], synapse, false, ForwardTimeout))
  }

  /** Each miner's reply list, in miner order. */
  function Replies<A, R>(axons: seq<A>, reply: A -> seq<R>): (rs: seq<seq<R>>)
    ensures |rs| == |axons|
  {
    seq(|axons|, k requires 0 <= k < |axons| => reply(axons[k]))
  }

  /** The reply lists one after another. */
  function Flatten<R>(xss: seq<seq<R>>): (xs: seq<R>)
  {
    if xss == [] then [] else xss[0] + Flatten(xss[1..])
  }

  lemma {:induction false} FlattenAppend<R>(a: seq<seq<R>>, b: seq<seq<R>>)
    ensures Flatten(a + b) == Flatten(a) + Flatten(b)
    decreases |a|
  {
    if a == [] {
      assert a + b == b;
    } else {
      assert (a + b)[1..] == a[1..] + b;
      FlattenAppend(a[1..], b);
    }
  }

  /** Flattening keeps every reply, in order: its length is the sum of
      the reply counts. */
  function TotalLength<R>(xss: seq<seq<R>>): nat
  {
    if xss == [] then 0 else |xss[0]| + TotalLength(xss[1..])
  }

  lemma {:induction false} FlattenLength<R>(xss: seq<seq<R>>)
    ensures |Flatten(xss)| == TotalLength(xss)
    decreases |xss|
  {
    if xss != [] {
      FlattenLength(xss[1..]);
    }
  }

  /** The number of batches `range(0, n, 10)` gives. */
  function BatchCount(n: nat): (c: nat)
  {
    (n + BatchSize - 1) / BatchSize
  }

  /** The total the progress log prints, `(n - 1) // 10 + 1`, is the number
      of batches whenever there is one; with no miner nothing is logged. */
  lemma LoggedTotal(n: nat)
    requires n > 0
    ensures (n - 1) / BatchSize + 1 == BatchCount(n)
    ensures BatchCount(n) * BatchSize >= n > (BatchCount(n) - 1) * BatchSize
  {
  }

  /** One more batch from a batch boundary `i`. */
  lemma BatchStep(i: nat, end: nat, n: nat)
    requires i < n && i % BatchSize == 0
    requires end == if i + BatchSize < n then i + BatchSize else n
    ensures i / BatchSize == BatchCount(i)
    ensures BatchCount(end) == BatchCount(i) + 1
    ensures end == n || end % BatchSize == 0
  {
  }

  lemma CallsAppend<A, S>(a: seq<A>, b: seq<A>, synapse: S)
    ensures CallsFor(a + b, synapse) == CallsFor(a, synapse) + CallsFor(b, synapse)
  {
  }

  lemma RepliesAppend<A, R>(a: seq<A>, b: seq<A>, reply: A -> seq<R>)
    ensures Replies(a + b, reply) == Replies(a, reply) + Replies(b, reply)
  {
  }

  /** The calls and replies up to `i`, followed by those of the batch from
      `i` to `end`, are the calls and replies up to `end`. */
  lemma ExtendBatch<A, S, R>(axons: seq<A>, i: nat, end: nat, synapse: S, reply: A -> seq<R>, batchResponses: seq<seq<R>>)
    requires i <= end <= |axons|
    requires batchResponses == Replies(axons[i..end], reply)
    ensures CallsFor(axons[..i], synapse) + CallsFor(axons[i..end], synapse) == CallsFor(axons[..end], synapse)
    ensures Flatten(Replies(axons[..i], reply)) + Flatten(batchResponses) == Flatten(Replies(axons[..end], reply))
  {
    assert axons[..end] == axons[..i] + axons[i..end];
    CallsAppend(axons[..i], axons[i..end], synapse);
    RepliesAppend(axons[..i], axons[i..end], reply);
    FlattenAppend(Replies(axons[..i], reply), batchResponses);
  }

  /** The inner loop: one `forward` per miner of the batch, awaited
      together. */
  method ForwardBatch<A, S, R>(batchAxons: seq<A>, synapse: S, reply: A -> seq<R>)
    returns (calls: seq<ForwardCall<A, S>>, batchResponses: seq<seq<R>>)
    ensures calls == CallsFor(batchAxons, synapse)
    ensures batchResponses == Replies(batchAxons, reply)
  {
    calls := [];
    batchResponses := [];
    var j := 0;
    while j < |batchAxons|
      invariant j <= |batchAxons|
      invariant calls == CallsFor(batchAxons[..j], synapse)
      invariant batchResponses == Replies(batchAxons[..j], reply)
    {
      calls := calls + [ForwardCall([batchAxons[j]], synapse, false, ForwardTimeout)];
      batchResponses := batchResponses + [reply(batchAxons[j])];
      j := j + 1;
    }
    assert batchAxons[..j] == batchAxons;
  }

  /** `_send_shuffled_requests`: every miner is sent the same request
      exactly once, in miner order, with `deserialize=False` and a 12
      second timeout; the result is every miner's replies in miner order;
      one progress line per batch of at most ten, numbered from 1 out of
      the number of batches. */
  method SendShuffledRequests<A, S, R>(axons: seq<A>, synapse: S, reply: A -> seq<R>)
    returns (all: seq<R>, calls: seq<ForwardCall<A, S>>, logged: seq<(nat, int)>)
    ensures calls == CallsFor(axons, synapse)
    ensures all == Flatten(Replies(axons, reply))
    ensures |logged| == BatchCount(|axons|)
    ensures forall b :: 0 <= b < |logged| ==> logged[b] == (b + 1, (|axons| - 1) / BatchSize + 1)
  {
    all := [];
    calls := [];
    logged := [];
    var i := 0;
    while i < |axons|
      invariant i <= |axons|
      invariant i == |axons| || i % BatchSize == 0
      invariant i == |axons| ==> |logged| == BatchCount(|axons|)
      invariant calls == CallsFor(axons[..i], synapse)
      invariant all == Flatten(Replies(axons[..i], reply))
      invariant |logged| == BatchCount(i)
      invariant forall b :: 0 <= b < |logged| ==> logged[b] == (b + 1, (|axons| - 1) / BatchSize + 1)
    {
      var end := if i + BatchSize < |axons| then i + BatchSize else |axons|;
      BatchStep(i, end, |axons|);
      var batchCalls, batchResponses := ForwardBatch(axons[i..end], synapse, reply);
      ExtendBatch(axons, i, end, synapse, reply, batchResponses);
      calls := calls + batchCalls;
      all := all + Flatten(batchResponses);
      logged := logged + [(i / BatchSize + 1, (|axons| - 1) / BatchSize + 1)];
      i := end;
    }
    assert axons[..i] == axons;
  }
}
