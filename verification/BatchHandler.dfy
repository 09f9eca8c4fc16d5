/** `BatchHandler`: buffers items and ships them in batches; leaving the context ships the remainder. */
module BatchHandling {

  function Flatten<T>(batches: seq<seq<T>>): seq<T> {
    if batches == [] then [] else batches[0] + Flatten(batches[1..])
  }

  lemma {:induction false} FlattenCons<T>(batch: seq<T>, batches: seq<seq<T>>)
    ensures Flatten([batch] + batches) == batch + Flatten(batches)
  {
    assert ([batch] + batches)[1..] == batches;
  }

  lemma {:induction false} FlattenSnoc<T>(batches: seq<seq<T>>, batch: seq<T>)
    ensures Flatten(batches + [batch]) == Flatten(batches) + batch
  {
    if batches == [] {
      assert [batch][1..] == [] && [] + [batch] == [batch];
    } else {
      assert (batches + [batch])[1..] == batches[1..] + [batch];
      FlattenSnoc(batches[1..], batch);
    }
  }

  lemma {:induction false} FlattenConcat<T>(s: seq<seq<T>>, t: seq<seq<T>>)
    ensures Flatten(s + t) == Flatten(s) + Flatten(t)
  {
    if s == [] {
      assert s + t == t;
    } else {
      assert (s + t)[1..] == s[1..] + t;
      FlattenConcat(s[1..], t);
    }
  }

  lemma {:induction false} FlattenSplit<T>(batches: seq<seq<T>>, i: nat)
    requires i <= |batches|
    ensures Flatten(batches) == Flatten(batches[..i]) + Flatten(batches[i..])
  {
    var head, tail := batches[..i], batches[i..];
    assert batches == head + tail;
    FlattenConcat(head, tail);
  }

  lemma FlattenNext<T>(batches: seq<seq<T>>, i: nat)
    requires i < |batches|
    ensures Flatten(batches[..i + 1]) == Flatten(batches[..i]) + batches[i]
  {
    FlattenSnoc(batches[..i], batches[i]);
    assert batches[..i] + [batches[i]] == batches[..i + 1];
  }

  /** Cutting items into batches of `k`, the last one possibly shorter. */
  function Chunks<T>(items: seq<T>, k: nat): seq<seq<T>>
    requires k > 0
  {
    if items == [] then [] else if |items| <= k then [items] else [items[..k]] + Chunks(items[k..], k)
  }

  /** The batches shipped while adding, and what is left in the buffer. */
  function FullChunks<T>(items: seq<T>, k: nat): seq<seq<T>>
    requires k > 0
  {
    if |items| < k then [] else [items[..k]] + FullChunks(items[k..], k)
  }

  function Rest<T>(items: seq<T>, k: nat): (r: seq<T>)
    requires k > 0
    ensures |r| < k
  {
    if |items| < k then items else Rest(items[k..], k)
  }

  lemma {:induction false} ChunksAreFullChunksAndRest<T>(items: seq<T>, k: nat)
    requires k > 0
    ensures Chunks(items, k) == FullChunks(items, k) + (if Rest(items, k) == [] then [] else [Rest(items, k)])
    decreases |items|
  {
    if |items| >= k {
      ChunksAreFullChunksAndRest(items[k..], k);
      if |items| == k { assert items[..k] == items; }
    }
  }

  lemma {:induction false} OneMore<T>(items: seq<T>, x: T, k: nat)
    requires k > 0
    ensures if |Rest(items, k)| + 1 == k
            then FullChunks(items + [x], k) == FullChunks(items, k) + [Rest(items, k) + [x]] &&
                 Rest(items + [x], k) == []
            else FullChunks(items + [x], k) == FullChunks(items, k) && Rest(items + [x], k) == Rest(items, k) + [x]
    decreases |items|
  {
    var more := items + [x];
    if |items| < k {
      if |more| == k {
        assert more[..k] == more && more[k..] == [];
        assert FullChunks(more, k) == [more] + FullChunks(more[k..], k);
      }
    } else {
      assert more[..k] == items[..k] && more[k..] == items[k..] + [x];
      OneMore(items[k..], x, k);
    }
  }

  lemma {:induction false} ChunksFlatten<T>(items: seq<T>, k: nat)
    requires k > 0
    ensures Flatten(Chunks(items, k)) == items
    decreases |items|
  {
    if |items| > k {
      var head, tail := items[..k], items[k..];
      assert head + tail == items;
      ChunksFlatten(tail, k);
      FlattenCons(head, Chunks(tail, k));
    } else if items != [] {
      FlattenCons(items, []);
    }
  }

  predicate SizedBatches<T>(batches: seq<seq<T>>, k: nat) {
    forall i | 0 <= i < |batches| :: 1 <= |batches[i]| <= k && (i + 1 < |batches| ==> |batches[i]| == k)
  }

  lemma {:induction false} ChunksSizes<T>(items: seq<T>, k: nat)
    requires k > 0
    ensures SizedBatches(Chunks(items, k), k)
    decreases |items|
  {
    if |items| > k {
      ChunksSizes(items[k..], k);
      assert forall i | 0 < i < |Chunks(items, k)| :: Chunks(items, k)[i] == Chunks(items[k..], k)[i - 1];
    }
  }

  lemma {:induction false} ChunksCount<T>(items: seq<T>, k: nat)
    requires k > 0
    ensures |items| <= |Chunks(items, k)| * k < |items| + k
    decreases |items|
  {
    if |items| > k {
      ChunksCount(items[k..], k);
      assert |Chunks(items, k)| == |Chunks(items[k..], k)| + 1;
    }
  }

  /** Nothing is lost, reordered or repeated; no batch is empty or too long, only the last may be short. */
  lemma {:induction false} ChunksDeliver<T>(items: seq<T>, k: nat)
    requires k > 0
    ensures Flatten(Chunks(items, k)) == items
    ensures SizedBatches(Chunks(items, k), k)
    ensures |items| <= |Chunks(items, k)| * k < |items| + k
  {
    ChunksFlatten(items, k);
    ChunksSizes(items, k);
    ChunksCount(items, k);
  }

  class BatchHandler<T> {
    const batchSize: int
    var batch: seq<T>
    /** What the batchable was called with. */
    var shipped: seq<seq<T>>
    ghost var added: seq<T>

    constructor (batchSize: int)
      ensures Valid() && this.batchSize == batchSize && batch == [] && shipped == [] && added == []
    {
      this.batchSize, batch, shipped, added := batchSize, [], [], [];
    }

    /** A non-positive batch size ships every item on its own. */
    function Size(): (k: nat)
      ensures k > 0
    {
      if batchSize < 1 then 1 else batchSize
    }

    ghost predicate Valid()
      reads this
    {
      && |batch| < Size()
      && (forall i | 0 <= i < |shipped| :: 1 <= |shipped[i]| <= Size())
      && Flatten(shipped) + batch == added
    }

    method Execute()
      requires |batch| <= Size() && Flatten(shipped) + batch == added
      requires forall i | 0 <= i < |shipped| :: 1 <= |shipped[i]| <= Size()
      modifies this
      ensures Valid() && added == old(added) && batch == []
      ensures shipped == if old(batch) == [] then old(shipped) else old(shipped) + [old(batch)]
    {
      if batch != [] {
        FlattenSnoc(shipped, batch);
        shipped, batch := shipped + [batch], [];
      }
    }

    method Add(item: T)
      requires Valid()
      modifies this
      ensures Valid() && added == old(added) + [item]
      ensures if |old(batch)| + 1 == Size() then shipped == old(shipped) + [old(batch) + [item]] && batch == []
              else shipped == old(shipped) && batch == old(batch) + [item]
    {
      assert Flatten(shipped) + (batch + [item]) == added + [item];
      batch, added := batch + [item], added + [item];
      if |batch| >= batchSize {
        Execute();
      }
    }
  }

  /** The `with BatchHandler(...)` block: every item is added, then the context is left. */
  method DeliverAll<T>(items: seq<T>, batchSize: int) returns (shipped: seq<seq<T>>)
    ensures shipped == Chunks(items, if batchSize < 1 then 1 else batchSize)
  {
    var handler := new BatchHandler<T>(batchSize);
    ghost var k := handler.Size();
    var i := 0;
    while i < |items|
      invariant 0 <= i <= |items| && handler.Valid() && handler.Size() == k
      invariant handler.shipped == FullChunks(items[..i], k)
      invariant handler.batch == Rest(items[..i], k)
    {
      assert items[..i + 1] == items[..i] + [items[i]];
      AddOne(handler, items[..i], items[i]);
      i := i + 1;
    }
    assert items[..|items|] == items;
    ChunksAreFullChunksAndRest(items, k);
    handler.Execute();
    shipped := handler.shipped;
  }

  method AddOne<T>(handler: BatchHandler<T>, ghost before: seq<T>, item: T)
    requires handler.Valid()
    requires handler.shipped == FullChunks(before, handler.Size()) && handler.batch == Rest(before, handler.Size())
    modifies handler
    ensures handler.Valid()
    ensures handler.shipped == FullChunks(before + [item], handler.Size())
    ensures handler.batch == Rest(before + [item], handler.Size())
  {
    OneMore(before, item, handler.Size());
    handler.Add(item);
  }
}
