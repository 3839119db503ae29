/**
 * What is waiting behind a continuous source's lock (src/federation/source.rs:88-193): one
 * list and one flag, and the two things done to them under it.
 */
module Buffers {

  datatype Buffer<T> = Buffer(pending: seq<T>, stopped: bool) {
    /** A delivery: queued at the back, or declined once the source is stopped. */
    function Offered(batch: seq<T>): Buffer<T> {
      if stopped then this else this.(pending := pending + batch)
    }

    /** A drain, or with it the finish: everything pending leaves. */
    function Taken(finishing: bool): Buffer<T> {
      Buffer([], stopped || finishing)
    }
  }

  function OfferAll<T>(b: Buffer<T>, batches: seq<seq<T>>): Buffer<T> {
    if batches == [] then b else OfferAll(b, batches[..|batches| - 1]).Offered(batches[|batches| - 1])
  }

  function Flat<T>(batches: seq<seq<T>>): seq<T> {
    if batches == [] then [] else Flat(batches[..|batches| - 1]) + batches[|batches| - 1]
  }

  /** While the source runs every batch is queued, in order; once it is stopped none is. */
  lemma {:induction false} OfferedAreQueued<T>(b: Buffer<T>, batches: seq<seq<T>>)
    ensures OfferAll(b, batches) == if b.stopped then b else b.(pending := b.pending + Flat(batches))
  {
    if batches == [] {
      assert b.pending + [] == b.pending;
    } else {
      OfferedAreQueued(b, batches[..|batches| - 1]);
      assert b.pending + Flat(batches[..|batches| - 1]) + batches[|batches| - 1] == b.pending + Flat(batches);
    }
  }
}
