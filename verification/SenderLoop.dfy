/** The sender loop of the delete batcher as its code runs it: one sender flushing a closed channel. */
module SenderLoop {
  import opened Options
  import DB = DeleteBatcher

  /** A buffered channel seen by its only receiver. */
  class Channel<T> {
    var buffer: seq<T>
    var closed: bool

    constructor (buffer: seq<T>)
      ensures this.buffer == buffer && closed
    {
      this.buffer, closed := buffer, true;
    }

    /** A receive from a closed channel drains it first, then reports that it is closed. */
    method Receive() returns (v: Option<T>)
      requires closed
      modifies this
      ensures closed
      ensures v == if old(buffer) == [] then None else Some(old(buffer)[0])
      ensures buffer == if old(buffer) == [] then [] else old(buffer)[1..]
    {
      if buffer == [] {
        return None;
      }
      v := Some(buffer[0]);
      buffer := buffer[1..];
    }
  }

  /** Every batch but the last is full, and none is empty or over the limit. */
  ghost predicate Packed<T>(batches: seq<seq<T>>) {
    && (forall j :: 0 <= j < |batches| ==> 1 <= |batches[j]| <= DB.MAX_DELETE_BATCH)
    && (forall j :: 0 <= j < |batches| - 1 ==> |batches[j]| == DB.MAX_DELETE_BATCH)
  }

  /** As few requests as the limit allows. */
  lemma {:induction false} PackedCount<T>(batches: seq<seq<T>>)
    requires Packed(batches)
    ensures |batches| == DB.CeilTenth(|DB.Flatten(batches)|)
  {
    if batches != [] {
      PackedSize(batches[..|batches| - 1]);
    }
  }

  lemma {:induction false} PackedSize<T>(batches: seq<seq<T>>)
    requires forall j :: 0 <= j < |batches| ==> |batches[j]| == DB.MAX_DELETE_BATCH
    ensures |DB.Flatten(batches)| == DB.MAX_DELETE_BATCH * |batches|
  {
    if batches != [] {
      PackedSize(batches[..|batches| - 1]);
    }
  }

  /** The opportunistic drain: more handles for the batch, until it is full or none is ready. */
  method Drain<T>(ch: Channel<T>, first: T) returns (batch: seq<T>)
    requires ch.closed
    modifies ch
    ensures ch.closed
    ensures batch + ch.buffer == [first] + old(ch.buffer)
    ensures 1 <= |batch| <= DB.MAX_DELETE_BATCH
    ensures |batch| == DB.MAX_DELETE_BATCH || ch.buffer == []
  {
    batch := [first];
    while |batch| < DB.MAX_DELETE_BATCH
      invariant ch.closed && 1 <= |batch| <= DB.MAX_DELETE_BATCH
      invariant batch + ch.buffer == [first] + old(ch.buffer)
    {
      var h := ch.Receive();
      if h.None? {
        break;
      }
      batch := batch + [h.value];
    }
  }

  /** run, with no other sender: the handles go out in order, in as few requests as the limit allows. */
  method Run<T>(ch: Channel<T>) returns (requests: seq<seq<T>>)
    requires ch.closed
    modifies ch
    ensures ch.buffer == []
    ensures DB.Flatten(requests) == old(ch.buffer)
    ensures Packed(requests) && |requests| == DB.CeilTenth(|old(ch.buffer)|)
  {
    requests := [];
    while true
      invariant ch.closed
      invariant DB.Flatten(requests) + ch.buffer == old(ch.buffer)
      invariant forall j :: 0 <= j < |requests| ==> 1 <= |requests[j]| <= DB.MAX_DELETE_BATCH
      invariant forall j :: 0 <= j < |requests| && (j < |requests| - 1 || ch.buffer != []) ==>
                  |requests[j]| == DB.MAX_DELETE_BATCH
      decreases |ch.buffer|
    {
      ghost var before := ch.buffer;
      var first := ch.Receive();
      if first.None? {
        break;
      }
      var batch := Drain(ch, first.value);
      assert before == [first.value] + before[1..];
      assert (requests + [batch])[..|requests|] == requests;
      assert DB.Flatten(requests) + batch + ch.buffer == DB.Flatten(requests) + (batch + ch.buffer);
      requests := requests + [batch];
    }
    PackedCount(requests);
  }
}
