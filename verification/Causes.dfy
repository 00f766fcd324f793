/** The queue of calls closed before their hangup cause was known (`_pending_cause` in app/ari/stasis.py). */
module Causes {
  import opened Basics

  const PENDING_CAUSE_LIMIT: nat := 512

  datatype Pending = Pending(channel: nat, call: nat)

  predicate Distinct(queue: seq<Pending>) {
    forall i, j :: 0 <= i < j < |queue| ==> queue[i].channel != queue[j].channel
  }

  /** Position of a channel's entry, or the length of the queue. */
  function Find(queue: seq<Pending>, channel: nat): (i: nat)
    ensures i <= |queue|
    ensures i < |queue| ==> queue[i].channel == channel
    ensures forall j :: 0 <= j < i ==> queue[j].channel != channel
  {
    if queue == [] then 0 else if queue[0].channel == channel then 0 else 1 + Find(queue[1..], channel)
  }

  /** Assignment in an ordered dictionary, and eviction of the oldest beyond the limit. */
  function Enqueued(queue: seq<Pending>, p: Pending): (r: seq<Pending>) {
    var i := Find(queue, p.channel);
    Newest(if i < |queue| then queue[i := p] else queue + [p])
  }

  function Newest(queue: seq<Pending>): (r: seq<Pending>) {
    if |queue| > PENDING_CAUSE_LIMIT then queue[|queue| - PENDING_CAUSE_LIMIT..] else queue
  }

  /** Removal of a channel's entry, and the call it named. */
  function Dequeued(queue: seq<Pending>, channel: nat): (seq<Pending>, Option<nat>) {
    var i := Find(queue, channel);
    if i < |queue| then (queue[..i] + queue[i + 1..], Some(queue[i].call)) else (queue, None)
  }

  class PendingCauses {
    var queue: seq<Pending>

    constructor ()
      ensures queue == []
    {
      queue := [];
    }

    method Put(channel: nat, call: nat)
      modifies this
      ensures queue == Enqueued(old(queue), Pending(channel, call))
      ensures |old(queue)| <= PENDING_CAUSE_LIMIT ==> |queue| <= PENDING_CAUSE_LIMIT
    {
      var i := Find(queue, channel);
      if i < |queue| {
        queue := queue[i := Pending(channel, call)];
      } else {
        queue := queue + [Pending(channel, call)];
      }
      ghost var all := queue;
      while |queue| > PENDING_CAUSE_LIMIT
        invariant queue == all
                    || (|all| > PENDING_CAUSE_LIMIT && PENDING_CAUSE_LIMIT <= |queue| <= |all|
                        && queue == all[|all| - |queue|..])
        decreases |queue|
      {
        queue := queue[1..];
      }
    }

    method Pop(channel: nat) returns (call: Option<nat>)
      modifies this
      ensures (queue, call) == Dequeued(old(queue), channel)
    {
      var i := Find(queue, channel);
      if i == |queue| {
        return None;
      }
      call := Some(queue[i].call);
      queue := queue[..i] + queue[i + 1..];
    }
  }

  /** A new entry pushes out at most the oldest one, and nothing while there is room. */
  lemma PutEvictsOldest(queue: seq<Pending>, p: Pending)
    requires |queue| <= PENDING_CAUSE_LIMIT && Find(queue, p.channel) == |queue|
    ensures Enqueued(queue, p) == (if |queue| == PENDING_CAUSE_LIMIT then queue[1..] else queue) + [p]
    ensures |Enqueued(queue, p)| <= PENDING_CAUSE_LIMIT
  {
    if |queue| == PENDING_CAUSE_LIMIT {
      assert (queue + [p])[1..] == queue[1..] + [p];
    }
  }

  /** What is put is what is popped. */
  lemma PutThenPop(queue: seq<Pending>, p: Pending)
    requires |queue| <= PENDING_CAUSE_LIMIT && Distinct(queue) && Find(queue, p.channel) == |queue|
    ensures Dequeued(Enqueued(queue, p), p.channel).1 == Some(p.call)
    ensures |queue| < PENDING_CAUSE_LIMIT ==> Dequeued(Enqueued(queue, p), p.channel).0 == queue
  {
    PutEvictsOldest(queue, p);
    var after := Enqueued(queue, p);
    var i := Find(after, p.channel);
    var k := |after| - 1;
    assert after[k] == p;
    if |queue| < PENDING_CAUSE_LIMIT { assert after[..k] + after[k + 1..] == queue; }
  }
}
