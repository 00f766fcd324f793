/** The queue of late causes over every run: who is in it, who is evicted, and where a cause lands. */
module Late {
  import opened Basics
  import opened Crypto
  import opened Schema
  import opened Sessions
  import opened Routing
  import opened Lifecycle
  import opened Pool
  import opened Journal
  import opened Causes
  import opened Stasis
  import opened Calls
  import opened CallSteps

  function StampAt(s: System, i: nat): int
    requires i < |s.pending|
  {
    var p := s.pending[i];
    if p.channel in s.states && s.states[p.channel].stamp.Some? then s.states[p.channel].stamp.value else 0
  }

  /** Entries are in the order they were put, and no entry younger than the limit is missing. */
  ghost predicate QueueInv(s: System) {
    && |s.pending| <= PENDING_CAUSE_LIMIT
    && QueueOk(s)
    && (forall i, j :: 0 <= i < j < |s.pending| ==> StampAt(s, i) < StampAt(s, j))
    && (forall n :: n in s.states ==> Younger(s, n))
  }

  predicate Younger(s: System, n: nat)
    requires n in s.states
  {
    var st := s.states[n];
    st.stamp.Some? ==>
      && st.stamp.value < s.puts
      && (!st.popped && s.puts <= st.stamp.value + PENDING_CAUSE_LIMIT ==> Pending(n, st.call) in s.pending)
  }

  /** Nothing the queue depends on changed. */
  ghost predicate Quiet(s: System, t: System) {
    && t.pending == s.pending && t.puts == s.puts
    && (forall n :: n in s.states ==>
          n in t.states && t.states[n].call == s.states[n].call && t.states[n].stamp == s.states[n].stamp
          && t.states[n].popped == s.states[n].popped)
    && (forall n :: n in t.states && n !in s.states ==> t.states[n].stamp.None?)
  }

  lemma QuietKeeps(s: System, t: System)
    requires QueueInv(s) && Quiet(s, t)
    ensures QueueInv(t)
  {
    forall i | 0 <= i < |t.pending| ensures Waiting(t, t.pending[i]) && StampAt(t, i) == StampAt(s, i) {
      assert Waiting(s, s.pending[i]);
    }
    forall n | n in t.states ensures Younger(t, n) {
      if n in s.states { assert Younger(s, n); }
    }
  }

  // ---- Putting --------------------------------------------------------------------------------

  lemma {:induction false} StampGap(s: System, i: nat, j: nat)
    requires i <= j < |s.pending|
    requires forall i, j :: 0 <= i < j < |s.pending| ==> StampAt(s, i) < StampAt(s, j)
    ensures StampAt(s, i) + (j - i) <= StampAt(s, j)
    decreases j - i
  {
    if i < j { StampGap(s, i, j - 1); }
  }

  lemma LastStamp(s: System, i: nat)
    requires QueueInv(s) && i < |s.pending|
    ensures StampAt(s, i) + (|s.pending| - i) <= s.puts
  {
    var last := |s.pending| - 1;
    assert Waiting(s, s.pending[last]);
    assert Younger(s, s.pending[last].channel);
    StampGap(s, i, last);
  }

  lemma ForgetKeepsQueue(s: System, n: nat)
    requires AllOk(s) && QueueInv(s)
    ensures QueueInv(StepForget(s, n))
  {
    var t := StepForget(s, n);
    if t != s {
      assert Tracked(s, n);
      if s.states[n].teardown.cause.None? {
        NotQueued(s, n);
        PutKeepsQueue(s, t, n);
      } else {
        QuietKeeps(s, t);
      }
    }
  }

  /** A call still being torn down is not in the queue. */
  lemma NotQueued(s: System, n: nat)
    requires QueueInv(s) && n in s.states && s.states[n].stamp.None?
    ensures Find(s.pending, n) == |s.pending|
  {
    forall i | 0 <= i < |s.pending| ensures s.pending[i].channel != n { assert Waiting(s, s.pending[i]); }
  }

  lemma PutKeepsQueue(s: System, t: System, n: nat)
    requires QueueInv(s) && n in s.states && s.states[n].stamp.None? && !s.states[n].popped
    requires Find(s.pending, n) == |s.pending|
    requires t.pending == Enqueued(s.pending, Pending(n, s.states[n].call)) && t.puts == s.puts + 1
    requires n in t.states && t.states == s.states[n := t.states[n]]
    requires t.states[n].call == s.states[n].call && t.states[n].stamp == Some(s.puts) && !t.states[n].popped
    ensures QueueInv(t)
  {
    var p, full := Pending(n, s.states[n].call), |s.pending| == PENDING_CAUSE_LIMIT;
    PutEvictsOldest(s.pending, p);
    var off := if full then 1 else 0;
    var last := |t.pending| - 1;
    assert t.pending[last] == p;
    forall i | 0 <= i < last ensures t.pending[i] == s.pending[i + off] && s.pending[i + off].channel != n {}
    forall i | 0 <= i < last ensures Waiting(t, t.pending[i]) && StampAt(t, i) == StampAt(s, i + off) < s.puts {
      assert Waiting(s, s.pending[i + off]);
      LastStamp(s, i + off);
    }
    assert StampAt(t, last) == s.puts;
    AllYoungerAfterPut(s, t, n, off);
  }

  lemma AllYoungerAfterPut(s: System, t: System, n: nat, off: nat)
    requires QueueInv(s) && n in s.states && n in t.states && t.states == s.states[n := t.states[n]]
    requires t.puts == s.puts + 1 && off == (if |s.pending| == PENDING_CAUSE_LIMIT then 1 else 0)
    requires off <= |s.pending| && t.pending == s.pending[off..] + [Pending(n, s.states[n].call)]
    requires t.states[n].call == s.states[n].call && t.states[n].stamp == Some(s.puts) && !t.states[n].popped
    ensures forall m :: m in t.states ==> Younger(t, m)
  {
    assert t.pending[|t.pending| - 1] == Pending(n, s.states[n].call);
    forall m | m in t.states ensures Younger(t, m) {
      if m != n { YoungerAfterPut(s, t, n, m, off); }
    }
  }

  lemma YoungerAfterPut(s: System, t: System, n: nat, m: nat, off: nat)
    requires QueueInv(s) && m in s.states && m in t.states && t.states[m] == s.states[m]
    requires t.puts == s.puts + 1 && off == (if |s.pending| == PENDING_CAUSE_LIMIT then 1 else 0)
    requires n in s.states && t.pending == s.pending[off..] + [Pending(n, s.states[n].call)]
    ensures Younger(t, m)
  {
    var st := s.states[m];
    assert Younger(s, m);
    if st.stamp.Some? && !st.popped && t.puts <= st.stamp.value + PENDING_CAUSE_LIMIT {
      var i :| 0 <= i < |s.pending| && s.pending[i] == Pending(m, st.call);
      LastStamp(s, i);
      assert StampAt(s, i) == st.stamp.value;
      assert t.pending[i - off] == s.pending[i];
    }
  }

  // ---- Popping --------------------------------------------------------------------------------

  lemma PopKeepsQueue(s: System, n: nat, cause: Option<int>)
    requires QueueInv(s)
    ensures QueueInv(StepLateCause(s, n, cause))
  {
    var t := StepLateCause(s, n, cause);
    if t != s {
      var i := Find(s.pending, n);
      assert Waiting(s, s.pending[i]);
      forall j | 0 <= j < |t.pending|
          ensures Waiting(t, t.pending[j]) && StampAt(t, j) == StampAt(s, if j < i then j else j + 1) {
        var k := if j < i then j else j + 1;
        assert t.pending[j] == s.pending[k] && Waiting(s, s.pending[k]);
        OnceQueued(s, i, k);
      }
      forall m | m in t.states ensures Younger(t, m) { YoungerAfterPop(s, n, cause, m); }
    }
  }

  lemma YoungerAfterPop(s: System, n: nat, cause: Option<int>, m: nat)
    requires QueueInv(s) && m in s.states && StepLateCause(s, n, cause) != s
    ensures Younger(StepLateCause(s, n, cause), m)
  {
    var t, i := StepLateCause(s, n, cause), Find(s.pending, n);
    assert Younger(s, m) && Waiting(s, s.pending[i]);
    if m != n && Pending(m, s.states[m].call) in s.pending {
      var k :| 0 <= k < |s.pending| && s.pending[k] == Pending(m, s.states[m].call);
      assert t.pending[if k < i then k else k - 1] == s.pending[k];
    }
  }

  lemma OnceQueued(s: System, i: nat, k: nat)
    requires QueueInv(s) && i < |s.pending| && k < |s.pending| && i != k
    ensures s.pending[i].channel != s.pending[k].channel
  {
    assert StampAt(s, i) != StampAt(s, k) by {
      if i < k { assert StampAt(s, i) < StampAt(s, k); } else { assert StampAt(s, k) < StampAt(s, i); }
    }
  }
}
