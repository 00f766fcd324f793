/**
 DTMF digit collection (app/ari/dtmf.py).

 The queue holds the presses of the channel with their arrival times, in arrival order; a press
 not yet arrived is one the event pump has still to feed. A press arriving at the very instant
 its timer runs out is taken as received. Keys are single ASCII characters.
 */
module Dtmf {
  import opened Basics

  datatype Press = Press(at: int, key: char)

  datatype CollectResult = CollectResult(digits: string, timedOut: bool, submitted: bool)

  function Keys(presses: seq<Press>): (keys: string)
    ensures |keys| == |presses|
    ensures forall i :: 0 <= i < |keys| ==> keys[i] == presses[i].key
  {
    seq(|presses|, i requires 0 <= i < |presses| => presses[i].key)
  }

  // ---- What a key sequence means --------------------------------------------------

  /** What was typed after the last star. */
  function SinceClear(keys: string): string {
    if keys == "" then ""
    else if keys[|keys| - 1] == '*' then ""
    else SinceClear(keys[..|keys| - 1]) + [keys[|keys| - 1]]
  }

  /** The buffer: the digits typed since the last star. */
  function Typed(keys: string): string {
    DigitsOf(SinceClear(keys))
  }

  /** Does the last key of `keys` end the input? */
  predicate Completes(keys: string, length: int) {
    keys != "" && (keys[|keys| - 1] == '#' || (IsDigit(keys[|keys| - 1]) && |Typed(keys)| >= length))
  }

  /** No prefix of `keys` ends the input. */
  predicate StillOpen(keys: string, length: int) {
    forall i :: 0 <= i <= |keys| ==> !Completes(keys[..i], length)
  }

  /** Time at which the first `n` presses have been taken, waiting from `start`. */
  function Clock(start: int, presses: seq<Press>, n: nat): int
    requires n <= |presses|
  {
    if n == 0 then start else Max(Clock(start, presses, n - 1), presses[n - 1].at)
  }

  datatype Timing = Timing(start: int, digitTimeout: int, totalTimeout: int)

  /** Press `n` arrives before both timers run out, the first `n` having been taken. */
  predicate InTime(t: Timing, presses: seq<Press>, n: nat)
    requires n < |presses|
  {
    var now := Clock(t.start, presses, n);
    var remaining := t.start + t.totalTimeout - now;
    remaining > 0 && (presses[n].at <= now || presses[n].at <= now + Min(t.digitTimeout, remaining))
  }

  /** The first `taken` presses came in time, each while the input was open. */
  ghost predicate TakenOpen(presses: seq<Press>, length: int, t: Timing, taken: nat)
    requires taken <= |presses|
  {
    forall i :: 0 <= i < taken ==> InTime(t, presses, i) && !Completes(Keys(presses)[..i], length)
  }

  lemma TakeOne(presses: seq<Press>, length: int, t: Timing, taken: nat)
    requires taken < |presses| && TakenOpen(presses, length, t, taken)
    requires InTime(t, presses, taken) && !Completes(Keys(presses)[..taken], length)
    ensures TakenOpen(presses, length, t, taken + 1)
  {
  }

  /**
    One collection: the first `taken` presses were consumed, each in time and each while the
    input was open; the rest stay queued; the digits are those typed since the last clear.
   */
  ghost predicate Outcome(presses: seq<Press>, length: int, t: Timing, r: CollectResult, taken: nat) {
    && taken <= |presses|
    && TakenOpen(presses, length, t, taken)
    && r.digits == Typed(Keys(presses)[..taken])
    && r.submitted == Completes(Keys(presses)[..taken], length)
    && r.timedOut == !r.submitted
    && (r.timedOut && taken < |presses| ==> !InTime(t, presses, taken))
  }

  lemma TypedStep(keys: string, key: char)
    ensures Typed(keys + [key]) ==
            if key == '*' then "" else if IsDigit(key) then Typed(keys) + [key] else Typed(keys)
  {
    assert (keys + [key])[..|keys|] == keys;
    DigitsOfConcat(SinceClear(keys), [key]);
  }

  class DigitCollector {
    const length: int
    const digitTimeout: int
    const totalTimeout: int
    var queue: seq<Press>

    constructor (length: int, digitTimeout: int, totalTimeout: int)
      ensures this.length == length && this.digitTimeout == digitTimeout && this.totalTimeout == totalTimeout
      ensures queue == []
    {
      this.length, this.digitTimeout, this.totalTimeout := length, digitTimeout, totalTimeout;
      queue := [];
    }

    method Feed(at: int, key: char)
      modifies this
      ensures queue == old(queue) + [Press(at, key)]
    {
      queue := queue + [Press(at, key)];
    }

    /** Drops what has arrived by `now`, and nothing later. */
    method Reset(now: int)
      modifies this
      ensures exists n :: 0 <= n <= |old(queue)| && queue == old(queue)[n..]
                && (forall i :: 0 <= i < n ==> old(queue)[i].at <= now)
                && (n < |old(queue)| ==> old(queue)[n].at > now)
    {
      ghost var n := 0;
      while queue != [] && queue[0].at <= now
        invariant 0 <= n <= |old(queue)| && queue == old(queue)[n..]
        invariant forall i :: 0 <= i < n ==> old(queue)[i].at <= now
        decreases |queue|
      {
        assert queue[0] == old(queue)[n];
        queue := queue[1..];
        n := n + 1;
      }
      assert n < |old(queue)| ==> queue[0] == old(queue)[n];
    }

    method Collect(start: int) returns (r: CollectResult, ghost taken: nat)
      modifies this
      ensures Outcome(old(queue), length, Timing(start, digitTimeout, totalTimeout), r, taken)
      ensures queue == old(queue)[taken..]
    {
      var now := start;
      var deadline := start + totalTimeout;
      var buffer := "";
      taken := 0;
      ghost var all, keys := queue, Keys(queue);
      ghost var timing := Timing(start, digitTimeout, totalTimeout);
      assert Typed("") == "" && keys[..0] == "";
      hide Typed, Keys, TakenOpen;
      while true
        invariant taken <= |all| && queue == all[taken..]
        invariant now == Clock(start, all, taken)
        invariant buffer == Typed(keys[..taken])
        invariant !Completes(keys[..taken], length)
        invariant TakenOpen(all, length, timing, taken)
        decreases |queue|
      {
        var remaining := deadline - now;
        if remaining <= 0 {
          return CollectResult(buffer, true, false), taken;
        }
        if queue == [] || !(queue[0].at <= now || queue[0].at <= now + Min(digitTimeout, remaining)) {
          return CollectResult(buffer, true, false), taken;
        }
        var press := queue[0];
        assert press == all[taken] && keys[..taken + 1] == keys[..taken] + [press.key];
        TypedStep(keys[..taken], press.key);
        TakeOne(all, length, timing, taken);
        queue := queue[1..];
        now := Max(now, press.at);
        taken := taken + 1;
        if press.key == '#' {
          assert Completes(keys[..taken], length);
          return CollectResult(buffer, false, true), taken;
        }
        if press.key == '*' {
          buffer := "";
        } else if IsDigit(press.key) {
          buffer := buffer + [press.key];
          if |buffer| >= length {
            assert Completes(keys[..taken], length);
            return CollectResult(buffer, false, true), taken;
          }
        }
      }
    }
  }

  // ---- What follows for every outcome ----------------------------------------------

  /** The presses and the timers determine the outcome. */
  lemma OutcomeUnique(presses: seq<Press>, length: int, t: Timing, r: CollectResult, n: nat, r': CollectResult, n': nat)
    requires Outcome(presses, length, t, r, n) && Outcome(presses, length, t, r', n')
    ensures n == n' && r == r'
  {
  }

  lemma {:induction false} OpenIsShort(keys: string, length: int)
    requires StillOpen(keys, length)
    ensures |Typed(keys)| < Max(length, 1)
  {
    if keys != "" {
      var n := |keys| - 1;
      assert keys == keys[..n] + [keys[n]];
      TypedStep(keys[..n], keys[n]);
      forall i | 0 <= i <= n ensures !Completes(keys[..n][..i], length) {
        assert keys[..n][..i] == keys[..i];
      }
      OpenIsShort(keys[..n], length);
      assert keys[..|keys|] == keys && !Completes(keys, length);
    }
  }

  /** Never more digits than were asked for. */
  lemma NeverTooLong(presses: seq<Press>, length: int, t: Timing, r: CollectResult, taken: nat)
    requires Outcome(presses, length, t, r, taken)
    requires length >= 1
    ensures |r.digits| <= length && AllDigits(r.digits)
    ensures r.timedOut ==> |r.digits| < length
  {
    var keys := Keys(presses)[..taken];
    if r.timedOut {
      forall i | 0 <= i <= |keys| ensures !Completes(keys[..i], length) {
        assert keys[..i] == Keys(presses)[..i];
      }
      OpenIsShort(keys, length);
    } else {
      var n := taken - 1;
      forall i | 0 <= i <= n ensures !Completes(keys[..n][..i], length) {
        assert keys[..n][..i] == Keys(presses)[..i];
      }
      OpenIsShort(keys[..n], length);
      assert keys == keys[..n] + [keys[n]];
      TypedStep(keys[..n], keys[n]);
    }
  }

  lemma {:induction false} TypedOnEmpty(before: string, digits: string)
    requires Typed(before) == "" && AllDigits(digits)
    ensures Typed(before + digits) == digits
  {
    if digits == "" {
      assert before + digits == before;
    } else {
      var n := |digits| - 1;
      assert before + digits == (before + digits[..n]) + [digits[n]];
      TypedOnEmpty(before, digits[..n]);
      TypedStep(before + digits[..n], digits[n]);
    }
  }

  /**
    A PIN typed in full and in time onto an empty buffer, at once or after keys that left none, is
    returned exactly, and nothing typed afterwards is taken.
   */
  lemma PinOnEmptyBuffer(presses: seq<Press>, length: int, t: Timing, r: CollectResult, taken: nat,
                         before: string, pin: string, after: string)
    requires Outcome(presses, length, t, r, taken)
    requires Keys(presses) == before + pin + after
    requires StillOpen(before, length) && Typed(before) == ""
    requires AllDigits(pin) && |pin| == length && length >= 1
    requires forall i :: 0 <= i < |before| + |pin| ==> InTime(t, presses, i)
    ensures r == CollectResult(pin, false, true) && taken == |before| + |pin|
  {
    var keys := Keys(presses);
    var end := |before| + |pin|;
    assert keys[..end] == before + pin;
    TypedOnEmpty(before, pin);
    assert Completes(keys[..end], length) by { assert keys[..end][end - 1] == pin[|pin| - 1]; }
    forall i | 0 <= i < end ensures !Completes(keys[..i], length) {
      if i <= |before| {
        assert keys[..i] == before[..i];
      } else {
        var k := i - |before|;
        assert keys[..i] == before + pin[..k];
        TypedOnEmpty(before, pin[..k]);
        assert keys[..i][i - 1] == pin[k - 1];
      }
    }
    OutcomeUnique(presses, length, t, r, taken, CollectResult(pin, false, true), end);
  }

  /** The commonest input: a PIN typed in full and in time, with nothing before it. */
  lemma PinAtOnce(presses: seq<Press>, length: int, t: Timing, r: CollectResult, taken: nat, pin: string, after: string)
    requires Outcome(presses, length, t, r, taken)
    requires Keys(presses) == pin + after
    requires AllDigits(pin) && |pin| == length && length >= 1
    requires forall i :: 0 <= i < |pin| ==> InTime(t, presses, i)
    ensures r == CollectResult(pin, false, true) && taken == |pin|
  {
    assert "" + pin + after == pin + after;
    PinOnEmptyBuffer(presses, length, t, r, taken, "", pin, after);
  }

  /** A PIN typed in full after any clear is returned exactly, whatever was typed before it or afterwards. */
  lemma PinAfterClear(presses: seq<Press>, length: int, t: Timing, r: CollectResult, taken: nat,
                      before: string, pin: string, after: string)
    requires Outcome(presses, length, t, r, taken)
    requires Keys(presses) == before + "*" + pin + after
    requires StillOpen(before, length)
    requires AllDigits(pin) && |pin| == length && length >= 1
    requires forall i :: 0 <= i < |before| + 1 + |pin| ==> InTime(t, presses, i)
    ensures r == CollectResult(pin, false, true) && taken == |before| + 1 + |pin|
  {
    var cleared := before + "*";
    assert cleared == before + ['*'] && cleared[|before|] == '*';
    TypedStep(before, '*');
    forall i | 0 <= i <= |cleared| ensures !Completes(cleared[..i], length) {
      if i <= |before| { assert cleared[..i] == before[..i]; } else { assert cleared[..i] == cleared; }
    }
    PinOnEmptyBuffer(presses, length, t, r, taken, cleared, pin, after);
  }
}
