/** Masking of one number and of every number-shaped run in free text (app/core/phone.py). */
module Scrub {
  import opened Basics

  const SHORTEST: nat := 7
  const LONGEST: nat := 15

  function Stars(n: nat): string {
    seq(n, _ => '*')
  }

  /** At most six characters keep their last two; longer values keep five and four. */
  function Mask(text: string): string {
    if |text| <= 6 then
      var tail := if |text| <= 2 then text else text[|text| - 2..];
      Stars(if |text| <= 2 then 0 else |text| - 2) + tail
    else text[..5] + "***" + text[|text| - 4..]
  }

  /** Number of digits `t` begins with. */
  function DigitRun(t: string): (n: nat)
    ensures n <= |t|
    ensures AllDigits(t[..n])
    ensures n < |t| ==> !IsDigit(t[n])
  {
    if t == "" || !IsDigit(t[0]) then 0 else
    var n := DigitRun(t[1..]);
    assert t[..n + 1] == [t[0]] + t[1..][..n];
    n + 1
  }

  /** Length of the leftmost greedy match of `\+?\d{7,15}` starting exactly here; 0 for none. */
  function MatchAt(t: string): (m: nat)
    ensures m <= |t|
    ensures m > 0 ==> m >= SHORTEST
  {
    if t == "" then 0
    else if t[0] == '+' then
      var n := DigitRun(t[1..]);
      if n >= SHORTEST then 1 + Min(n, LONGEST) else 0
    else
      var n := DigitRun(t);
      if n >= SHORTEST then Min(n, LONGEST) else 0
  }

  /** The left-to-right substitution. */
  function ScrubText(t: string): string
    decreases |t|
  {
    if t == "" then ""
    else
      var m := MatchAt(t);
      if m > 0 then Mask(t[..m]) + ScrubText(t[m..]) else [t[0]] + ScrubText(t[1..])
  }

  /** No maximal run of digits in `t` is longer than `k`. */
  predicate RunsAtMost(t: string, k: nat) {
    t == "" || (DigitRun(t) <= k && RunsAtMost(t[1..], k))
  }

  // ---- Digit runs under concatenation ----------------------------------------

  lemma {:induction false} DigitRunConcat(s: string, t: string)
    ensures DigitRun(s + t) == if AllDigits(s) then |s| + DigitRun(t) else DigitRun(s)
  {
    if s == "" {
      assert s + t == t;
    } else {
      assert (s + t)[1..] == s[1..] + t;
      DigitRunConcat(s[1..], t);
      assert s == [s[0]] + s[1..];
    }
  }

  lemma {:induction false} RunsAtMostConcat(s: string, t: string, k: nat)
    requires s != "" && !IsDigit(s[|s| - 1])
    ensures RunsAtMost(s + t, k) <==> RunsAtMost(s, k) && RunsAtMost(t, k)
  {
    assert (s + t)[1..] == s[1..] + t;
    DigitRunConcat(s, t);
    if |s| > 1 {
      RunsAtMostConcat(s[1..], t, k);
    } else {
      assert s[1..] == "" && s[1..] + t == t;
    }
  }

  /** A run of digits in front is counted once, at its start. */
  lemma {:induction false} RunsAtMostDigits(s: string, t: string, k: nat)
    requires AllDigits(s)
    ensures RunsAtMost(s + t, k) <==> (s != "" ==> |s| + DigitRun(t) <= k) && RunsAtMost(t, k)
  {
    if s == "" {
      assert s + t == t;
    } else {
      assert (s + t)[1..] == s[1..] + t;
      DigitRunConcat(s, t);
      RunsAtMostDigits(s[1..], t, k);
      RunLongest(t, k);
    }
  }

  lemma RunLongest(t: string, k: nat)
    ensures RunsAtMost(t, k) ==> DigitRun(t) <= k
  {
  }

  // ---- The shape of the output -------------------------------------------------

  /** A mask of a match: up to five leading characters, three stars, four digits. */
  lemma MaskRuns(head: string, rest: string, k: nat)
    requires |head| >= SHORTEST
    requires AllDigits(head) || (head[0] == '+' && AllDigits(head[1..]))
    requires 5 <= k
    ensures RunsAtMost(Mask(head) + rest, k) <==> 4 + DigitRun(rest) <= k && RunsAtMost(rest, k)
    ensures DigitRun(Mask(head) + rest) == if head[0] == '+' then 0 else 5
  {
    var front, tail := head[..5], head[|head| - 4..];
    var back := "***" + (tail + rest);
    assert Mask(head) + rest == front + back;
    BackRuns(tail, rest, k);
    if head[0] == '+' {
      assert front == "+" + front[1..] && AllDigits(front[1..]);
      hide RunsAtMost;
      PlusRuns(front[1..], back, k);
      assert front + back == "+" + front[1..] + back;
    } else {
      assert AllDigits(front);
      hide RunsAtMost;
      DigitRunConcat(front, back);
      RunsAtMostDigits(front, back, k);
    }
  }

  lemma BackRuns(tail: string, rest: string, k: nat)
    requires AllDigits(tail) && |tail| == 4
    ensures var back := "***" + (tail + rest);
            DigitRun(back) == 0 && (RunsAtMost(back, k) <==> 4 + DigitRun(rest) <= k && RunsAtMost(rest, k))
  {
    RunsAtMostDigits(tail, rest, k);
    assert "***"[2] == '*';
    RunsAtMostConcat("***", tail + rest, k);
    StarRuns(k);
  }

  lemma PlusRuns(digits: string, back: string, k: nat)
    requires AllDigits(digits) && |digits| <= k && DigitRun(back) == 0
    ensures DigitRun("+" + digits + back) == 0
    ensures RunsAtMost("+" + digits + back, k) <==> RunsAtMost(back, k)
  {
    assert "+" + digits + back == "+" + (digits + back);
    RunsAtMostDigits(digits, back, k);
    RunsAtMostConcat("+", digits + back, k);
    assert "+"[1..] == "" && RunsAtMost("+", k);
  }

  lemma StarRuns(k: nat)
    ensures RunsAtMost("***", k)
  {
    assert "***"[1..] == "**" && "**"[1..] == "*" && "*"[1..] == "";
    assert RunsAtMost("*", k);
    assert RunsAtMost("**", k);
  }

  lemma MatchShape(t: string)
    requires MatchAt(t) > 0
    ensures var m := MatchAt(t); var plus := if t[0] == '+' then 1 else 0;
            && (AllDigits(t[..m]) || (t[0] == '+' && AllDigits(t[..m][1..])))
            && DigitRun(t[plus..]) >= SHORTEST
            && m == plus + Min(DigitRun(t[plus..]), LONGEST)
            && DigitRun(t[m..]) == DigitRun(t[plus..]) - Min(DigitRun(t[plus..]), LONGEST)
  {
    var m := MatchAt(t);
    var plus := if t[0] == '+' then 1 else 0;
    var digits := t[plus..m];
    var n := DigitRun(t[plus..]);
    assert t[plus..][..n][..m - plus] == digits by { assert t[plus..][..n] == t[plus..plus + n]; }
    assert t[plus..] == digits + t[m..];
    DigitRunConcat(digits, t[m..]);
    if plus == 1 {
      assert t[..m][1..] == digits;
    } else {
      assert t[..m] == digits;
    }
  }

  /** Digits the output starts with: short runs survive, a masked one keeps five. */
  lemma {:induction false} ScrubDigitRun(t: string)
    ensures DigitRun(ScrubText(t)) == if DigitRun(t) < SHORTEST then DigitRun(t) else 5
    decreases |t|
  {
    if t != "" {
      var m := MatchAt(t);
      if m > 0 {
        MatchShape(t);
        MaskRuns(t[..m], ScrubText(t[m..]), 5);
      } else {
        ScrubDigitRun(t[1..]);
        assert ScrubText(t)[1..] == ScrubText(t[1..]);
      }
    }
  }

  /**
    The scrubbed text holds no run of seven digits exactly when no run of the input
    is longer than seventeen: a longer one leaves the four kept digits of one match
    next to what follows it.
   */
  lemma {:induction false} CleanExactly(t: string)
    ensures RunsAtMost(ScrubText(t), 6) <==> RunsAtMost(t, 17)
    decreases |t|
  {
    if t != "" {
      var m := MatchAt(t);
      if m > 0 {
        CleanMatch(t, m);
      } else {
        CleanExactly(t[1..]);
        ScrubDigitRun(t);
        assert ScrubText(t)[1..] == ScrubText(t[1..]);
        if t[0] == '+' { assert DigitRun(t) == 0; }
      }
    }
  }

  lemma {:induction false} CleanMatch(t: string, m: nat)
    requires t != "" && m == MatchAt(t) > 0
    ensures RunsAtMost(ScrubText(t), 6) <==> RunsAtMost(t, 17)
    decreases |t|, 0
  {
    CleanExactly(t[m..]);
    ScrubDigitRun(t[m..]);
    MatchShape(t);
    MaskRuns(t[..m], ScrubText(t[m..]), 6);
    SkipMatch(t, m);
  }

  /** The run a match begins, counted once, and the text after the match. */
  lemma SkipMatch(t: string, m: nat)
    requires t != "" && m == MatchAt(t) > 0
    ensures RunsAtMost(t, 17) <==> DigitRun(t[m..]) <= 2 && RunsAtMost(t[m..], 17)
  {
    MatchShape(t);
    var plus := if t[0] == '+' then 1 else 0;
    var digits := t[plus..m];
    assert t[plus..] == digits + t[m..];
    assert AllDigits(digits) by {
      if plus == 1 { assert t[..m][1..] == digits; } else { assert t[..m] == digits; }
    }
    RunsAtMostDigits(digits, t[m..], 17);
    RunLongest(t[m..], 17);
  }

  /** Text whose runs are all short is left alone. */
  lemma {:induction false} CleanUnchanged(t: string)
    requires RunsAtMost(t, 6)
    ensures ScrubText(t) == t
    decreases |t|
  {
    if t != "" {
      if t[0] == '+' { RunLongest(t[1..], 6); }
      CleanUnchanged(t[1..]);
    }
  }

  /** Text with a longer run is altered. */
  lemma {:induction false} DirtyChanged(t: string)
    requires !RunsAtMost(t, 6)
    ensures ScrubText(t) != t
    decreases |t|
  {
    var m := MatchAt(t);
    if m > 0 {
      MatchShape(t);
      if t[0] == '+' { assert t[..m][1..][4] == t[5]; } else { assert t[..m][5] == t[5]; }
      assert IsDigit(t[5]) && Mask(t[..m])[5] == '*';
      assert ScrubText(t)[5] == '*';
    } else {
      DirtyChanged(t[1..]);
      assert ScrubText(t)[1..] == ScrubText(t[1..]);
    }
  }

  /** A second scrub changes nothing under the same condition, and only then. */
  lemma IdempotentExactly(t: string)
    ensures ScrubText(ScrubText(t)) == ScrubText(t) <==> RunsAtMost(t, 17)
  {
    CleanExactly(t);
    if RunsAtMost(t, 17) { CleanUnchanged(ScrubText(t)); } else { DirtyChanged(ScrubText(t)); }
  }

  /** Fifteen digits is the longest number of section 6.1 of ITU-T E.164; such text scrubs clean, once. */
  lemma ScrubHidesNumbers(t: string)
    requires RunsAtMost(t, LONGEST)
    ensures RunsAtMost(ScrubText(t), SHORTEST - 1)
    ensures ScrubText(ScrubText(t)) == ScrubText(t)
  {
    RunsWeaken(t, LONGEST, 17);
    CleanExactly(t);
    IdempotentExactly(t);
  }

  lemma {:induction false} RunsWeaken(t: string, j: nat, k: nat)
    requires RunsAtMost(t, j) && j <= k
    ensures RunsAtMost(t, k)
  {
    if t != "" { RunsWeaken(t[1..], j, k); }
  }

  // ---- The whole text ----------------------------------------------------------------

  /** What a text is made of: numbers, and what lies between them. */
  datatype Piece = Kept(text: string) | Number(text: string)

  function NumberDigits(s: string): string {
    if s != "" && s[0] == '+' then s[1..] else s
  }

  /** The shape `\+?\d{7,15}`. */
  predicate IsNumber(s: string) {
    AllDigits(NumberDigits(s)) && SHORTEST <= |NumberDigits(s)| <= LONGEST
  }

  predicate StartsWithDigit(t: string) {
    t != "" && IsDigit(t[0])
  }

  function TextOf(pieces: seq<Piece>): string {
    if pieces == [] then "" else pieces[0].text + TextOf(pieces[1..])
  }

  function Scrubbed(pieces: seq<Piece>): string {
    if pieces == [] then ""
    else (if pieces[0].Number? then Mask(pieces[0].text) else pieces[0].text) + Scrubbed(pieces[1..])
  }

  /**
    The numbers are the leftmost longest matches: one of fewer than fifteen digits is not followed by
    a digit; what lies between holds no run of seven digits and does not reach into the next number.
   */
  predicate Parsed(pieces: seq<Piece>) {
    pieces == [] ||
    var s, rest := pieces[0].text, pieces[1..];
    && Parsed(rest)
    && match pieces[0]
       case Number(_) => IsNumber(s) && (|NumberDigits(s)| == LONGEST || !StartsWithDigit(TextOf(rest)))
       case Kept(_) =>
         && s != "" && RunsAtMost(s, SHORTEST - 1)
         && (rest != [] ==> rest[0].Number?)
         && (StartsWithDigit(TextOf(rest)) ==> s[|s| - 1] != '+' && !IsDigit(s[|s| - 1]))
  }

  /** No number begins in text without a long run that does not reach into what follows. */
  lemma NoMatchInKept(s: string, rest: string)
    requires s != "" && RunsAtMost(s, SHORTEST - 1)
    requires StartsWithDigit(rest) ==> s[|s| - 1] != '+' && !IsDigit(s[|s| - 1])
    ensures MatchAt(s + rest) == 0
  {
    RunsAtMostTail(s, SHORTEST - 1);
    hide MatchAt, DigitRun;
    if s[0] == '+' {
      NoMatchAfterPlus(s, rest);
    } else {
      RunLongest(s, SHORTEST - 1);
      hide RunsAtMost;
      RunInKept(s, rest);
      TooFewDigits(s + rest);
    }
  }

  lemma NoMatchAfterPlus(s: string, rest: string)
    requires s != "" && s[0] == '+' && RunsAtMost(s[1..], SHORTEST - 1)
    requires StartsWithDigit(rest) ==> s[|s| - 1] != '+' && !IsDigit(s[|s| - 1])
    ensures MatchAt(s + rest) == 0
  {
    RunLongest(s[1..], SHORTEST - 1);
    hide RunsAtMost, DigitRun, MatchAt;
    RunInKept(s[1..], rest);
    assert (s + rest)[1..] == s[1..] + rest;
    TooFewDigits(s + rest);
  }

  lemma TooFewDigits(t: string)
    requires t != "" && DigitRun(if t[0] == '+' then t[1..] else t) < SHORTEST
    ensures MatchAt(t) == 0
  {
  }

  lemma RunInKept(s: string, rest: string)
    requires DigitRun(s) < SHORTEST
    requires s == "" || (IsDigit(s[|s| - 1]) ==> !StartsWithDigit(rest))
    ensures s != "" || !StartsWithDigit(rest) ==> DigitRun(s + rest) < SHORTEST
  {
    DigitRunConcat(s, rest);
  }

  lemma ScrubSkips(t: string)
    requires t != "" && MatchAt(t) == 0
    ensures ScrubText(t) == [t[0]] + ScrubText(t[1..])
  {
  }

  lemma RunsAtMostTail(t: string, k: nat)
    requires t != "" && RunsAtMost(t, k)
    ensures RunsAtMost(t[1..], k)
  {
  }

  /** Text without a long run is kept when no number begins in its last run. */
  lemma {:induction false} KeptPrefix(s: string, rest: string)
    requires RunsAtMost(s, SHORTEST - 1)
    requires s != "" && StartsWithDigit(rest) ==> s[|s| - 1] != '+' && !IsDigit(s[|s| - 1])
    ensures ScrubText(s + rest) == s + ScrubText(rest)
    decreases |s|
  {
    hide MatchAt, DigitRun, ScrubText, RunsAtMost;
    if s == "" {
      assert s + rest == rest;
    } else {
      NoMatchInKept(s, rest);
      ScrubSkips(s + rest);
      RunsAtMostTail(s, SHORTEST - 1);
      KeptPrefix(s[1..], rest);
      assert (s + rest)[1..] == s[1..] + rest;
    }
  }

  /** A number with nothing left to match is masked as a whole. */
  lemma NumberPrefix(s: string, rest: string)
    requires IsNumber(s) && (|NumberDigits(s)| == LONGEST || !StartsWithDigit(rest))
    ensures MatchAt(s + rest) == |s| && ScrubText(s + rest) == Mask(s) + ScrubText(rest)
  {
    DigitRunConcat(NumberDigits(s), rest);
    if s[0] == '+' { assert (s + rest)[1..] == s[1..] + rest; }
    assert (s + rest)[..|s|] == s && (s + rest)[|s|..] == rest;
    hide Mask;
  }

  /** Scrubbing masks the numbers of a text and keeps everything else as it is. */
  lemma {:induction false} ScrubKeepsRest(pieces: seq<Piece>)
    requires Parsed(pieces)
    ensures ScrubText(TextOf(pieces)) == Scrubbed(pieces)
    decreases |pieces|
  {
    if pieces != [] {
      var s, rest := pieces[0].text, TextOf(pieces[1..]);
      ScrubKeepsRest(pieces[1..]);
      if pieces[0].Number? { NumberPrefix(s, rest); } else { KeptPrefix(s, rest); }
    }
  }

  /** Every text is made so. */
  lemma {:induction false} EveryTextParses(t: string) returns (pieces: seq<Piece>)
    ensures TextOf(pieces) == t && Parsed(pieces)
    decreases |t|
  {
    pieces := [];
    if t != "" {
      var m := MatchAt(t);
      hide MatchAt, Parsed, TextOf;
      var rest := EveryTextParses(t[if m > 0 then m else 1..]);
      if m > 0 { pieces := AddNumber(t, rest); } else { pieces := AddKept(t, rest); }
    }
  }

  /** A match becomes a number of its own. */
  lemma AddNumber(t: string, rest: seq<Piece>) returns (pieces: seq<Piece>)
    requires MatchAt(t) > 0 && TextOf(rest) == t[MatchAt(t)..] && Parsed(rest)
    ensures TextOf(pieces) == t && Parsed(pieces)
  {
    var m := MatchAt(t);
    MatchIsNumber(t);
    pieces := [Number(t[..m])] + rest;
    assert pieces[1..] == rest;
    hide MatchAt, IsNumber, DigitRun;
  }

  lemma MatchIsNumber(t: string)
    requires MatchAt(t) > 0
    ensures var s := t[..MatchAt(t)];
            IsNumber(s) && (|NumberDigits(s)| == LONGEST || !StartsWithDigit(t[MatchAt(t)..]))
  {
    MatchShape(t);
    hide MatchAt;
  }

  /** A character no match begins at is kept, alone or with the kept text after it. */
  lemma AddKept(t: string, rest: seq<Piece>) returns (pieces: seq<Piece>)
    requires t != "" && MatchAt(t) == 0 && TextOf(rest) == t[1..] && Parsed(rest)
    ensures TextOf(pieces) == t && Parsed(pieces)
  {
    if rest != [] && rest[0].Kept? {
      pieces := [Kept([t[0]] + rest[0].text)] + rest[1..];
      LongerKept(t, rest[0].text, TextOf(rest[1..]));
      hide RunsAtMost, MatchAt, DigitRun;
      assert pieces[1..] == rest[1..];
      assert t == [t[0]] + rest[0].text + TextOf(rest[1..]);
    } else {
      pieces := [Kept([t[0]])] + rest;
      if rest != [] { NumberRun(rest[0].text, TextOf(rest[1..])); }
      assert RunsAtMost([t[0]], SHORTEST - 1) by { assert [t[0]][1..] == ""; }
      hide RunsAtMost;
      assert pieces[1..] == rest;
    }
  }

  lemma LongerKept(t: string, s: string, rest: string)
    requires t != "" && MatchAt(t) == 0 && t[1..] == s + rest && s != "" && RunsAtMost(s, SHORTEST - 1)
    ensures RunsAtMost([t[0]] + s, SHORTEST - 1)
  {
    assert t == [t[0]] + s + rest && ([t[0]] + s)[1..] == s;
    DigitRunConcat([t[0]] + s, rest);
  }

  lemma NumberRun(s: string, rest: string)
    requires IsNumber(s)
    ensures StartsWithDigit(s + rest) ==> DigitRun(s + rest) >= SHORTEST
  {
    DigitRunConcat(s, rest);
  }

  /** Eighteen digits leave a run of seven, which a second scrub masks again. */
  lemma EighteenDigits()
    ensures ScrubText("123456789012345678") == "12345***2345678"
    ensures ScrubText("12345***2345678") == "12345***23456***5678"
  {
    hide ScrubText;
    assert "123456789012345" + "678" == "123456789012345678" && "12345***" + "2345678" == "12345***2345678";
    FifteenAndThree();
    FiveAndSeven();
  }

  lemma FifteenAndThree()
    ensures ScrubText("123456789012345" + "678") == "12345***2345" + "678"
  {
    NumberPrefix("123456789012345", "678");
    RunsAtMostDigits("678", "", SHORTEST - 1);
    KeptPrefix("678", "");
    assert "678" + "" == "678" && Mask("123456789012345") == "12345***2345" && ScrubText("") == "";
    hide *;
  }

  lemma FiveAndSeven()
    ensures ScrubText("12345***" + "2345678") == "12345***" + "23456***5678"
  {
    hide ScrubText, MatchAt;
    LastSeven();
    FiveAndStars();
    hide RunsAtMost, Mask;
    KeptPrefix("12345***", "2345678");
  }

  lemma FiveAndStars()
    ensures RunsAtMost("12345***", SHORTEST - 1)
  {
    StarRuns(SHORTEST - 1);
    RunsAtMostDigits("12345", "***", SHORTEST - 1);
    assert "12345" + "***" == "12345***";
    hide RunsAtMost;
  }

  lemma LastSeven()
    ensures ScrubText("2345678") == "23456***5678"
  {
    NumberPrefix("2345678", "");
    assert "2345678" + "" == "2345678" && Mask("2345678") == "23456***5678" && ScrubText("") == "";
    hide *;
  }
}
