/**
 * The five-minute quiz countdown: one step per second, the automatic
 * submission when time runs out, and the `m:ss` display.
 */
module Countdown {
  import opened Common

  /** Seconds on the clock when a quiz starts. */
  const QUIZ_SECONDS: int := 300

  /** One interval tick: the clock goes down by one and stops at 0. */
  function TickNext(prev: int): (next: int)
    ensures next >= 0
    ensures next == 0 || next == prev - 1
  {
    if prev <= 1 then 0 else prev - 1
  }

  /** A tick submits the quiz when it runs the clock out (at one second or less left). */
  predicate TickSubmits(prev: int) { prev <= 1 }

  /** The clock after `k` ticks. */
  function AfterTicks(t: int, k: nat): int
    decreases k
  {
    if k == 0 then t else AfterTicks(TickNext(t), k - 1)
  }

  /** Started at `t` seconds, the clock reads `t - k` after `k <= t` ticks and never goes below 0. */
  lemma {:induction false} AfterTicksCountsDown(t: int, k: nat)
    requires 0 <= k <= t
    ensures AfterTicks(t, k) == t - k
    decreases k
  {
    if k > 0 {
      AfterTicksCountsDown(TickNext(t), k - 1);
    }
  }

  /** The first `t - 1` ticks of a clock started at `t` do not submit; tick number `t` does. */
  lemma SubmitsOnLastSecond(t: int, k: nat)
    requires 1 <= t && k < t
    ensures TickSubmits(AfterTicks(t, k)) <==> k == t - 1
  {
    AfterTicksCountsDown(t, k);
  }

  // --------------------------------------------------------------- display

  /** `${Math.floor(s / 60)}:${(s % 60).toString().padStart(2, '0')}`. */
  function FormatTime(s: nat): string {
    Show(s / 60) + ":" + PadTwo(Show(s % 60))
  }

  /** The position of the first `c` in `t`. */
  function IndexOf(t: string, c: char): (r: Option<nat>)
    ensures r.Some? ==> r.value < |t| && t[r.value] == c && c !in t[..r.value]
    ensures r.None? ==> c !in t
    decreases |t|
  {
    if |t| == 0 then None
    else if t[0] == c then Some(0)
    else match IndexOf(t[1..], c)
      case None => None
      case Some(k) =>
        assert t[..k + 1] == [t[0]] + t[1..][..k];
        Some(k + 1)
  }

  /** Reads an `m:ss` display back into seconds. */
  function ParseClock(t: string): Option<nat> {
    match IndexOf(t, ':')
    case None => None
    case Some(k) =>
      var m, ss := t[..k], t[k + 1..];
      if |m| >= 1 && AllDigits(m) && |ss| == 2 && AllDigits(ss) && ReadDigits(ss) < 60
      then Some(60 * ReadDigits(m) + ReadDigits(ss))
      else None
  }

  lemma {:induction false} IndexOfAfter(a: string, c: char, b: string)
    requires c !in a
    ensures IndexOf(a + [c] + b, c) == Some(|a|)
    decreases |a|
  {
    if |a| > 0 {
      assert (a + [c] + b)[1..] == a[1..] + [c] + b;
      IndexOfAfter(a[1..], c, b);
    }
  }

  lemma PadTwoValue(r: nat)
    requires r < 60
    ensures |PadTwo(Show(r))| == 2 && AllDigits(PadTwo(Show(r)))
    ensures ReadDigits(PadTwo(Show(r))) == r
  {
    ReadShow(r);
    var p := PadTwo(Show(r));
    if r < 10 {
      assert p == ['0', DigitChar(r)];
      assert p[..1] == "0";
    } else {
      assert p == Show(r);
    }
  }

  /** The display determines the seconds left: minutes times 60 plus the two-digit seconds. */
  lemma ClockRoundTrip(s: nat)
    ensures ParseClock(FormatTime(s)) == Some(s)
  {
    var m, sec := Show(s / 60), PadTwo(Show(s % 60));
    assert ':' !in m by {
      assert AllDigits(m);
    }
    IndexOfAfter(m, ':', sec);
    assert FormatTime(s) == m + [':'] + sec;
    var t := FormatTime(s);
    assert t[..|m|] == m;
    assert t[|m| + 1..] == sec;
    PadTwoValue(s % 60);
    ReadShow(s / 60);
  }

  /** The display for five minutes, and for 65 seconds. */
  lemma FormatExamples()
    ensures FormatTime(300) == "5:00"
    ensures FormatTime(65) == "1:05"
    ensures FormatTime(0) == "0:00"
  {
  }
}
