/** The typewriter effect: the displayed text grows by one character of the target text per
    timer tick, and falls back to the target when the target becomes shorter than what is
    shown. The timer is modelled by an explicit tick. */
module Typewriter {

  /** One tick: a display shorter than the target grows to the target's prefix one character
      longer; otherwise nothing is scheduled and the display stays. */
  function Advance(displayed: string, text: string): (d: string)
    ensures |displayed| < |text| ==> d == text[..|displayed| + 1]
    ensures |displayed| >= |text| ==> d == displayed
  {
    if |displayed| < |text| then text[..|displayed| + 1] else displayed
  }

  /** The display after `n` ticks with a fixed target. */
  function Ticks(displayed: string, text: string, n: nat): string
    decreases n
  {
    if n == 0 then displayed else Ticks(Advance(displayed, text), text, n - 1)
  }

  /** With a fixed target the display never outgrows it, and a display that is a prefix of the
      target stays one. */
  lemma {:induction false} TicksStayWithin(displayed: string, text: string, n: nat)
    requires |displayed| <= |text|
    ensures |Ticks(displayed, text, n)| <= |text|
    ensures displayed <= text ==> Ticks(displayed, text, n) <= text
    decreases n
  {
    if n > 0 {
      TicksStayWithin(Advance(displayed, text), text, n - 1);
    }
  }

  /** With a fixed target, each tick adds one character until the whole target is shown: after
      `n` ticks the display is the prefix of length `|displayed| + n`, and after
      `|text| - |displayed|` ticks it is the target itself. */
  lemma {:induction false} TicksReachText(displayed: string, text: string, n: nat)
    requires |displayed| + n <= |text|
    ensures n > 0 ==> Ticks(displayed, text, n) == text[..|displayed| + n]
    decreases n
  {
    if n > 1 {
      var d := Advance(displayed, text);
      TicksReachText(d, text, n - 1);
    }
  }

  /** The whole target is shown after at most `|text|` ticks, from an empty display or from any
      prefix of it, and stays shown. */
  lemma TypedOut(displayed: string, text: string, extra: nat)
    requires displayed <= text
    ensures Ticks(displayed, text, |text| - |displayed| + extra) == text
  {
    var n := |text| - |displayed|;
    if n > 0 {
      TicksReachText(displayed, text, n);
      assert text[..|text|] == text;
    } else {
      assert displayed == text;
    }
    TicksAfter(displayed, text, n, extra);
    TicksFixed(text, extra);
  }

  /** Ticking `m` then `k` times is ticking `m + k` times. */
  lemma {:induction false} TicksAfter(displayed: string, text: string, m: nat, k: nat)
    ensures Ticks(displayed, text, m + k) == Ticks(Ticks(displayed, text, m), text, k)
    decreases m
  {
    if m > 0 {
      TicksAfter(Advance(displayed, text), text, m - 1, k);
    }
  }

  /** Once the target is shown, ticks change nothing. */
  lemma {:induction false} TicksFixed(text: string, k: nat)
    ensures Ticks(text, text, k) == text
  {
    if k > 0 {
      TicksFixed(text, k - 1);
    }
  }

  /** A new target of the same length as the display is never typed out: the display keeps the
      old text, since neither the tick nor the reset rule fires. */
  lemma SameLengthTargetIsNotRetyped(displayed: string, text: string, n: nat)
    requires |text| == |displayed|
    ensures Ticks(displayed, text, n) == displayed
    decreases n
  {
    if n > 0 {
      SameLengthTargetIsNotRetyped(Advance(displayed, text), text, n - 1);
    }
  }

  /** The state of one use of the hook. */
  class TypewriterState {
    var text: string
    var displayed: string

    /** The display never outgrows the target. */
    ghost predicate Valid()
      reads this
    {
      |displayed| <= |text|
    }

    /** The hook starts with an empty display. */
    constructor (initial: string)
      ensures Valid()
      ensures text == initial && displayed == ""
    {
      text := initial;
      displayed := "";
    }

    /** A render with a new target: a target shorter than the display replaces it, otherwise
        the display is kept. */
    method SetText(t: string)
      modifies this
      ensures Valid()
      ensures text == t
      ensures |t| < |old(displayed)| ==> displayed == t
      ensures |t| >= |old(displayed)| ==> displayed == old(displayed)
    {
      text := t;
      if |text| < |displayed| {
        displayed := text;
      }
    }

    /** A timer tick; `scheduled` says whether a timer was pending at all. */
    method Tick() returns (scheduled: bool)
      requires Valid()
      modifies this
      ensures Valid()
      ensures text == old(text)
      ensures displayed == Advance(old(displayed), text)
      ensures scheduled <==> |old(displayed)| < |text|
    {
      scheduled := |displayed| < |text|;
      if scheduled {
        displayed := text[..|displayed| + 1];
      }
    }
  }
}
