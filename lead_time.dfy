/**
 * The lead-time parser of Order.calculateEstimatedDelivery and
 * Preorder.calculateDeliveryDate. Both run a byte-oriented PCRE pattern (no `u`
 * modifier) over the product's free-text lead time: a digit run, one optional
 * separator byte, an optional second digit run and a trailing unit class: `[週]*`
 * for the order and `[週間]*` for the preorder. The week count is the larger
 * capture, the only capture, or 4 when nothing matches.
 * Dates are day numbers; "+N weeks" adds 7 * N days.
 */
module LeadTime {
  import opened Schema

  predicate IsDigit(b: byte) {
    0x30 <= b <= 0x39
  }

  predicate AllDigits(s: seq<byte>) {
    forall i :: 0 <= i < |s| ==> IsDigit(s[i])
  }

  predicate NoDigits(s: seq<byte>) {
    forall i :: 0 <= i < |s| ==> !IsDigit(s[i])
  }

  /**
   * The separator class `[-〜~]`. Without the `u` modifier the class holds single
   * bytes: '-', '~' and each of the three UTF-8 bytes of 〜 (E3 80 9C).
   */
  predicate IsSeparator(b: byte) {
    b == 0x2D || b == 0x7E || b == 0xE3 || b == 0x80 || b == 0x9C
  }

  /** Where the leftmost match starts: the first digit at or after i, or |s| when there is none. */
  function FirstDigit(s: seq<byte>, i: nat): (r: nat)
    requires i <= |s|
    ensures i <= r <= |s|
    ensures r < |s| ==> IsDigit(s[r])
    ensures forall j :: i <= j < r ==> !IsDigit(s[j])
    decreases |s| - i
  {
    if i == |s| then i
    else if IsDigit(s[i]) then i
    else FirstDigit(s, i + 1)
  }

  /** The end of the greedy digit run `\d+` that starts at i. */
  function RunEnd(s: seq<byte>, i: nat): (r: nat)
    requires i <= |s|
    ensures i <= r <= |s|
    ensures forall j :: i <= j < r ==> IsDigit(s[j])
    ensures r < |s| ==> !IsDigit(s[r])
    decreases |s| - i
  {
    if i < |s| && IsDigit(s[i]) then RunEnd(s, i + 1) else i
  }

  function DigitValue(b: byte): nat
    requires IsDigit(b)
  {
    (b - 0x30) as nat
  }

  /** The number a captured digit string denotes. */
  function DecimalValue(d: seq<byte>): nat
    requires AllDigits(d)
  {
    if |d| == 0 then 0 else DecimalValue(d[..|d| - 1]) * 10 + DigitValue(d[|d| - 1])
  }

  /** The two capture groups: group 2 is unset when no second digit run follows. */
  datatype Captures = NoMatch | Captured(first: nat, second: Option<nat>)

  /** A match of the pattern: its groups and the span [start, end) of the whole match. */
  datatype PatternMatch = Unmatched | Matched(groups: Captures, start: nat, end: nat)

  /**
   * The byte classes of the trailing unit. Without the `u` modifier `[週]` holds
   * the three bytes E9 80 B1 and `[週間]` those and the two of 間 (96 93).
   */
  const OrderUnit: set<byte> := {0xE9, 0x80, 0xB1}
  const PreorderUnit: set<byte> := {0xE9, 0x80, 0xB1, 0x96, 0x93}

  /** The end of the greedy run `[unit]*` that starts at i. */
  function ClassRunEnd(s: seq<byte>, i: nat, unit: set<byte>): (r: nat)
    requires i <= |s|
    ensures i <= r <= |s|
    ensures forall j :: i <= j < r ==> s[j] in unit
    ensures r < |s| ==> s[r] !in unit
    decreases |s| - i
  {
    if i < |s| && s[i] in unit then ClassRunEnd(s, i + 1, unit) else i
  }

  /**
   * The leftmost match of `(\d+)[-〜~]?(\d+)?[unit]*` on s. Everything after the
   * first group is optional, so the greedy choices never need to backtrack:
   * the separator is taken whenever the byte after the first run is one, the
   * second group whenever a digit follows it, and the unit run last.
   */
  function MatchOf(s: seq<byte>, unit: set<byte>): (m: PatternMatch)
    ensures m.Matched? ==> m.start < m.end <= |s| && IsDigit(s[m.start])
    ensures m.Unmatched? <==> NoDigits(s)
  {
    var p := FirstDigit(s, 0);
    if p == |s| then Unmatched
    else
      var e := RunEnd(s, p);
      var g1 := DecimalValue(s[p..e]);
      if e + 1 < |s| && IsSeparator(s[e]) && IsDigit(s[e + 1]) then
        var e2 := RunEnd(s, e + 1);
        Matched(Captured(g1, Some(DecimalValue(s[e + 1..e2]))), p, ClassRunEnd(s, e2, unit))
      else
        var e1 := if e < |s| && IsSeparator(s[e]) then e + 1 else e;
        Matched(Captured(g1, None), p, ClassRunEnd(s, e1, unit))
  }

  /** The captures of the pattern on s, as preg_match leaves them in $matches[1] and $matches[2]. */
  function Capture(s: seq<byte>, unit: set<byte>): Captures {
    match MatchOf(s, unit)
    case Unmatched => NoMatch
    case Matched(groups, _, _) => groups
  }

  /**
   * The unit class only decides where the whole match ends: it follows both
   * groups and may match nothing, so the captures are the same for any class.
   */
  lemma CapturesIgnoreUnit(s: seq<byte>, u1: set<byte>, u2: set<byte>)
    ensures Capture(s, u1) == Capture(s, u2)
    ensures MatchOf(s, u1).Matched? <==> MatchOf(s, u2).Matched?
    ensures MatchOf(s, u1).Matched? ==> MatchOf(s, u1).start == MatchOf(s, u2).start
  {
  }

  /**
   * The two patterns do differ: on "4週間" the order's match stops after the
   * first byte of 間 (E9, which is also a byte of 週), the preorder's takes all of 間.
   */
  lemma SpanDependsOnUnit()
    ensures MatchOf([0x34] + WeekUnit, OrderUnit) == Matched(Captured(4, None), 0, 5)
    ensures MatchOf([0x34] + WeekUnit, PreorderUnit) == Matched(Captured(4, None), 0, 7)
  {
    var s := [0x34] + WeekUnit;
    assert s == [0x34, 0xE9, 0x80, 0xB1, 0xE9, 0x96, 0x93];
    assert FirstDigit(s, 0) == 0;
    assert RunEnd(s, 0) == 1 by {
      assert RunEnd(s, 1) == 1;
    }
    assert s[0..1] == [0x34];
    SingleDigit(0x34);
    assert ClassRunEnd(s, 1, OrderUnit) == 5 by {
      assert s[5] == 0x96 && 0x96 !in OrderUnit;
    }
    assert ClassRunEnd(s, 1, PreorderUnit) == 7 by {
      assert ClassRunEnd(s, 7, PreorderUnit) == 7;
    }
  }

  function Max(a: nat, b: nat): nat {
    if a < b then b else a
  }

  /** The week count: the larger capture when both are set, the first otherwise, 4 without a match. */
  function Weeks(c: Captures): nat {
    match c
    case NoMatch => 4
    case Captured(a, None) => a
    case Captured(a, Some(b)) => Max(a, b)
  }

  /** The lead time as PHP reads it: a NULL column behaves as the empty string. */
  function PeriodText(period: Option<seq<byte>>): seq<byte> {
    period.GetOr([])
  }

  /** Order.calculateEstimatedDelivery: today plus the week count of the `[週]*` pattern. */
  function EstimatedDelivery(period: Option<seq<byte>>, today: int): int {
    today + 7 * Weeks(Capture(PeriodText(period), OrderUnit))
  }

  /** Preorder.calculateDeliveryDate: today plus the week count of the `[週間]*` pattern. */
  function DeliveryDate(period: Option<seq<byte>>, today: int): int {
    today + 7 * Weeks(Capture(PeriodText(period), PreorderUnit))
  }

  /**
   * The order and the preorder code compute the same delivery date from the same
   * text, although their patterns match different spans, and never a date before today.
   */
  lemma SameEstimate(period: Option<seq<byte>>, today: int)
    ensures EstimatedDelivery(period, today) == DeliveryDate(period, today)
    ensures EstimatedDelivery(period, today) >= today
  {
    CapturesIgnoreUnit(PeriodText(period), OrderUnit, PreorderUnit);
  }

  /** Text without a digit, and a NULL lead time, give the four-week default. */
  lemma NoDigitDefaults(s: seq<byte>, unit: set<byte>, today: int)
    requires NoDigits(s)
    ensures Capture(s, unit) == NoMatch
    ensures EstimatedDelivery(Some(s), today) == today + 28 && DeliveryDate(Some(s), today) == today + 28
    ensures EstimatedDelivery(None, today) == today + 28 && DeliveryDate(None, today) == today + 28
  {
    assert FirstDigit(s, 0) == |s|;
    assert FirstDigit([], 0) == 0;
  }

  /** The leftmost match starts at the first digit, after a digit-free prefix. */
  lemma FirstDigitAfter(pre: seq<byte>, s: seq<byte>)
    requires NoDigits(pre)
    requires |pre| < |s| && s[..|pre|] == pre && IsDigit(s[|pre|])
    ensures FirstDigit(s, 0) == |pre|
  {
  }

  /** A greedy digit run ends exactly where the digits stop. */
  lemma RunEndAt(s: seq<byte>, i: nat, d: seq<byte>)
    requires i + |d| <= |s| && s[i..i + |d|] == d && AllDigits(d)
    requires i + |d| < |s| ==> !IsDigit(s[i + |d|])
    ensures RunEnd(s, i) == i + |d|
    decreases |d|
  {
    if |d| > 0 {
      assert s[i] == d[0];
      assert s[i + 1..i + |d|] == d[1..];
      RunEndAt(s, i + 1, d[1..]);
    }
  }

  /** A range "pre d1 sep d2 rest": the week count is the larger of the two numbers. */
  lemma RangeWeeks(pre: seq<byte>, d1: seq<byte>, sep: byte, d2: seq<byte>, rest: seq<byte>, unit: set<byte>)
    requires NoDigits(pre) && AllDigits(d1) && AllDigits(d2) && |d1| > 0 && |d2| > 0
    requires IsSeparator(sep)
    requires |rest| > 0 ==> !IsDigit(rest[0])
    ensures Capture(pre + d1 + [sep] + d2 + rest, unit) == Captured(DecimalValue(d1), Some(DecimalValue(d2)))
    ensures Weeks(Capture(pre + d1 + [sep] + d2 + rest, unit)) == Max(DecimalValue(d1), DecimalValue(d2))
  {
    var s := pre + d1 + [sep] + d2 + rest;
    var p := |pre|;
    var e := p + |d1|;
    RangeLayout(pre, d1, sep, d2, rest);
    FirstDigitAfter(pre, s);
    RunEndAt(s, p, d1);
    RunEndAt(s, e + 1, d2);
    CaptureRange(s, p, e, e + 1 + |d2|, unit);
  }

  /** Where the parts of "pre d1 sep d2 rest" sit. */
  lemma RangeLayout(pre: seq<byte>, d1: seq<byte>, sep: byte, d2: seq<byte>, rest: seq<byte>)
    requires |d1| > 0 && |d2| > 0
    ensures var s := pre + d1 + [sep] + d2 + rest;
      var p := |pre|;
      var e := p + |d1|;
      && |s| == e + 1 + |d2| + |rest|
      && s[..p] == pre && s[p..e] == d1 && s[p] == d1[0] && s[e] == sep
      && s[e + 1..e + 1 + |d2|] == d2
      && (e + 1 + |d2| < |s| ==> s[e + 1 + |d2|] == rest[0])
  {
    var s := pre + d1 + [sep] + d2 + rest;
    var p := |pre|;
    var e := p + |d1|;
    assert s == pre + (d1 + ([sep] + (d2 + rest)));
    assert s[..p] == pre;
    assert s[p..e] == d1;
    assert s[e + 1..e + 1 + |d2|] == d2;
  }

  /** The captures once the match positions are known. */
  lemma CaptureRange(s: seq<byte>, p: nat, e: nat, e2: nat, unit: set<byte>)
    requires FirstDigit(s, 0) == p && p < |s|
    requires RunEnd(s, p) == e && e + 1 < |s| && IsSeparator(s[e]) && IsDigit(s[e + 1])
    requires RunEnd(s, e + 1) == e2
    ensures Capture(s, unit) == Captured(DecimalValue(s[p..e]), Some(DecimalValue(s[e + 1..e2])))
  {
  }

  /**
   * A single number "pre d rest" whose rest does not continue with a separator
   * byte and a digit: the week count is that number.
   */
  lemma {:induction false} SingleWeeks(pre: seq<byte>, d: seq<byte>, rest: seq<byte>, unit: set<byte>)
    requires NoDigits(pre) && AllDigits(d) && |d| > 0
    requires |rest| > 0 ==> !IsDigit(rest[0])
    requires |rest| > 1 ==> !(IsSeparator(rest[0]) && IsDigit(rest[1]))
    ensures Capture(pre + d + rest, unit) == Captured(DecimalValue(d), None)
    ensures Weeks(Capture(pre + d + rest, unit)) == DecimalValue(d)
  {
    var s := pre + d + rest;
    var p := |pre|;
    var e := p + |d|;
    assert s[..p] == pre;
    assert s[p] == d[0];
    FirstDigitAfter(pre, s);
    assert s[p..e] == d;
    if e < |s| {
      assert s[e] == rest[0];
    }
    if e + 1 < |s| {
      assert s[e + 1] == rest[1];
    }
    RunEndAt(s, p, d);
  }

  /** UTF-8 bytes of the characters that appear in lead-time texts. */
  const About: seq<byte> := [0xE7, 0xB4, 0x84]            // 約
  const WaveDash: seq<byte> := [0xE3, 0x80, 0x9C]         // 〜
  const WeekUnit: seq<byte> := [0xE9, 0x80, 0xB1, 0xE9, 0x96, 0x93]   // 週間
  const MonthUnit: seq<byte> := [0xE3, 0x83, 0xB6, 0xE6, 0x9C, 0x88]  // ヶ月

  /** "約4-6週間" gives six weeks. */
  lemma AboutFourToSixWeeks(today: int)
    ensures EstimatedDelivery(Some(About + [0x34] + [0x2D] + [0x36] + WeekUnit), today) == today + 42
    ensures DeliveryDate(Some(About + [0x34] + [0x2D] + [0x36] + WeekUnit), today) == today + 42
  {
    assert NoDigits(About);
    RangeWeeks(About, [0x34], 0x2D, [0x36], WeekUnit, OrderUnit);
    SameEstimate(Some(About + [0x34] + [0x2D] + [0x36] + WeekUnit), today);
    SingleDigit(0x34);
    SingleDigit(0x36);
  }

  lemma SingleDigit(b: byte)
    requires IsDigit(b)
    ensures AllDigits([b]) && DecimalValue([b]) == DigitValue(b)
  {
    assert [b][..0] == [];
  }

  /**
   * "4〜6週間" gives four weeks, not six: the class consumes only the first byte
   * of 〜, the next byte is not a digit, so group 2 stays unset.
   */
  lemma WaveDashRangeReadsFirstNumber(today: int)
    ensures EstimatedDelivery(Some([0x34] + WaveDash + [0x36] + WeekUnit), today) == today + 28
  {
    var s := [0x34] + WaveDash + [0x36] + WeekUnit;
    assert s == [] + [0x34] + (WaveDash + [0x36] + WeekUnit);
    SingleWeeks([], [0x34], WaveDash + [0x36] + WeekUnit, OrderUnit);
    SingleDigit(0x34);
    assert Weeks(Capture(s, OrderUnit)) == 4;
  }

  /** "2-3ヶ月" is read as three weeks: the unit after the numbers is ignored. */
  lemma MonthsReadAsWeeks(today: int)
    ensures EstimatedDelivery(Some([0x32, 0x2D, 0x33] + MonthUnit), today) == today + 21
  {
    var s := [0x32, 0x2D, 0x33] + MonthUnit;
    assert s == [] + [0x32] + [0x2D] + [0x33] + MonthUnit;
    RangeWeeks([], [0x32], 0x2D, [0x33], MonthUnit, OrderUnit);
    SingleDigit(0x32);
    SingleDigit(0x33);
    assert Weeks(Capture(s, OrderUnit)) == 3;
  }
}
