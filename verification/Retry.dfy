/** Decimal numbers as Python's `str` writes them and `int` reads them (ASCII text). */
module Decimal {
  import opened Prelude

  function DigitOf(c: char): Option<nat> {
    if '0' <= c <= '9' then Some((c - '0') as int) else None
  }

  function CharOf(d: nat): char
    requires d < 10
  {
    '0' + d as char
  }

  function NatToString(n: nat): (s: string)
    ensures s != []
  {
    if n < 10 then [CharOf(n)] else NatToString(n / 10) + [CharOf(n % 10)]
  }

  function IntToString(n: int): string {
    if n < 0 then "-" + NatToString(-n) else NatToString(n)
  }

  predicate Blank(c: char) {
    '\t' <= c <= '\r' || 0x1c as char <= c <= ' '
  }

  function StripLeft(s: string): string {
    if s != [] && Blank(s[0]) then StripLeft(s[1..]) else s
  }

  function StripRight(s: string): string {
    if s != [] && Blank(s[|s| - 1]) then StripRight(s[..|s| - 1]) else s
  }

  function Strip(s: string): string {
    StripRight(StripLeft(s))
  }

  /** Digits, with single underscores allowed between them. */
  function ParseDigits(s: string): Option<int> {
    if s == [] || DigitOf(s[|s| - 1]).None? then None
    else if |s| == 1 then Some(DigitOf(s[0]).value)
    else
      var rest := if s[|s| - 2] == '_' then s[..|s| - 2] else s[..|s| - 1];
      match ParseDigits(rest)
      case None => None
      case Some(high) => Some(10 * high + DigitOf(s[|s| - 1]).value)
  }

  /** `int(text)`, with `None` for ValueError. */
  function ParseInt(text: string): Option<int> {
    var s := Strip(text);
    if s != [] && s[0] == '-' then
      var magnitude := ParseDigits(s[1..]);
      if magnitude.None? then None else Some(-magnitude.value)
    else if s != [] && s[0] == '+' then ParseDigits(s[1..])
    else ParseDigits(s)
  }

  lemma {:induction false} NatDigits(n: nat)
    ensures ParseDigits(NatToString(n)) == Some(n)
    ensures forall i :: 0 <= i < |NatToString(n)| ==> '0' <= NatToString(n)[i] <= '9'
  {
    if n >= 10 {
      NatDigits(n / 10);
      var s := NatToString(n);
      assert s[..|s| - 1] == NatToString(n / 10);
    }
  }

  lemma {:induction false} StripLeavesAlone(s: string)
    requires s != [] && !Blank(s[0]) && !Blank(s[|s| - 1])
    ensures Strip(s) == s
  {
  }

  // ---------------------------------------------------------------- which texts are numbers

  /** Only blanks are cut off, and all of them. */
  lemma {:induction false} StripCutsBlanks(s: string) returns (left: string, right: string)
    ensures s == left + Strip(s) + right
    ensures forall c :: c in left || c in right ==> Blank(c)
    ensures Strip(s) != [] ==> !Blank(Strip(s)[0]) && !Blank(Strip(s)[|Strip(s)| - 1])
  {
    left := StripLeftCuts(s);
    right := StripRightCuts(StripLeft(s));
  }

  lemma {:induction false} StripLeftCuts(s: string) returns (left: string)
    ensures s == left + StripLeft(s) && forall c :: c in left ==> Blank(c)
    ensures StripLeft(s) != [] ==> !Blank(StripLeft(s)[0])
  {
    left := [];
    if s != [] && Blank(s[0]) {
      left := StripLeftCuts(s[1..]);
      left := [s[0]] + left;
    }
  }

  lemma {:induction false} StripRightCuts(s: string) returns (right: string)
    ensures s == StripRight(s) + right && forall c :: c in right ==> Blank(c)
    ensures StripRight(s) != [] ==> StripRight(s)[0] == s[0] && !Blank(StripRight(s)[|StripRight(s)| - 1])
  {
    right := [];
    if s != [] && Blank(s[|s| - 1]) {
      right := StripRightCuts(s[..|s| - 1]);
      right := right + [s[|s| - 1]];
    }
  }

  /** Digits, and underscores that each stand between two digits. */
  ghost predicate Numeral(s: string) {
    && s != [] && s[0] != '_' && s[|s| - 1] != '_'
    && (forall i :: 0 <= i < |s| ==> s[i] == '_' || '0' <= s[i] <= '9')
    && (forall i :: 0 < i < |s| ==> s[i - 1] != '_' || s[i] != '_')
  }

  /** The value of the digits read from the left, underscores skipped, after digits worth `high`. */
  function Reading(s: string, high: int): int {
    if s == [] then high
    else Reading(s[1..], if s[0] == '_' then high else 10 * high + (s[0] as int - '0' as int))
  }

  lemma {:induction false} ReadingOfAppend(s: string, c: char, high: int)
    ensures Reading(s + [c], high) ==
              if c == '_' then Reading(s, high) else 10 * Reading(s, high) + (c as int - '0' as int)
  {
    if s == [] {
      assert Reading([c][1..], 0) == 0;
    } else {
      assert (s + [c])[1..] == s[1..] + [c];
      ReadingOfAppend(s[1..], c, if s[0] == '_' then high else 10 * high + (s[0] as int - '0' as int));
    }
  }

  lemma {:induction false} OneDigit(c: char)
    ensures Numeral([c]) <==> DigitOf(c).Some?
    ensures Reading([c], 0) == c as int - '0' as int || c == '_'
  {
    assert Reading([c][1..], c as int - '0' as int) == c as int - '0' as int;
  }

  lemma {:induction false} LastDigit(s: string)
    requires |s| >= 2
    ensures Numeral(s) ==> DigitOf(s[|s| - 1]).Some?
    ensures DigitOf(s[|s| - 1]).Some? && s[|s| - 2] != '_' ==> (Numeral(s) <==> Numeral(s[..|s| - 1]))
  {
    var init := s[..|s| - 1];
    assert init[|init| - 1] == s[|s| - 2] && init[0] == s[0];
  }

  lemma {:induction false} LastUnderscore(s: string)
    requires |s| >= 2 && DigitOf(s[|s| - 1]).Some? && s[|s| - 2] == '_'
    ensures Numeral(s) <==> Numeral(s[..|s| - 2])
  {
    var rest := s[..|s| - 2];
    if Numeral(s) {
      assert s[|s| - 3] != '_' by { assert |s| >= 3; }
      assert rest[0] == s[0] && rest[|rest| - 1] == s[|s| - 3];
    }
    if Numeral(rest) {
      assert rest[|rest| - 1] == s[|s| - 3];
    }
  }

  /** A text parses as digits exactly when it is a numeral, and then to the value read from left to right. */
  lemma {:induction false} DigitsParseIff(s: string)
    ensures ParseDigits(s).Some? <==> Numeral(s)
    ensures Numeral(s) ==> ParseDigits(s) == Some(Reading(s, 0))
  {
    if s == [] {
      return;
    }
    hide Numeral, Reading;
    var last := s[|s| - 1];
    OneDigit(last);
    if |s| == 1 {
      assert s == [last];
      return;
    }
    LastDigit(s);
    if DigitOf(last).Some? {
      var init := s[..|s| - 1];
      assert s == init + [last];
      ReadingOfAppend(init, last, 0);
      if s[|s| - 2] == '_' {
        var rest := s[..|s| - 2];
        assert init == rest + ['_'];
        ReadingOfAppend(rest, '_', 0);
        DigitsParseIff(rest);
        LastUnderscore(s);
      } else {
        DigitsParseIff(init);
      }
    }
  }

  /** Reading back what was written gives the number, for every integer. */
  lemma {:induction false} IntRoundTrip(n: int)
    ensures ParseInt(IntToString(n)) == Some(n)
  {
    hide NatToString, ParseDigits, Strip;
    var digits := NatToString(if n < 0 then -n else n);
    NatDigits(if n < 0 then -n else n);
    var s := IntToString(n);
    assert digits[|digits| - 1] == s[|s| - 1];
    StripLeavesAlone(s);
    if n < 0 {
      assert s[1..] == digits;
    }
  }
}

/** Kafka headers as the publisher encodes them and the worker decodes them. */
module Headers {
  import opened Prelude

  /** UTF-8 text, or bytes that decode with replacement characters. */
  datatype Bytes = Utf8(text: string) | Malformed(replaced: string)

  type WireHeaders = Option<seq<(string, Option<Bytes>)>>

  function Text(bytes: Bytes): string {
    match bytes
    case Utf8(text) => text
    case Malformed(replaced) => replaced
  }

  /** The publisher's encoding of a dict, whose items come in insertion order; an empty one is dropped. */
  function Encoded(items: seq<(string, string)>): WireHeaders {
    if items == [] then None
    else Some(seq(|items|, i requires 0 <= i < |items| => (items[i].0, Some(Utf8(items[i].1)))))
  }

  function DecodedList(list: seq<(string, Option<Bytes>)>): map<string, string> {
    if list == [] then map[]
    else
      var earlier := DecodedList(list[..|list| - 1]);
      var (key, value) := list[|list| - 1];
      match value
      case None => earlier
      case Some(bytes) => earlier[key := Text(bytes)]
  }

  function Decoded(headers: WireHeaders): map<string, string> {
    match headers
    case None => map[]
    case Some(list) => DecodedList(list)
  }

  /** The last value of a key that is not null stands at `i`. */
  ghost predicate LastValueAt(list: seq<(string, Option<Bytes>)>, i: nat, key: string) {
    && i < |list| && list[i].0 == key && list[i].1.Some?
    && (forall j :: i < j < |list| && list[j].0 == key ==> list[j].1.None?)
  }

  /** The decoded map holds exactly the keys with such a value, each with its text. */
  lemma {:induction false} LastValueCounts(list: seq<(string, Option<Bytes>)>, key: string)
    ensures key in DecodedList(list) <==> exists i: nat :: LastValueAt(list, i, key)
    ensures forall i: nat :: LastValueAt(list, i, key) ==>
              key in DecodedList(list) && DecodedList(list)[key] == Text(list[i].1.value)
  {
    if list != [] {
      var init, last := list[..|list| - 1], list[|list| - 1];
      LastValueCounts(init, key);
      if last.0 == key && last.1.Some? {
        assert LastValueAt(list, |init|, key);
      } else {
        forall i: nat ensures LastValueAt(list, i, key) <==> LastValueAt(init, i, key) {
        }
        if key in DecodedList(init) {
          var i: nat :| LastValueAt(init, i, key);
          assert LastValueAt(list, i, key);
        }
      }
    }
  }

  method DecodeHeaders(headers: WireHeaders) returns (decoded: map<string, string>)
    ensures decoded == Decoded(headers)
  {
    decoded := map[];
    if headers.None? || headers.value == [] {
      return;
    }
    var list := headers.value;
    for i := 0 to |list|
      invariant decoded == DecodedList(list[..i])
    {
      assert list[..i + 1][..i] == list[..i];
      var (key, value) := list[i];
      if value.None? {
        continue;
      }
      decoded := decoded[key := Text(value.value)];
    }
    assert list[..|list|] == list;
  }

  ghost predicate DistinctKeys(items: seq<(string, string)>) {
    forall i, j :: 0 <= i < j < |items| ==> items[i].0 != items[j].0
  }

  lemma {:induction false} DecodedItems(items: seq<(string, string)>, n: nat, key: string)
    requires DistinctKeys(items) && n <= |items|
    ensures var wire := seq(|items|, i requires 0 <= i < |items| => (items[i].0, Some(Utf8(items[i].1))));
            var decoded := DecodedList(wire[..n]);
            && (key in decoded <==> exists i :: 0 <= i < n && items[i].0 == key)
            && (forall i :: 0 <= i < n && items[i].0 == key ==> decoded[key] == items[i].1)
  {
    if n > 0 {
      var wire := seq(|items|, i requires 0 <= i < |items| => (items[i].0, Some(Utf8(items[i].1))));
      assert wire[..n][..n - 1] == wire[..n - 1];
      DecodedItems(items, n - 1, key);
    }
  }

  /** Every dict of headers survives the trip: the decoded map holds exactly its items. */
  lemma {:induction false} HeadersSurvive(items: seq<(string, string)>, key: string, value: string)
    requires DistinctKeys(items)
    ensures (key in Decoded(Encoded(items)) && Decoded(Encoded(items))[key] == value) <==> (key, value) in items
  {
    var wire := seq(|items|, i requires 0 <= i < |items| => (items[i].0, Some(Utf8(items[i].1))));
    assert wire[..|items|] == wire;
    DecodedItems(items, |items|, key);
  }
}

/** Backoff over the reals. */
module Backoff {
  import opened Prelude

  datatype Policy = Policy(maxCount: int, base: real, multiplier: real, maxSeconds: real)

  ghost predicate Growing(p: Policy) {
    p.base >= 0.0 && p.multiplier >= 1.0
  }

  function Power(x: real, n: nat): real {
    if n == 0 then 1.0 else x * Power(x, n - 1)
  }

  function Min(a: real, b: real): real {
    if b < a then b else a
  }

  /** The exponential before the cap; the first retry waits `base`. */
  function Uncapped(p: Policy, retryCount: nat): real {
    if retryCount <= 1 then p.base * Power(p.multiplier, 0) else p.base * Power(p.multiplier, retryCount - 1)
  }

  /** `_compute_retry_backoff_seconds`. */
  function Delay(p: Policy, retryCount: int): real {
    Min(Uncapped(p, if retryCount > 1 then retryCount else 1), p.maxSeconds)
  }

  /** `int(seconds * 1000)`. */
  function Millis(seconds: real): int {
    Truncate(seconds * 1000.0)
  }

  lemma {:induction false} PowerAtLeastOne(x: real, n: nat)
    requires x >= 1.0
    ensures Power(x, n) >= 1.0
  {
    if n > 0 {
      PowerAtLeastOne(x, n - 1);
      ScaleUp(Power(x, n - 1), x);
    }
  }

  lemma {:induction false} ScaleUp(a: real, x: real)
    requires a >= 0.0 && x >= 1.0
    ensures x * a >= a
  {
    assert x * a - a == (x - 1.0) * a;
  }

  lemma {:induction false} ProductMonotone(c: real, a: real, b: real)
    requires c >= 0.0 && a <= b
    ensures c * a <= c * b
  {
    assert c * b - c * a == c * (b - a);
  }

  lemma {:induction false} UncappedStep(p: Policy, n: nat)
    requires Growing(p) && n >= 1
    ensures 0.0 <= Uncapped(p, n) <= Uncapped(p, n + 1)
  {
    var a := Power(p.multiplier, n - 1);
    PowerAtLeastOne(p.multiplier, n - 1);
    ScaleUp(a, p.multiplier);
    ProductMonotone(p.base, 0.0, a);
    ProductMonotone(p.base, a, p.multiplier * a);
  }

  lemma {:induction false} UncappedGrows(p: Policy, n: nat)
    requires n >= 1
    ensures Uncapped(p, n + 1) == p.multiplier * Uncapped(p, n)
  {
    var a := Power(p.multiplier, n - 1);
    assert Power(p.multiplier, n) == p.multiplier * a;
    hide Power;
    assert p.base * (p.multiplier * a) == p.multiplier * (p.base * a);
  }

  /** The delay never shrinks as retries go on, and never exceeds the cap. */
  lemma {:induction false} DelayIsMonotoneAndCapped(p: Policy, m: int, n: int)
    requires Growing(p) && m <= n
    ensures Delay(p, m) <= Delay(p, n) <= p.maxSeconds
    decreases n - m
  {
    if m < n {
      DelayIsMonotoneAndCapped(p, m, n - 1);
      if n > 1 {
        UncappedStep(p, n - 1);
      }
    }
  }

  /** The first retry waits the base, and each further one the multiple of the last, up to the cap. */
  lemma {:induction false} DelayGrowsByTheMultiplier(p: Policy, n: nat)
    requires Growing(p) && p.maxSeconds >= 0.0 && n >= 1
    ensures Delay(p, 1) == if p.base <= p.maxSeconds then p.base else p.maxSeconds
    ensures var next := p.multiplier * Delay(p, n);
            Delay(p, n + 1) == if next <= p.maxSeconds then next else p.maxSeconds
  {
    assert Uncapped(p, 1) == p.base;
    hide Uncapped;
    UncappedStep(p, n);
    UncappedGrows(p, n);
    if Uncapped(p, n) > p.maxSeconds {
      ScaleUp(p.maxSeconds, p.multiplier);
    }
  }

  /** A delay is written down in whole milliseconds, rounded down. */
  lemma {:induction false} MillisRoundsDown(seconds: real)
    requires seconds >= 0.0
    ensures Millis(seconds) as real <= 1000.0 * seconds < Millis(seconds) as real + 1.0
  {
  }

  /** The scheduled delays of the first `n` retries, added up. */
  function Total(p: Policy, n: nat): real {
    if n == 0 then 0.0 else Total(p, n - 1) + Delay(p, n)
  }

  function TotalMillis(p: Policy, n: nat): int {
    if n == 0 then 0 else TotalMillis(p, n - 1) + Millis(Delay(p, n))
  }

  /** Base times (m^n - 1) / (m - 1), or n times base when the multiplier is one. */
  function Geometric(p: Policy, n: nat): real
    requires p.multiplier >= 1.0
  {
    if p.multiplier == 1.0 then p.base * n as real
    else p.base * ((Power(p.multiplier, n) - 1.0) / (p.multiplier - 1.0))
  }

  lemma {:induction false} PowerOfOne(n: nat)
    ensures Power(1.0, n) == 1.0
  {
    if n > 0 {
      PowerOfOne(n - 1);
    }
  }

  lemma {:induction false} GeometricStep(p: Policy, n: nat)
    requires Growing(p)
    ensures Geometric(p, n + 1) == Geometric(p, n) + p.base * Power(p.multiplier, n)
  {
    var m, a := p.multiplier, Power(p.multiplier, n);
    if m == 1.0 {
      PowerOfOne(n);
      assert p.base * (n + 1) as real == p.base * n as real + p.base;
    } else {
      var d := m - 1.0;
      assert Power(m, n + 1) - 1.0 == (a - 1.0) + d * a;
      calc {
        (m * a - 1.0) / d;
        ((a - 1.0) + d * a) / d;
        (a - 1.0) / d + (d * a) / d;
        { Cancel(d, a); }
        (a - 1.0) / d + a;
      }
      assert p.base * ((a - 1.0) / d + a) == p.base * ((a - 1.0) / d) + p.base * a;
    }
  }

  lemma {:induction false} Cancel(d: real, a: real)
    requires d != 0.0
    ensures (d * a) / d == a
  {
  }

  lemma {:induction false} OneMore(n: nat, c: real)
    requires n >= 1
    ensures n as real * c == (n - 1) as real * c + c
  {
  }

  lemma {:induction false} DelayIsCapped(p: Policy, n: nat)
    ensures Delay(p, n) <= p.maxSeconds
  {
  }

  lemma {:induction false} DelayBelowUncapped(p: Policy, n: nat)
    requires n >= 1
    ensures Delay(p, n) <= p.base * Power(p.multiplier, n - 1)
  {
    hide Power;
  }

  lemma {:induction false} DelayWithinGrowth(p: Policy, n: nat)
    requires Growing(p) && n >= 1
    ensures Geometric(p, n) >= Geometric(p, n - 1) + Delay(p, n)
  {
    hide Geometric, Power;
    GeometricStep(p, n - 1);
    DelayBelowUncapped(p, n);
  }

  lemma {:induction false} TotalBelowCap(p: Policy, n: nat)
    ensures Total(p, n) <= n as real * p.maxSeconds
  {
    hide Delay;
    if n == 0 {
      assert n as real * p.maxSeconds == 0.0;
    } else {
      TotalBelowCap(p, n - 1);
      DelayIsCapped(p, n);
      OneMore(n, p.maxSeconds);
    }
  }

  lemma {:induction false} GeometricZero(p: Policy)
    requires p.multiplier >= 1.0
    ensures Geometric(p, 0) == 0.0
  {
    assert Power(p.multiplier, 0) - 1.0 == 0.0;
  }

  lemma {:induction false} TotalBelowGrowth(p: Policy, n: nat)
    requires Growing(p)
    ensures Total(p, n) <= Geometric(p, n)
  {
    hide Geometric, Delay;
    if n == 0 {
      GeometricZero(p);
    } else {
      TotalBelowGrowth(p, n - 1);
      DelayWithinGrowth(p, n);
    }
  }

  /** Along a whole lineage of `n` retries the delays stay within both bounds. */
  lemma {:induction false} TotalDelayIsBounded(p: Policy, n: nat)
    requires Growing(p)
    ensures Total(p, n) <= Min(n as real * p.maxSeconds, Geometric(p, n))
  {
    TotalBelowCap(p, n);
    TotalBelowGrowth(p, n);
  }

  /** Both bounds for the waits of `n` retries, in milliseconds. */
  ghost predicate WithinBounds(p: Policy, n: nat, millis: int)
    requires p.multiplier >= 1.0
  {
    0 <= millis && millis as real <= 1000.0 * Min(n as real * p.maxSeconds, Geometric(p, n))
  }

  /** Truncation to milliseconds only shortens the schedule. */
  lemma {:induction false} TotalMillisIsBounded(p: Policy, n: nat)
    requires Growing(p) && p.maxSeconds >= 0.0
    ensures WithinBounds(p, n, TotalMillis(p, n))
  {
    TotalDelayIsBounded(p, n);
    MillisBelowTotal(p, n);
  }

  lemma {:induction false} MillisBelowTotal(p: Policy, n: nat)
    requires Growing(p) && p.maxSeconds >= 0.0
    ensures 0 <= TotalMillis(p, n) && TotalMillis(p, n) as real <= 1000.0 * Total(p, n)
  {
    if n > 0 {
      MillisBelowTotal(p, n - 1);
      UncappedStep(p, n);
      assert Delay(p, n) >= 0.0;
    }
  }
}
