/**
 * `fmt_time`: a `timedelta` written as `d:h:m:s:ms` with every zero field left out.
 *
 * A `timedelta` is given by its three normalised attributes `days`, `seconds` and
 * `microseconds`. The formatter is paired with a reader, `ParseTime`, and the round
 * trip `ParseTime(FmtTime(..))` recovers every field that is shown.
 */
module TimeFormat {
  import opened Wrappers
  import opened Decimal

  /** What `timedelta` guarantees about its `seconds` and `microseconds` attributes. */
  predicate Normalised(seconds: int, microseconds: int)
  {
    0 <= seconds < 86400 && 0 <= microseconds < 1000000
  }

  /** The five fields `fmt_time` computes, in output order. */
  datatype Parts = Parts(d: int, h: int, m: int, s: int, ms: int)

  /**
   * The `divmod` cascade. `int(microseconds / 1000.00)` is exact truncation here: the
   * quotient of an integer below 10^6 by 1000 is never within a rounding step of the
   * next integer.
   */
  function Components(days: int, seconds: int, microseconds: int): (p: Parts)
    requires Normalised(seconds, microseconds)
    ensures 0 <= p.ms < 1000 && 0 <= p.s < 60 && 0 <= p.m < 60 && 0 <= p.h < 24
    ensures p.d == days
    ensures p.ms * 1000 <= microseconds < p.ms * 1000 + 1000
    ensures seconds == p.h * 3600 + p.m * 60 + p.s
  {
    var ms := microseconds / 1000;
    var m0, s := seconds / 60, seconds % 60;
    var h0, m := m0 / 60, m0 % 60;
    var d0, h := h0 / 24, h0 % 24;
    Parts(d0 + days, h, m, s, ms)
  }

  /** One field: its digits and suffix when positive, nothing otherwise. */
  function Part(n: int, suffix: string): string
  {
    if n > 0 then NatToString(n) + suffix else ""
  }

  /**
   * `fmt_time`. Its round trip, `FmtTimeRoundTrip`, and `FmtTimeEmptyIff` and
   * `FmtTimeTrailingColon` say what the text means; the contract here says that no
   * number in it is ever written with a sign, so a negative day count is hidden.
   */
  function FmtTime(days: int, seconds: int, microseconds: int): (r: string)
    requires Normalised(seconds, microseconds)
    ensures r == "" || IsDigit(r[0])
    ensures '-' !in r
  {
    var p := Components(days, seconds, microseconds);
    var d, h, m, s, ms := Part(p.d, "d:"), Part(p.h, "h:"), Part(p.m, "m:"), Part(p.s, "s:"), Part(p.ms, "ms");
    PartShape(p.d, "d:"); PartShape(p.h, "h:"); PartShape(p.m, "m:"); PartShape(p.s, "s:"); PartShape(p.ms, "ms");
    ConcatShape(d, h); ConcatShape(d + h, m); ConcatShape(d + h + m, s); ConcatShape(d + h + m + s, ms);
    d + h + m + s + ms
  }

  /** A field starts with a digit when shown, and has a sign only if its suffix does. */
  lemma PartShape(n: int, suffix: string)
    requires '-' !in suffix
    ensures DigitFirst(Part(n, suffix)) && '-' !in Part(n, suffix)
  {
    if n > 0 {
      var digits := NatToString(n);
      assert (digits + suffix)[0] == digits[0];
      assert forall i :: 0 <= i < |digits| ==> digits[i] != '-';
    }
  }

  lemma ConcatShape(a: string, b: string)
    requires DigitFirst(a) && DigitFirst(b)
    ensures DigitFirst(a + b)
  {
    if a == [] {
      assert a + b == b;
    } else {
      assert (a + b)[0] == a[0];
    }
  }

  // ---------------------------------------------------------------------------
  // Reading a formatted duration back

  datatype Unit = Day | Hour | Minute | Second | Milli

  function Rank(u: Unit): nat
  {
    match u
    case Day => 0
    case Hour => 1
    case Minute => 2
    case Second => 3
    case Milli => 4
  }

  function Suffix(u: Unit): (s: string)
    ensures |s| == 2 && !IsDigit(s[0])
  {
    match u
    case Day => "d:"
    case Hour => "h:"
    case Minute => "m:"
    case Second => "s:"
    case Milli => "ms"
  }

  /** The unit whose suffix `s` starts with. */
  function UnitAt(s: string): (r: Option<Unit>)
    ensures r.Some? ==> |s| >= 2 && s[..2] == Suffix(r.value)
  {
    if |s| < 2 then None
    else if s[..2] == "d:" then Some(Day)
    else if s[..2] == "h:" then Some(Hour)
    else if s[..2] == "m:" then Some(Minute)
    else if s[..2] == "s:" then Some(Second)
    else if s[..2] == "ms" then Some(Milli)
    else None
  }

  function Set(p: Parts, u: Unit, n: nat): Parts
  {
    match u
    case Day => p.(d := n)
    case Hour => p.(h := n)
    case Minute => p.(m := n)
    case Second => p.(s := n)
    case Milli => p.(ms := n)
  }

  /**
   * Reads positive fields `<digits><suffix>` in strictly increasing unit order,
   * starting at unit rank `next`, into `acc`.
   */
  function ParseFrom(r: string, next: nat, acc: Parts): Option<Parts>
    decreases |r|
  {
    if r == [] then Some(acc)
    else
      var k := DigitRun(r);
      if k == 0 then None
      else
        var n := DigitsToNat(r[..k]);
        match UnitAt(r[k..])
        case None => None
        case Some(u) =>
          if Rank(u) < next || n == 0 then None
          else ParseFrom(r[k + 2..], Rank(u) + 1, Set(acc, u, n))
  }

  function ParseTime(r: string): Option<Parts>
  {
    ParseFrom(r, 0, Parts(0, 0, 0, 0, 0))
  }

  /** The fields a reader can see: a day count that is not positive is not shown. */
  function Shown(p: Parts): Parts
  {
    p.(d := if p.d > 0 then p.d else 0)
  }

  predicate DigitFirst(x: string)
  {
    x == [] || IsDigit(x[0])
  }

  lemma PartThenDigitFirst(n: int, u: Unit, x: string)
    requires DigitFirst(x)
    ensures DigitFirst(Part(n, Suffix(u)) + x)
  {
    if n > 0 {
      assert (Part(n, Suffix(u)) + x)[0] == NatToString(n)[0];
    }
  }

  /** One step of the reader over a field it accepts. */
  lemma ParseFromStep(r: string, next: nat, acc: Parts, k: nat, u: Unit)
    requires 0 < k == DigitRun(r) && UnitAt(r[k..]) == Some(u)
    requires Rank(u) >= next && DigitsToNat(r[..k]) > 0
    ensures ParseFrom(r, next, acc) == ParseFrom(r[k + 2..], Rank(u) + 1, Set(acc, u, DigitsToNat(r[..k])))
  {
  }

  /** A shown field is read back exactly, and the reader continues after it. */
  lemma ParseShownPart(n: int, u: Unit, x: string, next: nat, acc: Parts)
    requires n > 0 && Rank(u) >= next && DigitFirst(x)
    ensures ParseFrom(Part(n, Suffix(u)) + x, next, acc) == ParseFrom(x, Rank(u) + 1, Set(acc, u, n))
  {
    var digits := NatToString(n);
    var tail := Suffix(u) + x;
    var r := digits + tail;
    assert Part(n, Suffix(u)) + x == r;
    DigitRunOfConcat(digits, tail);
    var k := |digits|;
    assert r[..k] == digits;
    assert r[k..] == tail;
    assert tail[..2] == Suffix(u);
    assert UnitAt(r[k..]) == Some(u);
    NatToStringRoundTrip(n);
    assert DigitsToNat(r[..k]) == n;
    ParseFromStep(r, next, acc, k, u);
    assert r[k + 2..] == x;
  }

  /** A field is either read back and skipped, or absent and leaves the reader as it was. */
  lemma ParsePart(n: int, u: Unit, x: string, next: nat, acc: Parts)
    requires Rank(u) >= next && DigitFirst(x)
    ensures ParseFrom(Part(n, Suffix(u)) + x, next, acc)
         == if n > 0 then ParseFrom(x, Rank(u) + 1, Set(acc, u, n)) else ParseFrom(x, next, acc)
  {
    if n > 0 {
      ParseShownPart(n, u, x, next, acc);
    } else {
      assert Part(n, Suffix(u)) + x == x;
    }
  }

  /** Every field that `fmt_time` shows is read back, in order, and nothing else. */
  lemma FmtTimeRoundTrip(days: int, seconds: int, microseconds: int)
    requires Normalised(seconds, microseconds)
    ensures ParseTime(FmtTime(days, seconds, microseconds)) == Some(Shown(Components(days, seconds, microseconds)))
  {
    var p := Components(days, seconds, microseconds);
    var x5 := Part(p.ms, Suffix(Milli));
    var x4 := Part(p.s, Suffix(Second)) + x5;
    var x3 := Part(p.m, Suffix(Minute)) + x4;
    var x2 := Part(p.h, Suffix(Hour)) + x3;
    var x1 := Part(p.d, Suffix(Day)) + x2;
    FmtTimeAsFields(days, seconds, microseconds);
    assert FmtTime(days, seconds, microseconds) == x1;
    PartThenDigitFirst(p.ms, Milli, []);
    assert x5 + [] == x5;
    PartThenDigitFirst(p.s, Second, x5);
    PartThenDigitFirst(p.m, Minute, x4);
    PartThenDigitFirst(p.h, Hour, x3);
    var a0 := Parts(0, 0, 0, 0, 0);
    var a1 := if p.d > 0 then Set(a0, Day, p.d) else a0;
    var n1 := if p.d > 0 then 1 else 0;
    ParsePart(p.d, Day, x2, 0, a0);
    assert ParseFrom(x1, 0, a0) == ParseFrom(x2, n1, a1);
    var a2 := if p.h > 0 then Set(a1, Hour, p.h) else a1;
    var n2 := if p.h > 0 then 2 else n1;
    ParsePart(p.h, Hour, x3, n1, a1);
    assert ParseFrom(x2, n1, a1) == ParseFrom(x3, n2, a2);
    var a3 := if p.m > 0 then Set(a2, Minute, p.m) else a2;
    var n3 := if p.m > 0 then 3 else n2;
    ParsePart(p.m, Minute, x4, n2, a2);
    assert ParseFrom(x3, n2, a2) == ParseFrom(x4, n3, a3);
    var a4 := if p.s > 0 then Set(a3, Second, p.s) else a3;
    var n4 := if p.s > 0 then 4 else n3;
    ParsePart(p.s, Second, x5, n3, a3);
    assert ParseFrom(x4, n3, a3) == ParseFrom(x5, n4, a4);
    var a5 := if p.ms > 0 then Set(a4, Milli, p.ms) else a4;
    var n5 := if p.ms > 0 then 5 else n4;
    ParsePart(p.ms, Milli, [], n4, a4);
    assert ParseFrom(x5, n4, a4) == ParseFrom([], n5, a5);
    assert a5 == Shown(p);
  }

  /** `FmtTime` is the five fields in order, each with its unit's suffix. */
  lemma FmtTimeAsFields(days: int, seconds: int, microseconds: int)
    requires Normalised(seconds, microseconds)
    ensures var p := Components(days, seconds, microseconds);
            FmtTime(days, seconds, microseconds)
            == Part(p.d, Suffix(Day)) + (Part(p.h, Suffix(Hour)) + (Part(p.m, Suffix(Minute))
               + (Part(p.s, Suffix(Second)) + Part(p.ms, Suffix(Milli)))))
  {
  }

  /** The output is empty exactly when no field is positive; a zero duration gives "". */
  lemma FmtTimeEmptyIff(days: int, seconds: int, microseconds: int)
    requires Normalised(seconds, microseconds)
    ensures FmtTime(days, seconds, microseconds) == ""
        <==> days <= 0 && seconds == 0 && microseconds < 1000
  {
    var p := Components(days, seconds, microseconds);
    if p.d > 0 || p.h > 0 || p.m > 0 || p.s > 0 || p.ms > 0 {
      FmtTimeRoundTrip(days, seconds, microseconds);
      assert ParseTime("") == Some(Parts(0, 0, 0, 0, 0));
    }
  }

  /** Every shown field but `ms` ends in ':', so a result ends in ':' iff it is non-empty and has no `ms`. */
  lemma FmtTimeTrailingColon(days: int, seconds: int, microseconds: int)
    requires Normalised(seconds, microseconds)
    requires FmtTime(days, seconds, microseconds) != ""
    ensures var r := FmtTime(days, seconds, microseconds);
            r[|r| - 1] == ':' <==> microseconds < 1000
  {
    var p := Components(days, seconds, microseconds);
    var r := FmtTime(days, seconds, microseconds);
    var head := Part(p.d, "d:") + Part(p.h, "h:") + Part(p.m, "m:") + Part(p.s, "s:");
    assert r == head + Part(p.ms, "ms");
    if p.ms > 0 {
      assert r[|r| - 1] == 's';
    } else {
      assert r == head;
      if p.s > 0 {
        assert r[|r| - 1] == ':';
      } else if p.m > 0 {
        assert r[|r| - 1] == ':';
      } else if p.h > 0 {
        assert r[|r| - 1] == ':';
      } else {
        assert r[|r| - 1] == ':';
      }
    }
  }
}
