/** Token lifetimes as they are configured: what `parseTtlSeconds` reads in a duration, and what the signing
    library makes of the same text. */
module Durations {
  import opened Common
  import opened Decimal

  predicate EndsWith(s: string, suffix: string) { |suffix| <= |s| && s[|s| - |suffix|..] == suffix }

  /** `parseTtlSeconds`. */
  function ParseTtlSeconds(expiresIn: string): Option<int> {
    match ParseInt(expiresIn)
    case None => None
    case Some(value) =>
      if EndsWith(expiresIn, "h") then Some(value * 3600)
      else if EndsWith(expiresIn, "d") then Some(value * 86400)
      else if EndsWith(expiresIn, "m") then Some(value * 60)
      else Some(value)
  }

  /** The factor a last character stands for. */
  function Factor(c: char): nat { if c == 'h' then 3600 else if c == 'd' then 86400 else if c == 'm' then 60 else 1 }

  function Sign(negative: bool): string { if negative then "-" else "" }

  function WithSign(negative: bool, n: nat): int { if negative then -(n as int) else n }

  /** Whatever follows the digits, a fraction, blanks or a long name, only its last character counts. */
  lemma ParsedTtl(negative: bool, digits: string, rest: string)
    requires digits != [] && AllDigits(digits) && (rest == [] || !IsDigit(rest[0]))
    ensures var s := Sign(negative) + digits + rest;
            ParseTtlSeconds(s) == Some(WithSign(negative, Value(digits)) * Factor(s[|s| - 1]))
  {
    var s := Sign(negative) + digits + rest;
    ParseSigned(negative, digits, rest);
    hide ParseInt, Value, WithSign;
    LastChar(s);
  }

  lemma ParseSigned(negative: bool, digits: string, rest: string)
    requires digits != [] && AllDigits(digits) && (rest == [] || !IsDigit(rest[0]))
    ensures ParseInt(Sign(negative) + digits + rest) == Some(WithSign(negative, Value(digits)))
  {
    DigitPrefixOf(digits, rest);
    var s := Sign(negative) + digits + rest;
    assert IsDigit(digits[0]) && s[0] == if negative then '-' else digits[0];
    assert TrimStart(s) == s;
    hide DigitPrefix, TrimStart, Value;
    assert if negative then s[1..] == digits + rest else s == digits + rest;
  }

  lemma LastChar(s: string)
    requires s != []
    ensures EndsWith(s, "h") <==> s[|s| - 1] == 'h'
    ensures EndsWith(s, "d") <==> s[|s| - 1] == 'd'
    ensures EndsWith(s, "m") <==> s[|s| - 1] == 'm'
  {
    assert s[|s| - 1..] == [s[|s| - 1]];
  }

  /** Without a digit before the point there is nothing to read. */
  lemma NothingParsed(negative: bool, rest: string)
    ensures ParseTtlSeconds(Sign(negative) + "." + rest) == None
  {
    var s := Sign(negative) + "." + rest;
    assert TrimStart(s) == s;
    assert (if negative then s[1..] else s) == "." + rest && DigitPrefix("." + rest) == [];
  }

  // ---------------------------------------------------------------- the signing library's notation

  datatype Unit = Millisecond | Second | Minute | Hour | Day | Week | Year

  function Seconds(u: Unit): real {
    match u
    case Millisecond => 0.001
    case Second => 1.0
    case Minute => 60.0
    case Hour => 3600.0
    case Day => 86400.0
    case Week => 604800.0
    case Year => 31557600.0
  }

  function Lower(s: string): (r: string)
    ensures |r| == |s|
    ensures forall i :: 0 <= i < |s| ==> r[i] == if 'A' <= s[i] <= 'Z' then s[i] + 32 as char else s[i]
  {
    seq(|s|, i requires 0 <= i < |s| => if 'A' <= s[i] <= 'Z' then s[i] + 32 as char else s[i])
  }

  function LowerUnit(s: string): Option<Unit> {
    if s == "" || s == "ms" || s == "msec" || s == "msecs" || s == "millisecond" || s == "milliseconds" then Some(Millisecond)
    else if s == "s" || s == "sec" || s == "secs" || s == "second" || s == "seconds" then Some(Second)
    else if s == "m" || s == "min" || s == "mins" || s == "minute" || s == "minutes" then Some(Minute)
    else if s == "h" || s == "hr" || s == "hrs" || s == "hour" || s == "hours" then Some(Hour)
    else if s == "d" || s == "day" || s == "days" then Some(Day)
    else if s == "w" || s == "week" || s == "weeks" then Some(Week)
    else if s == "y" || s == "yr" || s == "yrs" || s == "year" || s == "years" then Some(Year)
    else None
  }

  /** Spellings are read without regard to case; no unit at all means milliseconds. */
  function UnitOf(spelling: string): Option<Unit> { LowerUnit(Lower(spelling)) }

  /** A sign, digits, a fraction, blanks and a unit; an empty fraction is written without the point. */
  datatype Duration = Duration(negative: bool, whole: string, fraction: string, blanks: nat, spelling: string)

  predicate WellFormed(d: Duration) {
    AllDigits(d.whole) && AllDigits(d.fraction) && d.whole + d.fraction != [] && UnitOf(d.spelling).Some?
  }

  function Pointed(fraction: string): string { if fraction == [] then [] else "." + fraction }

  function AfterWhole(d: Duration): string {
    Pointed(d.fraction) + seq(d.blanks, _ => ' ') + d.spelling
  }

  function Written(d: Duration): string { Sign(d.negative) + d.whole + AfterWhole(d) }

  function Power(n: nat): (p: nat)
    ensures p > 0
  {
    if n == 0 then 1 else 10 * Power(n - 1)
  }

  /** The fraction as a number from 0 to 1. */
  function Part(fraction: string): real
    requires AllDigits(fraction)
  {
    Value(fraction) as real / Power(|fraction|) as real
  }

  lemma {:induction false} ValueBelow(s: string)
    requires AllDigits(s)
    ensures Value(s) < Power(|s|)
  {
    if s != [] { ValueBelow(s[..|s| - 1]); }
  }

  lemma PartBelowOne(fraction: string)
    requires AllDigits(fraction)
    ensures 0.0 <= Part(fraction) < 1.0
  {
    ValueBelow(fraction);
    Below(Value(fraction), Power(|fraction|));
  }

  lemma Below(a: nat, b: nat)
    requires a < b
    ensures 0.0 <= a as real / b as real < 1.0
  {
  }

  /** Whole seconds in an amount of a unit. */
  function InSeconds(amount: real, u: Unit): int { (amount * Seconds(u)).Floor }

  function Amount(negative: bool, whole: nat, part: real): real {
    if negative then -(whole as real + part) else whole as real + part
  }

  /** Whole seconds from signing to expiry. */
  function LifeSeconds(d: Duration): int
    requires WellFormed(d)
  {
    InSeconds(Amount(d.negative, Value(d.whole), Part(d.fraction)), UnitOf(d.spelling).value)
  }

  function UnreadSeconds(known: bool, whole: nat, part: real, u: Unit): real {
    (part + if known then 0.0 else whole as real) * Seconds(u)
  }

  /** The spellings of a unit that `parseTtlSeconds` knows. */
  predicate Known(spelling: string) { spelling == "m" || spelling == "h" || spelling == "d" }

  /** The part of the amount that `parseTtlSeconds` does not scale to seconds, in seconds. */
  function Unread(d: Duration): real
    requires WellFormed(d)
  {
    UnreadSeconds(Known(d.spelling), Value(d.whole), Part(d.fraction), UnitOf(d.spelling).value)
  }

  /** What `parseTtlSeconds` multiplies by when the unit is spelled so. */
  function ReadFactor(spelling: string): nat { if spelling == "" then 1 else Factor(spelling[|spelling| - 1]) }

  /** The three known spellings are scaled as the library does, all other minutes and longer units are not,
      and `second` ends in a `d`. */
  lemma SpellingFactor(spelling: string)
    requires UnitOf(spelling).Some?
    ensures ReadFactor(spelling) >= 1
    ensures Known(spelling) ==> ReadFactor(spelling) as real == Seconds(UnitOf(spelling).value)
    ensures !Known(spelling) && !UnitOf(spelling).value.Millisecond? && !UnitOf(spelling).value.Second? ==> ReadFactor(spelling) == 1
    ensures ReadFactor("second") == 86400
  {
    var s, n := Lower(spelling), |spelling| - 1;
    if spelling != "" && Factor(spelling[n]) != 1 {
      assert s[n] == spelling[n];
      OneLetter(s);
      if n == 0 { assert spelling == [spelling[0]]; }
    }
  }

  /** Only the one-letter units, and `second`, end in a letter that `parseTtlSeconds` looks for. */
  lemma OneLetter(s: string)
    requires LowerUnit(s).Some? && s != [] && Factor(s[|s| - 1]) != 1
    ensures |s| == 1 || LowerUnit(s).value.Millisecond? || LowerUnit(s).value.Second?
  {
  }

  /** `parseTtlSeconds` on a duration in the library's notation. */
  lemma TtlOf(d: Duration)
    requires WellFormed(d)
    ensures ParseTtlSeconds(Written(d)) ==
            if d.whole == [] then None else Some(WithSign(d.negative, Value(d.whole)) * ReadFactor(d.spelling))
  {
    var rest := AfterWhole(d);
    EndOf(d);
    assert Written(d) == Sign(d.negative) + d.whole + rest;
    if d.whole == [] { PointFirst(d); }
    hide Value, WithSign, UnitOf, ParseTtlSeconds, AllDigits, Factor, AfterWhole, Pointed, Sign;
    if d.whole == [] {
      NothingParsed(d.negative, rest[1..]);
    } else {
      ParsedTtl(d.negative, d.whole, rest);
    }
  }

  lemma PointFirst(d: Duration)
    requires WellFormed(d) && d.whole == []
    ensures AfterWhole(d) != [] && Written(d) == Sign(d.negative) + "." + AfterWhole(d)[1..]
  {
    assert AfterWhole(d) == "." + AfterWhole(d)[1..];
  }

  lemma LastOf(a: string, b: string)
    requires b != []
    ensures (a + b)[|a + b| - 1] == b[|b| - 1]
  {
  }

  lemma LetterFirst(spelling: string)
    requires UnitOf(spelling).Some?
    ensures spelling != [] ==> !IsDigit(spelling[0])
  {
  }

  lemma AfterWholeFirst(d: Duration)
    requires WellFormed(d)
    ensures AfterWhole(d) != [] ==> !IsDigit(AfterWhole(d)[0])
  {
    LetterFirst(d.spelling);
    hide UnitOf;
  }

  lemma DigitsEnd(a: string, digits: string)
    requires digits != [] && AllDigits(digits)
    ensures Factor((a + digits)[|a + digits| - 1]) == 1
  {
    LastOf(a, digits);
  }

  lemma BlanksEnd(a: string, n: nat)
    requires n > 0
    ensures var s := a + seq(n, _ => ' '); s[|s| - 1] == ' '
  {
    LastOf(a, seq(n, _ => ' '));
  }

  /** What follows the whole part ends in the unit, or in a digit or a blank. */
  lemma AfterWholeLast(d: Duration)
    requires WellFormed(d) && AfterWhole(d) != []
    ensures Factor(AfterWhole(d)[|AfterWhole(d)| - 1]) == ReadFactor(d.spelling)
  {
    hide UnitOf, AllDigits;
    var point, blanks := Pointed(d.fraction), seq(d.blanks, _ => ' ');
    if d.spelling != [] {
      LastOf(point + blanks, d.spelling);
    } else if d.blanks > 0 {
      assert AfterWhole(d) == point + blanks;
      BlanksEnd(point, d.blanks);
    } else {
      assert AfterWhole(d) == "." + d.fraction;
      DigitsEnd(".", d.fraction);
    }
  }

  /** So does the duration itself. */
  lemma EndOf(d: Duration)
    requires WellFormed(d)
    ensures AfterWhole(d) != [] && d.whole != [] ==> !IsDigit(AfterWhole(d)[0])
    ensures Written(d) != []
    ensures Factor(Written(d)[|Written(d)| - 1]) == ReadFactor(d.spelling)
  {
    AfterWholeFirst(d);
    hide UnitOf, AllDigits, Factor;
    var front := Sign(d.negative) + d.whole;
    if AfterWhole(d) != [] {
      AfterWholeLast(d);
      hide AfterWhole, ReadFactor;
      LastOf(front, AfterWhole(d));
    } else {
      DigitsEnd(Sign(d.negative), d.whole);
      assert Written(d) == front;
    }
  }
}
