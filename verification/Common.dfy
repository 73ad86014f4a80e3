/** Shared result types and the decimal notation used in queue names and durations. */
module Common {
  datatype Option<+T> = None | Some(value: T)

  datatype Result<+T, +E> = Ok(value: T) | Err(error: E)
}

module Decimal {
  import opened Common

  predicate IsDigit(c: char) { '0' <= c <= '9' }

  function DigitValue(c: char): nat
    requires IsDigit(c)
  {
    c as nat - '0' as nat
  }

  predicate AllDigits(s: string) { forall i :: 0 <= i < |s| ==> IsDigit(s[i]) }

  /** The usual decimal rendering of a natural number, without leading zeros. */
  function Digits(n: nat): string {
    var last := [(n % 10 + '0' as nat) as char];
    if n < 10 then last else Digits(n / 10) + last
  }

  /** Value of a run of decimal digits, most significant first. */
  function Value(s: string): nat
    requires AllDigits(s)
  {
    if s == [] then 0 else 10 * Value(s[..|s| - 1]) + DigitValue(s[|s| - 1])
  }

  /** Longest prefix of `s` made of decimal digits. */
  function DigitPrefix(s: string): (p: string)
    ensures AllDigits(p)
  {
    if s != [] && IsDigit(s[0]) then [s[0]] + DigitPrefix(s[1..]) else []
  }

  predicate IsSpace(c: char) { c == ' ' || c == '\t' || c == '\n' || c == '\r' }

  function TrimStart(s: string): string {
    if s != [] && IsSpace(s[0]) then TrimStart(s[1..]) else s
  }

  /** `parseInt(s, 10)`: blanks, an optional sign, then digits; anything after them is ignored.
      `None` stands for NaN. */
  function ParseInt(s: string): Option<int> {
    var t := TrimStart(s);
    var negative := t != [] && t[0] == '-';
    var rest := if t != [] && (t[0] == '-' || t[0] == '+') then t[1..] else t;
    var digits := DigitPrefix(rest);
    if digits == [] then None else Some(if negative then -(Value(digits) as int) else Value(digits))
  }

  lemma {:induction false} DigitsAreDigits(n: nat)
    ensures Digits(n) != []
    ensures AllDigits(Digits(n))
  {
    if n >= 10 { DigitsAreDigits(n / 10); }
  }

  lemma {:induction false} ValueOfDigits(n: nat)
    ensures AllDigits(Digits(n))
    ensures Value(Digits(n)) == n
  {
    DigitsAreDigits(n);
    if n >= 10 {
      ValueOfDigits(n / 10);
      assert Digits(n)[..|Digits(n)| - 1] == Digits(n / 10);
    }
  }

  lemma {:induction false} DigitPrefixOf(a: string, b: string)
    requires AllDigits(a)
    requires b == [] || !IsDigit(b[0])
    ensures DigitPrefix(a + b) == a
  {
    if a == [] {
      assert a + b == b;
    } else {
      DigitPrefixOf(a[1..], b);
      assert (a + b)[1..] == a[1..] + b;
    }
  }

  lemma DigitsInjective(a: nat, b: nat)
    requires Digits(a) == Digits(b)
    ensures a == b
  {
    ValueOfDigits(a);
    ValueOfDigits(b);
  }
}

/** Sums over sequences. */
module Sums {
  function Sum<T>(q: seq<T>, f: T -> nat): nat {
    if q == [] then 0 else f(q[0]) + Sum(q[1..], f)
  }

  lemma {:induction false} SumAppend<T>(q: seq<T>, x: T, f: T -> nat)
    ensures Sum(q + [x], f) == Sum(q, f) + f(x)
  {
    if q == [] {
      assert (q + [x])[1..] == [];
    } else {
      assert (q + [x])[1..] == q[1..] + [x];
      SumAppend(q[1..], x, f);
    }
  }

  lemma {:induction false} SumUpdate<T>(q: seq<T>, i: nat, x: T, f: T -> nat)
    requires i < |q|
    ensures Sum(q[i := x], f) + f(q[i]) == Sum(q, f) + f(x)
  {
    if i == 0 {
      assert q[i := x][1..] == q[1..];
    } else {
      assert q[i := x][1..] == q[1..][i - 1 := x];
      SumUpdate(q[1..], i - 1, x, f);
    }
  }
}
