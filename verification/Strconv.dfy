// strconv as the handlers use it (internal/modules/task/handler.go): the digit loop is written
// out, with its 64-bit overflow checks, because it decides which ids and pages exist.

module Strconv {
  import opened Prelude
  import opened Decimal

  // math.MaxUint64/10 + 1: the smallest n for which n*10 overflows 64 bits.
  const CUTOFF: nat := 1844674407370955162

  ghost predicate DenotesUint64(s: string) {
    s != [] && AllDigits(s) && Value(s) < TWO_64
  }

  // strconv.ParseUint(s, 10, 64). None stands for a syntax or a range error.
  method ParseUint(s: string) returns (r: Option<nat>)
    ensures r.Some? <==> DenotesUint64(s)
    ensures r.Some? ==> r.value == Value(s)
  {
    if s == "" {
      return None;
    }
    var n := 0;
    for i := 0 to |s|
      invariant AllDigits(s[..i]) && n == Value(s[..i]) < TWO_64
    {
      if !IsDigit(s[i]) {
        return None;
      }
      var d := DigitValue(s[i]);
      assert s[..i + 1][..i] == s[..i];
      assert AllDigits(s[..i + 1]) && Value(s[..i + 1]) == 10 * n + d;
      if n >= CUTOFF {
        if AllDigits(s) { PrefixValue(s, i + 1); }
        return None;
      }
      n := n * 10 % TWO_64;             // uint64 arithmetic wraps
      var n1 := (n + d) % TWO_64;
      if n1 < n {
        if AllDigits(s) { PrefixValue(s, i + 1); }
        return None;
      }
      n := n1;
    }
    assert s[..|s|] == s;
    r := Some(n);
  }

  // What strconv.Atoi accepts: an optional sign, then digits.
  function Unsigned(s: string): string {
    if s != [] && (s[0] == '+' || s[0] == '-') then s[1..] else s
  }

  ghost predicate DenotesInt64(s: string) {
    var u := Unsigned(s);
    u != [] && AllDigits(u) && Value(u) < (if s[0] == '-' then TWO_63 + 1 else TWO_63)
  }

  ghost function SignedValue(s: string): int
    requires DenotesInt64(s)
  {
    var v: int := Value(Unsigned(s));
    if s[0] == '-' then -v else v
  }

  // Digits with a plus, a minus or no sign denote what they say, if it fits in 64 bits.
  lemma SignedNumeral(d: string)
    requires d != [] && AllDigits(d)
    ensures DenotesInt64(d) <==> Value(d) < TWO_63
    ensures DenotesInt64("+" + d) <==> Value(d) < TWO_63
    ensures DenotesInt64("-" + d) <==> Value(d) <= TWO_63
    ensures DenotesInt64(d) ==> SignedValue(d) == SignedValue("+" + d) == Value(d)
    ensures DenotesInt64("-" + d) ==> SignedValue("-" + d) == -(Value(d) as int)
  {
    assert IsDigit(d[0]) && !IsDigit('-') && !IsDigit('+');
    assert ("+" + d)[1..] == d && ("-" + d)[1..] == d;
  }

  // And nothing else denotes a number.
  lemma OnlyNumerals(s: string) returns (d: string)
    requires DenotesInt64(s)
    ensures d != [] && AllDigits(d) && (s == d || s == "+" + d || s == "-" + d)
  {
    d := if AllDigits(s) then s else s[1..];
  }

  // strconv.Atoi on a 64-bit platform.
  method Atoi(s: string) returns (r: Option<int>)
    ensures r.Some? <==> DenotesInt64(s)
    ensures r.Some? ==> r.value == SignedValue(s)
    ensures forall n :: 0 <= n < TWO_63 && (s == Show(n) || s == "+" + Show(n)) ==> r == Some(n)
    ensures forall n :: 0 <= n <= TWO_63 && s == "-" + Show(n) ==> r == Some(-n)
  {
    forall n: nat | s == Show(n) || s == "+" + Show(n) || s == "-" + Show(n)
      ensures Show(n) != [] && AllDigits(Show(n)) && Value(Show(n)) == n
    {
      ShowDenotes(n);
      SignedNumeral(Show(n));
    }
    if s == "" {
      return None;
    }
    var un := ParseUint(Unsigned(s));
    if un.None? {
      return None;
    }
    var neg := s[0] == '-';
    if (!neg && un.value >= TWO_63) || (neg && un.value > TWO_63) {
      return None;
    }
    r := Some(if neg then -un.value else un.value);
  }
}
