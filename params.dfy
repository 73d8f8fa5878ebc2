/**
 * The `{id}` path parameter of DELETE /account/{id}: getParameter (api.go)
 * and the decimal parsing of strconv.Atoi that handleDeleteAccount applies.
 */
module Params {
  import opened Wrappers
  import opened Types

  /** getParameter: the named mux path variable, or an error when the route has none. */
  function GetParameter(vars: map<string, string>, field: string): (r: Option<string>)
    ensures r.Some? <==> field in vars
    ensures r.Some? ==> r.value == vars[field]
  {
    if field in vars then Some(vars[field]) else None
  }

  predicate IsDigit(c: char) {
    '0' <= c <= '9'
  }

  predicate AllDigits(ds: string) {
    forall i :: 0 <= i < |ds| ==> IsDigit(ds[i])
  }

  /** The value of a string of decimal digits, most significant first. */
  function DigitsValue(ds: string): nat
    requires AllDigits(ds)
  {
    if ds == [] then 0
    else DigitsValue(ds[..|ds| - 1]) * 10 + (ds[|ds| - 1] - '0') as int
  }

  /** What follows an optional leading '+' or '-'. */
  function Unsigned(s: string): string {
    if |s| > 0 && (s[0] == '+' || s[0] == '-') then s[1..] else s
  }

  /**
   * strconv.Atoi on a 64-bit platform: an optional '+' or '-', then one or
   * more decimal digits (no underscores in base 10), whose value must fit in
   * an int; anything else is an error.
   */
  function Atoi(s: string): (r: Option<Int64>)
    ensures r.Some? ==> |s| > 0 && |Unsigned(s)| > 0 && AllDigits(Unsigned(s))
    ensures r.Some? ==>
      r.value as int == (if s[0] == '-' then -(DigitsValue(Unsigned(s)) as int) else DigitsValue(Unsigned(s)) as int)
    // every well-formed string whose value fits in an int parses, "+5" and "007" included
    ensures |s| > 0 && |Unsigned(s)| > 0 && AllDigits(Unsigned(s))
            && MinInt64 <= (if s[0] == '-' then -(DigitsValue(Unsigned(s)) as int) else DigitsValue(Unsigned(s)) as int)
            <= MaxInt64
            ==> r.Some?
  {
    var negative := |s| > 0 && s[0] == '-';
    var digits := Unsigned(s);
    if digits == [] || !AllDigits(digits) then None
    else
      var v: int := if negative then -(DigitsValue(digits) as int) else DigitsValue(digits);
      if MinInt64 <= v <= MaxInt64 then Some(v) else None
  }

  function DigitChar(d: nat): char
    requires d < 10
  {
    ('0' as int + d) as char
  }

  /** Decimal digits of a natural number, without leading zeros. */
  function NatDigits(n: nat): (ds: string)
    ensures |ds| > 0 && AllDigits(ds)
  {
    if n < 10 then [DigitChar(n)] else NatDigits(n / 10) + [DigitChar(n % 10)]
  }

  /** strconv.Itoa: how an id is written into a path. */
  function Itoa(n: int): string {
    if n < 0 then "-" + NatDigits(-n) else NatDigits(n)
  }

  lemma {:induction false} DigitsValueOfNatDigits(n: nat)
    ensures DigitsValue(NatDigits(n)) == n
  {
    var ds := NatDigits(n);
    if n >= 10 {
      DigitsValueOfNatDigits(n / 10);
      assert ds[..|ds| - 1] == NatDigits(n / 10);
    }
  }

  /** Parsing the decimal form of any int64 gives it back. */
  lemma AtoiItoa(n: Int64)
    ensures Atoi(Itoa(n)) == Some(n)
  {
    var s := Itoa(n);
    if n < 0 {
      var m: nat := -(n as int);
      DigitsValueOfNatDigits(m);
      assert s == "-" + NatDigits(m);
      assert s[0] == '-' && Unsigned(s) == NatDigits(m);
    } else {
      DigitsValueOfNatDigits(n);
      assert s == NatDigits(n) && IsDigit(s[0]);
      assert Unsigned(s) == NatDigits(n);
    }
    var r := Atoi(s);
    assert r.Some?;
    assert r.value as int == n as int;
  }

  /**
   * Atoi rejects every string that is empty or a bare sign, and every string
   * with a character other than a decimal digit (a letter, '_', a space, a
   * second sign) at some position `k` after the optional sign.
   */
  lemma AtoiRejectsNonNumbers(s: string, k: int)
    requires Unsigned(s) == [] || (0 <= k < |Unsigned(s)| && !IsDigit(Unsigned(s)[k]))
    ensures Atoi(s) == None
  {
  }
}
