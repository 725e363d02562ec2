/**
 * The functions of Go's `strconv` package that the configuration accessors
 * call, on a 64-bit platform: `Atoi` and `ParseBool`, with `FormatInt` (what
 * `strconv.Itoa` prints) as the inverse that `Atoi` is checked against.
 */
module GoStrconv {
  import opened Wrappers

  /** Go's `int` on a 64-bit platform. */
  type int64 = x: int | -0x8000_0000_0000_0000 <= x < 0x8000_0000_0000_0000

  predicate InInt64Range(n: int)
  {
    -0x8000_0000_0000_0000 <= n < 0x8000_0000_0000_0000
  }

  predicate IsDigit(c: char)
  {
    '0' <= c <= '9'
  }

  predicate AllDigits(s: string)
  {
    forall i :: 0 <= i < |s| ==> IsDigit(s[i])
  }

  function DigitValue(c: char): (d: nat)
    requires IsDigit(c)
    ensures d < 10
  {
    c as int - '0' as int
  }

  function DigitChar(d: nat): (c: char)
    requires d < 10
    ensures IsDigit(c) && DigitValue(c) == d
  {
    ('0' as int + d) as char
  }

  /** The number a run of decimal digits denotes, most significant digit first. */
  function DigitsValue(s: string): nat
    requires AllDigits(s)
  {
    if s == [] then 0 else DigitsValue(s[..|s| - 1]) * 10 + DigitValue(s[|s| - 1])
  }

  /** `s` without its sign character, if it has one. */
  function Unsigned(s: string): string
  {
    if s != [] && (s[0] == '+' || s[0] == '-') then s[1..] else s
  }

  /**
   * strconv.Atoi: an optional `+` or `-`, then one or more decimal digits
   * (no underscores, no base prefix, no white space), denoting a value in the
   * 64-bit signed range. Anything else is a syntax or range error, here None.
   */
  function Atoi(s: string): (r: Option<int64>)
    ensures s == "" || s == "+" || s == "-" ==> r == None
    ensures r.Some? ==> Unsigned(s) != [] && AllDigits(Unsigned(s))
    ensures r.Some? && r.value < 0 ==> s[0] == '-'
  {
    var digits := Unsigned(s);
    if digits == [] || !AllDigits(digits) then None
    else
      var n: int := if s[0] == '-' then -(DigitsValue(digits) as int) else DigitsValue(digits);
      if InInt64Range(n) then Some(n) else None
  }

  /** The shortest decimal spelling of `n`. */
  function FormatNat(n: nat): (s: string)
    ensures |s| >= 1 && AllDigits(s)
    ensures s[0] == '0' ==> n == 0
  {
    if n < 10 then [DigitChar(n)] else FormatNat(n / 10) + [DigitChar(n % 10)]
  }

  /** strconv.FormatInt(n, 10): a `-` for negative numbers, then the digits of |n|. */
  function FormatInt(n: int): string
  {
    if n < 0 then "-" + FormatNat(-n) else FormatNat(n)
  }

  lemma {:induction false} DigitsValueFormatNat(n: nat)
    ensures DigitsValue(FormatNat(n)) == n
    decreases n
  {
    var s := FormatNat(n);
    if n >= 10 {
      DigitsValueFormatNat(n / 10);
      assert s[..|s| - 1] == FormatNat(n / 10);
    } else {
      assert s[..|s| - 1] == [];
    }
  }

  /**
   * Atoi reads back what FormatInt prints: the number itself inside the
   * 64-bit range, a range error outside it.
   */
  lemma AtoiFormatInt(n: int)
    ensures Atoi(FormatInt(n)) == if InInt64Range(n) then Some(n) else None
  {
    var s := FormatInt(n);
    if n < 0 {
      DigitsValueFormatNat(-n);
      assert Unsigned(s) == FormatNat(-n);
    } else {
      DigitsValueFormatNat(n);
      assert FormatNat(n)[0] != '+' && FormatNat(n)[0] != '-';
    }
  }

  /** `k` zeros. */
  function Zeros(k: nat): (s: string)
    ensures |s| == k && forall i :: 0 <= i < k ==> s[i] == '0'
  {
    if k == 0 then [] else Zeros(k - 1) + ['0']
  }

  /** Every run of digits is some leading zeros followed by the shortest spelling of its value. */
  lemma {:induction false} DigitsCanonical(d: string)
    requires d != [] && AllDigits(d)
    ensures exists k: nat :: d == Zeros(k) + FormatNat(DigitsValue(d))
    decreases |d|
  {
    var c := d[|d| - 1];
    var v := DigitsValue(d);
    assert DigitChar(DigitValue(c)) == c;
    if |d| == 1 {
      assert d[..|d| - 1] == [] && d == [c];
      assert v == DigitsValue([]) * 10 + DigitValue(c);
      assert FormatNat(v) == [c];
      assert d == Zeros(0) + FormatNat(v);
    } else {
      var init := d[..|d| - 1];
      assert d == init + [c];
      DigitsCanonical(init);
      var k: nat :| init == Zeros(k) + FormatNat(DigitsValue(init));
      if DigitsValue(init) == 0 {
        assert FormatNat(0) == ['0'];
        assert init == Zeros(k + 1);
        assert FormatNat(v) == [c];
        assert d == Zeros(k + 1) + FormatNat(v);
      } else {
        assert v / 10 == DigitsValue(init) && v % 10 == DigitValue(c);
        assert FormatNat(v) == FormatNat(DigitsValue(init)) + [c];
        assert d == Zeros(k) + FormatNat(v);
      }
    }
  }

  /**
   * What Atoi accepts: an optional sign (a `-` for every negative value), any
   * number of leading zeros, and the shortest spelling of the magnitude.
   */
  lemma AtoiAccepted(s: string, n: int)
    requires Atoi(s) == Some(n)
    ensures n < 0 ==> s[0] == '-'
    ensures n > 0 ==> s[0] != '-'
    ensures exists k: nat :: Unsigned(s) == Zeros(k) + FormatNat(if n < 0 then -n else n)
  {
    DigitsCanonical(Unsigned(s));
  }

  const TRUE_SPELLINGS: set<string> := {"1", "t", "T", "TRUE", "true", "True"}
  const FALSE_SPELLINGS: set<string> := {"0", "f", "F", "FALSE", "false", "False"}

  /** strconv.ParseBool: six spellings of true, six of false, a syntax error otherwise. */
  function ParseBool(s: string): (r: Option<bool>)
    ensures r == Some(true) <==> s in TRUE_SPELLINGS
    ensures r == Some(false) <==> s in FALSE_SPELLINGS
    ensures r == None <==> s !in TRUE_SPELLINGS + FALSE_SPELLINGS
  {
    if s == "1" || s == "t" || s == "T" || s == "TRUE" || s == "true" || s == "True" then Some(true)
    else if s == "0" || s == "f" || s == "F" || s == "FALSE" || s == "false" || s == "False" then Some(false)
    else None
  }
}
