/**
 * The configuration fallback accessors of pkg/options. Each takes the value of
 * one environment variable (`""` when it is unset or empty, as `os.Getenv`
 * reports both) and a typed default, and decides which one to use.
 */
module Options {
  import opened Wrappers
  import opened GoStrconv
  import opened GoStrings

  /** Go's `uint64`. */
  type uint64 = x: int | 0 <= x < 0x1_0000_0000_0000_0000

  const TWO_TO_THE_64: int := 0x1_0000_0000_0000_0000

  /** The Go conversion `uint64(i)` of a 64-bit `int`: the same bits, read as unsigned. */
  function ToUint64(i: int64): (u: uint64)
    ensures i >= 0 ==> u == i
    ensures i < 0 ==> u == i + TWO_TO_THE_64
  {
    i % TWO_TO_THE_64
  }

  /** The environment value when it is non-empty, the default otherwise. */
  function GetDefaultServeOptionString(envValue: string, defaultValue: string): (r: string)
    ensures envValue != "" ==> r == envValue
    ensures envValue == "" ==> r == defaultValue
  {
    if envValue != "" then envValue else defaultValue
  }

  /**
   * The default when the value is unset; otherwise the parsed number converted
   * to `uint64` (so negative numbers wrap around), or 0 -- not the default --
   * when the value does not parse.
   */
  function GetDefaultServeOptionUint64(envValue: string, defaultValue: uint64): (r: uint64)
    ensures envValue == "" ==> r == defaultValue
    ensures envValue != "" && Atoi(envValue) == None ==> r == 0
    ensures Atoi(envValue).Some? && Atoi(envValue).value >= 0 ==> r == Atoi(envValue).value
    ensures Atoi(envValue).Some? && Atoi(envValue).value < 0 ==> r == Atoi(envValue).value + TWO_TO_THE_64
  {
    if envValue != "" then
      match Atoi(envValue)
      case Some(i) => ToUint64(i)
      case None => 0
    else defaultValue
  }

  /**
   * The default when the value is unset; otherwise its comma-separated pieces:
   * one more than there are commas, none containing a comma, and joined with
   * commas they give back the value.
   */
  function GetDefaultServeOptionStringArray(envValue: string, defaultValue: seq<string>): (r: seq<string>)
    ensures envValue == "" ==> r == defaultValue
    ensures envValue != "" ==> |r| == Count(envValue, ',') + 1
    ensures envValue != "" ==> forall i :: 0 <= i < |r| ==> ',' !in r[i]
    ensures envValue != "" ==> Join(r, ',') == envValue
  {
    if envValue != "" then
      JoinSplit(envValue, ',');
      Split(envValue, ',')
    else defaultValue
  }

  /**
   * The parsed number when the value is a decimal integer in the 64-bit range;
   * the default when it is unset, malformed or out of range.
   */
  function GetDefaultServeOptionInt(envValue: string, defaultValue: int64): (r: int64)
    ensures Atoi(envValue).Some? ==> r == Atoi(envValue).value
    ensures Atoi(envValue).None? ==> r == defaultValue
  {
    if envValue != "" then
      match Atoi(envValue)
      case Some(i) => i
      case None => defaultValue
    else defaultValue
  }

  /**
   * true or false for the twelve spellings strconv.ParseBool accepts; the
   * default for every other value, the empty one included.
   */
  function GetDefaultServeOptionBool(envValue: string, defaultValue: bool): (r: bool)
    ensures envValue in TRUE_SPELLINGS ==> r
    ensures envValue in FALSE_SPELLINGS ==> !r
    ensures envValue !in TRUE_SPELLINGS + FALSE_SPELLINGS ==> r == defaultValue
  {
    if envValue != "" then
      match ParseBool(envValue)
      case Some(b) => b
      case None => defaultValue
    else defaultValue
  }

  /** With the variable unset, every accessor returns its default. */
  lemma UnsetGivesDefaults(s: string, u: uint64, a: seq<string>, i: int64, b: bool)
    ensures GetDefaultServeOptionString("", s) == s
    ensures GetDefaultServeOptionUint64("", u) == u
    ensures GetDefaultServeOptionStringArray("", a) == a
    ensures GetDefaultServeOptionInt("", i) == i
    ensures GetDefaultServeOptionBool("", b) == b
  {
  }

  /**
   * Whenever the value is set and parses, no accessor looks at its default:
   * two different defaults give the same answer.
   */
  lemma DefaultIgnoredWhenParsed(envValue: string,
                                 s1: string, s2: string, u1: uint64, u2: uint64,
                                 a1: seq<string>, a2: seq<string>,
                                 i1: int64, i2: int64, b1: bool, b2: bool)
    requires envValue != ""
    ensures GetDefaultServeOptionString(envValue, s1) == GetDefaultServeOptionString(envValue, s2)
    ensures GetDefaultServeOptionStringArray(envValue, a1) == GetDefaultServeOptionStringArray(envValue, a2)
    ensures Atoi(envValue).Some? ==> GetDefaultServeOptionUint64(envValue, u1) == GetDefaultServeOptionUint64(envValue, u2)
    ensures Atoi(envValue).Some? ==> GetDefaultServeOptionInt(envValue, i1) == GetDefaultServeOptionInt(envValue, i2)
    ensures ParseBool(envValue).Some? ==> GetDefaultServeOptionBool(envValue, b1) == GetDefaultServeOptionBool(envValue, b2)
  {
  }

  /**
   * The asymmetry between the two integer accessors: on a set value that does
   * not parse, the `int` accessor keeps its default and the `uint64` one
   * gives 0 whatever its default.
   */
  lemma MalformedIntegerAsymmetry(envValue: string, i: int64, u: uint64)
    requires envValue != "" && Atoi(envValue) == None
    ensures GetDefaultServeOptionInt(envValue, i) == i
    ensures GetDefaultServeOptionUint64(envValue, u) == 0
  {
  }

  /** "-1" reaches the `uint64` accessor as the largest 64-bit unsigned value. */
  lemma MinusOneWraps(u: uint64)
    ensures GetDefaultServeOptionUint64("-1", u) == TWO_TO_THE_64 - 1
  {
    assert Unsigned("-1") == "1";
    assert DigitsValue("1") == DigitsValue([]) * 10 + 1;
  }

  /**
   * The `int` accessor returns exactly the number FormatInt printed when it
   * fits in 64 bits, and its default when it does not.
   */
  lemma IntReadsFormattedNumber(n: int, d: int64)
    ensures InInt64Range(n) ==> GetDefaultServeOptionInt(FormatInt(n), d) == n
    ensures !InInt64Range(n) ==> GetDefaultServeOptionInt(FormatInt(n), d) == d
  {
    AtoiFormatInt(n);
  }

  /**
   * The `uint64` accessor on a printed number: the number modulo 2^64 when it
   * fits in a 64-bit `int`, and 0 when it does not.
   */
  lemma Uint64ReadsFormattedNumber(n: int, d: uint64)
    ensures InInt64Range(n) ==> GetDefaultServeOptionUint64(FormatInt(n), d) == n % TWO_TO_THE_64
    ensures !InInt64Range(n) ==> GetDefaultServeOptionUint64(FormatInt(n), d) == 0
  {
    AtoiFormatInt(n);
  }

  /** The list accessor's pieces, joined by commas with strings.Join, give back the value. */
  lemma StringArrayRoundTrip(parts: seq<string>, d: seq<string>)
    requires |parts| >= 1 && Join(parts, ',') != ""
    requires forall i :: 0 <= i < |parts| ==> ',' !in parts[i]
    ensures GetDefaultServeOptionStringArray(Join(parts, ','), d) == parts
  {
    SplitJoin(parts, ',');
  }
}
