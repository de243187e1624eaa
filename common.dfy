/** Helpers shared by every module of the model: optional values, the
    failures the C++ code raises as exceptions, fixed-width integer ranges and
    the decimal text that iostreams print and scan. */
module Common {

  datatype Option<+T> = None | Some(value: T)

  /** The exceptions of the system, one constructor per kind that a caller can
      tell apart. */
  datatype Error =
    | NotFound(name: string)        // pex NotFoundException, PropertySet lookup of a missing name
    | TypeMismatch(name: string)    // pex/daf_base TypeError: the value has another type
    | OutOfRange                    // std::out_of_range from string::substr or vector::at
    | RuntimeError(message: string) // RuntimeErrorException / std::runtime_error
    | HostNotSpecified              // the legacy receiver's own exception
    | CmsError(message: string)     // cms::CMSException raised by the message layer
    | Unmodelled(what: string)      // behaviour that depends on floating point
    | NullDereference               // a write through a pointer that was never allocated

  datatype Result<+T> = Success(value: T) | Failure(error: Error) {
    predicate IsFailure() { Failure? }
    function PropagateFailure<U>(): Result<U> requires Failure? { Failure(error) }
    function Extract(): T requires Success? { value }
  }

  // ---------------------------------------------------------------- integers

  const TWO_32: int := 0x1_0000_0000
  const TWO_64: int := 0x1_0000_0000_0000_0000
  const INT32_MIN: int := -0x8000_0000
  const INT32_MAX: int := 0x7FFF_FFFF
  const INT64_MIN: int := -0x8000_0000_0000_0000
  const INT64_MAX: int := 0x7FFF_FFFF_FFFF_FFFF

  predicate IsInt32(x: int) { INT32_MIN <= x <= INT32_MAX }
  predicate IsInt64(x: int) { INT64_MIN <= x <= INT64_MAX }

  /** The value an `int` holds after being assigned the integer `x`
      (two's complement wrap-around, as every supported compiler does). */
  function ToInt32(x: int): (r: int)
    ensures IsInt32(r)
    ensures (r - x) % TWO_32 == 0
    ensures IsInt32(x) ==> r == x
  {
    var m := x % TWO_32;
    if m <= INT32_MAX then m else m - TWO_32
  }

  // ----------------------------------------------------------- decimal text

  predicate IsDigit(c: char) { '0' <= c <= '9' }

  predicate AllDigits(s: string) { forall i :: 0 <= i < |s| ==> IsDigit(s[i]) }

  function DigitChar(d: nat): (c: char)
    requires d < 10
    ensures IsDigit(c) && c as int - '0' as int == d
  {
    ('0' as int + d) as char
  }

  function DigitValue(c: char): (d: nat)
    requires IsDigit(c)
    ensures d < 10 && DigitChar(d) == c
  {
    c as int - '0' as int
  }

  /** The digits of `n` as `operator<<` writes them: no leading zeros. */
  function Digits(n: nat): (s: string)
    ensures |s| > 0 && AllDigits(s)
    ensures IsDigit(s[0])
    decreases n
  {
    if n < 10 then [DigitChar(n)] else Digits(n / 10) + [DigitChar(n % 10)]
  }

  /** The number the digits `s` denote when read after the digits of `acc`. */
  function DigitsValue(acc: nat, s: string): nat
    requires AllDigits(s)
    decreases |s|
  {
    if s == [] then acc else DigitsValue(acc * 10 + DigitValue(s[0]), s[1..])
  }

  /** `operator<<` for a signed integer, and Python's "%d". */
  function Decimal(i: int): (s: string)
    ensures |s| > 0
    ensures i >= 0 ==> s == Digits(i)
    ensures i < 0 ==> s == "-" + Digits(-i)
  {
    if i < 0 then "-" + Digits(-i) else Digits(i)
  }

  predicate IsSpace(c: char) { c == ' ' || c == '\t' || c == '\n' || c == '\r' || c == '\U{000C}' || c == '\U{000B}' }

  function SkipSpace(s: string): string
    decreases |s|
  {
    if s != [] && IsSpace(s[0]) then SkipSpace(s[1..]) else s
  }

  /** Reads the longest run of digits at the front of `s` after the digits
      already read into `acc`; `None` when no digit is read at all. */
  function ReadDigits(s: string, acc: nat, any: bool): Option<nat>
    decreases |s|
  {
    if s != [] && IsDigit(s[0]) then ReadDigits(s[1..], acc * 10 + DigitValue(s[0]), true)
    else if any then Some(acc)
    else None
  }

  /** What extracting an integer from text reads: optional white space, an
      optional sign and the longest run of digits after it; `None` when there
      is no digit to read. */
  function ScanInteger(s: string): Option<int>
  {
    var t := SkipSpace(s);
    if t != [] && t[0] == '-' then
      var n: Option<int> := ReadDigits(t[1..], 0, false);
      if n.Some? then Some(-n.value) else None
    else if t != [] && t[0] == '+' then ReadDigits(t[1..], 0, false)
    else ReadDigits(t, 0, false)
  }

  /** `istream >> x` for an integer type with range [lo, hi] (C++11 rules):
      no digits store 0, a value out of range stores the nearest bound. */
  function StreamInteger(s: string, lo: int, hi: int): (r: int)
    requires lo <= 0 <= hi
    ensures lo <= r <= hi
  {
    match ScanInteger(s)
    case None => 0
    case Some(v) => if v < lo then lo else if v > hi then hi else v
  }

  /** `istream >> b` for a `bool` without `boolalpha`: a number is read, 0 is
      false and any other number true; no number gives false. */
  function StreamBool(s: string): (b: bool)
    ensures b <==> ScanInteger(s).Some? && ScanInteger(s).value != 0
  {
    StreamInteger(s, INT64_MIN, INT64_MAX) != 0
  }

  /** C `atoi`: the scanned integer, 0 when there is none. */
  function Atoi(s: string): (r: int)
    ensures ScanInteger(s).None? ==> r == 0
    ensures ScanInteger(s).Some? ==> r == ScanInteger(s).value
  {
    match ScanInteger(s) case None => 0 case Some(v) => v
  }

  // ------------------------------------------------------------------ lemmas

  /** A run of digits reads as the number it denotes. */
  lemma {:induction false} ReadAllDigits(s: string, acc: nat, any: bool)
    requires AllDigits(s) && (s != [] || any)
    ensures ReadDigits(s, acc, any) == Some(DigitsValue(acc, s))
    decreases |s|
  {
    if s != [] {
      assert AllDigits(s[1..]) by { assert forall i :: 0 <= i < |s[1..]| ==> s[1..][i] == s[i + 1]; }
      ReadAllDigits(s[1..], acc * 10 + DigitValue(s[0]), true);
    }
  }

  /** One more digit at the end multiplies the value by ten and adds it. */
  lemma {:induction false} DigitsValueSnoc(acc: nat, s: string, c: char)
    requires AllDigits(s) && IsDigit(c)
    ensures AllDigits(s + [c])
    ensures DigitsValue(acc, s + [c]) == DigitsValue(acc, s) * 10 + DigitValue(c)
    decreases |s|
  {
    assert forall i :: 0 <= i < |s + [c]| ==> (s + [c])[i] == if i < |s| then s[i] else c;
    if s != [] {
      assert (s + [c])[1..] == s[1..] + [c];
      assert AllDigits(s[1..]) by { assert forall i :: 0 <= i < |s[1..]| ==> s[1..][i] == s[i + 1]; }
      DigitsValueSnoc(acc * 10 + DigitValue(s[0]), s[1..], c);
    }
  }

  lemma {:induction false} DigitsValueOfDigits(n: nat)
    ensures DigitsValue(0, Digits(n)) == n
    decreases n
  {
    if n >= 10 {
      DigitsValueOfDigits(n / 10);
      DigitsValueSnoc(0, Digits(n / 10), DigitChar(n % 10));
    }
  }

  /** Printing an integer and scanning the text back gives the integer. */
  lemma ScanDecimal(i: int)
    ensures ScanInteger(Decimal(i)) == Some(i)
  {
    var m: nat := if i < 0 then -i else i;
    var d := Digits(m);
    var s := Decimal(i);
    assert SkipSpace(s) == s;
    if i < 0 {
      assert s[1..] == d;
    }
    ReadAllDigits(d, 0, false);
    DigitsValueOfDigits(m);
  }

  /** White space before any other character is skipped. */
  lemma {:induction false} SkipBlanks(blanks: string, t: string)
    requires forall k :: 0 <= k < |blanks| ==> IsSpace(blanks[k])
    requires t == [] || !IsSpace(t[0])
    ensures SkipSpace(blanks + t) == t
    decreases |blanks|
  {
    if blanks != [] {
      assert (blanks + t)[1..] == blanks[1..] + t;
      SkipBlanks(blanks[1..], t);
    } else {
      assert blanks + t == t;
    }
  }

  /** The run of digits ends at the first character that is not one. */
  lemma {:induction false} ReadDigitsStops(d: string, rest: string, acc: nat, any: bool)
    requires AllDigits(d)
    requires rest == [] || !IsDigit(rest[0])
    ensures ReadDigits(d + rest, acc, any) == if d == [] && !any then None else Some(DigitsValue(acc, d))
    decreases |d|
  {
    if d != [] {
      assert (d + rest)[0] == d[0] && (d + rest)[1..] == d[1..] + rest;
      assert AllDigits(d[1..]) by { assert forall i :: 0 <= i < |d[1..]| ==> d[1..][i] == d[i + 1]; }
      ReadDigitsStops(d[1..], rest, acc * 10 + DigitValue(d[0]), true);
    } else {
      assert d + rest == rest;
    }
  }

  /** `atoi` reads back every integer `operator<<` prints. */
  lemma AtoiDecimal(i: int)
    ensures Atoi(Decimal(i)) == i
  {
    ScanDecimal(i);
  }

  /** `atoi` of white space, an optional sign, digits and anything after
      them that is not a digit: the digits' value with the sign. */
  lemma AtoiLeading(blanks: string, sign: string, d: string, rest: string)
    requires forall k :: 0 <= k < |blanks| ==> IsSpace(blanks[k])
    requires sign == "" || sign == "+" || sign == "-"
    requires d != [] && AllDigits(d)
    requires rest == [] || !IsDigit(rest[0])
    ensures Atoi(blanks + sign + d + rest) == if sign == "-" then -(DigitsValue(0, d) as int) else DigitsValue(0, d)
  {
    var t := sign + d + rest;
    assert blanks + sign + d + rest == blanks + t;
    SkipBlanks(blanks, t);
    ReadDigitsStops(d, rest, 0, false);
    if sign != "" {
      assert t[1..] == d + rest;
    } else {
      assert t == d + rest;
    }
  }

  /** `atoi` is 0 when no digit follows the white space and the sign. */
  lemma AtoiNoDigits(blanks: string, sign: string, rest: string)
    requires forall k :: 0 <= k < |blanks| ==> IsSpace(blanks[k])
    requires sign == "" || sign == "+" || sign == "-"
    requires rest == [] || !IsDigit(rest[0])
    requires sign == "" && rest != [] ==> !IsSpace(rest[0]) && rest[0] != '+' && rest[0] != '-'
    ensures Atoi(blanks + sign + rest) == 0
  {
    var t := sign + rest;
    assert blanks + sign + rest == blanks + t;
    SkipBlanks(blanks, t);
    ReadDigitsStops([], rest, 0, false);
    assert [] + rest == rest;
    if sign != "" {
      assert t[1..] == rest;
    } else {
      assert t == rest;
    }
  }

  /** The stream reads back what `operator<<` printed for any value of the
      stream's own type. */
  lemma StreamDecimal(i: int, lo: int, hi: int)
    requires lo <= 0 <= hi && lo <= i <= hi
    ensures StreamInteger(Decimal(i), lo, hi) == i
  {
    ScanDecimal(i);
  }

  /** A `bool` printed without `boolalpha` is "1" or "0" and reads back. */
  lemma StreamBoolDecimal(b: bool)
    ensures StreamBool(Decimal(if b then 1 else 0)) == b
  {
    ScanDecimal(if b then 1 else 0);
  }

  lemma DecimalHasNoChar(i: int, c: char)
    requires c != '-' && !IsDigit(c)
    ensures forall k :: 0 <= k < |Decimal(i)| ==> Decimal(i)[k] != c
  {
    var d := Digits(if i < 0 then -i else i);
    assert forall k :: 0 <= k < |d| ==> IsDigit(d[k]);
  }

  /** Where each of five concatenated strings sits in the whole. */
  lemma FiveParts(a: string, b: string, c: string, d: string, e: string)
    ensures var u := a + b + c + d + e;
      && |u| == |a| + |b| + |c| + |d| + |e|
      && u[..|a|] == a
      && u[|a|..|a| + |b|] == b
      && u[|a| + |b|..|a| + |b| + |c|] == c
      && u[|a| + |b| + |c|..|u| - |e|] == d
      && u[|u| - |e|..] == e
  {
  }

  /** `"tcp://" + host + ":" + port + options`, as both endpoints build it:
      the host after the scheme, then a colon, then a number that reads
      back as the port, then the options. */
  lemma TcpUriParts(hostName: string, hostPort: int, options: string)
    ensures var u := "tcp://" + hostName + ":" + Decimal(hostPort) + options;
      && |u| == 7 + |hostName| + |Decimal(hostPort)| + |options|
      && u[..6] == "tcp://"
      && u[6..6 + |hostName|] == hostName
      && u[6 + |hostName|] == ':'
      && ScanInteger(u[7 + |hostName|..|u| - |options|]) == Some(hostPort)
      && u[|u| - |options|..] == options
  {
    var u := "tcp://" + hostName + ":" + Decimal(hostPort) + options;
    FiveParts("tcp://", hostName, ":", Decimal(hostPort), options);
    assert u[6 + |hostName|..7 + |hostName|] == ":";
    ScanDecimal(hostPort);
  }
}
