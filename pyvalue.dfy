/** The Python side of the request: the values a decoded JSON body holds,
    Python's truth test on them, how an f-string formats them, and the
    string helpers the two renderer files share (`uuid4().hex[:8]`,
    `str.upper`). */
module PyValue {

  datatype Option<T> = None | Some(value: T)

  /** A scalar of the decoded JSON body: a string, an integer, a boolean or null. */
  datatype Value = Str(s: string) | Int(i: int) | Bool(b: bool) | Null

  /** Python truthiness: `""`, `0`, `False` and `None` are false, all else true. */
  predicate Truthy(v: Value) {
    match v
    case Str(s) => s != ""
    case Int(i) => i != 0
    case Bool(b) => b
    case Null => false
  }

  /** The four falsy values are the only ones. */
  lemma FalsyValues(v: Value)
    ensures !Truthy(v) <==> v == Str("") || v == Int(0) || v == Bool(false) || v == Null
  {
  }

  /** `d.get(key)`: the stored value, or `None` when the key is absent. */
  function Lookup(data: map<string, Value>, key: string): (v: Value)
    ensures key in data ==> v == data[key]
    ensures key !in data ==> v == Null
  {
    if key in data then data[key] else Null
  }

  /** `d.get(key, default)` */
  function GetOr(data: map<string, Value>, key: string, default: Value): (v: Value)
    ensures key in data ==> v == data[key]
    ensures key !in data ==> v == default
  {
    if key in data then data[key] else default
  }

  // ---- decimal digits ----

  predicate IsDigit(c: char) { '0' <= c <= '9' }

  predicate AllDigits(s: string) { forall i :: 0 <= i < |s| ==> IsDigit(s[i]) }

  function DigitValue(c: char): nat
    requires IsDigit(c)
  {
    (c as int) - ('0' as int)
  }

  function DigitChar(d: nat): (c: char)
    requires d < 10
    ensures IsDigit(c) && DigitValue(c) == d
  {
    "0123456789"[d]
  }

  /** The value of a string of decimal digits, most significant first. */
  function DecimalValue(s: string): nat
    requires AllDigits(s)
  {
    if s == "" then 0 else DecimalValue(s[..|s| - 1]) * 10 + DigitValue(s[|s| - 1])
  }

  /** `str(n)` for a natural number: its shortest decimal spelling. */
  function NatToString(n: nat): (s: string)
    ensures s != "" && AllDigits(s)
    ensures |s| > 1 ==> s[0] != '0'
    decreases n
  {
    if n < 10 then [DigitChar(n)] else NatToString(n / 10) + [DigitChar(n % 10)]
  }

  /** Reading back what `NatToString` wrote gives the number again. */
  lemma {:induction false} DecimalRoundTrip(n: nat)
    ensures DecimalValue(NatToString(n)) == n
    decreases n
  {
    if n >= 10 {
      var s := NatToString(n);
      assert s[..|s| - 1] == NatToString(n / 10);
      DecimalRoundTrip(n / 10);
    }
  }

  /** `str(i)` for a Python int: a minus sign before the digits of a negative number. */
  function IntToString(i: int): string {
    if i < 0 then "-" + NatToString(-i) else NatToString(i)
  }

  /** `str(i)` is the decimal digits of `i`, after a `-` when it is negative,
      and they read back as its magnitude. */
  lemma IntToStringDigits(i: int)
    ensures i >= 0 ==> AllDigits(IntToString(i)) && DecimalValue(IntToString(i)) == i
    ensures i < 0 ==> IntToString(i) == "-" + NatToString(-i) && DecimalValue(NatToString(-i)) == -i
  {
    if i < 0 {
      DecimalRoundTrip(-i);
    } else {
      DecimalRoundTrip(i);
    }
  }

  /** `str(v)`, which is what `f"{v}"` inserts. */
  function PyStr(v: Value): string {
    match v
    case Str(s) => s
    case Int(i) => IntToString(i)
    case Bool(b) => if b then "True" else "False"
    case Null => "None"
  }

  /** An f-string inserts a string verbatim, an integer as its decimal text
      (which reads back as the integer), and nothing else as empty text. */
  lemma PyStrText(v: Value)
    ensures v.Str? ==> PyStr(v) == v.s
    ensures v.Int? && v.i >= 0 ==> AllDigits(PyStr(v)) && DecimalValue(PyStr(v)) == v.i
    ensures !v.Str? ==> PyStr(v) != ""
  {
    if v.Int? { IntToStringDigits(v.i); }
  }

  // ---- hexadecimal identifiers ----

  const LowerHexDigits := "0123456789abcdef"
  const UpperHexDigits := "0123456789ABCDEF"

  /** What `uuid.uuid4().hex[:8]` produces: eight lower-case hexadecimal digits. */
  predicate IsHex8(s: string) {
    |s| == 8 && forall i :: 0 <= i < |s| ==> s[i] in LowerHexDigits
  }

  predicate IsUpperHex8(s: string) {
    |s| == 8 && forall i :: 0 <= i < |s| ==> s[i] in UpperHexDigits
  }

  function UpperChar(c: char): char {
    if 'a' <= c <= 'z' then (c as int - 'a' as int + 'A' as int) as char else c
  }

  /** `s.upper()` on ASCII text. */
  function Upper(s: string): (r: string)
    ensures |r| == |s|
    ensures forall i :: 0 <= i < |s| ==> r[i] == UpperChar(s[i])
  {
    seq(|s|, i requires 0 <= i < |s| => UpperChar(s[i]))
  }

  /** Upper-casing a uuid hex prefix gives eight upper-case hexadecimal digits. */
  lemma UpperOfHex(s: string)
    requires IsHex8(s)
    ensures IsUpperHex8(Upper(s))
  {
    forall i | 0 <= i < 8 ensures Upper(s)[i] in UpperHexDigits {
      var k :| 0 <= k < 16 && s[i] == LowerHexDigits[k];
      assert Upper(s)[i] == UpperHexDigits[k];
    }
  }
}
