/** The few pieces of the Java platform that the Payright client leans on:
    nullable values, Map.get, Character.isWhitespace, and the decimal text form
    of an int as written by String.valueOf and read back by Integer.valueOf. */
module JavaLang {

  /** A Java reference that may be null. */
  datatype Option<+T> = None | Some(value: T)

  /** A Java `int`. */
  newtype int32 = x: int | -0x8000_0000 <= x < 0x8000_0000

  /** Map.get: the value stored under `key`, or null. */
  function Lookup<K, V>(m: map<K, V>, key: K): Option<V>
  {
    if key in m then Some(m[key]) else None
  }

  /** Character.isWhitespace: the Unicode space, line and paragraph separators
      other than the three non-breaking spaces, plus the ASCII controls
      U+0009..U+000D and U+001C..U+001F. */
  predicate IsWhitespace(c: char) {
    || '\U{0009}' <= c <= '\U{000D}'
    || '\U{001C}' <= c <= '\U{001F}'
    || c == ' '
    || c == '\U{1680}'
    || '\U{2000}' <= c <= '\U{2006}'
    || '\U{2008}' <= c <= '\U{200A}'
    || c == '\U{2028}' || c == '\U{2029}'
    || c == '\U{205F}'
    || c == '\U{3000}'
  }

  predicate IsDigit(c: char) {
    '0' <= c <= '9'
  }

  function DigitChar(d: nat): (c: char)
    requires d < 10
    ensures IsDigit(c)
  {
    "0123456789"[d]
  }

  function DigitValue(c: char): (d: nat)
    requires IsDigit(c)
    ensures d < 10 && DigitChar(d) == c
  {
    (c as int - '0' as int) as nat
  }

  predicate AllDigits(s: string) {
    forall i :: 0 <= i < |s| ==> IsDigit(s[i])
  }

  /** Decimal digits of `n`, most significant first, without leading zeros. */
  function Digits(n: nat): (s: string)
    ensures |s| > 0
    ensures AllDigits(s)
    ensures s[0] == '0' ==> n == 0
    decreases n
  {
    if n < 10 then [DigitChar(n)] else Digits(n / 10) + [DigitChar(n % 10)]
  }

  /** String.valueOf(int): an optional minus sign followed by the digits of |n|. */
  function DecimalString(n: int32): (s: string)
    ensures |s| > 0
    ensures s[0] == '-' <==> n < 0
  {
    if n < 0 then "-" + Digits(-(n as int)) else Digits(n as int)
  }

  /** The value of a run of decimal digits. */
  function DigitsValue(s: string): nat
    requires AllDigits(s)
  {
    if s == [] then 0 else DigitsValue(s[..|s| - 1]) * 10 + DigitValue(s[|s| - 1])
  }

  /** Integer.valueOf(String) in radix 10: null, the empty string, a lone sign,
      a non-digit character, or a value outside the range of an int all throw
      NumberFormatException, written here as None. */
  function ParseInt(s: Option<string>): (r: Option<int32>)
    ensures s.None? ==> r.None?
    ensures s.Some? && s.value == [] ==> r.None?
  {
    match s
    case None => None
    case Some(text) =>
      if text == [] then None
      else
        var negative := text[0] == '-';
        var body := if text[0] == '-' || text[0] == '+' then text[1..] else text;
        if body == [] || !AllDigits(body) then None
        else
          var magnitude: int := DigitsValue(body);
          var v: int := if negative then -magnitude else magnitude;
          if -0x8000_0000 <= v < 0x8000_0000 then Some(v as int32) else None
  }

  lemma {:induction false} DigitsValueOfDigits(n: nat)
    ensures DigitsValue(Digits(n)) == n
    decreases n
  {
    var s := Digits(n);
    if n < 10 {
      assert s[..|s| - 1] == [];
    } else {
      DigitsValueOfDigits(n / 10);
      assert s[..|s| - 1] == Digits(n / 10);
    }
  }

  /** Reading back what String.valueOf wrote gives the same int: the status
      code survives its trip through the result map as text. */
  lemma ParseIntOfDecimalString(n: int32)
    ensures ParseInt(Some(DecimalString(n))) == Some(n)
  {
    var text := DecimalString(n);
    var magnitude: nat := if n < 0 then -(n as int) else n as int;
    var body := if text[0] == '-' || text[0] == '+' then text[1..] else text;
    assert body == Digits(magnitude) by {
      if n < 0 {
        assert text == "-" + Digits(magnitude);
      } else {
        assert text == Digits(magnitude);
        assert IsDigit(text[0]);
      }
    }
    assert AllDigits(body);
    DigitsValueOfDigits(magnitude);
    var v: int := if text[0] == '-' then -(magnitude as int) else magnitude;
    assert v == n as int;
  }
}
