/** JavaScript values the data layer handles: optional and failing results,
    record identifiers, the numbers `Number(...)` yields, JS `Error`s, and the
    decimal conversions behind `String(id)` and `Number(text)`. */
module Values {
  import opened Text

  datatype Option<+T> = None | Some(value: T) {
    function GetOr(default: T): T {
      match this
      case Some(v) => v
      case None => default
    }
  }

  /** A settled promise: fulfilled with a value, or rejected with an error. */
  datatype Result<+T> = Ok(value: T) | Err(error: Error)

  /** A JS `Error`; only its `message` is ever read by the application. */
  datatype Error = Error(message: string)

  /** A record identifier as the JSON server returns it. JS `===` and `Map`
      lookups distinguish the number 1 from the string "1"; datatype equality
      does the same. */
  datatype Key = Num(n: int) | Str(s: string)

  /** What `Number(text)` yields: an integer, or anything else (NaN, a
      fraction, an exponent or hexadecimal form), which is not computed. */
  datatype JsNumber = Int(i: int) | OtherNumber

  function DigitChar(d: nat): (c: char)
    requires d < 10
    ensures IsDigit(c)
  {
    "0123456789"[d]
  }

  function DigitValue(c: char): (d: nat)
    requires IsDigit(c)
    ensures d < 10
  {
    (c as int - '0' as int) as nat
  }

  predicate IsDigit(c: char) {
    '0' <= c <= '9'
  }

  predicate AllDigits(s: string) {
    forall k | 0 <= k < |s| :: IsDigit(s[k])
  }

  /** The shortest decimal rendering of a natural number. */
  function Digits(n: nat): (s: string)
    decreases n
  {
    if n < 10 then [DigitChar(n)] else Digits(n / 10) + [DigitChar(n % 10)]
  }

  /** The value of a string of decimal digits, most significant first. */
  function DigitsValue(s: string): nat
    requires AllDigits(s)
    decreases |s|
  {
    if s == [] then 0 else DigitsValue(s[..|s| - 1]) * 10 + DigitValue(s[|s| - 1])
  }

  /** `String(n)` for an integer-valued JS number. */
  function DecimalString(n: int): (r: string)
    ensures r != []
  {
    DigitsShape(if n < 0 then -n else n);
    if n < 0 then "-" + Digits(-n) else Digits(n)
  }

  /** `String(key)`: numbers in decimal, strings as they are. */
  function KeyString(k: Key): (r: string)
    ensures k.Num? ==> r != [] && ToNumber(r) == Int(k.n)
    ensures k.Str? ==> r == k.s
  {
    match k
    case Num(n) => DecimalRoundTrip(n); DecimalString(n)
    case Str(s) => s
  }

  /** `Number(text)` on the integer forms: surrounding white space is
      ignored, the empty string is 0, and an optional sign may precede one or
      more decimal digits (leading zeros allowed). */
  function ToNumber(s: string): (r: JsNumber)
    ensures IsBlank(s) ==> r == Int(0)
  {
    TrimSpec(s);
    var t := Trim(s);
    if t == [] then Int(0)
    else if AllDigits(t) then Int(DigitsValue(t))
    else if |t| > 1 && t[0] == '-' && AllDigits(t[1..]) then Int(0 - DigitsValue(t[1..]))
    else if |t| > 1 && t[0] == '+' && AllDigits(t[1..]) then Int(DigitsValue(t[1..]))
    else OtherNumber
  }

  /** `ids.map(String)` */
  function Stringified(ids: seq<Key>): (r: seq<string>)
    ensures |r| == |ids|
  {
    seq(|ids|, i requires 0 <= i < |ids| => KeyString(ids[i]))
  }

  /** `ids.map(Number)` */
  function Numbers(ids: seq<string>): (r: seq<JsNumber>)
    ensures |r| == |ids|
  {
    seq(|ids|, i requires 0 <= i < |ids| => ToNumber(ids[i]))
  }

  predicate AllNumeric(ids: seq<Key>) {
    forall i | 0 <= i < |ids| :: ids[i].Num?
  }

  /** The numbers that numeric keys stand for. */
  function AsNumbers(ids: seq<Key>): (r: seq<JsNumber>)
    requires AllNumeric(ids)
    ensures |r| == |ids|
  {
    seq(|ids|, i requires 0 <= i < |ids| && AllNumeric(ids) => Int(ids[i].n))
  }

  lemma {:induction false} DigitsShape(n: nat)
    ensures Digits(n) != [] && AllDigits(Digits(n))
    decreases n
  {
    if n >= 10 {
      DigitsShape(n / 10);
    }
  }

  /** Reading back the decimal rendering of a natural number gives it back. */
  lemma {:induction false} DigitsRoundTrip(n: nat)
    ensures AllDigits(Digits(n)) && DigitsValue(Digits(n)) == n
    decreases n
  {
    DigitsShape(n);
    if n >= 10 {
      var s := Digits(n);
      DigitsRoundTrip(n / 10);
      assert s[..|s| - 1] == Digits(n / 10);
      assert DigitValue(s[|s| - 1]) == n % 10;
    } else {
      assert DigitValue(Digits(n)[0]) == n;
    }
  }

  /** `Number(String(n)) === n` for every integer: a selected category id,
      kept as the string form of a numeric id, converts back to that id. */
  lemma DecimalRoundTrip(n: int)
    ensures ToNumber(DecimalString(n)) == Int(n)
  {
    var m: nat := if n < 0 then -n else n;
    DigitsRoundTrip(m);
    var d := Digits(m);
    var s := DecimalString(n);
    assert forall k | 0 <= k < |d| :: !IsWhiteSpace(d[k]);
    if n < 0 {
      assert s == "-" + d;
      assert !IsWhiteSpace(s[0]) && s[1..] == d;
      TrimKeepsSolidEnds(s);
      assert !AllDigits(s) by { assert !IsDigit(s[0]); }
    } else {
      TrimKeepsSolidEnds(s);
    }
  }

  /** Stringifying numeric ids and converting them back with `Number` gives
      the ids' numbers, in the same order. */
  lemma NumbersOfStringified(ids: seq<Key>)
    requires AllNumeric(ids)
    ensures Numbers(Stringified(ids)) == AsNumbers(ids)
  {
    forall i | 0 <= i < |ids|
      ensures Numbers(Stringified(ids))[i] == AsNumbers(ids)[i]
    {
      DecimalRoundTrip(ids[i].n);
    }
  }
}
