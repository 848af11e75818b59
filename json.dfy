/** Decoded JSON values, as the bot receives them from the review API, and
    the way Python renders them inside f-strings and `type(...)`. */
module Json {

  /** A decoded JSON document. Floating-point numbers are not modelled. */
  datatype Value =
    | Null
    | Bool(b: bool)
    | Int(i: int)
    | Str(s: string)
    | List(items: seq<Value>)
    | Obj(fields: map<string, Value>)

  /** The Python class name of the value that `json()` decodes to. */
  function ClassName(v: Value): string
  {
    match v
    case Null => "NoneType"
    case Bool(_) => "bool"
    case Int(_) => "int"
    case Str(_) => "str"
    case List(_) => "list"
    case Obj(_) => "dict"
  }

  /** `str(type(v))`, as interpolated into the bot's error texts. */
  function TypeName(v: Value): string
  {
    "<class '" + ClassName(v) + "'>"
  }

  predicate IsDigit(c: char)
  {
    '0' as int <= c as int <= '9' as int
  }

  function DigitChar(d: nat): (c: char)
    requires d < 10
    ensures IsDigit(c) && DigitValue(c) == d
  {
    "0123456789"[d]
  }

  /** Decimal rendering of a natural number, as Python's `str(int)`. */
  function NatText(n: nat): (r: string)
    ensures |r| >= 1
    ensures forall k :: 0 <= k < |r| ==> IsDigit(r[k])
    decreases n
  {
    if n < 10 then [DigitChar(n)] else NatText(n / 10) + [DigitChar(n % 10)]
  }

  /** Decimal rendering of an integer, with a leading '-' when negative. */
  function IntText(n: int): (r: string)
    ensures |r| >= 1
    ensures forall k :: 1 <= k < |r| ==> IsDigit(r[k])
    ensures IsDigit(r[0]) <==> n >= 0
  {
    if n < 0 then "-" + NatText(-n) else NatText(n)
  }

  function DigitValue(c: char): nat
    requires IsDigit(c)
  {
    c as int - '0' as int
  }

  /** The number a string of decimal digits denotes. */
  function DigitsValue(s: string): nat
    requires forall k :: 0 <= k < |s| ==> IsDigit(s[k])
  {
    if s == [] then 0
    else 10 * DigitsValue(s[..|s| - 1]) + DigitValue(s[|s| - 1])
  }

  /** Reading back a rendered natural number gives the number. */
  lemma {:induction false} NatTextRoundTrip(n: nat)
    ensures DigitsValue(NatText(n)) == n
    decreases n
  {
    var r := NatText(n);
    if n >= 10 {
      NatTextRoundTrip(n / 10);
      assert r[..|r| - 1] == NatText(n / 10);
    }
  }

  /** Distinct naturals are rendered as distinct texts. */
  lemma NatTextInjective(a: nat, b: nat)
    requires NatText(a) == NatText(b)
    ensures a == b
  {
    NatTextRoundTrip(a);
    NatTextRoundTrip(b);
  }

  /** Distinct integers are rendered as distinct texts. */
  lemma IntTextInjective(m: int, n: int)
    requires IntText(m) == IntText(n)
    ensures m == n
  {
    if m < 0 && n < 0 {
      var t := IntText(m);
      assert t == "-" + NatText(-m) && t == "-" + NatText(-n);
      assert t[1..] == NatText(-m) && t[1..] == NatText(-n);
      NatTextInjective(-m, -n);
    } else if m >= 0 && n >= 0 {
      NatTextInjective(m, n);
    }
  }

  /** `t` occurs in `s`. */
  ghost predicate Mentions(s: string, t: string)
  {
    exists i, j :: 0 <= i <= j <= |s| && s[i..j] == t
  }

  lemma MentionsMiddle(a: string, b: string, c: string)
    ensures Mentions(a + b + c, b)
  {
    var s := a + b + c;
    assert s[|a|..|a| + |b|] == b;
  }

  /** Texts built around a common prefix and suffix are equal only if
      their middles are. */
  lemma CancelAround(a: string, x: string, y: string, z: string)
    requires a + x + z == a + y + z
    ensures x == y
  {
    var s := a + x + z;
    assert |x| == |y|;
    assert x == s[|a|..|a| + |x|];
    assert y == (a + y + z)[|a|..|a| + |y|];
  }

  /** `str(v)` for the values the bot interpolates into its texts.
      Lists and dicts get a placeholder rather than Python's repr. */
  function Format(v: Value): string
  {
    match v
    case Null => "None"
    case Bool(b) => if b then "True" else "False"
    case Int(i) => IntText(i)
    case Str(s) => s
    case List(_) => "[...]"
    case Obj(_) => "{...}"
  }
}
