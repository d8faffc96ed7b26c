/** JavaScript values as the API client sees them, and the handful of
    JavaScript runtime operations its builders rely on: truthiness, the
    string conversion of template literals, string comparison and
    `Array.prototype.join`. */
module Values {

  datatype Option<+T> = None | Some(value: T)

  /** A JavaScript value as it reaches a parameter builder or leaves a
      response. Numbers are modelled as mathematical integers: fractions,
      non-finite values, the loss of precision above 2^53 and the exponent
      form printed from 10^21 up are not represented. */
  datatype Value =
    | Undefined
    | Null
    | Bool(b: bool)
    | Num(n: int)
    | Str(s: string)
    | Obj(props: Props)

  /** The own properties of a plain object: its keys in property order
      (insertion order for the string keys the client uses) and what each
      key holds. */
  datatype Props = Props(keys: seq<string>, vals: map<string, Value>)

  /** ToBoolean (ECMAScript section 7.1.2), as used by `if (x)`. */
  predicate Truthy(v: Value) {
    match v
    case Undefined => false
    case Null => false
    case Bool(b) => b
    case Num(n) => n != 0
    case Str(s) => s != ""
    case Obj(_) => true
  }

  /** The relation `a < b` on two strings (ECMAScript section 7.2.13):
      lexicographic, a proper prefix being smaller. JavaScript compares
      UTF-16 code units and a Dafny `char` is a Unicode scalar value; the two
      orders differ only between characters outside the Basic Multilingual
      Plane and those above U+E000, and the client only compares with `''`. */
  predicate StrLess(a: string, b: string) {
    if |b| == 0 then false
    else if |a| == 0 then true
    else if a[0] != b[0] then a[0] < b[0]
    else StrLess(a[1..], b[1..])
  }

  /** `s > ''` holds exactly for the non-empty strings. */
  lemma GreaterThanEmpty(s: string)
    ensures StrLess("", s) <==> s != ""
  {
  }

  // ----- Number to string (the decimal form a template literal produces) -----

  function DigitChar(d: nat): (c: char)
    requires d < 10
    ensures '0' <= c <= '9'
  {
    "0123456789"[d]
  }

  function DigitValue(c: char): (d: nat)
    requires '0' <= c <= '9'
    ensures d < 10
  {
    (c as int - '0' as int) as nat
  }

  /** The decimal representation of a natural number, without leading zeros. */
  function NatToString(n: nat): (s: string)
    ensures |s| >= 1
    ensures forall i :: 0 <= i < |s| ==> '0' <= s[i] <= '9'
    ensures |s| > 1 ==> s[0] != '0'
  {
    if n < 10 then [DigitChar(n)] else NatToString(n / 10) + [DigitChar(n % 10)]
  }

  /** The number a string of decimal digits denotes. */
  function DecimalValue(s: string): nat
    requires forall i :: 0 <= i < |s| ==> '0' <= s[i] <= '9'
  {
    if |s| == 0 then 0 else DecimalValue(s[..|s| - 1]) * 10 + DigitValue(s[|s| - 1])
  }

  /** Reading the decimal form back gives the number: the conversion loses nothing. */
  lemma {:induction false} DecimalRoundTrip(n: nat)
    ensures DecimalValue(NatToString(n)) == n
  {
    if n >= 10 {
      var s := NatToString(n);
      var init := NatToString(n / 10);
      var d := n % 10;
      assert s == init + [DigitChar(d)];
      assert s[..|s| - 1] == init;
      assert DigitValue(s[|s| - 1]) == d by {
        DigitRoundTrip(d);
      }
      DecimalRoundTrip(n / 10);
      assert DecimalValue(s) == DecimalValue(init) * 10 + d;
    } else {
      DigitRoundTrip(n);
    }
  }

  lemma DigitRoundTrip(d: nat)
    requires d < 10
    ensures DigitValue(DigitChar(d)) == d
  {
  }

  /** Number::toString for an integer: a minus sign before a negative one. */
  function IntToString(n: int): (s: string)
    ensures |s| >= 1
    ensures s[0] == '-' <==> n < 0
    ensures forall i :: (if n < 0 then 1 else 0) <= i < |s| ==> '0' <= s[i] <= '9'
  {
    if n < 0 then "-" + NatToString(-n) else NatToString(n)
  }

  /** The integer an optionally signed string of decimal digits denotes. */
  function SignedDecimalValue(s: string): int
    requires |s| >= 1
    requires forall i :: (if s[0] == '-' then 1 else 0) <= i < |s| ==> '0' <= s[i] <= '9'
  {
    if s[0] == '-' then 0 - DecimalValue(s[1..]) as int else DecimalValue(s)
  }

  /** Reading the text of any integer back, sign included, gives the integer. */
  lemma IntRoundTrip(n: int)
    ensures SignedDecimalValue(IntToString(n)) == n
  {
    var s := IntToString(n);
    if n < 0 {
      var t := NatToString(-n);
      assert s == "-" + t && s[0] == '-' && s[1..] == t;
      DecimalRoundTrip(-n);
    } else {
      assert s == NatToString(n) && s[0] != '-';
      DecimalRoundTrip(n);
    }
  }

  /** ToString (ECMAScript section 7.1.17), as a template literal `${v}` applies it. */
  function ToStr(v: Value): string {
    match v
    case Undefined => "undefined"
    case Null => "null"
    case Bool(b) => if b then "true" else "false"
    case Num(n) => IntToString(n)
    case Str(s) => s
    case Obj(_) => "[object Object]"
  }

  /** The decimal form of a number never holds a separator character. */
  lemma IntToStringHasNoSeparator(n: int, sep: char)
    requires !('0' <= sep <= '9') && sep != '-'
    ensures sep !in IntToString(n)
  {
    var s := NatToString(if n < 0 then -n else n);
    assert sep !in s by {
      forall i | 0 <= i < |s| ensures s[i] != sep { }
    }
  }

  // ----- Array.prototype.join and its inverse String.prototype.split -----

  /** `xs.join(sep)` on an array of strings. */
  function Join(xs: seq<string>, sep: char): string {
    if |xs| == 0 then ""
    else if |xs| == 1 then xs[0]
    else xs[0] + [sep] + Join(xs[1..], sep)
  }

  /** `s.split(sep)` with a one-character separator; `"".split(sep)` is `[""]`. */
  function Split(s: string, sep: char): (r: seq<string>)
    ensures |r| >= 1
  {
    if |s| == 0 then [""]
    else
      var rest := Split(s[1..], sep);
      if s[0] == sep then [""] + rest else [[s[0]] + rest[0]] + rest[1..]
  }

  lemma {:induction false} SplitWithoutSeparator(a: string, sep: char)
    requires sep !in a
    ensures Split(a, sep) == [a]
  {
    if |a| > 0 {
      SplitWithoutSeparator(a[1..], sep);
      assert [a[0]] + a[1..] == a;
    }
  }

  lemma {:induction false} SplitAtSeparator(a: string, b: string, sep: char)
    requires sep !in a
    ensures Split(a + [sep] + b, sep) == [a] + Split(b, sep)
  {
    var s := a + [sep] + b;
    if |a| == 0 {
      assert s[0] == sep && s[1..] == b;
    } else {
      assert s[0] == a[0] && s[1..] == a[1..] + [sep] + b;
      SplitAtSeparator(a[1..], b, sep);
      assert [a[0]] + a[1..] == a;
    }
  }

  /** Splitting a non-empty join at the same separator recovers the pieces,
      in order, provided no piece contains the separator. */
  lemma {:induction false} SplitJoin(xs: seq<string>, sep: char)
    requires |xs| > 0
    requires forall i :: 0 <= i < |xs| ==> sep !in xs[i]
    ensures Split(Join(xs, sep), sep) == xs
  {
    if |xs| == 1 {
      SplitWithoutSeparator(xs[0], sep);
    } else {
      SplitJoin(xs[1..], sep);
      SplitAtSeparator(xs[0], Join(xs[1..], sep), sep);
      assert [xs[0]] + xs[1..] == xs;
    }
  }

  /** The join is empty exactly when the array is empty or holds a single empty string. */
  lemma {:induction false} JoinEmpty(xs: seq<string>, sep: char)
    ensures Join(xs, sep) == "" <==> (|xs| == 0 || xs == [""])
  {
    if |xs| > 1 {
      assert |Join(xs, sep)| >= 1;
    }
  }
}
