/** JavaScript values as far as progressOf observes them: numbers (with the
    non-finite ones), the property reads that give the traversal its total,
    and the decimal rendering of non-negative integers that template literals
    and string concatenation use. */
module JsValues {

  datatype Option<T> = None | Some(value: T)

  /** A JavaScript number. Finite numbers are modelled by exact reals. */
  datatype Num = Finite(v: real) | PosInf | NegInf | NaN

  /** `x * k` for a finite positive factor `k`: non-finite numbers stay as they are. */
  function Scale(x: Num, k: real): Num
    requires k > 0.0
  {
    match x
    case Finite(v) => Finite(v * k)
    case _ => x
  }

  /** The value of a property read such as `iterable.length`: `undefined`,
      `null`, an integer, or a value whose numeric conversion is NaN. */
  datatype Prop = Undefined | Null | Int(n: int) | NonNumeric

  /** `a ?? b`: the right operand is used when the left is `null` or `undefined`. */
  function Coalesce(a: Prop, b: Prop): Prop
  {
    if a.Undefined? || a.Null? then b else a
  }

  /** `i < p` for a counter `i`: `p` is converted to a number first, so
      `undefined` and non-numeric values give NaN (false) and `null` gives 0. */
  function LessThan(i: nat, p: Prop): bool
  {
    match p
    case Int(n) => i < n
    case Null => i < 0
    case _ => false
  }

  /** How many counters `0, 1, ...` pass the test `i < p`. */
  function Count(p: Prop): nat
  {
    if p.Int? && p.n > 0 then p.n else 0
  }

  lemma LessThanIsBelowCount(i: nat, p: Prop)
    ensures LessThan(i, p) <==> i < Count(p)
  {
  }

  /** A value as read from a JavaScript object. */
  datatype JsValue = Undef | Number(n: Num) | Str(s: string) | Date(ms: int)

  // ----- decimal rendering of integers -----

  predicate IsDigit(c: char)
  {
    '0' <= c <= '9'
  }

  predicate AllDigits(s: string)
  {
    forall i :: 0 <= i < |s| ==> IsDigit(s[i])
  }

  function DigitChar(d: nat): (c: char)
    requires d < 10
    ensures IsDigit(c)
  {
    "0123456789"[d]
  }

  function DigitValue(c: char): (d: nat)
    requires IsDigit(c)
    ensures d < 10
  {
    (c as int - '0' as int) as nat
  }

  lemma DigitRoundTrip(d: nat)
    requires d < 10
    ensures DigitValue(DigitChar(d)) == d
  {
  }

  /** `String(n)` for a non-negative integer: its decimal digits, no leading zero. */
  function NatToString(n: nat): (s: string)
    ensures |s| >= 1 && AllDigits(s)
    ensures (|s| == 1) == (n < 10)
    ensures |s| > 1 ==> s[0] != '0'
    decreases n
  {
    if n < 10 then [DigitChar(n)] else NatToString(n / 10) + [DigitChar(n % 10)]
  }

  /** The integer that a string of decimal digits denotes. */
  function ParseDigits(s: string): nat
    requires |s| >= 1 && AllDigits(s)
    decreases |s|
  {
    if |s| == 1 then DigitValue(s[0])
    else 10 * ParseDigits(s[..|s| - 1]) + DigitValue(s[|s| - 1])
  }

  /** Reading back what `NatToString` prints gives the number printed. */
  lemma {:induction false} ParseNatToString(n: nat)
    ensures ParseDigits(NatToString(n)) == n
    decreases n
  {
    if n < 10 {
      DigitRoundTrip(n);
    } else {
      var s := NatToString(n);
      assert s[..|s| - 1] == NatToString(n / 10);
      ParseNatToString(n / 10);
      DigitRoundTrip(n % 10);
    }
  }

  /** Printing is injective: different numbers print differently. */
  lemma NatToStringInjective(m: nat, n: nat)
    requires NatToString(m) == NatToString(n)
    ensures m == n
  {
    ParseNatToString(m);
    ParseNatToString(n);
  }

  /** The number of decimal digits at the front of `s`. */
  function LeadingDigits(s: string): (k: nat)
    ensures k <= |s| && AllDigits(s[..k])
    ensures k < |s| ==> !IsDigit(s[k])
  {
    if s == [] || !IsDigit(s[0]) then 0
    else
      var k := LeadingDigits(s[1..]);
      assert s[..k + 1] == [s[0]] + s[1..][..k];
      k + 1
  }

  /** A run of digits followed by a non-digit is read as exactly that run. */
  lemma {:induction false} LeadingDigitsOfConcat(d: string, t: string)
    requires AllDigits(d)
    requires t != [] && !IsDigit(t[0])
    ensures LeadingDigits(d + t) == |d|
    decreases |d|
  {
    var s := d + t;
    if d == [] {
      assert s == t;
    } else {
      assert s[0] == d[0] && IsDigit(s[0]);
      assert s[1..] == d[1..] + t;
      LeadingDigitsOfConcat(d[1..], t);
      assert LeadingDigits(s) == LeadingDigits(s[1..]) + 1;
    }
  }
}
