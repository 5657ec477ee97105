/** The structured values that cross the channel in place of JSON text, and
    the two JavaScript conversions the core relies on: truthiness and
    conversion to a string. Numbers are integers in this model. */
module Json {
  import opened Wrappers

  datatype Value =
    | Null
    | Bool(b: bool)
    | Num(n: int)
    | Str(s: string)
    | Arr(items: seq<Value>)
    | Obj(fields: map<string, Value>)

  /** JavaScript truthiness: null, false, 0 and "" are falsy, every array and
      object is truthy. An absent field (undefined) is read as Null. */
  predicate Truthy(v: Value) {
    match v
    case Null => false
    case Bool(b) => b
    case Num(n) => n != 0
    case Str(s) => s != ""
    case Arr(_) => true
    case Obj(_) => true
  }

  /** A record field, None when the record has no such key. */
  function Get(o: map<string, Value>, k: string): Option<Value>
  {
    if k in o then Some(o[k]) else None
  }

  /** A record field as JavaScript reads it: undefined (here Null) when absent. */
  function Field(o: map<string, Value>, k: string): (v: Value)
    ensures k !in o ==> v == Null
    ensures k in o ==> v == o[k]
  {
    match Get(o, k)
    case Some(v) => v
    case None => Null
  }

  // ---------------------------------------------------------------------
  // Decimal conversion of integers (JavaScript's Number-to-String for
  // integral values) and its inverse.

  predicate IsDigit(c: char) { '0' <= c <= '9' }

  function DigitChar(d: nat): (c: char)
    requires d < 10
    ensures IsDigit(c)
    ensures c as int - '0' as int == d
  {
    ('0' as int + d) as char
  }

  function DigitValue(c: char): nat
    requires IsDigit(c)
  {
    c as int - '0' as int
  }

  /** Decimal digits of n, most significant first, no leading zeros. */
  function NatToString(n: nat): (s: string)
    ensures |s| > 0
    ensures forall i :: 0 <= i < |s| ==> IsDigit(s[i])
    decreases n
  {
    if n < 10 then [DigitChar(n)] else NatToString(n / 10) + [DigitChar(n % 10)]
  }

  function IntToString(i: int): (s: string)
    ensures |s| > 0
  {
    if i < 0 then "-" + NatToString(-i) else NatToString(i)
  }

  /** Reads a string of decimal digits, most significant first. */
  function ParseNat(s: string): nat
    requires forall i :: 0 <= i < |s| ==> IsDigit(s[i])
  {
    if s == [] then 0 else ParseNat(s[..|s| - 1]) * 10 + DigitValue(s[|s| - 1])
  }

  function ParseInt(s: string): int
    requires |s| > 0
    requires s[0] == '-' ==> forall i :: 1 <= i < |s| ==> IsDigit(s[i])
    requires s[0] != '-' ==> forall i :: 0 <= i < |s| ==> IsDigit(s[i])
  {
    if s[0] == '-' then -(ParseNat(s[1..]) as int) else ParseNat(s)
  }

  lemma {:induction false} NatRoundTrip(n: nat)
    ensures ParseNat(NatToString(n)) == n
    decreases n
  {
    var s := NatToString(n);
    if n < 10 {
      assert s[..|s| - 1] == [];
    } else {
      NatRoundTrip(n / 10);
      assert s[..|s| - 1] == NatToString(n / 10);
    }
  }

  /** The decimal form of an integer reads back as that integer, so two
      different integers never have the same decimal form. */
  lemma IntRoundTrip(i: int)
    ensures var s := IntToString(i);
      (s[0] == '-' <==> i < 0) &&
      (s[0] == '-' ==> forall k :: 1 <= k < |s| ==> IsDigit(s[k])) &&
      (s[0] != '-' ==> forall k :: 0 <= k < |s| ==> IsDigit(s[k])) &&
      ParseInt(s) == i
  {
    var s := IntToString(i);
    if i < 0 {
      assert s[1..] == NatToString(-i);
      NatRoundTrip(-i);
    } else {
      assert IsDigit(s[0]);
      NatRoundTrip(i);
    }
  }

  lemma IntToStringInjective(a: int, b: int)
    ensures IntToString(a) == IntToString(b) <==> a == b
  {
    if IntToString(a) == IntToString(b) {
      IntRoundTrip(a);
      IntRoundTrip(b);
    }
  }

  // ---------------------------------------------------------------------
  // JavaScript's String(v), used where the source concatenates a value onto
  // a string ("id " + idOrPath).

  function ToJsString(v: Value): string
    decreases v, 1
  {
    match v
    case Null => "null"
    case Bool(b) => if b then "true" else "false"
    case Num(n) => IntToString(n)
    case Str(s) => s
    case Arr(items) => JoinElements(v, 0)
    case Obj(_) => "[object Object]"
  }

  /** Array.prototype.join(",") from index i on: null elements become "". */
  function JoinElements(v: Value, i: nat): string
    requires v.Arr?
    decreases v, 0, |v.items| - i
  {
    if i >= |v.items| then ""
    else
      var e := v.items[i];
      assert e in v.items;
      var piece := if e.Null? then "" else ToJsString(e);
      if i + 1 == |v.items| then piece else piece + "," + JoinElements(v, i + 1)
  }
}
