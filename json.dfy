/**
 * JavaScript values as the dashboard code sees them after `JSON.parse` (plus `undefined`),
 * with property access `v[key]` and truthiness.
 */
module Json {
  import opened Text
  import opened Wrappers

  datatype Value =
    | Undefined
    | Null
    | Bool(b: bool)
    | Num(n: real)
    | Str(s: string)
    | Arr(items: seq<Value>)
    | Obj(props: map<string, Value>)
  {
    /** `null` or `undefined`, the values `??` and `?.` treat as absent. */
    predicate IsNullish() { Undefined? || Null? }

    /** JavaScript truthiness (NaN is not modelled). */
    predicate IsTruthy() {
      !(Undefined? || Null? || (Bool? && !b) || (Num? && n == 0.0) || (Str? && s == []))
    }
  }

  /** What `v[key]` does: produce a value, or throw a TypeError when `v` is null or undefined. */
  datatype Access = Got(value: Value) | TypeError

  /** `key` as an array index: the canonical decimal rendering of a natural number. */
  function ArrayIndex(key: string): (r: Option<nat>)
    ensures r.Some? ==> key == NatToString(r.value)
  {
    if key != [] && (forall i :: 0 <= i < |key| ==> '0' <= key[i] <= '9') && (|key| == 1 || key[0] != '0')
    then
      CanonicalDigits(key);
      Some(DigitsValue(key))
    else None
  }

  /** A digit string without a leading zero is the rendering of its own value. */
  lemma {:induction false} CanonicalDigits(key: string)
    requires key != [] && forall i :: 0 <= i < |key| ==> '0' <= key[i] <= '9'
    requires |key| == 1 || key[0] != '0'
    ensures NatToString(DigitsValue(key)) == key
    decreases |key|
  {
    var n := DigitsValue(key);
    if |key| == 1 {
      assert key[..0] == [] && DigitsValue(key[..0]) == 0;
      assert n == key[0] as int - '0' as int;
    } else {
      var front := key[..|key| - 1];
      CanonicalDigits(front);
      var d := key[|key| - 1] as int - '0' as int;
      assert n == 10 * DigitsValue(front) + d;
      assert DigitsValue(front) >= 1 by {
        if DigitsValue(front) == 0 { LeadingDigitZero(front); }
      }
      assert n / 10 == DigitsValue(front) && n % 10 == d;
      assert key == front + [key[|key| - 1]];
    }
  }

  /** A digit string worth zero is "0" or starts with '0'. */
  lemma {:induction false} LeadingDigitZero(s: string)
    requires s != [] && forall i :: 0 <= i < |s| ==> '0' <= s[i] <= '9'
    requires DigitsValue(s) == 0
    ensures s[0] == '0'
    decreases |s|
  {
    if |s| > 1 {
      LeadingDigitZero(s[..|s| - 1]);
    }
  }

  /** Property access `v[key]` on own properties; members inherited from prototypes are not modelled. */
  function Get(v: Value, key: string): (r: Access)
    ensures r.TypeError? <==> v.IsNullish()
    ensures v.Obj? ==> r == Got(if key in v.props then v.props[key] else Undefined)
  {
    match v
    case Undefined => TypeError
    case Null => TypeError
    case Obj(m) => Got(if key in m then m[key] else Undefined)
    case Arr(items) =>
      if key == "length" then Got(Num(|items| as real))
      else (
        match ArrayIndex(key)
        case Some(i) => Got(if i < |items| then items[i] else Undefined)
        case None => Got(Undefined))
    case Str(s) =>
      if key == "length" then Got(Num(|s| as real))
      else (
        match ArrayIndex(key)
        case Some(i) => Got(if i < |s| then Str([s[i]]) else Undefined)
        case None => Got(Undefined))
    case _ => Got(Undefined)
  }
}
