/**
 * Field access by dotted path, used to pick user-selected fields out of a
 * quote, and the default field lists per widget type.
 */
module ApiSchema {
  import opened Json
  import opened Text
  import opened Seqs

  /** How `getFieldValue` ends: with a value, or by throwing a TypeError out of `current[key]`. */
  datatype Eval = Returned(value: Value) | Threw

  /**
   * The walk of `getFieldValue` from `current` over the remaining keys: each
   * key is read from the current value; an undefined result stops the walk
   * with undefined, and reading from null throws.
   */
  function Walk(current: Value, keys: seq<string>): (r: Eval)
    ensures keys == [] ==> r == Returned(current)
    decreases |keys|
  {
    if keys == [] then Returned(current)
    else
      match Get(current, keys[0])
      case TypeError => Threw
      case Got(v) => if v.Undefined? then Returned(Undefined) else Walk(v, keys[1..])
  }

  /** `getFieldValue(obj, path)`: undefined for a falsy object or an empty path, otherwise the walk over `path.split('.')`. */
  function FieldValue(obj: Value, path: string): (r: Eval)
    ensures !obj.IsTruthy() || path == [] ==> r == Returned(Undefined)
  {
    if !obj.IsTruthy() || path == [] then Returned(Undefined)
    else Walk(obj, Split(path, '.'))
  }

  /** The loop of `getFieldValue`, one key per iteration. */
  method GetFieldValue(obj: Value, path: string) returns (r: Eval)
    ensures r == FieldValue(obj, path)
  {
    if !obj.IsTruthy() || path == [] {
      return Returned(Undefined);
    }
    var keys := Split(path, '.');
    var current := obj;
    var i := 0;
    while i < |keys|
      invariant 0 <= i <= |keys|
      invariant Walk(current, keys[i..]) == Walk(obj, keys)
    {
      var key := keys[i];
      assert keys[i..][1..] == keys[i + 1..];
      match Get(current, key) {
        case TypeError =>
          return Threw;
        case Got(v) =>
          if v.Undefined? {
            return Returned(Undefined);
          }
          current := v;
      }
      i := i + 1;
    }
    r := Returned(current);
  }

  /**
   * Walking a concatenation of key lists is walking the first list and then,
   * unless it threw or stopped at an undefined value, the second from where
   * it ended.
   */
  lemma {:induction false} WalkConcat(v: Value, k1: seq<string>, k2: seq<string>)
    ensures Walk(v, k1 + k2) ==
      match Walk(v, k1)
      case Threw => Threw
      case Returned(u) => if k1 != [] && u.Undefined? then Returned(Undefined) else Walk(u, k2)
    decreases |k1|
  {
    if k1 != [] {
      assert (k1 + k2)[0] == k1[0];
      assert (k1 + k2)[1..] == k1[1..] + k2;
      match Get(v, k1[0])
      case TypeError =>
      case Got(w) =>
        if !w.Undefined? {
          WalkConcat(w, k1[1..], k2);
          if k1[1..] == [] {
            assert k1[1..] + k2 == k2;
          }
        }
    } else {
      assert k1 + k2 == k2;
    }
  }

  /**
   * The path `p.q` reaches what `q` reaches from the value at `p`: the dotted
   * path descends left to right, one key per segment.
   */
  lemma FieldValueDescends(obj: Value, p: string, q: string)
    requires obj.IsTruthy() && p != []
    ensures FieldValue(obj, p + "." + q) ==
      match FieldValue(obj, p)
      case Threw => Threw
      case Returned(u) => if u.Undefined? then Returned(Undefined) else Walk(u, Split(q, '.'))
  {
    SplitConcat(p, q, '.');
    WalkConcat(obj, Split(p, '.'), Split(q, '.'));
  }

  /** A one-segment path reads that key of the object, undefined when absent. */
  lemma FieldValueOneKey(m: map<string, Value>, key: string)
    requires key != [] && '.' !in key
    ensures FieldValue(Obj(m), key) == Returned(if key in m then m[key] else Undefined)
  {
    SplitNoSep(key, '.');
  }

  /** The example in the source's documentation: `{ a: { b: { c: 10 } } }` and `'a.b.c'` give 10. */
  lemma DocumentedExample()
    ensures FieldValue(Obj(map["a" := Obj(map["b" := Obj(map["c" := Num(10.0)])])]), "a.b.c") == Returned(Num(10.0))
  {
    SplitNoSep("a", '.');
    SplitNoSep("b", '.');
    SplitNoSep("c", '.');
    SplitConcat("b", "c", '.');
    assert "b.c" == "b" + "." + "c";
    SplitConcat("a", "b.c", '.');
    assert "a.b.c" == "a" + "." + "b.c";
    assert Split("a.b.c", '.') == ["a", "b", "c"];
  }

  /** Only undefined stops the walk: a null at the end is returned, a null in the middle throws. */
  lemma NullHandling()
    ensures FieldValue(Obj(map["a" := Null]), "a") == Returned(Null)
    ensures FieldValue(Obj(map["a" := Null]), "a.b") == Threw
    ensures FieldValue(Obj(map["a" := Obj(map[])]), "a.b.c") == Returned(Undefined)
  {
    SplitNoSep("a", '.');
    SplitNoSep("b", '.');
    SplitNoSep("c", '.');
    SplitConcat("a", "b", '.');
    assert "a.b" == "a" + "." + "b";
    SplitConcat("b", "c", '.');
    assert "b.c" == "b" + "." + "c";
    SplitConcat("a", "b.c", '.');
    assert "a.b.c" == "a" + "." + "b.c";
    assert Split("a.b.c", '.') == ["a", "b", "c"];
  }

  /** Whatever path reaches a null, reading any further key from it throws. */
  lemma NullMidwayThrows(obj: Value, p: string, q: string)
    requires obj.IsTruthy() && p != [] && FieldValue(obj, p) == Returned(Null)
    ensures FieldValue(obj, p + "." + q) == Threw
  {
    FieldValueDescends(obj, p, q);
  }

  /** Whatever path reaches undefined, any longer path through it is undefined as well, without throwing. */
  lemma UndefinedMidwayStops(obj: Value, p: string, q: string)
    requires obj.IsTruthy() && p != [] && FieldValue(obj, p) == Returned(Undefined)
    ensures FieldValue(obj, p + "." + q) == Returned(Undefined)
  {
    FieldValueDescends(obj, p, q);
  }

  /** The fields a quote payload carries. */
  const QuoteFields: set<string> := {"symbol", "price", "change", "changePercent", "timestamp"}

  /** `getDefaultFields(widgetType)`: the fields a widget shows before the user picks any. */
  function DefaultFields(widgetType: string): (r: seq<string>)
    ensures "price" in r && 2 <= |r| <= 4 && Distinct(r)
    ensures forall i :: 0 <= i < |r| ==> r[i] in QuoteFields && r[i] != [] && '.' !in r[i]
  {
    match widgetType
    case "finance-card" => ["price", "change", "changePercent", "timestamp"]
    case "line-chart" => ["timestamp", "price"]
    case "table" => ["symbol", "price", "change", "changePercent"]
    case _ => ["price", "change", "changePercent"]
  }

  /** Only the line chart shows two fields, only the table shows the symbol, and only the card and the chart show the time. */
  lemma DefaultFieldsByType(t: string)
    ensures |DefaultFields(t)| == 2 <==> t == "line-chart"
    ensures "symbol" in DefaultFields(t) <==> t == "table"
    ensures "timestamp" in DefaultFields(t) <==> t == "finance-card" || t == "line-chart"
  {
  }

  /** On a quote object that has every quote field, each default field of any widget type reads back that field's value. */
  lemma DefaultFieldsResolve(m: map<string, Value>, widgetType: string, i: nat)
    requires forall f :: f in QuoteFields ==> f in m
    requires i < |DefaultFields(widgetType)|
    ensures FieldValue(Obj(m), DefaultFields(widgetType)[i]) == Returned(m[DefaultFields(widgetType)[i]])
  {
    FieldValueOneKey(m, DefaultFields(widgetType)[i]);
  }
}
