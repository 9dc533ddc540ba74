/**
 * The JavaScript values the generated client handles, and the few language
 * and library operations it relies on: truthiness, conversion to a string
 * (also how a value becomes a property key), property reads,
 * Object.assign, and ramda's mergeDeepRight.
 */
module Js {
  import opened Wrappers
  import opened Text

  /**
   * A JavaScript value. Numbers are integers; a plain object is the map of
   * its own enumerable properties, where a property set to undefined is
   * present with the value Undefined. `Builtin(name)` is a value found on
   * Object.prototype under `name`: one of its methods, or the prototype
   * itself for "__proto__".
   */
  datatype Value =
    | Undefined
    | Null
    | Bool(b: bool)
    | Num(n: int)
    | Str(s: string)
    | Arr(elems: seq<Value>)
    | Obj(fields: map<string, Value>)
    | Builtin(name: string)

  /** The errors the modelled operations can throw. */
  datatype JsError = TypeError

  /** The property names every plain object inherits from Object.prototype. */
  const PrototypeKeys: set<string> := {
    "constructor", "__defineGetter__", "__defineSetter__", "hasOwnProperty",
    "__lookupGetter__", "__lookupSetter__", "isPrototypeOf",
    "propertyIsEnumerable", "toString", "valueOf", "__proto__", "toLocaleString"
  }

  /** Falsy values: undefined, null, false, 0 and "". */
  predicate Truthy(v: Value) {
    match v
    case Undefined => false
    case Null => false
    case Bool(b) => b
    case Num(n) => n != 0
    case Str(s) => s != ""
    case _ => true
  }

  /** a || b */
  function Or(a: Value, b: Value): (r: Value)
    ensures Truthy(a) ==> r == a
    ensures !Truthy(a) ==> r == b
  {
    if Truthy(a) then a else b
  }

  /** String(n) for an integer. */
  function NumberString(n: int): (r: string)
    ensures |r| > 0
    ensures n >= 0 ==> r == Decimal(n)
  {
    if n < 0 then "-" + Decimal(-n) else Decimal(n)
  }

  lemma NumberStringInjective(a: nat, b: nat)
    ensures NumberString(a) == NumberString(b) ==> a == b
  {
    if NumberString(a) == NumberString(b) {
      DecimalInjective(a, b);
    }
  }

  /**
   * String(v): also the key a value stands for in `obj[v]`. Array elements
   * that are undefined or null print as empty; a plain object prints as
   * "[object Object]", and so does Object.prototype.
   */
  function JsString(v: Value): string {
    match v
    case Undefined => "undefined"
    case Null => "null"
    case Bool(b) => if b then "true" else "false"
    case Num(n) => NumberString(n)
    case Str(s) => s
    case Arr(elems) => ElemsString(elems)
    case Obj(_) => "[object Object]"
    case Builtin(name) =>
      if name == "__proto__" then "[object Object]" else "function " + name + "() { [native code] }"
  }

  /** Array.prototype.join(",") as String(array) uses it. */
  function ElemsString(elems: seq<Value>): string
    decreases elems
  {
    if elems == [] then ""
    else
      var head := if elems[0].Undefined? || elems[0].Null? then "" else JsString(elems[0]);
      if |elems| == 1 then head else head + "," + ElemsString(elems[1..])
  }

  /** obj[k] for an own property, undefined when absent. */
  function Lookup(m: map<string, Value>, k: string): (r: Value)
    ensures k in m ==> r == m[k]
    ensures k !in m ==> r == Undefined
  {
    if k in m then m[k] else Undefined
  }

  /**
   * v.name for a value that is not undefined or null, where `name` is
   * neither an array index, "length", nor inherited: only plain objects
   * carry such properties.
   */
  function Property(v: Value, name: string): (r: Value)
    requires !v.Undefined? && !v.Null?
    ensures !v.Obj? ==> r == Undefined
  {
    if v.Obj? then Lookup(v.fields, name) else Undefined
  }

  /** The own enumerable properties Object.assign and for-in see on a value. */
  function OwnProperties(v: Value): (r: map<string, Value>)
    ensures v.Obj? ==> r == v.fields
    ensures v.Str? ==> |r| == |v.s|
    ensures v.Arr? ==> |r| == |v.elems|
    ensures !(v.Obj? || v.Str? || v.Arr?) ==> r == map[]
  {
    match v
    case Obj(f) => f
    case Str(s) => IndexProperties(seq(|s|, i requires 0 <= i < |s| => Str([s[i]])))
    case Arr(elems) => IndexProperties(elems)
    case _ => map[]
  }

  /** The index properties "0", "1", ... of an array-like value. */
  function IndexProperties(elems: seq<Value>): (r: map<string, Value>)
    ensures |r| == |elems|
    ensures forall i :: 0 <= i < |elems| ==> NumberString(i) in r && r[NumberString(i)] == elems[i]
    ensures forall k :: k in r ==> exists i :: 0 <= i < |elems| && k == NumberString(i)
  {
    if elems == [] then map[]
    else
      var n := |elems| - 1;
      var r := IndexProperties(elems[..n]);
      IndexPropertiesExtend(elems, r);
      r[NumberString(n) := elems[n]]
  }

  /** Adding the last index to the index properties of all the others. */
  lemma IndexPropertiesExtend(elems: seq<Value>, r: map<string, Value>)
    requires elems != []
    requires |r| == |elems| - 1
    requires forall i :: 0 <= i < |elems| - 1 ==> NumberString(i) in r && r[NumberString(i)] == elems[i]
    requires forall k :: k in r ==> exists i :: 0 <= i < |elems| - 1 && k == NumberString(i)
    ensures NumberString(|elems| - 1) !in r
    ensures forall i :: 0 <= i < |elems| ==>
      NumberString(i) in r[NumberString(|elems| - 1) := elems[|elems| - 1]] &&
      r[NumberString(|elems| - 1) := elems[|elems| - 1]][NumberString(i)] == elems[i]
  {
    var n := |elems| - 1;
    NumberStringsDistinct(n);
  }

  /** The index n prints differently from every smaller index. */
  lemma NumberStringsDistinct(n: nat)
    ensures forall i :: 0 <= i < n ==> NumberString(i) != NumberString(n)
  {
    forall i | 0 <= i < n ensures NumberString(i) != NumberString(n) {
      NumberStringInjective(i, n);
    }
  }

  /**
   * Object.assign(target, source) as the new value of `target`. An
   * undefined or null target throws. A plain object takes the source's own
   * properties, overwriting same-named ones. A string target is boxed: its
   * index properties and "length" are read-only, so a source that writes
   * one throws; otherwise the box is dropped and the string is unchanged.
   * Numbers and booleans are boxed and dropped the same way.
   */
  function Assign(target: Value, source: Value): (r: Result<Value, JsError>)
    ensures (target.Undefined? || target.Null?) ==> r == Err(TypeError)
    ensures target.Obj? ==> r == Ok(Obj(target.fields + OwnProperties(source)))
    ensures target.Str? ==> (r.Err? <==> exists k :: k in OwnProperties(source) && ReadOnlyKey(target.s, k))
    ensures r.Ok? && !target.Obj? ==> r.value == target
  {
    match target
    case Undefined => Err(TypeError)
    case Null => Err(TypeError)
    case Obj(f) => Ok(Obj(f + OwnProperties(source)))
    case Str(s) =>
      if exists k <- OwnProperties(source).Keys :: ReadOnlyKey(s, k) then Err(TypeError) else Ok(target)
    case _ => Ok(target)
  }

  /** The read-only own properties of a boxed string. */
  predicate ReadOnlyKey(s: string, k: string) {
    k == "length" || exists i :: 0 <= i < |s| && k == NumberString(i)
  }

  /**
   * The rule ramda's mergeDeepRight applies to two values: where both are
   * plain objects they merge key by key, recursively; otherwise the right
   * one wins.
   */
  function MergeValues(a: Value, b: Value): Value
    decreases b
  {
    if a.Obj? && b.Obj? then
      Obj(map k | k in a.fields.Keys + b.fields.Keys ::
        if k in a.fields && k in b.fields then MergeValues(a.fields[k], b.fields[k])
        else if k in b.fields then b.fields[k]
        else a.fields[k])
    else b
  }

  /**
   * ramda mergeDeepRight(a, b): always a new plain object, built from the own
   * enumerable properties of both arguments.
   */
  function MergeDeepRight(a: Value, b: Value): (r: Value)
    ensures r.Obj?
    ensures r.fields.Keys == OwnProperties(a).Keys + OwnProperties(b).Keys
  {
    MergeValues(Obj(OwnProperties(a)), Obj(OwnProperties(b)))
  }

  /**
   * What each key of a merge of two plain objects holds: keys only on the
   * left keep their value, keys on the right win unless both sides hold
   * plain objects, which are merged in turn.
   */
  lemma MergeValuesKeys(a: map<string, Value>, b: map<string, Value>)
    ensures MergeValues(Obj(a), Obj(b)).Obj?
    ensures MergeValues(Obj(a), Obj(b)).fields.Keys == a.Keys + b.Keys
    ensures forall k :: k in b && !(k in a && a[k].Obj? && b[k].Obj?) ==>
      MergeValues(Obj(a), Obj(b)).fields[k] == b[k]
    ensures forall k :: k in a && k !in b ==> MergeValues(Obj(a), Obj(b)).fields[k] == a[k]
    ensures forall k :: k in a && k in b && a[k].Obj? && b[k].Obj? ==>
      MergeValues(Obj(a), Obj(b)).fields[k] == MergeValues(a[k], b[k])
  {
  }

  /** Merging a value with itself gives it back. */
  lemma {:induction false} MergeValuesIdempotent(a: Value)
    ensures MergeValues(a, a) == a
    decreases a
  {
    if a.Obj? {
      var m := MergeValues(a, a);
      forall k | k in a.fields ensures m.fields[k] == a.fields[k] {
        MergeValuesIdempotent(a.fields[k]);
      }
    }
  }

  /** Merging the right side in a second time changes nothing: it already won. */
  lemma {:induction false} MergeValuesAbsorbs(a: Value, b: Value)
    ensures MergeValues(MergeValues(a, b), b) == MergeValues(a, b)
    decreases b
  {
    var m := MergeValues(a, b);
    if a.Obj? && b.Obj? {
      var mm := MergeValues(m, b);
      forall k | k in m.fields ensures mm.fields[k] == m.fields[k] {
        if k in b.fields {
          if k in a.fields && a.fields[k].Obj? && b.fields[k].Obj? {
            assert m.fields[k] == MergeValues(a.fields[k], b.fields[k]);
            MergeValuesAbsorbs(a.fields[k], b.fields[k]);
          } else {
            assert m.fields[k] == b.fields[k];
            MergeValuesIdempotent(b.fields[k]);
          }
          assert mm.fields[k] == MergeValues(m.fields[k], b.fields[k]) || mm.fields[k] == b.fields[k];
        }
      }
    } else {
      MergeValuesIdempotent(b);
    }
  }

  /** mergeDeepRight of two plain objects is the recursive rule applied to them. */
  lemma MergeDeepRightObjects(a: map<string, Value>, b: map<string, Value>)
    ensures MergeDeepRight(Obj(a), Obj(b)) == MergeValues(Obj(a), Obj(b))
  {
  }

  /** mergeDeepRight(a, b) applied again with the same `b` gives the same object. */
  lemma MergeDeepRightAbsorbs(a: map<string, Value>, b: map<string, Value>)
    ensures MergeDeepRight(MergeDeepRight(Obj(a), Obj(b)), Obj(b)) == MergeDeepRight(Obj(a), Obj(b))
  {
    MergeValuesAbsorbs(Obj(a), Obj(b));
  }
}
