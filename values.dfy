/** The runtime values a checker inspects, and the duck-typed capabilities the
    checkers ask of them (`__len__`, `__iter__`, `items`, `isinstance`). */
module Values {
  import opened Text

  /** A Python value as far as a checker can observe it. */
  datatype Value =
    | VNone                               // Python's `None`
    | VNoKey                              // the `NO_KEY` sentinel of shape.py, a bare `object()`
    | VInt(i: int)
    | VStr(s: string)
    | VFloat(tag: nat)                    // a float, known only by an identifying tag
    | VList(items: seq<Value>)
    | VDict(pairs: seq<(Value, Value)>)   // key/value pairs in insertion order
    | VObject(cls: nat)                   // an instance of a user class with no protocols

  /** The classes a `TypedChecker` may name: the built-in classes of the
      modelled values, Python's root class `object`, and user classes. */
  datatype TypeTag = NoneType | Int | Str | Float | List | Dict | Object | Class(id: nat)

  /** A dict's keys are pairwise distinct, as Python guarantees. */
  predicate DistinctKeys(pairs: seq<(Value, Value)>)
  {
    forall i, j | 0 <= i < j < |pairs| :: pairs[i].0 != pairs[j].0
  }

  /** `isinstance(v, t)`; every value, the sentinel included, is an `object`. */
  predicate InstanceOf(v: Value, t: TypeTag)
  {
    match t
    case NoneType => v.VNone?
    case Int => v.VInt?
    case Str => v.VStr?
    case Float => v.VFloat?
    case List => v.VList?
    case Dict => v.VDict?
    case Object => true
    case Class(id) => v.VObject? && v.cls == id
  }

  /** The value has `__len__`: lists, strings and dicts. */
  predicate HasLen(v: Value)
  {
    v.VList? || v.VStr? || v.VDict?
  }

  /** `len(v)`. */
  function Len(v: Value): nat
    requires HasLen(v)
  {
    match v
    case VList(items) => |items|
    case VStr(s) => |s|
    case VDict(pairs) => |pairs|
  }

  /** The value has `__iter__`: lists, strings and dicts. */
  predicate HasIter(v: Value)
  {
    v.VList? || v.VStr? || v.VDict?
  }

  /** What `enumerate(v)` walks through: a list's items, a string's one-character
      strings, a dict's keys. */
  function Elements(v: Value): (es: seq<Value>)
    requires HasIter(v)
    ensures |es| == Len(v)
    ensures v.VList? ==> es == v.items
    ensures v.VStr? ==> forall i | 0 <= i < |es| :: es[i] == VStr([v.s[i]])
    ensures v.VDict? ==> forall i | 0 <= i < |es| :: es[i] == v.pairs[i].0
  {
    match v
    case VList(items) => items
    case VStr(s) => seq(|s|, i requires 0 <= i < |s| => VStr([s[i]]))
    case VDict(pairs) => seq(|pairs|, i requires 0 <= i < |pairs| => pairs[i].0)
  }

  /** The value has `items`: dicts only. */
  predicate HasItems(v: Value)
  {
    v.VDict?
  }

  lemma ItemsHaveLen(v: Value)
    requires HasItems(v)
    ensures HasLen(v) && Len(v) == |v.pairs|
  {
  }

  /** `v.items()`, in insertion order. */
  function Items(v: Value): seq<(Value, Value)>
    requires HasItems(v)
  {
    v.pairs
  }

  /** `dict.get(key, NO_KEY)` on a list of pairs: the value of the first pair with
      that key, or the sentinel when there is none. */
  function Lookup(pairs: seq<(Value, Value)>, key: Value): (r: Value)
    ensures (forall i | 0 <= i < |pairs| :: pairs[i].0 != key) ==> r == VNoKey
    ensures forall i | 0 <= i < |pairs| && pairs[i].0 == key ::
              (forall j | 0 <= j < i :: pairs[j].0 != key) ==> r == pairs[i].1
    ensures r == VNoKey || exists i | 0 <= i < |pairs| :: pairs[i] == (key, r)
    decreases |pairs|
  {
    if |pairs| == 0 then VNoKey
    else if pairs[0].0 == key then pairs[0].1
    else
      var r := Lookup(pairs[1..], key);
      assert forall i | 1 <= i < |pairs| :: pairs[i] == pairs[1..][i - 1];
      r
  }

  /** With distinct keys the looked-up value is the one stored under the key. */
  lemma {:induction false} LookupStored(pairs: seq<(Value, Value)>, i: nat)
    requires DistinctKeys(pairs) && i < |pairs|
    ensures Lookup(pairs, pairs[i].0) == pairs[i].1
  {
    assert forall j | 0 <= j < i :: pairs[j].0 != pairs[i].0;
  }

  /** `v.get(key, NO_KEY)` on a dict. */
  function Get(v: Value, key: Value): Value
    requires HasItems(v)
  {
    Lookup(v.pairs, key)
  }

  /** Python's `'{0}'.format(cls)` for a class: `<class 'int'>` and so on. */
  function ClassRepr(t: TypeTag): string
  {
    match t
    case NoneType => "<class 'NoneType'>"
    case Int => "<class 'int'>"
    case Str => "<class 'str'>"
    case Float => "<class 'float'>"
    case List => "<class 'list'>"
    case Dict => "<class 'dict'>"
    case Object => "<class 'object'>"
    case Class(id) => "<class 'C" + NatToString(id) + "'>"
  }

  /** `repr(v)`, simplified: strings are quoted without escaping, and floats and
      objects, whose text the model does not know, print as placeholders. */
  function Repr(v: Value): string
    decreases v
  {
    match v
    case VNone => "None"
    case VNoKey => "<object object>"
    case VInt(i) => IntToString(i)
    case VStr(s) => "'" + s + "'"
    case VFloat(_) => "<float>"
    case VList(items) =>
      "[" + Join(", ", seq(|items|, k requires 0 <= k < |items| => Repr(items[k]))) + "]"
    case VDict(pairs) =>
      "{" + Join(", ", seq(|pairs|, k requires 0 <= k < |pairs| =>
                              Repr(pairs[k].0) + ": " + Repr(pairs[k].1))) + "}"
    case VObject(_) => "<object>"
  }

  /** `str(v)`: a string is itself, everything else prints as its `repr`. */
  function StrOf(v: Value): string
  {
    if v.VStr? then v.s else Repr(v)
  }
}
