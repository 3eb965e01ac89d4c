/** The checker library of shape.py: a checker tree and the single function
    `Verify` that checks a value against it and reports where and why it failed. */
module Shape {
  import opened Wrappers
  import opened Text
  import opened Values
  import opened Summaries

  /** One kind of checker per class of shape.py. */
  datatype Checker =
    | TermChecker(pred: Value -> bool)
    | TypedChecker(cls: TypeTag)
    | LengthChecker(length: int)
    | EnumChecker(options: seq<Value>)
    | AndChecker(checker1: Checker, checker2: Checker)
    | OrChecker(checker1: Checker, checker2: Checker)
    | SequenceChecker(checker: Checker)
    | MappingChecker(keyChecker: Checker, valueChecker: Checker)
    | DictChecker(fields: seq<Field>, allowExtra: bool := true)
    | NoneChecker
    | OptionalChecker(checker: Checker)
    | OptionalKeyChecker(checker: Checker)
  {
    /** `self & other`. */
    function And(other: Checker): Checker
    {
      AndChecker(this, other)
    }

    /** `self | other`. */
    function Or(other: Checker): Checker
    {
      OrChecker(this, other)
    }
  }

  /** One entry of a `DictChecker`'s field table, in declared order. The table is
      a Python dict, so its keys are distinct. */
  datatype Field = Field(key: Value, checker: Checker)

  /** `checker.verify(value, path)`. A success carries the empty path and no
      error; a failure's path extends the incoming one. */
  function Verify(c: Checker, v: Value, path: Path := []): (r: Summary)
    ensures r.success ==> r.path == [] && r.error == ""
    ensures !r.success ==> path <= r.path
    decreases c, 1, 0
  {
    match c
    case TermChecker(pred) =>
      if pred(v) then Summary(true) else Summary(false, path, "predicate fail")
    case TypedChecker(cls) =>
      if InstanceOf(v, cls) then Summary(true)
      else Summary(false, path, "not an instance of " + ClassRepr(cls))
    case LengthChecker(length) =>
      if !HasLen(v) then Summary(false, path, "has no __len__")
      else if Len(v) == length then Summary(true)
      else Summary(false, path, "not length of " + IntToString(length))
    case EnumChecker(options) =>
      if v in options then Summary(true) else Summary(false, path, Repr(v) + " not in options")
    case AndChecker(checker1, checker2) =>
      // the second checker's summary decides whenever the first one passes
      var s1 := Verify(checker1, v, path);
      if s1.Truthy() then Verify(checker2, v, path) else s1
    case OrChecker(checker1, checker2) =>
      var s1 := Verify(checker1, v, path);
      if s1.Truthy() then s1 else Verify(checker2, v, path)
    case SequenceChecker(checker) =>
      if !HasIter(v) then Summary(false, path, "not iterable")
      else VerifyElements(checker, Elements(v), path, 0)
    case MappingChecker(keyChecker, valueChecker) =>
      if !HasItems(v) then Summary(false, path, "not a dict")
      else VerifyPairs(keyChecker, valueChecker, Items(v), path, 0)
    case DictChecker(fields, allowExtra) =>
      if !HasItems(v) || !HasLen(v) then Summary(false, path, "not a dict")
      else VerifyFields(fields, allowExtra, v, path, 0)
    case NoneChecker =>
      if v == VNone then Summary(true) else Summary(false, path, "is not none")
    case OptionalChecker(checker) =>
      // shape.py calls `self.checker(anything, path=path)`, which raises because a
      // checker is not callable; the evident intent, `checker.verify`, is modelled
      if v == VNone then Summary(true) else Verify(checker, v, path)
    case OptionalKeyChecker(checker) =>
      // the same divergence as OptionalChecker
      if v == VNoKey then Summary(true) else Verify(checker, v, path)
  }

  /** The `for i, e in enumerate(anything)` loop of SequenceChecker, from index `i`:
      the first failing element's summary, checked at `path + [i]`. */
  function VerifyElements(checker: Checker, es: seq<Value>, path: Path, i: nat): (r: Summary)
    requires i <= |es|
    ensures r.success ==> r.path == [] && r.error == ""
    ensures !r.success ==> path <= r.path
    decreases SequenceChecker(checker), 0, |es| - i
  {
    if i == |es| then Summary(true)
    else
      var s := Verify(checker, es[i], path + [Idx(i)]);
      if !s.Truthy() then s else VerifyElements(checker, es, path, i + 1)
  }

  /** The `for k, v in anything.items()` loop of MappingChecker, from pair `i`: the
      key is checked first, the value only when the key passes, both at `path + [k]`. */
  function VerifyPairs(keyChecker: Checker, valueChecker: Checker, pairs: seq<(Value, Value)>,
                       path: Path, i: nat): (r: Summary)
    requires i <= |pairs|
    ensures r.success ==> r.path == [] && r.error == ""
    ensures !r.success ==> path <= r.path
    decreases MappingChecker(keyChecker, valueChecker), 0, |pairs| - i
  {
    if i == |pairs| then Summary(true)
    else
      var nextPath := path + [Key(pairs[i].0)];
      var ks := Verify(keyChecker, pairs[i].0, nextPath);
      if !ks.Truthy() then ks
      else
        var vs := Verify(valueChecker, pairs[i].1, nextPath);
        if !vs.Truthy() then vs else VerifyPairs(keyChecker, valueChecker, pairs, path, i + 1)
  }

  /** The field loop of DictChecker, from field `i`, followed by the extra-key test:
      each declared field checks the looked-up value (or `NO_KEY`) at `path + [key]`. */
  function VerifyFields(fields: seq<Field>, allowExtra: bool, v: Value, path: Path, i: nat): (r: Summary)
    requires HasItems(v) && HasLen(v) && i <= |fields|
    ensures r.success ==> r.path == [] && r.error == ""
    ensures !r.success ==> path <= r.path
    decreases DictChecker(fields, allowExtra), 0, |fields| - i
  {
    if i == |fields| then
      if !allowExtra && Len(v) > |fields| then Summary(false, path, "has extra keys")
      else Summary(true)
    else
      var s := Verify(fields[i].checker, Get(v, fields[i].key), path + [Key(fields[i].key)]);
      if !s.Truthy() then s else VerifyFields(fields, allowExtra, v, path, i + 1)
  }

  /** The boolean meaning of a checker, stated without paths or short-circuits:
      a reference against which `Verify`'s verdict is proved. */
  predicate Accepts(c: Checker, v: Value)
    decreases c
  {
    match c
    case TermChecker(pred) => pred(v)
    case TypedChecker(cls) => InstanceOf(v, cls)
    case LengthChecker(length) => HasLen(v) && Len(v) == length
    case EnumChecker(options) => v in options
    case AndChecker(checker1, checker2) => Accepts(checker1, v) && Accepts(checker2, v)
    case OrChecker(checker1, checker2) => Accepts(checker1, v) || Accepts(checker2, v)
    case SequenceChecker(checker) =>
      HasIter(v) && forall k | 0 <= k < |Elements(v)| :: Accepts(checker, Elements(v)[k])
    case MappingChecker(keyChecker, valueChecker) =>
      HasItems(v) &&
      forall k | 0 <= k < |Items(v)| ::
        Accepts(keyChecker, Items(v)[k].0) && Accepts(valueChecker, Items(v)[k].1)
    case DictChecker(fields, allowExtra) =>
      HasItems(v) && HasLen(v) &&
      (forall k | 0 <= k < |fields| :: Accepts(fields[k].checker, Get(v, fields[k].key))) &&
      (allowExtra || Len(v) <= |fields|)
    case NoneChecker => v == VNone
    case OptionalChecker(checker) => v == VNone || Accepts(checker, v)
    case OptionalKeyChecker(checker) => v == VNoKey || Accepts(checker, v)
  }

  /** A summary as seen from a deeper starting point: a failure's path gets
      `prefix` in front, a success is unchanged. */
  function Shift(prefix: Path, s: Summary): (r: Summary)
    ensures r.success == s.success && r.error == s.error
    ensures !s.success ==> r.path == prefix + s.path
    ensures s.success ==> r == s
  {
    if s.success then s else Summary(false, prefix + s.path, s.error)
  }

  /** shape.py's `OptionalChecker.verify` and `OptionalKeyChecker.verify` as
      written: the passthrough value succeeds, and every other value reaches
      `self.checker(...)`, which raises because a checker defines no `__call__`. */
  function OptionalAsWritten(c: Checker, v: Value): (r: Option<Summary>)
    requires c.OptionalChecker? || c.OptionalKeyChecker?
    ensures r.Some? <==> (if c.OptionalChecker? then v == VNone else v == VNoKey)
    ensures r.Some? ==> r.value == Summary(true)
  {
    if c.OptionalChecker? && v == VNone then Some(Summary(true))
    else if c.OptionalKeyChecker? && v == VNoKey then Some(Summary(true))
    else None
  }
}
