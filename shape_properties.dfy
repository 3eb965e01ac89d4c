/** What shape.py promises about verification: the path bookkeeping, the
    short-circuit and attribution rules of each checker, and agreement with the
    boolean meaning `Accepts`. */
module ShapeProperties {
  import opened Wrappers
  import opened Values
  import opened Summaries
  import opened Shape
  import Text

  // ---------------------------------------------------------------------------
  // Verifying below a path is verifying at the root, with the path put in front

  lemma {:induction false} VerifyShift(c: Checker, v: Value, path: Path)
    ensures Verify(c, v, path) == Shift(path, Verify(c, v))
    decreases c, 1, 0
  {
    match c
    case AndChecker(checker1, checker2) =>
      VerifyShift(checker1, v, path);
      VerifyShift(checker2, v, path);
    case OrChecker(checker1, checker2) =>
      VerifyShift(checker1, v, path);
      VerifyShift(checker2, v, path);
    case SequenceChecker(checker) =>
      if HasIter(v) {
        ElementsShift(checker, Elements(v), path, 0);
      }
    case MappingChecker(keyChecker, valueChecker) =>
      if HasItems(v) {
        PairsShift(keyChecker, valueChecker, Items(v), path, 0);
      }
    case DictChecker(fields, allowExtra) =>
      if HasItems(v) && HasLen(v) {
        FieldsShift(fields, allowExtra, v, path, 0);
      }
    case OptionalChecker(checker) =>
      VerifyShift(checker, v, path);
    case OptionalKeyChecker(checker) =>
      VerifyShift(checker, v, path);
    case _ =>
  }

  /** A child checked at `path + [seg]` reports what it reports at `[seg]`, shifted. */
  lemma ChildShift(c: Checker, v: Value, path: Path, seg: Seg)
    ensures Verify(c, v, path + [seg]) == Shift(path, Verify(c, v, [seg]))
    decreases c, 2, 0
  {
    VerifyShift(c, v, path + [seg]);
    VerifyShift(c, v, [seg]);
    var s := Verify(c, v);
    assert path + [seg] + s.path == path + ([seg] + s.path);
  }

  lemma {:induction false} ElementsShift(checker: Checker, es: seq<Value>, path: Path, i: nat)
    requires i <= |es|
    ensures VerifyElements(checker, es, path, i) == Shift(path, VerifyElements(checker, es, [], i))
    decreases SequenceChecker(checker), 0, |es| - i
  {
    if i < |es| {
      ChildShift(checker, es[i], path, Idx(i));
      assert [] + [Idx(i)] == [Idx(i)];
      ElementsShift(checker, es, path, i + 1);
    }
  }

  lemma {:induction false} PairsShift(keyChecker: Checker, valueChecker: Checker,
                                      pairs: seq<(Value, Value)>, path: Path, i: nat)
    requires i <= |pairs|
    ensures VerifyPairs(keyChecker, valueChecker, pairs, path, i)
            == Shift(path, VerifyPairs(keyChecker, valueChecker, pairs, [], i))
    decreases MappingChecker(keyChecker, valueChecker), 0, |pairs| - i
  {
    if i < |pairs| {
      var seg := Key(pairs[i].0);
      ChildShift(keyChecker, pairs[i].0, path, seg);
      ChildShift(valueChecker, pairs[i].1, path, seg);
      assert [] + [seg] == [seg];
      PairsShift(keyChecker, valueChecker, pairs, path, i + 1);
    }
  }

  lemma {:induction false} FieldsShift(fields: seq<Field>, allowExtra: bool, v: Value, path: Path, i: nat)
    requires HasItems(v) && HasLen(v) && i <= |fields|
    ensures VerifyFields(fields, allowExtra, v, path, i)
            == Shift(path, VerifyFields(fields, allowExtra, v, [], i))
    decreases DictChecker(fields, allowExtra), 0, |fields| - i
  {
    if i < |fields| {
      var seg := Key(fields[i].key);
      ChildShift(fields[i].checker, Get(v, fields[i].key), path, seg);
      assert [] + [seg] == [seg];
      FieldsShift(fields, allowExtra, v, path, i + 1);
    } else {
      assert path + [] == path;
    }
  }

  /** Whether a value passes does not depend on where it sits; a failure's path
      is the incoming path followed by the path found from the root. */
  lemma PathIndependent(c: Checker, v: Value, path: Path, other: Path)
    ensures Verify(c, v, path).success == Verify(c, v, other).success
    ensures Verify(c, v, path).error == Verify(c, v, other).error
    ensures !Verify(c, v, path).success ==>
              Verify(c, v, path).path == path + Verify(c, v).path
  {
    VerifyShift(c, v, path);
    VerifyShift(c, v, other);
  }

  // ---------------------------------------------------------------------------
  // The verdict of Verify is the boolean meaning Accepts

  lemma {:induction false} VerifyAccepts(c: Checker, v: Value, path: Path)
    ensures Verify(c, v, path).success <==> Accepts(c, v)
    decreases c, 1, 0
  {
    match c
    case AndChecker(checker1, checker2) =>
      VerifyAccepts(checker1, v, path);
      VerifyAccepts(checker2, v, path);
    case OrChecker(checker1, checker2) =>
      VerifyAccepts(checker1, v, path);
      VerifyAccepts(checker2, v, path);
    case SequenceChecker(checker) =>
      if HasIter(v) {
        ElementsAccept(checker, Elements(v), path, 0);
      }
    case MappingChecker(keyChecker, valueChecker) =>
      if HasItems(v) {
        PairsAccept(keyChecker, valueChecker, Items(v), path, 0);
      }
    case DictChecker(fields, allowExtra) =>
      if HasItems(v) && HasLen(v) {
        FieldsAccept(fields, allowExtra, v, path, 0);
      }
    case OptionalChecker(checker) =>
      VerifyAccepts(checker, v, path);
    case OptionalKeyChecker(checker) =>
      VerifyAccepts(checker, v, path);
    case _ =>
  }

  lemma {:induction false} ElementsAccept(checker: Checker, es: seq<Value>, path: Path, i: nat)
    requires i <= |es|
    ensures VerifyElements(checker, es, path, i).success <==>
            forall k | i <= k < |es| :: Accepts(checker, es[k])
    decreases SequenceChecker(checker), 0, |es| - i
  {
    if i < |es| {
      VerifyAccepts(checker, es[i], path + [Idx(i)]);
      ElementsAccept(checker, es, path, i + 1);
    }
  }

  lemma {:induction false} PairsAccept(keyChecker: Checker, valueChecker: Checker,
                                       pairs: seq<(Value, Value)>, path: Path, i: nat)
    requires i <= |pairs|
    ensures VerifyPairs(keyChecker, valueChecker, pairs, path, i).success <==>
            forall k | i <= k < |pairs| ::
              Accepts(keyChecker, pairs[k].0) && Accepts(valueChecker, pairs[k].1)
    decreases MappingChecker(keyChecker, valueChecker), 0, |pairs| - i
  {
    if i < |pairs| {
      VerifyAccepts(keyChecker, pairs[i].0, path + [Key(pairs[i].0)]);
      VerifyAccepts(valueChecker, pairs[i].1, path + [Key(pairs[i].0)]);
      PairsAccept(keyChecker, valueChecker, pairs, path, i + 1);
    }
  }

  lemma {:induction false} FieldsAccept(fields: seq<Field>, allowExtra: bool, v: Value, path: Path, i: nat)
    requires HasItems(v) && HasLen(v) && i <= |fields|
    ensures VerifyFields(fields, allowExtra, v, path, i).success <==>
            (forall k | i <= k < |fields| :: Accepts(fields[k].checker, Get(v, fields[k].key))) &&
            (allowExtra || Len(v) <= |fields|)
    decreases DictChecker(fields, allowExtra), 0, |fields| - i
  {
    if i < |fields| {
      VerifyAccepts(fields[i].checker, Get(v, fields[i].key), path + [Key(fields[i].key)]);
      FieldsAccept(fields, allowExtra, v, path, i + 1);
    }
  }

  // ---------------------------------------------------------------------------
  // Terminal checkers

  predicate IsTerminal(c: Checker)
  {
    c.TermChecker? || c.TypedChecker? || c.LengthChecker? || c.EnumChecker? || c.NoneChecker?
  }

  /** A terminal checker fails at exactly the incoming path and succeeds with the
      empty path, as its boolean meaning says. */
  lemma TerminalVerdict(c: Checker, v: Value, path: Path)
    requires IsTerminal(c)
    ensures Verify(c, v, path).success <==> Accepts(c, v)
    ensures !Verify(c, v, path).success ==> Verify(c, v, path).path == path
    ensures Verify(c, v, path).success ==> Verify(c, v, path) == Summary(true)
  {
  }

  /** The failure messages of the terminal checkers. */
  lemma TerminalErrors(c: Checker, v: Value, path: Path)
    ensures c.TermChecker? && !c.pred(v) ==>
              Verify(c, v, path) == Summary(false, path, "predicate fail")
    ensures c.TypedChecker? && !InstanceOf(v, c.cls) ==>
              Verify(c, v, path) == Summary(false, path, "not an instance of " + ClassRepr(c.cls))
    ensures c.LengthChecker? && !HasLen(v) ==>
              Verify(c, v, path) == Summary(false, path, "has no __len__")
    ensures c.LengthChecker? && HasLen(v) && Len(v) != c.length ==>
              Verify(c, v, path) == Summary(false, path, "not length of " + Text.IntToString(c.length))
    ensures c.EnumChecker? && v !in c.options ==>
              Verify(c, v, path) == Summary(false, path, Repr(v) + " not in options")
    ensures c.NoneChecker? && v != VNone ==>
              Verify(c, v, path) == Summary(false, path, "is not none")
  {
  }

  // ---------------------------------------------------------------------------
  // AndChecker and OrChecker, built by `&` and `|`

  /** `a & b`: a failure of `a` is returned unchanged and `b` is not consulted;
      otherwise the result is exactly `b`'s at the same path. */
  lemma AndAttribution(a: Checker, b: Checker, v: Value, path: Path)
    ensures !Verify(a, v, path).success ==> Verify(a.And(b), v, path) == Verify(a, v, path)
    ensures Verify(a, v, path).success ==> Verify(a.And(b), v, path) == Verify(b, v, path)
    ensures Verify(a.And(b), v, path).success <==>
            Verify(a, v, path).success && Verify(b, v, path).success
  {
  }

  /** `a | b`: a success of `a` is returned and `b` is not consulted; otherwise
      the result is exactly `b`'s at the same path. */
  lemma OrAttribution(a: Checker, b: Checker, v: Value, path: Path)
    ensures Verify(a, v, path).success ==> Verify(a.Or(b), v, path) == Verify(a, v, path)
    ensures !Verify(a, v, path).success ==> Verify(a.Or(b), v, path) == Verify(b, v, path)
    ensures Verify(a.Or(b), v, path).success <==>
            Verify(a, v, path).success || Verify(b, v, path).success
  {
  }

  /** Regrouping a chain of `&` changes nothing, not even the reported path and error. */
  lemma AndAssociative(a: Checker, b: Checker, c: Checker, v: Value, path: Path)
    ensures Verify(a.And(b).And(c), v, path) == Verify(a.And(b.And(c)), v, path)
  {
  }

  /** Regrouping a chain of `|` changes nothing, not even the reported path and error. */
  lemma OrAssociative(a: Checker, b: Checker, c: Checker, v: Value, path: Path)
    ensures Verify(a.Or(b).Or(c), v, path) == Verify(a.Or(b.Or(c)), v, path)
  {
  }

  // ---------------------------------------------------------------------------
  // SequenceChecker

  lemma SequenceNotIterable(checker: Checker, v: Value, path: Path)
    requires !HasIter(v)
    ensures Verify(SequenceChecker(checker), v, path) == Summary(false, path, "not iterable")
  {
  }

  lemma {:induction false} ElementsFirstFailure(checker: Checker, es: seq<Value>, path: Path, i: nat, k: nat)
    requires i <= k < |es|
    requires forall j | i <= j < k :: Verify(checker, es[j], path + [Idx(j)]).success
    requires !Verify(checker, es[k], path + [Idx(k)]).success
    ensures VerifyElements(checker, es, path, i) == Verify(checker, es[k], path + [Idx(k)])
    decreases k - i
  {
    if i < k {
      ElementsFirstFailure(checker, es, path, i + 1, k);
    }
  }

  /** The first failing element decides, and its summary is reported as it is,
      one index below the incoming path. */
  lemma SequenceFirstFailure(checker: Checker, v: Value, path: Path, k: nat)
    requires HasIter(v) && k < |Elements(v)|
    requires forall j | 0 <= j < k :: Verify(checker, Elements(v)[j], path + [Idx(j)]).success
    requires !Verify(checker, Elements(v)[k], path + [Idx(k)]).success
    ensures Verify(SequenceChecker(checker), v, path)
            == Verify(checker, Elements(v)[k], path + [Idx(k)])
    ensures path + [Idx(k)] <= Verify(SequenceChecker(checker), v, path).path
  {
    var es := Elements(v);
    ElementsFirstFailure(checker, es, path, 0, k);
    var r := Verify(checker, es[k], path + [Idx(k)]);
    assert path + [Idx(k)] <= r.path;
  }

  /** An iterable passes iff every element does. */
  lemma SequenceSuccess(checker: Checker, v: Value, path: Path)
    requires HasIter(v)
    ensures Verify(SequenceChecker(checker), v, path).success <==>
            forall k | 0 <= k < |Elements(v)| :: Verify(checker, Elements(v)[k], path + [Idx(k)]).success
  {
    VerifyAccepts(SequenceChecker(checker), v, path);
    forall k | 0 <= k < |Elements(v)|
      ensures Verify(checker, Elements(v)[k], path + [Idx(k)]).success <==> Accepts(checker, Elements(v)[k])
    {
      VerifyAccepts(checker, Elements(v)[k], path + [Idx(k)]);
    }
  }

  /** A string is checked one character at a time, each as a one-character string. */
  lemma SequenceOverString(checker: Checker, s: string, path: Path)
    ensures Verify(SequenceChecker(checker), VStr(s), path).success <==>
            forall k | 0 <= k < |s| :: Verify(checker, VStr([s[k]]), path + [Idx(k)]).success
  {
    SequenceSuccess(checker, VStr(s), path);
  }

  /** A dict is checked through its keys, in insertion order. */
  lemma SequenceOverDict(checker: Checker, pairs: seq<(Value, Value)>, path: Path)
    ensures Verify(SequenceChecker(checker), VDict(pairs), path).success <==>
            forall k | 0 <= k < |pairs| :: Verify(checker, pairs[k].0, path + [Idx(k)]).success
  {
    SequenceSuccess(checker, VDict(pairs), path);
  }

  // ---------------------------------------------------------------------------
  // MappingChecker

  /** A pair passes when its key passes and then its value passes, both one key
      below the incoming path. */
  predicate PairPasses(keyChecker: Checker, valueChecker: Checker, pair: (Value, Value), path: Path)
  {
    Verify(keyChecker, pair.0, path + [Key(pair.0)]).success &&
    Verify(valueChecker, pair.1, path + [Key(pair.0)]).success
  }

  lemma MappingNotADict(keyChecker: Checker, valueChecker: Checker, v: Value, path: Path)
    requires !HasItems(v)
    ensures Verify(MappingChecker(keyChecker, valueChecker), v, path) == Summary(false, path, "not a dict")
  {
  }

  lemma {:induction false} PairsFirstFailure(keyChecker: Checker, valueChecker: Checker,
                                             pairs: seq<(Value, Value)>, path: Path, i: nat, k: nat)
    requires i <= k < |pairs|
    requires forall j | i <= j < k :: PairPasses(keyChecker, valueChecker, pairs[j], path)
    requires !PairPasses(keyChecker, valueChecker, pairs[k], path)
    ensures VerifyPairs(keyChecker, valueChecker, pairs, path, i)
            == var ks := Verify(keyChecker, pairs[k].0, path + [Key(pairs[k].0)]);
               if !ks.success then ks else Verify(valueChecker, pairs[k].1, path + [Key(pairs[k].0)])
    decreases k - i
  {
    if i < k {
      PairsFirstFailure(keyChecker, valueChecker, pairs, path, i + 1, k);
    }
  }

  /** At the first failing pair a failing key is reported and its value is never
      checked; a passing key with a failing value reports the value's summary. */
  lemma MappingFirstFailure(keyChecker: Checker, valueChecker: Checker, v: Value, path: Path, k: nat)
    requires HasItems(v) && k < |Items(v)|
    requires forall j | 0 <= j < k :: PairPasses(keyChecker, valueChecker, Items(v)[j], path)
    requires !PairPasses(keyChecker, valueChecker, Items(v)[k], path)
    ensures var nextPath := path + [Key(Items(v)[k].0)];
            var r := Verify(MappingChecker(keyChecker, valueChecker), v, path);
            && (!Verify(keyChecker, Items(v)[k].0, nextPath).success ==>
                 r == Verify(keyChecker, Items(v)[k].0, nextPath))
            && (Verify(keyChecker, Items(v)[k].0, nextPath).success ==>
                 r == Verify(valueChecker, Items(v)[k].1, nextPath))
  {
    PairsFirstFailure(keyChecker, valueChecker, Items(v), path, 0, k);
  }

  /** When the first pair's key fails, the value checker makes no difference. */
  lemma MappingKeyFailureIgnoresValues(keyChecker: Checker, valueChecker: Checker, other: Checker,
                                       v: Value, path: Path)
    requires HasItems(v) && |Items(v)| > 0
    requires !Verify(keyChecker, Items(v)[0].0, path + [Key(Items(v)[0].0)]).success
    ensures Verify(MappingChecker(keyChecker, valueChecker), v, path)
            == Verify(MappingChecker(keyChecker, other), v, path)
  {
  }

  /** A dict passes iff every key and every value does. */
  lemma MappingSuccess(keyChecker: Checker, valueChecker: Checker, v: Value, path: Path)
    requires HasItems(v)
    ensures Verify(MappingChecker(keyChecker, valueChecker), v, path).success <==>
            forall k | 0 <= k < |Items(v)| :: PairPasses(keyChecker, valueChecker, Items(v)[k], path)
  {
    VerifyAccepts(MappingChecker(keyChecker, valueChecker), v, path);
    forall k | 0 <= k < |Items(v)|
      ensures PairPasses(keyChecker, valueChecker, Items(v)[k], path) <==>
              Accepts(keyChecker, Items(v)[k].0) && Accepts(valueChecker, Items(v)[k].1)
    {
      VerifyAccepts(keyChecker, Items(v)[k].0, path + [Key(Items(v)[k].0)]);
      VerifyAccepts(valueChecker, Items(v)[k].1, path + [Key(Items(v)[k].0)]);
    }
  }

  // ---------------------------------------------------------------------------
  // DictChecker

  /** A declared field passes on the value looked up for it, one key below the
      incoming path. */
  predicate FieldPasses(f: Field, v: Value, path: Path)
    requires HasItems(v)
  {
    Verify(f.checker, Get(v, f.key), path + [Key(f.key)]).success
  }

  lemma DictNotADict(fields: seq<Field>, allowExtra: bool, v: Value, path: Path)
    requires !HasItems(v)
    ensures Verify(DictChecker(fields, allowExtra), v, path) == Summary(false, path, "not a dict")
  {
  }

  lemma {:induction false} FieldsFirstFailure(fields: seq<Field>, allowExtra: bool, v: Value,
                                              path: Path, i: nat, k: nat)
    requires HasItems(v) && HasLen(v) && i <= k < |fields|
    requires forall j | i <= j < k :: FieldPasses(fields[j], v, path)
    requires !FieldPasses(fields[k], v, path)
    ensures VerifyFields(fields, allowExtra, v, path, i)
            == Verify(fields[k].checker, Get(v, fields[k].key), path + [Key(fields[k].key)])
    decreases k - i
  {
    if i < k {
      FieldsFirstFailure(fields, allowExtra, v, path, i + 1, k);
    }
  }

  /** Fields are checked in declared order and the first failing one is
      returned unchanged. */
  lemma DictFirstFailure(fields: seq<Field>, allowExtra: bool, v: Value, path: Path, k: nat)
    requires HasItems(v) && k < |fields|
    requires forall j | 0 <= j < k :: FieldPasses(fields[j], v, path)
    requires !FieldPasses(fields[k], v, path)
    ensures Verify(DictChecker(fields, allowExtra), v, path)
            == Verify(fields[k].checker, Get(v, fields[k].key), path + [Key(fields[k].key)])
  {
    ItemsHaveLen(v);
    FieldsFirstFailure(fields, allowExtra, v, path, 0, k);
  }

  /** A field absent from the dict is checked on the `NO_KEY` sentinel. */
  lemma DictMissingField(fields: seq<Field>, allowExtra: bool, v: Value, path: Path, k: nat)
    requires HasItems(v) && k < |fields|
    requires forall j | 0 <= j < |v.pairs| :: v.pairs[j].0 != fields[k].key
    requires forall j | 0 <= j < k :: FieldPasses(fields[j], v, path)
    requires !Verify(fields[k].checker, VNoKey, path + [Key(fields[k].key)]).success
    ensures Verify(DictChecker(fields, allowExtra), v, path)
            == Verify(fields[k].checker, VNoKey, path + [Key(fields[k].key)])
  {
    assert Get(v, fields[k].key) == VNoKey;
    DictFirstFailure(fields, allowExtra, v, path, k);
  }

  lemma {:induction false} FieldsAllPass(fields: seq<Field>, allowExtra: bool, v: Value, path: Path, i: nat)
    requires HasItems(v) && HasLen(v) && i <= |fields|
    requires forall j | i <= j < |fields| :: FieldPasses(fields[j], v, path)
    ensures VerifyFields(fields, allowExtra, v, path, i)
            == if !allowExtra && Len(v) > |fields| then Summary(false, path, "has extra keys")
               else Summary(true)
    decreases |fields| - i
  {
    if i < |fields| {
      FieldsAllPass(fields, allowExtra, v, path, i + 1);
    }
  }

  /** Once every field passes, the extra-key test alone decides: with
      `allowExtra` false a dict with more keys than declared fields fails at the
      incoming path. It compares counts, not key sets. */
  lemma DictExtraKeys(fields: seq<Field>, allowExtra: bool, v: Value, path: Path)
    requires HasItems(v)
    requires forall j | 0 <= j < |fields| :: FieldPasses(fields[j], v, path)
    ensures Verify(DictChecker(fields, allowExtra), v, path)
            == if !allowExtra && |Items(v)| > |fields| then Summary(false, path, "has extra keys")
               else Summary(true)
  {
    ItemsHaveLen(v);
    FieldsAllPass(fields, allowExtra, v, path, 0);
  }

  /** `allowExtra` defaults to true: a dict whose declared fields pass is accepted
      whatever else it holds. */
  lemma DictDefaultAllowsExtra(fields: seq<Field>, v: Value, path: Path)
    requires HasItems(v)
    requires forall j | 0 <= j < |fields| :: FieldPasses(fields[j], v, path)
    ensures Verify(DictChecker(fields), v, path) == Summary(true)
  {
    DictExtraKeys(fields, true, v, path);
  }

  // ---------------------------------------------------------------------------
  // OptionalChecker and OptionalKeyChecker

  /** `None` passes an OptionalChecker without consulting the child; any other
      value, the sentinel included, gets the child's summary. */
  lemma OptionalPassthrough(checker: Checker, v: Value, path: Path)
    ensures v == VNone ==> Verify(OptionalChecker(checker), v, path) == Summary(true)
    ensures v != VNone ==> Verify(OptionalChecker(checker), v, path) == Verify(checker, v, path)
  {
  }

  /** Only the sentinel passes an OptionalKeyChecker without consulting the child;
      `None` is an ordinary value for it. */
  lemma OptionalKeyPassthrough(checker: Checker, v: Value, path: Path)
    ensures v == VNoKey ==> Verify(OptionalKeyChecker(checker), v, path) == Summary(true)
    ensures v != VNoKey ==> Verify(OptionalKeyChecker(checker), v, path) == Verify(checker, v, path)
    ensures Verify(OptionalKeyChecker(checker), VNone, path) == Verify(checker, VNone, path)
  {
  }

  /** Where the as-written passthrough returns instead of raising, it agrees
      with the modelled `verify`. */
  lemma OptionalAsWrittenAgrees(c: Checker, v: Value, path: Path)
    requires c.OptionalChecker? || c.OptionalKeyChecker?
    ensures OptionalAsWritten(c, v).Some? ==> OptionalAsWritten(c, v).value == Verify(c, v, path)
  {
  }
}
