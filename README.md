# shape: a verified model of a composable structure validator

The library builds a checker tree out of terminal checkers (a predicate, a
class test, a length test, an enumeration, a `None` test), the combinators `&`
and `|`, the structural checkers for sequences, mappings and fixed-field
records, and two optionality wrappers. `verify(value, path)` checks a value
against the tree. It returns a `Summary`: a success flag, the path (list of
indices and keys) down to the failing position, and an error message. The
`Summary` also has Python truthiness and a string rendering.

The model is pure Dafny, one module per concern:

- `wrappers.dfy` (`Wrappers`): `Option`. `None` stands for "the Python code raises".
- `text.dfy` (`Text`): Python's `str(int)`, `sep.join` and `s.split(sep)`,
  with the join/split round trip. `ParseNat` and `ParseNatToString` check
  that `NatToString` writes the decimal digits of `str(n)`: reading them back
  gives `n`.
- `values.dfy` (`Values`): the `Value` datatype, including the `NO_KEY`
  sentinel (`VNoKey`, distinct from `VNone`). It also holds the duck-typing
  capabilities as functions: `HasLen`, `HasIter`/`Elements`, `HasItems`/`Items`,
  `Get` for `dict.get(key, NO_KEY)`, and `InstanceOf` over a finite `TypeTag`.
- `summary.dfy` (`Summaries`): path segments `Seg = Idx(nat) | Key(Value)`.
  The `Summary` datatype's constructor defaults (`path := []`, `error := ""`)
  match `Summary.__init__`. `Truthy` is `__bool__`; `Render` is `__str__`.
- `shape.dfy` (`Shape`): the `Checker` datatype (one constructor per checker
  class; `And`/`Or` members are `&`/`|`) and the single verification function
  `Verify`. Its three `for` loops become mutually recursive helpers that
  search for the first failing element, pair or field. `Accepts` is an
  independent boolean meaning of every checker, with no paths and no
  short-circuits.
- `shape_properties.dfy` (`ShapeProperties`): the attribution and path rules
  of each checker. Other lemmas show that `Verify`'s verdict is `Accepts`, and
  that a failure's path is the incoming path followed by the path found from
  the root.
- `shape_examples.dfy` (`ShapeExamples`): the unit tests' cases, a quiz
  scenario built from nested checkers, and counterexamples for the findings.

Two facts about the code worth stating outright:

- Both the mapping and the record checker report `not a dict`. The record
  checker tests only for `items` and `__len__`.
- `&` and `|` are associative, reported path and error included
  (`AndAssociative`, `OrAssociative`).

## Model

| member | source | states |
|---|---|---|
| `Shape.Verify` | shape.py:26-252 | every summary is a success with the empty path and empty error, or a failure whose path begins with the incoming path |
| `Shape.VerifyElements` | shape.py:143-147 | the element loop keeps the same success/prefix invariant from any start index |
| `Shape.VerifyPairs` | shape.py:162-184 | the key/value loop keeps the same success/prefix invariant from any start pair |
| `Shape.VerifyFields` | shape.py:199-210 | the field loop and extra-key test keep the same success/prefix invariant from any start field |
| `Values.Lookup` | shape.py:200 | `get(key, NO_KEY)` returns the value of the first pair with that key, or the sentinel when the key is absent |
| `Values.LookupStored` | shape.py:200 | with distinct keys, the lookup returns the value stored under the key |
| `Summaries.RenderAsWrittenStringPath` | summary.py:22-26 | `__str__` as written renders a failure over string keys as `<shape bad: path: /k1/k2, error: e>`, the root as `/`, without raising |
| `Summaries.RenderStringPath` | summary.py:22-26 | a failure over string keys renders as `<shape bad: path: /k1/k2, error: e>`; the root path renders as `/` |
| `Summaries.RenderGood` | summary.py:23-24 | a success renders as `<shape good>` whatever its path and error |
| `Summaries.RenderedPathSplits` | summary.py:26 | when no key contains `/`, splitting the rendered path on `/` gives back the keys after an empty root piece |
| `Summaries.RootAndEmptyKeyRenderAlike` | summary.py:26 | the root path and a path of one empty key render identically |
| `Summaries.SummaryDefaults` | summary.py:14-29 | an omitted path is `[]`, an omitted error is `''`, and truthiness is the success flag |
| `ShapeProperties.VerifyShift` | shape.py:26-252 | verifying at a path equals verifying at the root, with the path put in front of a failure's path |
| `ShapeProperties.ChildShift` | shape.py:144 | a child checked one segment down reports its root result shifted by the incoming path and that segment |
| `ShapeProperties.ElementsShift` | shape.py:143-147 | the element loop commutes with shifting the path |
| `ShapeProperties.PairsShift` | shape.py:162-184 | the pair loop commutes with shifting the path |
| `ShapeProperties.FieldsShift` | shape.py:199-210 | the field loop commutes with shifting the path |
| `ShapeProperties.PathIndependent` | shape.py:26-252 | the verdict and error do not depend on the incoming path; a failing path is the incoming path plus the root-relative path |
| `ShapeProperties.VerifyAccepts` | shape.py:26-252 | `verify` succeeds iff the boolean meaning `Accepts` holds (And is conjunction, Or disjunction, Sequence/Mapping/Dict universal over elements/pairs/fields) |
| `ShapeProperties.ElementsAccept` | shape.py:143-147 | the element loop succeeds iff every remaining element is accepted |
| `ShapeProperties.PairsAccept` | shape.py:162-184 | the pair loop succeeds iff every remaining key and value is accepted |
| `ShapeProperties.FieldsAccept` | shape.py:199-210 | the field loop succeeds iff every remaining field's looked-up value is accepted and the extra-key test passes |
| `ShapeProperties.TerminalVerdict` | shape.py:30-83 | a terminal checker fails at exactly the incoming path and succeeds with `Summary(success=True)` |
| `ShapeProperties.TerminalErrors` | shape.py:30-83 | the failure summary and message of each terminal checker, including `has no __len__` for a value without length |
| `ShapeProperties.AndAttribution` | shape.py:94-106 | for `a.And(b)`, built by `__and__`: a failure of `a` is returned unchanged; otherwise the result is exactly `b`'s at the same path; truth is the conjunction |
| `ShapeProperties.OrAttribution` | shape.py:114-126 | for `a.Or(b)`, built by `__or__`: a success of `a` is returned; otherwise the result is exactly `b`'s at the same path; truth is the disjunction |
| `ShapeProperties.AndAssociative` | shape.py:94-106 | `(a & b) & c` and `a & (b & c)` give identical summaries |
| `ShapeProperties.OrAssociative` | shape.py:114-126 | `a.Or(b).Or(c)` and `a.Or(b.Or(c))` give identical summaries |
| `ShapeProperties.SequenceNotIterable` | shape.py:140-141 | a value without `__iter__` fails at the incoming path with `not iterable` |
| `ShapeProperties.ElementsFirstFailure` | shape.py:143-147 | from any start index, the loop returns the first failing element's summary unchanged |
| `ShapeProperties.SequenceFirstFailure` | shape.py:143-147 | the first failing element's summary, checked at `path + [i]`, is the result, and its path extends `path + [i]` |
| `ShapeProperties.SequenceSuccess` | shape.py:140-147 | an iterable passes iff every element passes at its index |
| `ShapeProperties.SequenceOverString` | shape.py:140-147 | a string passes iff each of its one-character strings passes at its index |
| `ShapeProperties.SequenceOverDict` | shape.py:140-147 | a dict passes a sequence checker iff each of its keys, in insertion order, passes at its index |
| `ShapeProperties.MappingNotADict` | shape.py:159-160 | a value without `items` fails at the incoming path with `not a dict` |
| `ShapeProperties.PairsFirstFailure` | shape.py:162-181 | from any start pair, the loop returns the first failing pair's key summary, or its value summary when the key passes |
| `ShapeProperties.MappingFirstFailure` | shape.py:162-181 | at the first failing pair, a failing key's summary is returned (the value is not checked), else the value's, both at `path + [k]` |
| `ShapeProperties.MappingKeyFailureIgnoresValues` | shape.py:167-181 | when the first key fails, replacing the value checker changes nothing |
| `ShapeProperties.MappingSuccess` | shape.py:159-184 | a dict passes iff every key and every value passes |
| `ShapeProperties.DictNotADict` | shape.py:196-197 | a value without `items` fails at the incoming path with `not a dict` |
| `ShapeProperties.FieldsFirstFailure` | shape.py:199-204 | from any start field, the loop returns the first failing field's summary unchanged |
| `ShapeProperties.DictFirstFailure` | shape.py:199-204 | fields run in declared order at `path + [key]` on the looked-up value; the first failure is the result, unchanged |
| `ShapeProperties.DictMissingField` | shape.py:199-204 | a failing field whose key is absent from the dict is checked on `NO_KEY`, and its summary is the result |
| `ShapeProperties.FieldsAllPass` | shape.py:199-210 | when all remaining fields pass, only the extra-key count test decides |
| `ShapeProperties.DictExtraKeys` | shape.py:206-210 | after all fields pass, the result is `has extra keys` at the incoming path iff extra keys are disallowed and `len(value)` exceeds the number of fields |
| `ShapeProperties.DictDefaultAllowsExtra` | shape.py:188-210 | `allow_extra` defaults to true, so passing fields suffice |
| `ShapeProperties.OptionalPassthrough` | shape.py:235-238 | `None` passes without the child; any other value gets the child's summary |
| `ShapeProperties.OptionalKeyPassthrough` | shape.py:249-252 | only `NO_KEY` passes without the child; `None` is delegated to the child |
| `ShapeProperties.OptionalAsWrittenAgrees` | shape.py:231-252 | where the as-written wrappers return, they agree with the modelled `verify` |
| `ShapeExamples.TerminalTests` | test.py:11-35 | the terminal checkers' test cases: failures at the root path, `has no __len__` for an object |
| `ShapeExamples.SequenceTest` | test.py:86-112 | `[1, 2, 3]` passes; `[1, 2, 3.4]` fails at path `[2]`; an object fails at `[]` with `not iterable` |
| `ShapeExamples.MappingTest` | test.py:140-156 | a bad key fails at the path of that key |
| `ShapeExamples.DictTests` | test.py:159-195 | a wrong field fails at `['key']`; extra keys fail only when disallowed; a missing field fails at its key; an optional field may be absent |
| `ShapeExamples.ExtraKeysAreCounted` | shape.py:206-210 | an undeclared key passes a closed record when a declared optional field is missing |
| `ShapeExamples.AndOrderMatters` | shape.py:94-106 | swapping the operands of `&` changes which error is reported |
| `ShapeExamples.QuizPasses` | shape.py:150-210 | a nested mapping of records of sequences is accepted |
| `ShapeExamples.QuizBadKey` | shape.py:162-181 | a rejected inner key fails at the two-key path `['maths', 'x1']` |
| `ShapeExamples.IndexPathRendering` | summary.py:26 | the summary of a failed element has path `[2]`; as written it cannot be rendered, while `Render` writes the path as `/2` |
| `ShapeExamples.OptionalKeyOnPresentField` | shape.py:245-252 | as written the wrappers raise on a present value; the modelled delegation accepts it |

## Findings

| source | as written | input that shows it | evidently intended | confidence | as-written member | corrected member |
|---|---|---|---|---|---|---|
| shape.py:238 | `self.checker(anything, path=path)` calls the child checker object, which has no `__call__` | `OptionalChecker(TypedChecker(int)).verify(5)` raises `TypeError` | `self.checker.verify(anything, path=path)` | not executed | `Shape.OptionalAsWritten`, `ShapeExamples.OptionalKeyOnPresentField` | `Shape.Verify`, `ShapeProperties.OptionalPassthrough` |
| shape.py:252 | the same call in `OptionalKeyChecker` | `DictChecker({'answer': OptionalKeyChecker(TypedChecker(str))}).verify({'answer': '12'})` raises `TypeError` | `self.checker.verify(anything, path=path)` | not executed | `Shape.OptionalAsWritten`, `ShapeExamples.OptionalKeyOnPresentField` | `Shape.Verify`, `ShapeProperties.OptionalKeyPassthrough` |
| summary.py:26 | `'/'.join(self.path)` accepts only strings, but the sequence checker puts integers in the path (shape.py:144) | `str(SequenceChecker(TypedChecker(int)).verify([1, 2, 3.4]))` raises `TypeError` | join `str(segment)` for each segment | not executed | `Summaries.Summary.RenderAsWritten`, `ShapeExamples.IndexPathRendering` | `Summaries.Summary.Render`, `Summaries.RenderStringPath` |

## Left out

- Python reflection: `getattr` capability tests and `isinstance` become
  functions over the finite `Value` and `TypeTag` datatypes. Subclassing
  (`bool` as an `int`, user class hierarchies) is not modelled. A user class
  appears only as a tag matching its own instances.
- Values with `items` but no `__len__` are not modelled, so the `__len__` half
  of DictChecker's interface test (shape.py:196) is never the deciding one.
- Value equality, used by `in` for EnumChecker and by dict lookup, is
  structural. Python's cross-type equalities (`1 == 1.0 == True`) and hashing
  are not modelled.
- Floats are identifying tags only, with no numeric behaviour.
- `TermChecker` predicates are total Dafny functions. A Python predicate that
  raises, or that has side effects, is not modelled.
- Error messages: `repr` is simplified (strings quoted without escaping;
  floats and objects print as placeholders). User classes print as
  `<class 'C<n>'>`.
- `Shape.Verify`: a DictChecker's field table is a sequence of `Field`s in
  declared order. Distinct keys, which a Python dict guarantees, are assumed
  and not enforced. With duplicate keys the extra-key test would count
  fields that Python would have merged.
- The `if not path: path = []` normalisation: `None` and `[]` are both
  modelled by the default `[]`. Sharing of path lists between summaries is
  irrelevant in a model built from values.
- Cyclic or unboundedly deep inputs cannot be built from Dafny datatypes.
  Recursion depth is unbounded.
- Python 3.7 or later is assumed. Truthiness goes through `__bool__` (under
  Python 2 every `Summary` would be truthy), `str` has `__iter__`, and dicts
  (both `checker_dct` and the checked value) iterate in insertion order.
- `Values.Value`: a `VDict` does not enforce distinct keys. The lemmas range
  also over such dicts, which Python cannot build; `DistinctKeys` states the
  property and `LookupStored` uses it.
- The `C`, `T`, `L`, ... abbreviations (shape.py:257-268) are pure aliases.
- run.py, a demo of bare `assert`s, is not part of this model. It uses an
  `ObjectChecker` that shape.py does not define. test.py is used only as a
  source of examples.
