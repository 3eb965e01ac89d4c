/** Concrete checks drawn from the library's tests and a quiz scenario,
    and the two places where shape.py and summary.py as written
    diverge from their evident intent. */
module ShapeExamples {
  import opened Wrappers
  import opened Values
  import opened Summaries
  import opened Shape
  import opened ShapeProperties

  function Ints(): Checker { TypedChecker(Int) }
  function Strs(): Checker { TypedChecker(Str) }

  function StartsWithQ(v: Value): bool { v.VStr? && |v.s| > 0 && v.s[0] == 'q' }

  // ---------------------------------------------------------------------------
  // The library's unit tests

  lemma TerminalTests()
    ensures var r := Verify(TermChecker(v => v == VInt(6)), VInt(4));
            !r.Truthy() && r.path == []
    ensures !Verify(Ints(), VFloat(0)).Truthy() && Verify(Ints(), VFloat(0)).path == []
    ensures Verify(LengthChecker(1), VList([])) == Summary(false, [], "not length of 1")
    ensures Verify(LengthChecker(1), VObject(0)) == Summary(false, [], "has no __len__")
    ensures Verify(NoneChecker, VNone).Truthy() && !Verify(NoneChecker, VStr("None")).Truthy()
  {
    assert Text.NatToString(1) == "1";
  }

  /** Checking `[1, 2, 3.4]` against a sequence of ints fails at index 2. */
  lemma SequenceTest()
    ensures Verify(SequenceChecker(Ints()), VList([VInt(1), VInt(2), VInt(3)])).Truthy()
    ensures Verify(SequenceChecker(Ints()), VList([VInt(1), VInt(2), VFloat(0)])).path == [Idx(2)]
    ensures Verify(SequenceChecker(Ints()), VObject(0)) == Summary(false, [], "not iterable")
  {
    var bad := VList([VInt(1), VInt(2), VFloat(0)]);
    SequenceFirstFailure(Ints(), bad, [], 2);
  }

  function ValidKey(v: Value): bool
  {
    v.VStr? && |v.s| >= 6 && v.s[..6] == "valid_"
  }

  /** A dict with a key the key checker rejects fails at that key. */
  lemma MappingTest()
    ensures var m := MappingChecker(TermChecker(ValidKey), Ints());
            Verify(m, VDict([(VStr("valid_k1"), VInt(1)), (VStr("invalid_k3"), VInt(3))])).path
            == [Key(VStr("invalid_k3"))]
  {
    var m := MappingChecker(TermChecker(ValidKey), Ints());
    var d := VDict([(VStr("valid_k1"), VInt(1)), (VStr("invalid_k3"), VInt(3))]);
    assert ValidKey(VStr("valid_k1"));
    assert "invalid_k3"[..6] == "invali";
    MappingFirstFailure(TermChecker(ValidKey), Ints(), d, [], 1);
  }

  /** A record with one int field: a wrong value fails at the field, an extra key
      fails only when extra keys are not allowed, a missing field fails at the
      field's key, and an optional field may be missing. */
  lemma DictTests()
    ensures Verify(DictChecker([Field(VStr("key"), Ints())], false),
                   VDict([(VStr("key"), VFloat(1))])).path == [Key(VStr("key"))]
    ensures Verify(DictChecker([Field(VStr("key"), Ints())], false),
                   VDict([(VStr("key"), VInt(1)), (VStr("extra_key"), VNone)]))
            == Summary(false, [], "has extra keys")
    ensures Verify(DictChecker([Field(VStr("key"), Ints())], true),
                   VDict([(VStr("key"), VInt(1)), (VStr("extra_key"), VNone)])).Truthy()
    ensures Verify(DictChecker([Field(VStr("key"), Ints())]), VDict([])).path == [Key(VStr("key"))]
    ensures Verify(DictChecker([Field(VStr("key"), OptionalKeyChecker(Ints()))]), VDict([])).Truthy()
  {
  }

  /** The extra-key test counts keys: a dict with an undeclared key passes a
      closed record when a declared optional field is missing. */
  lemma ExtraKeysAreCounted()
    ensures var closed := DictChecker([Field(VStr("a"), Ints()), Field(VStr("c"), OptionalKeyChecker(Ints()))], false);
            Verify(closed, VDict([(VStr("a"), VInt(1)), (VStr("b"), VInt(2))])).Truthy()
  {
  }

  /** `&` depends on operand order for its diagnostics: each order reports its
      own first failure. */
  lemma AndOrderMatters()
    ensures Verify(Ints().And(LengthChecker(1)), VStr("ab")).error == "not an instance of <class 'int'>"
    ensures Verify(LengthChecker(1).And(Ints()), VStr("ab")).error == "not length of 1"
  {
    assert Text.NatToString(1) == "1";
  }

  // ---------------------------------------------------------------------------
  // A quiz scenario: a mapping of subjects to mappings of question records

  function Subject(): Checker
  {
    Strs().And(EnumChecker([VStr("sport"), VStr("maths")]))
  }

  function Question(): Checker
  {
    MappingChecker(
      Strs().And(TermChecker(StartsWithQ)),
      DictChecker([
        Field(VStr("question"), Strs()),
        Field(VStr("options"), SequenceChecker(Strs())),
        Field(VStr("answer"), OptionalKeyChecker(Strs()))]))
  }

  function Record(): Value
  {
    VDict([
      (VStr("question"), VStr("5+7?")),
      (VStr("options"), VList([VStr("10"), VStr("12")])),
      (VStr("answer"), VStr("12"))])
  }

  function Quiz(qkey: string): Value
  {
    VDict([(VStr("maths"), VDict([(VStr(qkey), Record())]))])
  }

  lemma RecordPasses(path: Path)
    ensures Verify(Question().valueChecker, Record(), path) == Summary(true)
  {
    var fields := Question().valueChecker.fields;
    var r := Record();
    assert Get(r, VStr("question")) == VStr("5+7?");
    assert Get(r, VStr("options")) == VList([VStr("10"), VStr("12")]);
    assert Get(r, VStr("answer")) == VStr("12");
    SequenceSuccess(Strs(), VList([VStr("10"), VStr("12")]), path + [Key(VStr("options"))]);
    assert FieldPasses(fields[0], r, path);
    assert FieldPasses(fields[1], r, path);
    assert FieldPasses(fields[2], r, path);
    DictDefaultAllowsExtra(fields, r, path);
  }

  /** A one-pair dict passes a mapping checker when its key and then its value pass. */
  lemma OnePairPasses(keyChecker: Checker, valueChecker: Checker, k: Value, x: Value, path: Path)
    requires Verify(keyChecker, k, path + [Key(k)]).Truthy()
    requires Verify(valueChecker, x, path + [Key(k)]).Truthy()
    ensures Verify(MappingChecker(keyChecker, valueChecker), VDict([(k, x)]), path) == Summary(true)
  {
    assert VerifyPairs(keyChecker, valueChecker, [(k, x)], path, 1) == Summary(true);
  }

  lemma QuestionsPass(path: Path)
    ensures Verify(Question(), VDict([(VStr("q1"), Record())]), path) == Summary(true)
  {
    RecordPasses(path + [Key(VStr("q1"))]);
    assert StartsWithQ(VStr("q1"));
    assert Verify(Question().keyChecker, VStr("q1"), path + [Key(VStr("q1"))]).Truthy();
    OnePairPasses(Question().keyChecker, Question().valueChecker, VStr("q1"), Record(), path);
  }

  lemma QuizPasses()
    ensures Verify(MappingChecker(Subject(), Question()), Quiz("q1")).Truthy()
  {
    var path: Path := [];
    var seg := Key(VStr("maths"));
    assert path + [seg] == [seg];
    QuestionsPass([seg]);
    assert Verify(Subject(), VStr("maths"), [seg]).Truthy();
    OnePairPasses(Subject(), Question(), VStr("maths"), VDict([(VStr("q1"), Record())]), path);
    assert Quiz("q1") == VDict([(VStr("maths"), VDict([(VStr("q1"), Record())]))]);
  }

  lemma QuizBadKey()
    ensures Verify(MappingChecker(Subject(), Question()), Quiz("x1")).path
            == [Key(VStr("maths")), Key(VStr("x1"))]
  {
    var inner := Quiz("x1").pairs[0].1;
    var path := [Key(VStr("maths"))];
    assert !StartsWithQ(VStr("x1"));
    MappingFirstFailure(Question().keyChecker, Question().valueChecker, inner, path, 0);
    assert Verify(Subject(), VStr("maths"), []).Truthy();
    MappingFirstFailure(Subject(), Question(), Quiz("x1"), [], 0);
  }

  // ---------------------------------------------------------------------------
  // Divergences of the code as written

  /** summary.py joins path segments as strings, so the summary of a failed
      sequence element cannot be rendered as written; with segments rendered by
      `str` its path reads `/2`. */
  lemma IndexPathRendering()
    ensures var r := Verify(SequenceChecker(Ints()), VList([VInt(1), VInt(2), VFloat(0)]));
            && r == Summary(false, [Idx(2)], "not an instance of <class 'int'>")
            && r.RenderAsWritten() == None
            && PathText(r.path) == "/2"
  {
    SequenceFirstFailure(Ints(), VList([VInt(1), VInt(2), VFloat(0)]), [], 2);
    assert Text.NatToString(2) == "2";
    assert seq(1, k requires 0 <= k < 1 => SegText([Idx(2)][k])) == ["2"];
  }

  /** shape.py's OptionalKeyChecker raises on a present field, so the quiz
      scenario's `answer` field cannot be checked as written; the modelled
      delegation accepts it. */
  lemma OptionalKeyOnPresentField()
    ensures OptionalAsWritten(OptionalKeyChecker(Strs()), VStr("12")) == None
    ensures Verify(OptionalKeyChecker(Strs()), VStr("12"), [Key(VStr("answer"))]) == Summary(true)
    ensures OptionalAsWritten(OptionalChecker(Ints()), VInt(5)) == None
    ensures Verify(OptionalChecker(Ints()), VInt(5)) == Summary(true)
  {
  }
}
