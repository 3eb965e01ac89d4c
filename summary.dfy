/** The outcome of one verification (summary.py): a success flag, the path to
    the failing position and an error message, with Python's truthiness and
    string rendering. */
module Summaries {
  import opened Wrappers
  import opened Text
  import opened Values

  /** One step of a path: an index into a sequence, or a key of a mapping or record. */
  datatype Seg = Idx(index: nat) | Key(key: Value)

  type Path = seq<Seg>

  /** `Summary(success, path=None, error='')`: an omitted path is the empty one
      and an omitted error is the empty string. */
  datatype Summary = Summary(success: bool, path: Path := [], error: string := "")
  {
    /** `bool(summary)`. */
    predicate Truthy()
    {
      success
    }

    /** `str(summary)`, with every segment rendered by `SegText`. */
    function Render(): string
    {
      if success then "<shape good>"
      else "<shape bad: path: " + PathText(path) + ", error: " + error + ">"
    }

    /** `str(summary)` exactly as summary.py computes it: `'/'.join` accepts only
        strings, so a failing summary whose path holds any other segment raises
        (`None`). */
    function RenderAsWritten(): (r: Option<string>)
      ensures r.None? <==> !success && exists k | 0 <= k < |path| :: !IsStringKey(path[k])
      ensures r.Some? ==> r.value == Render()
    {
      if success then Some("<shape good>")
      else if forall k | 0 <= k < |path| :: IsStringKey(path[k]) then Some(Render())
      else None
    }
  }

  predicate IsStringKey(seg: Seg)
  {
    seg.Key? && seg.key.VStr?
  }

  /** `str(seg)`: an index in decimal, a key as `str(key)`. */
  function SegText(seg: Seg): string
  {
    match seg
    case Idx(i) => NatToString(i)
    case Key(k) => StrOf(k)
  }

  /** The path as `'/' + '/'.join(segments)`. */
  function PathText(path: Path): string
  {
    "/" + Join("/", seq(|path|, k requires 0 <= k < |path| => SegText(path[k])))
  }

  /** The path made of the given string keys. */
  function StringKeys(names: seq<string>): (p: Path)
    ensures |p| == |names|
    ensures forall k | 0 <= k < |p| :: p[k] == Key(VStr(names[k])) && IsStringKey(p[k])
  {
    seq(|names|, k requires 0 <= k < |names| => Key(VStr(names[k])))
  }

  /** Each name preceded by a slash: the reading of a rendered path. */
  function SlashEach(names: seq<string>): string
    decreases |names|
  {
    if |names| == 0 then "" else "/" + names[0] + SlashEach(names[1..])
  }

  lemma {:induction false} JoinIsSlashEach(names: seq<string>)
    requires |names| > 0
    ensures "/" + Join("/", names) == SlashEach(names)
    decreases |names|
  {
    if |names| > 1 {
      JoinIsSlashEach(names[1..]);
      assert "/" + Join("/", names) == "/" + names[0] + ("/" + Join("/", names[1..]));
    } else {
      assert SlashEach(names[1..]) == "";
    }
  }

  /** A failing summary over string keys renders as `/k1/k2`; the root path
      renders as a single `/`. */
  lemma RenderStringPath(names: seq<string>, error: string)
    ensures Summary(false, StringKeys(names), error).Render()
            == "<shape bad: path: " + (if names == [] then "/" else SlashEach(names))
               + ", error: " + error + ">"
  {
    var texts := seq(|names|, k requires 0 <= k < |names| => SegText(StringKeys(names)[k]));
    assert texts == names;
    if names != [] {
      JoinIsSlashEach(names);
    }
  }

  /** As written, a failure over string keys renders without raising, in the
      same closed form. */
  lemma RenderAsWrittenStringPath(names: seq<string>, error: string)
    ensures Summary(false, StringKeys(names), error).RenderAsWritten()
            == Some("<shape bad: path: " + (if names == [] then "/" else SlashEach(names))
                    + ", error: " + error + ">")
  {
    RenderStringPath(names, error);
  }

  /** A success renders the same whatever its path or error. */
  lemma RenderGood(path: Path, error: string)
    ensures Summary(true, path, error).Render() == "<shape good>"
    ensures Summary(true, path, error).RenderAsWritten() == Some("<shape good>")
  {
  }

  /** When no key holds a slash, the rendered path splits back into the root's
      empty piece followed by the keys. */
  lemma RenderedPathSplits(names: seq<string>)
    requires |names| > 0
    requires forall k | 0 <= k < |names| :: '/' !in names[k]
    ensures Split(PathText(StringKeys(names)), '/') == [""] + names
  {
    var texts := seq(|names|, k requires 0 <= k < |names| => SegText(StringKeys(names)[k]));
    assert texts == names;
    SplitJoin(names, '/');
    assert PathText(StringKeys(names)) == "/" + Join("/", names);
  }

  /** The root path and the path made of one empty key render alike. */
  lemma RootAndEmptyKeyRenderAlike(error: string)
    ensures Summary(false, [], error).Render() == Summary(false, [Key(VStr(""))], error).Render()
  {
    RenderStringPath([], error);
    RenderStringPath([""], error);
  }

  /** Omitted arguments of `Summary(...)` take their defaults, and truthiness
      is the success flag. */
  lemma SummaryDefaults(success: bool)
    ensures Summary(success).path == [] && Summary(success).error == ""
    ensures Summary(success).Truthy() == success
  {
  }
}
