/** The problem-dictionary validation and reformatting of setup and append_problem.

    Both front-ends first require the blocks 'objFun', 'cnsSet' and 'varSet', in that
    order. Then they convert entry after entry: Q (if present) to a numpy matrix, L, A and
    the bound vectors to flat numpy arrays, vals and pseudoCosts (if present) to flat
    arrays, dscIndices (if present) to a list of 1-based ints, sos1Groups (if present) to
    a list of ints. A required entry that is absent raises KeyError at its turn.
    OpenBB.py writes the converted entries into a fresh dictionary (BuildFrom);
    python_interface.py writes them back into the caller's dictionary (InPlaceBlock), so
    an error part-way leaves the entries before it converted. The table of entries below
    is the order in which both files visit them. */
module Reformat {
  import opened PyValues
  import IndexBase

  datatype Conversion =
    | ToMatrix        // a numpy matrix of the value
    | ToFlatArray     // a flattened numpy array of the value
    | ToOneBasedInts  // a list holding int of each element, plus one
    | ToInts          // a list holding int of each element

  /** One entry of a block: its key, how it is converted, whether it must be present. */
  datatype Entry = Entry(key: string, conv: Conversion, required: bool)

  const ObjectiveEntries: seq<Entry> :=
    [Entry("Q", ToMatrix, false), Entry("L", ToFlatArray, true)]

  const ConstraintEntries: seq<Entry> :=
    [Entry("A", ToMatrix, true), Entry("loBs", ToFlatArray, true), Entry("upBs", ToFlatArray, true)]

  const VariableEntries: seq<Entry> :=
    [ Entry("loBs", ToFlatArray, true), Entry("upBs", ToFlatArray, true),
      Entry("vals", ToFlatArray, false), Entry("dscIndices", ToOneBasedInts, false),
      Entry("sos1Groups", ToInts, false), Entry("pseudoCosts", ToFlatArray, false) ]

  /** The numbers of a list-like value, when it is one. */
  function Numbers(v: Value): Option<seq<real>> {
    match v
    case NumList(xs) => Some(xs)
    case IntList(ns) => Some(seq(|ns|, i requires 0 <= i < |ns| => ns[i] as real))
    case _ => None
  }

  /** The conversion of one entry's value. The two comprehensions need a list of numbers;
      on anything else Python raises. */
  function Convert(c: Conversion, key: string, v: Value): Result<Value> {
    match c
    case ToMatrix => Ok(Matrix(v))
    case ToFlatArray => Ok(FlatArray(v))
    case ToOneBasedInts =>
      (match Numbers(v)
       case None => Err(TypeError(key))
       case Some(xs) => Ok(IntList(seq(|xs|, k requires 0 <= k < |xs| => PyInt(xs[k]) + 1))))
    case ToInts =>
      (match Numbers(v)
       case None => Err(TypeError(key))
       case Some(xs) => Ok(IntList(seq(|xs|, k requires 0 <= k < |xs| => PyInt(xs[k])))))
  }

  /** Whether entry e of block src makes the reformatting raise, and with what. */
  predicate Fails(e: Entry, src: Block) {
    if e.key in src then Convert(e.conv, e.key, src[e.key]).Err? else e.required
  }

  function ErrorOf(e: Entry, src: Block): PyError
    requires Fails(e, src)
  {
    if e.key in src then Convert(e.conv, e.key, src[e.key]).error else KeyError(e.key)
  }

  predicate DistinctEntryKeys(es: seq<Entry>) {
    forall i, j :: 0 <= i < j < |es| ==> es[i].key != es[j].key
  }

  // ---------------------------------------------------------------------------------
  // OpenBB.py: the converted entries go into a fresh dictionary.

  /** acc with the converted entries es of src added, in order; the first failing entry
      raises. */
  function BuildFrom(acc: Block, es: seq<Entry>, src: Block): Result<Block>
    decreases |es|
  {
    if es == [] then Ok(acc)
    else
      var e := es[0];
      if e.key in src then
        match Convert(e.conv, e.key, src[e.key])
        case Err(x) => Err(x)
        case Ok(v) => BuildFrom(acc[e.key := v], es[1..], src)
      else if e.required then Err(KeyError(e.key))
      else BuildFrom(acc, es[1..], src)
  }

  /** BuildFrom succeeds exactly when no entry fails, and otherwise raises the error of the
      first entry that fails. */
  lemma {:induction false} BuildFromErrors(acc: Block, es: seq<Entry>, src: Block)
    decreases |es|
    ensures BuildFrom(acc, es, src).Ok? <==> forall i :: 0 <= i < |es| ==> !Fails(es[i], src)
    ensures BuildFrom(acc, es, src).Err? ==>
      exists i :: 0 <= i < |es| && Fails(es[i], src) && BuildFrom(acc, es, src).error == ErrorOf(es[i], src)
                  && forall j :: 0 <= j < i ==> !Fails(es[j], src)
  {
    if es != [] {
      var e := es[0];
      var acc' := if e.key in src && Convert(e.conv, e.key, src[e.key]).Ok?
                  then acc[e.key := Convert(e.conv, e.key, src[e.key]).value] else acc;
      BuildFromErrors(acc', es[1..], src);
      if !Fails(e, src) {
        assert BuildFrom(acc, es, src) == BuildFrom(acc', es[1..], src);
        assert forall i :: 1 <= i < |es| ==> es[i] == es[1..][i - 1];
        if BuildFrom(acc, es, src).Err? {
          var i :| 0 <= i < |es[1..]| && Fails(es[1..][i], src) && BuildFrom(acc', es[1..], src).error == ErrorOf(es[1..][i], src)
                   && forall j :: 0 <= j < i ==> !Fails(es[1..][j], src);
          assert es[i + 1] == es[1..][i];
        }
      }
    }
  }

  /** The keys handled by the entries es. */
  function EntryKeys(es: seq<Entry>): set<string> {
    set e | e in es :: e.key
  }

  /** What a successful BuildFrom holds: what acc held under the keys no entry names, and
      under each entry's key the converted value exactly when src has that key. */
  lemma {:induction false} BuildFromResult(acc: Block, es: seq<Entry>, src: Block)
    requires DistinctEntryKeys(es)
    requires BuildFrom(acc, es, src).Ok?
    decreases |es|
    ensures var r := BuildFrom(acc, es, src).value;
      && (forall k :: k !in EntryKeys(es) ==> (k in r <==> k in acc) && (k in acc ==> r[k] == acc[k]))
      && (forall i :: 0 <= i < |es| ==>
            (es[i].key in r <==> es[i].key in src || es[i].key in acc)
            && (es[i].key in src ==> Convert(es[i].conv, es[i].key, src[es[i].key]) == Ok(r[es[i].key]))
            && (es[i].key !in src && es[i].key in acc ==> r[es[i].key] == acc[es[i].key]))
  {
    if es != [] {
      var e := es[0];
      var acc' := if e.key in src then acc[e.key := Convert(e.conv, e.key, src[e.key]).value] else acc;
      assert BuildFrom(acc, es, src) == BuildFrom(acc', es[1..], src);
      assert DistinctEntryKeys(es[1..]);
      BuildFromResult(acc', es[1..], src);
      assert forall i :: 1 <= i < |es| ==> es[i] == es[1..][i - 1];
      assert EntryKeys(es) == {e.key} + EntryKeys(es[1..]);
      assert e.key !in EntryKeys(es[1..]) by {
        forall i | 0 <= i < |es[1..]| ensures es[1..][i].key != e.key { assert es[1..][i] == es[i + 1]; }
      }
    }
  }

  /** The keys a constraint dictionary must hold for append_constraints and
      insert_constraints. */
  predicate HasConstraintKeys(d: Block) {
    "A" in d && "loBs" in d && "upBs" in d
  }

  /** OpenBB.py's localConstraintsDict: A as a matrix, the bounds as flat arrays. */
  function ConstraintsCopy(d: Block): (r: Block)
    requires HasConstraintKeys(d)
    ensures r.Keys == {"A", "loBs", "upBs"}
    ensures BuildFrom(map[], ConstraintEntries, d) == Ok(r)
  {
    map["A" := Matrix(d["A"]), "loBs" := FlatArray(d["loBs"]), "upBs" := FlatArray(d["upBs"])]
  }

  /** The entries set_objective converts: Q and L, each only if present. */
  const ObjectiveEditEntries: seq<Entry> :=
    [Entry("Q", ToMatrix, false), Entry("L", ToFlatArray, false)]

  /** set_objective's localObjectiveDict. */
  function ObjectiveCopy(d: Block): (r: Block)
    ensures BuildFrom(map[], ObjectiveEditEntries, d) == Ok(r)
  {
    var q: Block := if "Q" in d then map["Q" := Matrix(d["Q"])] else map[];
    if "L" in d then q["L" := FlatArray(d["L"])] else q
  }

  // ---------------------------------------------------------------------------------
  // python_interface.py: the converted entries are written back into the caller's block.

  /** One in-place step: the block afterwards, and the error raised, if any. */
  function StepInPlace(e: Entry, blk: Block): (Block, Option<PyError>) {
    if e.key in blk then
      match Convert(e.conv, e.key, blk[e.key])
      case Err(x) => (blk, Some(x))
      case Ok(v) => (blk[e.key := v], None)
    else if e.required then (blk, Some(KeyError(e.key)))
    else (blk, None)
  }

  /** The entries es converted in place one after the other, up to the first error. */
  function InPlaceBlock(es: seq<Entry>, blk: Block): (Block, Option<PyError>) {
    if es == [] then (blk, None)
    else
      var (b1, err) := StepInPlace(es[0], blk);
      if err.Some? then (b1, err) else InPlaceBlock(es[1..], b1)
  }

  /** Converting in place is the caller's block overwritten by what the fresh conversion
      builds, and it raises exactly the error the fresh conversion raises. Stated for a
      block already overwritten by acc, the entries converted so far. */
  lemma {:induction false} InPlaceMatchesFreshFrom(es: seq<Entry>, blk: Block, acc: Block)
    requires DistinctEntryKeys(es)
    decreases |es|
    requires forall i :: 0 <= i < |es| ==> es[i].key !in acc
    ensures BuildFrom(acc, es, blk).Ok? ==>
      InPlaceBlock(es, blk + acc) == (blk + BuildFrom(acc, es, blk).value, None)
    ensures BuildFrom(acc, es, blk).Err? ==>
      InPlaceBlock(es, blk + acc).1 == Some(BuildFrom(acc, es, blk).error)
  {
    if es != [] {
      var e := es[0];
      assert e.key in blk + acc <==> e.key in blk;
      assert e.key in blk ==> (blk + acc)[e.key] == blk[e.key];
      assert DistinctEntryKeys(es[1..]);
      if e.key in blk && Convert(e.conv, e.key, blk[e.key]).Ok? {
        var v := Convert(e.conv, e.key, blk[e.key]).value;
        assert (blk + acc)[e.key := v] == blk + acc[e.key := v];
        forall i | 0 <= i < |es[1..]| ensures es[1..][i].key !in acc[e.key := v] {
          assert es[1..][i] == es[i + 1];
        }
        InPlaceMatchesFreshFrom(es[1..], blk, acc[e.key := v]);
      } else if e.key !in blk && !e.required {
        forall i | 0 <= i < |es[1..]| ensures es[1..][i].key !in acc {
          assert es[1..][i] == es[i + 1];
        }
        InPlaceMatchesFreshFrom(es[1..], blk, acc);
      }
    }
  }

  lemma InPlaceMatchesFresh(es: seq<Entry>, blk: Block)
    requires DistinctEntryKeys(es)
    ensures BuildFrom(map[], es, blk).Ok? ==>
      InPlaceBlock(es, blk) == (blk + BuildFrom(map[], es, blk).value, None)
    ensures BuildFrom(map[], es, blk).Err? ==>
      InPlaceBlock(es, blk).1 == Some(BuildFrom(map[], es, blk).error)
  {
    assert blk + map[] == blk;
    InPlaceMatchesFreshFrom(es, blk, map[]);
  }

  // ---------------------------------------------------------------------------------
  // The problem dictionary.

  const RequiredBlocks: seq<string> := ["objFun", "cnsSet", "varSet"]

  predicate HasBlocks(p: Problem) {
    "objFun" in p && "cnsSet" in p && "varSet" in p
  }

  /** The block whose absence raises NameError: the first of objFun, cnsSet, varSet
      that is missing. */
  function FirstMissingBlock(p: Problem): (r: Option<string>)
    ensures r.None? <==> HasBlocks(p)
    ensures r.Some? ==>
      exists i :: 0 <= i < |RequiredBlocks| && r.value == RequiredBlocks[i] && r.value !in p
                  && forall j :: 0 <= j < i ==> RequiredBlocks[j] in p
  {
    if "objFun" !in p then assert RequiredBlocks[0] == "objFun"; Some("objFun")
    else if "cnsSet" !in p then assert RequiredBlocks[1] == "cnsSet"; Some("cnsSet")
    else if "varSet" !in p then assert RequiredBlocks[2] == "varSet"; Some("varSet")
    else None
  }

  lemma EntriesDistinct()
    ensures DistinctEntryKeys(ObjectiveEntries)
    ensures DistinctEntryKeys(ConstraintEntries)
    ensures DistinctEntryKeys(VariableEntries)
  {
  }

  /** OpenBB.py's reformatting: a fresh dictionary with the three blocks. */
  function FreshProblem(p: Problem): Result<Problem>
    requires HasBlocks(p)
  {
    var o :- BuildFrom(map[], ObjectiveEntries, p["objFun"]);
    var c :- BuildFrom(map[], ConstraintEntries, p["cnsSet"]);
    var v :- BuildFrom(map[], VariableEntries, p["varSet"]);
    Ok(map["objFun" := o, "cnsSet" := c, "varSet" := v])
  }

  /** python_interface.py's reformatting: the caller's dictionary with its blocks
      converted in place, block after block, up to the first error. */
  function InPlaceProblem(p: Problem): (Problem, Option<PyError>)
    requires HasBlocks(p)
  {
    var (o, e1) := InPlaceBlock(ObjectiveEntries, p["objFun"]);
    var p1 := p["objFun" := o];
    if e1.Some? then (p1, e1)
    else
      var (c, e2) := InPlaceBlock(ConstraintEntries, p["cnsSet"]);
      var p2 := p1["cnsSet" := c];
      if e2.Some? then (p2, e2)
      else
        var (v, e3) := InPlaceBlock(VariableEntries, p["varSet"]);
        (p2["varSet" := v], e3)
  }

  /** r is what the conversion of the entries es builds from src: an entry's key is in r
      exactly when src has it, it holds the converted value, and no other key is copied. */
  predicate Converted(es: seq<Entry>, src: Block, r: Block) {
    && (forall k :: k in r ==> k in EntryKeys(es))
    && forall i :: 0 <= i < |es| ==>
         && (es[i].key in r <==> es[i].key in src)
         && (es[i].key in src ==> Convert(es[i].conv, es[i].key, src[es[i].key]) == Ok(r[es[i].key]))
  }

  lemma BuildFromFresh(es: seq<Entry>, src: Block)
    requires DistinctEntryKeys(es) && BuildFrom(map[], es, src).Ok?
    ensures Converted(es, src, BuildFrom(map[], es, src).value)
  {
    BuildFromResult(map[], es, src);
  }

  /** The fresh dictionary holds the three blocks and nothing else, each the conversion
      of the caller's block: Q, vals, dscIndices, sos1Groups and pseudoCosts are copied
      only if present, and keys outside the table are not copied. */
  lemma FreshProblemShape(p: Problem)
    requires HasBlocks(p) && FreshProblem(p).Ok?
    ensures var q := FreshProblem(p).value;
      && q.Keys == {"objFun", "cnsSet", "varSet"}
      && Converted(ObjectiveEntries, p["objFun"], q["objFun"])
      && Converted(ConstraintEntries, p["cnsSet"], q["cnsSet"])
      && Converted(VariableEntries, p["varSet"], q["varSet"])
  {
    EntriesDistinct();
    BuildFromFresh(ObjectiveEntries, p["objFun"]);
    BuildFromFresh(ConstraintEntries, p["cnsSet"]);
    BuildFromFresh(VariableEntries, p["varSet"]);
  }

  // The order in which the reformatting takes its steps, across the three blocks.

  type Step = (string, Entry)

  function Tagged(b: string, es: seq<Entry>): (r: seq<Step>)
    ensures |r| == |es| && forall i :: 0 <= i < |es| ==> r[i] == (b, es[i])
  {
    seq(|es|, i requires 0 <= i < |es| => (b, es[i]))
  }

  /** Every step of the reformatting, in the order the source takes them. */
  const AllSteps: seq<Step> :=
    Tagged("objFun", ObjectiveEntries) + Tagged("cnsSet", ConstraintEntries) + Tagged("varSet", VariableEntries)

  predicate StepFails(p: Problem, s: Step) {
    s.0 in p && Fails(s.1, p[s.0])
  }

  predicate NoneFails(p: Problem, steps: seq<Step>) {
    forall i :: 0 <= i < |steps| ==> !StepFails(p, steps[i])
  }

  /** The first of steps that fails raises x. */
  predicate FirstFailsWith(p: Problem, steps: seq<Step>, x: PyError) {
    exists i :: 0 <= i < |steps| && StepFails(p, steps[i]) && ErrorOf(steps[i].1, p[steps[i].0]) == x
                && forall j :: 0 <= j < i ==> !StepFails(p, steps[j])
  }

  lemma BlockErrors(p: Problem, b: string, es: seq<Entry>)
    requires b in p
    ensures BuildFrom(map[], es, p[b]).Ok? <==> NoneFails(p, Tagged(b, es))
    ensures BuildFrom(map[], es, p[b]).Err? ==> FirstFailsWith(p, Tagged(b, es), BuildFrom(map[], es, p[b]).error)
  {
    BuildFromErrors(map[], es, p[b]);
    var t := Tagged(b, es);
    if BuildFrom(map[], es, p[b]).Err? {
      var i :| 0 <= i < |es| && Fails(es[i], p[b]) && BuildFrom(map[], es, p[b]).error == ErrorOf(es[i], p[b])
               && forall j :: 0 <= j < i ==> !Fails(es[j], p[b]);
      assert t[i] == (b, es[i]);
    }
  }

  lemma NoneFailsAppend(p: Problem, s: seq<Step>, t: seq<Step>)
    ensures NoneFails(p, s + t) <==> NoneFails(p, s) && NoneFails(p, t)
  {
    assert forall i :: 0 <= i < |s| ==> (s + t)[i] == s[i];
    assert forall i :: 0 <= i < |t| ==> (s + t)[|s| + i] == t[i];
  }

  lemma FirstFailsAppendLeft(p: Problem, s: seq<Step>, t: seq<Step>, x: PyError)
    requires FirstFailsWith(p, s, x)
    ensures FirstFailsWith(p, s + t, x)
  {
    var i :| 0 <= i < |s| && StepFails(p, s[i]) && ErrorOf(s[i].1, p[s[i].0]) == x
             && forall j :: 0 <= j < i ==> !StepFails(p, s[j]);
    assert (s + t)[i] == s[i];
    assert forall j :: 0 <= j < i ==> (s + t)[j] == s[j];
  }

  lemma FirstFailsAppendRight(p: Problem, s: seq<Step>, t: seq<Step>, x: PyError)
    requires NoneFails(p, s) && FirstFailsWith(p, t, x)
    ensures FirstFailsWith(p, s + t, x)
  {
    var i :| 0 <= i < |t| && StepFails(p, t[i]) && ErrorOf(t[i].1, p[t[i].0]) == x
             && forall j :: 0 <= j < i ==> !StepFails(p, t[j]);
    assert (s + t)[|s| + i] == t[i];
    forall j | 0 <= j < |s| + i ensures !StepFails(p, (s + t)[j]) {
      if j < |s| {
        assert (s + t)[j] == s[j];
      } else {
        assert (s + t)[j] == t[j - |s|];
      }
    }
  }

  /** The reformatting fails exactly when some step fails, and raises the error of the first
      failing step in the order objFun, cnsSet, varSet and, within a block, the order of
      its table. */
  lemma ReformatErrors(p: Problem)
    requires HasBlocks(p)
    ensures FreshProblem(p).Ok? <==> NoneFails(p, AllSteps)
    ensures FreshProblem(p).Err? ==> FirstFailsWith(p, AllSteps, FreshProblem(p).error)
  {
    var o, c, v := Tagged("objFun", ObjectiveEntries), Tagged("cnsSet", ConstraintEntries), Tagged("varSet", VariableEntries);
    BlockErrors(p, "objFun", ObjectiveEntries);
    BlockErrors(p, "cnsSet", ConstraintEntries);
    BlockErrors(p, "varSet", VariableEntries);
    NoneFailsAppend(p, o, c);
    NoneFailsAppend(p, o + c, v);
    var x := if FreshProblem(p).Err? then FreshProblem(p).error else KeyError("");
    if BuildFrom(map[], ObjectiveEntries, p["objFun"]).Err? {
      FirstFailsAppendLeft(p, o, c, x);
      FirstFailsAppendLeft(p, o + c, v, x);
    } else if BuildFrom(map[], ConstraintEntries, p["cnsSet"]).Err? {
      FirstFailsAppendRight(p, o, c, x);
      FirstFailsAppendLeft(p, o + c, v, x);
    } else if BuildFrom(map[], VariableEntries, p["varSet"]).Err? {
      FirstFailsAppendRight(p, o + c, v, x);
    }
  }

  /** The caller's dictionary with each block overwritten by its converted entries. */
  function Overlay(p: Problem, q: Problem): Problem
    requires HasBlocks(p) && HasBlocks(q)
  {
    p["objFun" := p["objFun"] + q["objFun"]]
     ["cnsSet" := p["cnsSet"] + q["cnsSet"]]
     ["varSet" := p["varSet"] + q["varSet"]]
  }

  /** The two front-ends agree: in place, the caller's dictionary ends up as its old self
      overwritten by exactly what OpenBB.py builds afresh (every other key, and every other
      block, kept), and the in-place run raises exactly the error the fresh one raises. */
  lemma InPlaceProblemMatchesFresh(p: Problem)
    requires HasBlocks(p)
    ensures FreshProblem(p).Ok? ==> HasBlocks(FreshProblem(p).value)
    ensures FreshProblem(p).Ok? ==> InPlaceProblem(p) == (Overlay(p, FreshProblem(p).value), None)
    ensures FreshProblem(p).Err? ==> InPlaceProblem(p).1 == Some(FreshProblem(p).error)
  {
    EntriesDistinct();
    InPlaceMatchesFresh(ObjectiveEntries, p["objFun"]);
    InPlaceMatchesFresh(ConstraintEntries, p["cnsSet"]);
    InPlaceMatchesFresh(VariableEntries, p["varSet"]);
  }

  // ---------------------------------------------------------------------------------
  // The index lists of the variables block.

  /** dscIndices: length and order kept, every entry int(x) + 1; on a list of ints this
      is exactly the 0-based to 1-based shift. */
  lemma DscIndicesToOneBased(v: Value)
    requires Numbers(v).Some?
    ensures var xs := Numbers(v).value;
      Convert(ToOneBasedInts, "dscIndices", v) == Ok(IntList(seq(|xs|, k requires 0 <= k < |xs| => PyInt(xs[k]) + 1)))
    ensures v.IntList? ==> Convert(ToOneBasedInts, "dscIndices", v) == Ok(IntList(IndexBase.ToOneBased(v.ns)))
  {
    if v.IntList? {
      var r := Convert(ToOneBasedInts, "dscIndices", v).value.ns;
      forall k | 0 <= k < |v.ns| ensures r[k] == v.ns[k] + 1 {
        PyIntOfInteger(v.ns[k]);
      }
      IndexBase.ShiftCharacterized(v.ns, r, 1);
    }
  }

  /** sos1Groups: entries keep their values (int(x) is x on integral numbers); they are
      not shifted. */
  lemma Sos1GroupsKept(v: Value)
    requires v.IntList? || (v.NumList? && forall k :: 0 <= k < |v.xs| ==> v.xs[k] == v.xs[k].Floor as real)
    ensures v.IntList? ==> Convert(ToInts, "sos1Groups", v) == Ok(v)
    ensures v.NumList? ==>
      (&& Convert(ToInts, "sos1Groups", v).Ok?
       && |Convert(ToInts, "sos1Groups", v).value.ns| == |v.xs|
       && forall k :: 0 <= k < |v.xs| ==> Convert(ToInts, "sos1Groups", v).value.ns[k] as real == v.xs[k])
  {
    if v.IntList? {
      var r := Convert(ToInts, "sos1Groups", v).value;
      forall k | 0 <= k < |v.ns| ensures r.ns[k] == v.ns[k] {
        PyIntOfInteger(v.ns[k]);
      }
      assert r.ns == v.ns;
    } else {
      forall k | 0 <= k < |v.xs| ensures PyInt(v.xs[k]) as real == v.xs[k] {
        PyIntOfInteger(v.xs[k].Floor);
      }
    }
  }

  /** A converted value converts again without raising. */
  lemma ConvertAgain(c: Conversion, key: string, v: Value)
    requires Convert(c, key, v).Ok?
    ensures Convert(c, key, Convert(c, key, v).value).Ok?
  {
  }

  /** Once a block has been converted, converting its result raises nothing. */
  lemma SecondPassBlock(es: seq<Entry>, src: Block, r: Block)
    requires Converted(es, src, r)
    requires forall i :: 0 <= i < |es| ==> !Fails(es[i], src)
    ensures forall i :: 0 <= i < |es| ==> !Fails(es[i], src + r)
  {
    forall i | 0 <= i < |es| ensures !Fails(es[i], src + r) {
      var e := es[i];
      if e.key in src {
        ConvertAgain(e.conv, e.key, src[e.key]);
      }
    }
  }

  /** Converting a block overwritten by its own conversion succeeds. */
  lemma SecondPassBlockOk(es: seq<Entry>, src: Block)
    requires DistinctEntryKeys(es) && BuildFrom(map[], es, src).Ok?
    ensures BuildFrom(map[], es, src + BuildFrom(map[], es, src).value).Ok?
  {
    var r := BuildFrom(map[], es, src).value;
    BuildFromFresh(es, src);
    BuildFromErrors(map[], es, src);
    SecondPassBlock(es, src, r);
    BuildFromErrors(map[], es, src + r);
  }

  /** Reformatting the result of a successful in-place reformatting raises nothing. */
  lemma SecondPassSucceeds(p: Problem)
    requires HasBlocks(p) && FreshProblem(p).Ok?
    ensures HasBlocks(FreshProblem(p).value)
    ensures HasBlocks(Overlay(p, FreshProblem(p).value))
    ensures FreshProblem(Overlay(p, FreshProblem(p).value)).Ok?
  {
    EntriesDistinct();
    var q := FreshProblem(p).value;
    var p1 := Overlay(p, q);
    SecondPassBlockOk(ObjectiveEntries, p["objFun"]);
    SecondPassBlockOk(ConstraintEntries, p["cnsSet"]);
    SecondPassBlockOk(VariableEntries, p["varSet"]);
    assert p1["objFun"] == p["objFun"] + q["objFun"];
    assert p1["cnsSet"] == p["cnsSet"] + q["cnsSet"];
    assert p1["varSet"] == p["varSet"] + q["varSet"];
  }

  /** A successful reformatting hands on a list of ints as dscIndices shifted by one. */
  lemma DscIndicesOfFresh(p: Problem, ns: seq<int>)
    requires HasBlocks(p) && FreshProblem(p).Ok?
    requires "dscIndices" in p["varSet"] && p["varSet"]["dscIndices"] == IntList(ns)
    ensures var q := FreshProblem(p).value;
      "varSet" in q && "dscIndices" in q["varSet"]
      && q["varSet"]["dscIndices"] == IntList(IndexBase.ToOneBased(ns))
  {
    FreshProblemShape(p);
    assert VariableEntries[3] == Entry("dscIndices", ToOneBasedInts, false);
    DscIndicesToOneBased(IntList(ns));
  }

  /** python_interface.py rewrites the caller's dictionary, so a second setup or
      append_problem with the same dictionary converts its discrete indices a second time:
      they reach Julia shifted by 2. */
  lemma InPlaceTwiceShiftsTwice(p: Problem, ns: seq<int>)
    requires HasBlocks(p) && InPlaceProblem(p).1.None?
    requires "dscIndices" in p["varSet"] && p["varSet"]["dscIndices"] == IntList(ns)
    ensures HasBlocks(InPlaceProblem(p).0)
    ensures InPlaceProblem(InPlaceProblem(p).0).1.None?
    ensures var p2 := InPlaceProblem(InPlaceProblem(p).0).0;
      "varSet" in p2 && "dscIndices" in p2["varSet"]
      && p2["varSet"]["dscIndices"] == IntList(IndexBase.Shift(ns, 2))
  {
    InPlaceProblemMatchesFresh(p);
    var q := FreshProblem(p).value;
    var p1 := InPlaceProblem(p).0;
    SecondPassSucceeds(p);
    DscIndicesOfFresh(p, ns);
    assert p1["varSet"]["dscIndices"] == IntList(IndexBase.ToOneBased(ns));
    InPlaceProblemMatchesFresh(p1);
    DscIndicesOfFresh(p1, IndexBase.ToOneBased(ns));
    IndexBase.ShiftShift(ns, 1, 1);
  }
}
