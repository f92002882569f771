/** python_interface.py: the front-end class OpenBBmodel, which calls the Julia package
    through pyjulia's Julia() object.

    setup splits the options as OpenBB.py does, but converts the caller's problem
    dictionary in place and forwards that dictionary itself; it makes no numProcesses
    test. append_constraints and insert_constraints forward the caller's constraint
    dictionary unconverted; append_problem converts the caller's problem dictionary in
    place, as setup does, before forwarding it; the index lists are made 1-based in
    place. */
module PythonInterface {
  import opened PyValues
  import opened IndexBase
  import opened Settings
  import opened Reformat
  import opened JuliaCalls
  import OpenBB

  /** The Julia calls that load the two lists of settings fields:
      fieldnames(eval("OpenBB.<type>")), a pair of calls recorded as one. */
  function ModelLoadCalls(s: string): seq<Call>
    requires s in Subsolvers
  {
    [FieldNames(BBSettingsType), FieldNames(SettingsType(s))]
  }

  /** The problem check and in-place conversion of setup and append_problem: NameError
      naming the first missing block, with the dictionary untouched, or else the
      dictionary after the in-place conversion and the error it raised, if any. */
  function CheckedInPlace(p: Problem): (r: (Problem, Option<PyError>))
    ensures FirstMissingBlock(p).Some? ==> r == (p, Some(NameError(MissingBlock(FirstMissingBlock(p).value))))
    ensures HasBlocks(p) ==> r == InPlaceProblem(p)
  {
    if FirstMissingBlock(p).Some? then (p, Some(NameError(MissingBlock(FirstMissingBlock(p).value))))
    else InPlaceProblem(p)
  }

  /** What the in-place check means for the caller. A missing block raises NameError
      naming the first of objFun, cnsSet, varSet that is missing, with the dictionary
      untouched. With all three present, the conversion raises exactly when a step fails,
      the error of the first failing step; when it raises nothing, the caller's dictionary
      ends as OpenBB.py's fresh copy laid over it. No top-level key is added or removed. */
  lemma CheckedInPlaceMeaning(p: Problem)
    ensures forall i :: 0 <= i < |RequiredBlocks| && RequiredBlocks[i] !in p
                        && (forall j :: 0 <= j < i ==> RequiredBlocks[j] in p) ==>
              CheckedInPlace(p) == (p, Some(NameError(MissingBlock(RequiredBlocks[i]))))
    ensures HasBlocks(p) ==> (CheckedInPlace(p).1.None? <==> NoneFails(p, AllSteps))
    ensures HasBlocks(p) && CheckedInPlace(p).1.Some? ==> FirstFailsWith(p, AllSteps, CheckedInPlace(p).1.value)
    ensures HasBlocks(p) && CheckedInPlace(p).1.None? ==>
      && FreshProblem(p).Ok? && HasBlocks(FreshProblem(p).value)
      && CheckedInPlace(p).0 == Overlay(p, FreshProblem(p).value)
    ensures CheckedInPlace(p).0.Keys == p.Keys
  {
    if HasBlocks(p) {
      ReformatErrors(p);
      InPlaceProblemMatchesFresh(p);
    }
  }

  /** What setup does with problemDict: nothing when it was None, else the checked
      in-place conversion. */
  function PreparedInPlace(problem: Option<Problem>): Option<(Problem, Option<PyError>)> {
    if problem.None? then None else Some(CheckedInPlace(problem.value))
  }

  /** What one call of setup does: the Julia calls it makes, the warnings it issues, how
      it ends, and the caller's problem dictionary afterwards. */
  datatype SetupResult = SetupResult(calls: seq<Call>, warnings: seq<Warning>, outcome: Outcome, problem: Option<Problem>)

  /** The part of setup after the settings split sp for subsolver s, with prep the
      prepared problem. */
  function ModelForward(s: string, prep: Option<(Problem, Option<PyError>)>, sp: Split): (seq<Call>, Outcome, Option<Problem>) {
    if prep.None? then ([Call.Setup(s, map[], sp.bb, sp.ss)], Done, None)
    else if prep.value.1.Some? then ([], Raised(prep.value.1.value), Some(prep.value.0))
    else ([Call.Setup(s, prep.value.0, sp.bb, sp.ss)], Done, Some(prep.value.0))
  }

  /** setup(problemDict, options), with problem None for problemDict=None, items the
      options and f the field names Julia reports. */
  function ModelSetupEffects(problem: Option<Problem>, items: seq<(string, Value)>, f: FieldLists): SetupResult
    requires DistinctKeys(items)
  {
    match ChooseSubsolver(items)
    case Err(x) =>
      SetupResult(if "subsolver" in KeysOf(items) then [FieldNames(BBSettingsType)] else [], [], Raised(x), problem)
    case Ok(s) =>
      var sp := SplitOf(RouterFor(s, f), Pop(items, "subsolver"));
      var fw := ModelForward(s, PreparedInPlace(problem), sp);
      SetupResult(ModelLoadCalls(s) + fw.0, sp.warnings, fw.1, fw.2)
  }

  /** Once the subsolver is known, setup loads the two field lists, issues the warnings of
      the split and then does what ModelForward does; before that it forwards nothing and
      leaves the problem dictionary as it was. */
  lemma ModelSetupPhases(problem: Option<Problem>, items: seq<(string, Value)>, f: FieldLists)
    requires DistinctKeys(items)
    ensures var e := ModelSetupEffects(problem, items, f);
      ChooseSubsolver(items).Err? ==>
        && e.outcome == Raised(ChooseSubsolver(items).error) && e.warnings == [] && e.problem == problem
        && forall c :: c in e.calls ==> c == FieldNames(BBSettingsType)
    ensures var e := ModelSetupEffects(problem, items, f);
      ChooseSubsolver(items).Ok? ==>
        var s := ChooseSubsolver(items).value;
        var sp := SplitOf(RouterFor(s, f), Pop(items, "subsolver"));
        var fw := ModelForward(s, PreparedInPlace(problem), sp);
        && e.calls == ModelLoadCalls(s) + fw.0
        && e.warnings == sp.warnings
        && e.outcome == fw.1
        && e.problem == fw.2
  {
  }

  /** After the split: a Setup call exactly when the conversion raised nothing, and
      it is the only call; the dictionary is given back only when there was one. */
  lemma ModelForwardCalls(s: string, prep: Option<(Problem, Option<PyError>)>, sp: Split)
    ensures var fw := ModelForward(s, prep, sp);
      && (fw.2.Some? <==> prep.Some?)
      && (fw.0 == [] <==> prep.Some? && prep.value.1.Some?)
      && (fw.0 != [] ==> fw.0 == [Call.Setup(s, if prep.None? then map[] else prep.value.0, sp.bb, sp.ss)])
      && (fw.1.Raised? <==> fw.0 == [])
  {
  }

  /** setup never tests numProcesses: with a known subsolver and a problem (if any) that
      converts, it ends without error whatever the options hold. */
  lemma ModelSetupIgnoresNumProcesses(problem: Option<Problem>, items: seq<(string, Value)>, f: FieldLists)
    requires DistinctKeys(items) && ChooseSubsolver(items).Ok?
    requires problem.Some? ==> HasBlocks(problem.value) && FreshProblem(problem.value).Ok?
    ensures ModelSetupEffects(problem, items, f).outcome == Done
    ensures |ModelSetupEffects(problem, items, f).calls| == 3
  {
    ModelSetupPhases(problem, items, f);
    if problem.Some? {
      InPlaceProblemMatchesFresh(problem.value);
    }
  }

  /** A Setup call made by setup forwards the caller's own dictionary after the in-place
      conversion, which is the caller's old dictionary overwritten by what OpenBB.py
      builds afresh; this is also what the caller holds afterwards. */
  lemma ModelSetupForwardsConvertedCaller(p: Problem, items: seq<(string, Value)>, f: FieldLists, c: Call)
    requires DistinctKeys(items)
    requires c in ModelSetupEffects(Some(p), items, f).calls && c.Setup?
    ensures HasBlocks(p) && FreshProblem(p).Ok? && HasBlocks(FreshProblem(p).value)
    ensures c.problem == Overlay(p, FreshProblem(p).value)
    ensures ModelSetupEffects(Some(p), items, f).problem == Some(c.problem)
  {
    ModelSetupPhases(Some(p), items, f);
    var s := ChooseSubsolver(items).value;
    var sp := SplitOf(RouterFor(s, f), Pop(items, "subsolver"));
    var prep := PreparedInPlace(Some(p));
    var fw := ModelForward(s, prep, sp);
    ModelForwardCalls(s, prep, sp);
    assert c in ModelLoadCalls(s) + fw.0;
    assert c in fw.0;
    if !HasBlocks(p) {
      assert false;
    }
    InPlaceProblemMatchesFresh(p);
  }

  /** When the conversion raises, setup raises the error OpenBB.py raises on the same
      dictionary, forwards nothing, and leaves the caller's dictionary part-converted: as
      the in-place conversion left it. */
  lemma ModelSetupConversionError(p: Problem, items: seq<(string, Value)>, f: FieldLists)
    requires DistinctKeys(items) && ChooseSubsolver(items).Ok?
    requires HasBlocks(p) && FreshProblem(p).Err?
    ensures var e := ModelSetupEffects(Some(p), items, f);
      && e.outcome == Raised(FreshProblem(p).error)
      && e.problem == Some(InPlaceProblem(p).0)
      && |e.calls| == 2
  {
    ModelSetupPhases(Some(p), items, f);
    InPlaceProblemMatchesFresh(p);
  }

  /** Without a known subsolver setup raises (NameError, or TypeError for a name that is
      not a string) having loaded at most the branch-and-bound field list, and the
      caller's dictionary is untouched. */
  lemma ModelSetupNeedsKnownSubsolver(problem: Option<Problem>, items: seq<(string, Value)>, f: FieldLists)
    requires DistinctKeys(items)
    ensures var e := ModelSetupEffects(problem, items, f);
      "subsolver" !in KeysOf(items) ==> e == SetupResult([], [], Raised(NameError(NoSubsolver)), problem)
    ensures var e := ModelSetupEffects(problem, items, f);
      forall s :: Lookup(items, "subsolver") == Some(Text(s)) && s !in Subsolvers ==>
        e == SetupResult([FieldNames(BBSettingsType)], [], Raised(NameError(UnknownSubsolver(s))), problem)
  {
    ModelSetupPhases(problem, items, f);
  }

  /** The two setups issue the same warnings. */
  lemma FrontEndsWarnAlike(problem: Option<Problem>, items: seq<(string, Value)>, f: FieldLists, dir: string)
    requires DistinctKeys(items)
    ensures ModelSetupEffects(problem, items, f).warnings == OpenBB.SetupEffects(problem, items, f, dir).warnings
  {
    ModelSetupPhases(problem, items, f);
    OpenBB.SetupPhases(problem, items, f, dir);
  }

  /** Whenever OpenBB.py's setup forwards a problem, this setup forwards the same
      subsolver and settings, with the caller's dictionary overwritten by OpenBB.py's
      fresh copy as the problem. */
  lemma FrontEndsForwardAlike(problem: Option<Problem>, items: seq<(string, Value)>, f: FieldLists, dir: string, c: Call)
    requires DistinctKeys(items)
    requires c in OpenBB.SetupEffects(problem, items, f, dir).calls && c.Setup?
    ensures problem.Some? ==> HasBlocks(problem.value) && HasBlocks(c.problem)
    ensures var q := if problem.None? then map[] else Overlay(problem.value, c.problem);
      Call.Setup(c.subsolver, q, c.bbSettings, c.ssSettings) in ModelSetupEffects(problem, items, f).calls
  {
    OpenBB.SetupCallIsForwarded(problem, items, f, dir, c);
    ModelSetupPhases(problem, items, f);
    var s := ChooseSubsolver(items).value;
    var sp := SplitOf(RouterFor(s, f), Pop(items, "subsolver"));
    var prep := PreparedInPlace(problem);
    ModelForwardCalls(s, prep, sp);
    if problem.Some? {
      var p := problem.value;
      InPlaceProblemMatchesFresh(p);
      FreshProblemShape(p);
      assert prep == Some((Overlay(p, c.problem), None));
    }
    assert ModelSetupEffects(problem, items, f).calls[2] == ModelForward(s, prep, sp).0[0];
  }

  /** Whenever this setup forwards a problem, OpenBB.py's setup forwards the same
      subsolver and settings, with its fresh copy of the caller's old dictionary as the
      problem (it may still raise afterwards, over numProcesses). */
  lemma FrontEndsForwardAlikeBack(problem: Option<Problem>, items: seq<(string, Value)>, f: FieldLists, dir: string, d: Call)
    requires DistinctKeys(items)
    requires d in ModelSetupEffects(problem, items, f).calls && d.Setup?
    ensures problem.Some? ==> HasBlocks(problem.value) && FreshProblem(problem.value).Ok?
    ensures var q := if problem.None? then map[] else FreshProblem(problem.value).value;
      Call.Setup(d.subsolver, q, d.bbSettings, d.ssSettings) in OpenBB.SetupEffects(problem, items, f, dir).calls
  {
    ModelSetupCallIsForwarded(problem, items, f, d);
    OpenBB.SetupPhases(problem, items, f, dir);
    var s := ChooseSubsolver(items).value;
    var sp := SplitOf(RouterFor(s, f), Pop(items, "subsolver"));
    var prep := OpenBB.PreparedProblem(problem);
    OpenBB.ForwardSetupCalls(s, prep, sp, dir);
    assert OpenBB.SetupEffects(problem, items, f, dir).calls[2] == OpenBB.ForwardSetup(s, prep, sp, dir).0[0];
  }

  /** A Setup call made by this setup is the one made after the split, with its settings;
      its problem is the caller's dictionary after a conversion that raised nothing. */
  lemma ModelSetupCallIsForwarded(problem: Option<Problem>, items: seq<(string, Value)>, f: FieldLists, d: Call)
    requires DistinctKeys(items)
    requires d in ModelSetupEffects(problem, items, f).calls && d.Setup?
    ensures ChooseSubsolver(items).Ok?
    ensures var s := ChooseSubsolver(items).value;
      var sp := SplitOf(RouterFor(s, f), Pop(items, "subsolver"));
      && d == Call.Setup(s, d.problem, sp.bb, sp.ss)
      && (problem.Some? ==> HasBlocks(problem.value) && FreshProblem(problem.value).Ok?)
      && (problem.None? ==> d.problem == map[])
  {
    ModelSetupPhases(problem, items, f);
    var s := ChooseSubsolver(items).value;
    var sp := SplitOf(RouterFor(s, f), Pop(items, "subsolver"));
    var prep := PreparedInPlace(problem);
    var fw := ModelForward(s, prep, sp);
    ModelForwardCalls(s, prep, sp);
    assert d in ModelLoadCalls(s) + fw.0;
    assert d in fw.0;
    if problem.Some? {
      if !HasBlocks(problem.value) {
        assert false;
      }
      InPlaceProblemMatchesFresh(problem.value);
    }
  }

  /** The front-end object: the Julia calls made so far and the warnings issued so far. */
  class OpenBBModel {
    var log: seq<Call>
    var warnings: seq<Warning>

    constructor ()
      ensures log == [] && warnings == []
    {
      log := [];
      warnings := [];
    }

    /** The first part of setup: pop the subsolver name from the copy of the options and
        load the two lists of settings fields, or raise. */
    method LoadSettingsLists(opts: seq<(string, Value)>, f: FieldLists) returns (r: Result<Router>)
      requires DistinctKeys(opts)
      modifies this
      ensures warnings == old(warnings)
      ensures r.Ok? <==> ChooseSubsolver(opts).Ok?
      ensures r.Ok? ==>
        && r.value == RouterFor(ChooseSubsolver(opts).value, f)
        && log == old(log) + ModelLoadCalls(ChooseSubsolver(opts).value)
      ensures r.Err? ==>
        && r.error == ChooseSubsolver(opts).error
        && log == old(log) + if "subsolver" in KeysOf(opts) then [FieldNames(BBSettingsType)] else []
    {
      if Lookup(opts, "subsolver").None? {
        return Err(NameError(NoSubsolver));
      }
      var subsolver := Lookup(opts, "subsolver").value;
      log := log + [FieldNames(BBSettingsType)];
      var ssList: seq<string>;
      if subsolver == Text("osqp") {
        log := log + [FieldNames("OSQPsettings")];
        ssList := f.osqp;
      } else if subsolver == Text("gurobi") {
        log := log + [FieldNames("GUROBIsettings")];
        ssList := f.gurobi;
      } else if subsolver == Text("qpalm") {
        log := log + [FieldNames("QPALMsettings")];
        ssList := f.qpalm;
      } else if subsolver.Text? {
        return Err(NameError(UnknownSubsolver(subsolver.s)));
      } else {
        return Err(TypeError("subsolver"));
      }
      return Ok(Router(subsolver.s, f.bb, ssList));
    }

    /** The last part of setup: check the caller's problem dictionary, convert it in
        place and forward it. */
    method ForwardProblem(name: string, problem: ProblemDict?, split: Split) returns (r: Outcome)
      modifies this, problem
      ensures warnings == old(warnings)
      ensures var fw := ModelForward(name, PreparedInPlace(if problem == null then None else Some(old(problem.blocks))), split);
        && log == old(log) + fw.0 && r == fw.1
        && (problem != null ==> fw.2 == Some(problem.blocks))
    {
      if problem == null {
        log := log + [Call.Setup(name, map[], split.bb, split.ss)];
        return Done;
      }
      if "objFun" !in problem.blocks {
        return Raised(NameError(MissingBlock("objFun")));
      } else if "cnsSet" !in problem.blocks {
        return Raised(NameError(MissingBlock("cnsSet")));
      } else if "varSet" !in problem.blocks {
        return Raised(NameError(MissingBlock("varSet")));
      }
      var err := ReformatInPlace(problem);
      if err.Some? {
        return Raised(err.value);
      }
      log := log + [Call.Setup(name, problem.blocks, split.bb, split.ss)];
      return Done;
    }

    /** setup(problemDict, options) with the field names f that Julia reports;
        problem is null for problemDict=None. */
    method Setup(problem: ProblemDict?, options: OptionsDict, f: FieldLists) returns (r: Outcome)
      requires options.Valid()
      modifies this, problem
      ensures options.items == old(options.items)
      ensures var e := ModelSetupEffects(if problem == null then None else Some(old(problem.blocks)), options.items, f);
        && log == old(log) + e.calls && warnings == old(warnings) + e.warnings && r == e.outcome
        && (problem != null ==> e.problem == Some(problem.blocks))
    {
      var opts := options.items;  // copy(options)
      ghost var given := if problem == null then None else Some(problem.blocks);
      ModelSetupPhases(given, opts, f);
      ghost var log0 := log;
      var rt := LoadSettingsLists(opts, f);
      if rt.Err? {
        r := Raised(rt.error);
      } else {
        ghost var s := ChooseSubsolver(opts).value;
        var split := SplitOptions(rt.value, Pop(opts, "subsolver"));
        warnings := warnings + split.warnings;
        ghost var fw := ModelForward(s, PreparedInPlace(given), split);
        r := ForwardProblem(rt.value.subsolver, problem, split);
        ConcatAssoc(log0, ModelLoadCalls(s), fw.0);
      }
    }

    /** get_constraints_sparsity, with rows and cols the arrays Julia returns as out[1]
        and out[2]; out[0] is neither read nor written. */
    method GetConstraintsSparsity(rows: array<int>, cols: array<int>) returns (r: Outcome)
      requires rows != cols
      modifies this, rows, cols
      ensures log == old(log) + [Call.GetConstraintsSparsity] && warnings == old(warnings)
      ensures rows.Length <= cols.Length ==>
        && r == Done
        && rows[..] == ToZeroBased(old(rows[..]))
        && cols[..] == ToZeroBased(old(cols[..rows.Length])) + old(cols[rows.Length..])
      ensures cols.Length < rows.Length ==>
        && r == Raised(IndexError)
        && rows[..] == ToZeroBased(old(rows[..cols.Length + 1])) + old(rows[cols.Length + 1..])
        && cols[..] == ToZeroBased(old(cols[..]))
    {
      log := log + [Call.GetConstraintsSparsity];
      r := ShiftDownPair(rows, cols);
    }

    /** get_constraint_sparsity(index), with out the array Julia returns. */
    method GetConstraintSparsity(index: int, out: array<int>)
      modifies this, out
      ensures log == old(log) + [Call.GetConstraintSparsity(index + 1)] && warnings == old(warnings)
      ensures out[..] == ToZeroBased(old(out[..]))
    {
      log := log + [Call.GetConstraintSparsity(index + 1)];
      ShiftInPlace(out, -1);
    }

    /** get_objective_sparsity, with rows and cols the arrays Julia returns as out[1] and
        out[2]; out[0] is neither read nor written. */
    method GetObjectiveSparsity(rows: array<int>, cols: array<int>) returns (r: Outcome)
      requires rows != cols
      modifies this, rows, cols
      ensures log == old(log) + [Call.GetObjectiveSparsity] && warnings == old(warnings)
      ensures rows.Length <= cols.Length ==>
        && r == Done
        && rows[..] == ToZeroBased(old(rows[..]))
        && cols[..] == ToZeroBased(old(cols[..rows.Length])) + old(cols[rows.Length..])
      ensures cols.Length < rows.Length ==>
        && r == Raised(IndexError)
        && rows[..] == ToZeroBased(old(rows[..cols.Length + 1])) + old(rows[cols.Length + 1..])
        && cols[..] == ToZeroBased(old(cols[..]))
    {
      log := log + [Call.GetObjectiveSparsity];
      r := ShiftDownPair(rows, cols);
    }

    /** append_constraints(constraintsDict, ...): the caller's dictionary goes out as it
        is, once A, loBs and upBs are all present. */
    method AppendConstraints(d: Block, flags: EditFlags) returns (r: Outcome)
      modifies this
      ensures warnings == old(warnings)
      ensures !HasConstraintKeys(d) ==> r == Raised(NameError(MissingConstraintKeys)) && log == old(log)
      ensures HasConstraintKeys(d) ==> r == Done && log == old(log) + [Call.AppendConstraints(d, flags)]
    {
      if "A" !in d || "loBs" !in d || "upBs" !in d {
        return Raised(NameError(MissingConstraintKeys));
      }
      log := log + [Call.AppendConstraints(d, flags)];
      return Done;
    }

    /** insert_constraints(constraintsDict, index, ...): likewise, with the insertion
        point 1-based. */
    method InsertConstraints(d: Block, index: int, flags: EditFlags) returns (r: Outcome)
      modifies this
      ensures warnings == old(warnings)
      ensures !HasConstraintKeys(d) ==> r == Raised(NameError(MissingConstraintKeys)) && log == old(log)
      ensures HasConstraintKeys(d) ==> r == Done && log == old(log) + [Call.InsertConstraints(d, index + 1, flags)]
    {
      if "A" !in d || "loBs" !in d || "upBs" !in d {
        return Raised(NameError(MissingConstraintKeys));
      }
      log := log + [Call.InsertConstraints(d, index + 1, flags)];
      return Done;
    }

    /** remove_constraints(indices, ...): the caller's list is made 1-based in place and
        that same list is forwarded. */
    method RemoveConstraints(indices: array<int>, flags: EditFlags)
      modifies this, indices
      ensures indices[..] == ToOneBased(old(indices[..]))
      ensures log == old(log) + [Call.RemoveConstraints(indices[..], flags)] && warnings == old(warnings)
    {
      ShiftInPlace(indices, 1);
      log := log + [Call.RemoveConstraints(indices[..], flags)];
    }

    /** permute_constraints(permutation, ...) as written: the list is made 1-based in
        place and handed to the remove entry point. */
    method PermuteConstraintsAsWritten(permutation: array<int>, flags: EditFlags)
      modifies this, permutation
      ensures permutation[..] == ToOneBased(old(permutation[..]))
      ensures log == old(log) + [Call.RemoveConstraints(permutation[..], flags)] && warnings == old(warnings)
    {
      ShiftInPlace(permutation, 1);
      log := log + [Call.RemoveConstraints(permutation[..], flags)];
    }

    /** permute_constraints(permutation, ...) as evidently intended (and as OpenBB.py
        does it): the 1-based list goes to the permute entry point. */
    method PermuteConstraints(permutation: array<int>, flags: EditFlags)
      modifies this, permutation
      ensures permutation[..] == ToOneBased(old(permutation[..]))
      ensures log == old(log) + [Call.PermuteConstraints(permutation[..], flags)] && warnings == old(warnings)
    {
      ShiftInPlace(permutation, 1);
      log := log + [Call.PermuteConstraints(permutation[..], flags)];
    }

    /** append_problem(problemDict, ...): None forwards nothing; otherwise the checks and
        the in-place conversion of setup, and the caller's dictionary is forwarded. */
    method AppendProblem(problem: ProblemDict?, flags: EditFlags) returns (r: Outcome)
      modifies this, problem
      ensures warnings == old(warnings)
      ensures problem == null ==> r == Done && log == old(log)
      ensures problem != null ==>
        var (q, err) := CheckedInPlace(old(problem.blocks));
        && problem.blocks == q
        && (err.Some? ==> r == Raised(err.value) && log == old(log))
        && (err.None? ==> r == Done && log == old(log) + [Call.AppendProblem(q, flags)])
    {
      if problem == null {
        return Done;
      }
      if "objFun" !in problem.blocks {
        return Raised(NameError(MissingBlock("objFun")));
      } else if "cnsSet" !in problem.blocks {
        return Raised(NameError(MissingBlock("cnsSet")));
      } else if "varSet" !in problem.blocks {
        return Raised(NameError(MissingBlock("varSet")));
      }
      var err := ReformatInPlace(problem);
      if err.Some? {
        return Raised(err.value);
      }
      log := log + [Call.AppendProblem(problem.blocks, flags)];
      return Done;
    }

    /** integralize_variables(newDscIndices, ...): the caller's list is made 1-based in
        place and forwarded; this front-end passes no groups. */
    method IntegralizeVariables(dscIndices: array<int>, flags: EditFlags)
      modifies this, dscIndices
      ensures dscIndices[..] == ToOneBased(old(dscIndices[..]))
      ensures log == old(log) + [Call.IntegralizeVariables(dscIndices[..], None, flags)]
      ensures warnings == old(warnings)
    {
      ShiftInPlace(dscIndices, 1);
      log := log + [Call.IntegralizeVariables(dscIndices[..], None, flags)];
    }
  }

  // ---------------------------------------------------------------------------------
  // The in-place conversion, statement by statement.

  /** The in-place conversion from entry k on is entry k's step, then the rest. */
  lemma InPlaceBlockAt(es: seq<Entry>, k: int, blk: Block)
    requires 0 <= k < |es|
    ensures InPlaceBlock(es[k..], blk) ==
      var (b1, err) := StepInPlace(es[k], blk);
      if err.Some? then (b1, err) else InPlaceBlock(es[k + 1..], b1)
  {
    assert es[k..][1..] == es[k + 1..];
  }

  /** The statement for entry k of the table es of a block:
        problemDict[block][key] = conversion of problemDict[block][key]
      guarded by `if key in problemDict[block]` for an optional entry; a required entry
      that is absent raises KeyError. What is left of the block's conversion afterwards is
      the conversion of the remaining entries, unless this one raised. */
  method ConvertEntry(pd: ProblemDict, block: string, es: seq<Entry>, k: int) returns (err: Option<PyError>)
    requires block in pd.blocks && 0 <= k < |es|
    modifies pd
    ensures block in pd.blocks && pd.blocks == old(pd.blocks)[block := pd.blocks[block]]
    ensures (pd.blocks[block], err) == StepInPlace(es[k], old(pd.blocks)[block])
    ensures err.Some? ==> InPlaceBlock(es[k..], old(pd.blocks)[block]) == (pd.blocks[block], err)
    ensures err.None? ==> InPlaceBlock(es[k..], old(pd.blocks)[block]) == InPlaceBlock(es[k + 1..], pd.blocks[block])
  {
    InPlaceBlockAt(es, k, pd.blocks[block]);
    var e := es[k];
    var blk := pd.blocks[block];
    if e.key !in blk {
      if e.required {
        return Some(KeyError(e.key));
      }
      return None;
    }
    var v := Convert(e.conv, e.key, blk[e.key]);
    if v.Err? {
      return Some(v.error);
    }
    pd.blocks := pd.blocks[block := blk[e.key := v.value]];
    return None;
  }

  /** The statements for the objective: Q, then L. */
  method ReformatObjective(pd: ProblemDict) returns (err: Option<PyError>)
    requires "objFun" in pd.blocks
    modifies pd
    ensures var (b, x) := InPlaceBlock(ObjectiveEntries, old(pd.blocks)["objFun"]);
      pd.blocks == old(pd.blocks)["objFun" := b] && err == x
  {
    var es := ObjectiveEntries;
    assert es[0..] == es;
    err := ConvertEntry(pd, "objFun", es, 0);  // Q
    if err.Some? { return; }
    err := ConvertEntry(pd, "objFun", es, 1);  // L
    assert es[2..] == [];
  }

  /** The statements for the constraints: A, loBs, upBs. */
  method ReformatConstraints(pd: ProblemDict) returns (err: Option<PyError>)
    requires "cnsSet" in pd.blocks
    modifies pd
    ensures var (b, x) := InPlaceBlock(ConstraintEntries, old(pd.blocks)["cnsSet"]);
      pd.blocks == old(pd.blocks)["cnsSet" := b] && err == x
  {
    var es := ConstraintEntries;
    assert es[0..] == es;
    err := ConvertEntry(pd, "cnsSet", es, 0);  // A
    if err.Some? { return; }
    err := ConvertEntry(pd, "cnsSet", es, 1);  // loBs
    if err.Some? { return; }
    err := ConvertEntry(pd, "cnsSet", es, 2);  // upBs
    assert es[3..] == [];
  }

  /** The statements for the variables: loBs, upBs, vals, dscIndices, sos1Groups,
      pseudoCosts. */
  method ReformatVariables(pd: ProblemDict) returns (err: Option<PyError>)
    requires "varSet" in pd.blocks
    modifies pd
    ensures var (b, x) := InPlaceBlock(VariableEntries, old(pd.blocks)["varSet"]);
      pd.blocks == old(pd.blocks)["varSet" := b] && err == x
  {
    assert VariableEntries[0..] == VariableEntries;
    err := ReformatVariableValues(pd);
    if err.Some? { return; }
    err := ReformatVariableLists(pd);
  }

  /** The first three statements for the variables: loBs, upBs, vals. */
  method ReformatVariableValues(pd: ProblemDict) returns (err: Option<PyError>)
    requires "varSet" in pd.blocks
    modifies pd
    ensures "varSet" in pd.blocks && pd.blocks == old(pd.blocks)["varSet" := pd.blocks["varSet"]]
    ensures err.Some? ==> InPlaceBlock(VariableEntries[0..], old(pd.blocks)["varSet"]) == (pd.blocks["varSet"], err)
    ensures err.None? ==>
      InPlaceBlock(VariableEntries[0..], old(pd.blocks)["varSet"]) == InPlaceBlock(VariableEntries[3..], pd.blocks["varSet"])
  {
    var es := VariableEntries;
    err := ConvertEntry(pd, "varSet", es, 0);  // loBs
    if err.Some? { return; }
    err := ConvertEntry(pd, "varSet", es, 1);  // upBs
    if err.Some? { return; }
    err := ConvertEntry(pd, "varSet", es, 2);  // vals
  }

  /** The last three statements for the variables: dscIndices, sos1Groups, pseudoCosts. */
  method ReformatVariableLists(pd: ProblemDict) returns (err: Option<PyError>)
    requires "varSet" in pd.blocks
    modifies pd
    ensures "varSet" in pd.blocks && pd.blocks == old(pd.blocks)["varSet" := pd.blocks["varSet"]]
    ensures (pd.blocks["varSet"], err) == InPlaceBlock(VariableEntries[3..], old(pd.blocks)["varSet"])
  {
    var es := VariableEntries;
    err := ConvertEntry(pd, "varSet", es, 3);  // dscIndices
    if err.Some? { return; }
    err := ConvertEntry(pd, "varSet", es, 4);  // sos1Groups
    if err.Some? { return; }
    err := ConvertEntry(pd, "varSet", es, 5);  // pseudoCosts
    assert es[6..] == [];
  }

  /** The whole in-place conversion of a dictionary holding the three blocks, stopping
      at the first error. */
  method ReformatInPlace(pd: ProblemDict) returns (err: Option<PyError>)
    requires HasBlocks(pd.blocks)
    modifies pd
    ensures (pd.blocks, err) == InPlaceProblem(old(pd.blocks))
  {
    err := ReformatObjective(pd);
    if err.Some? { return; }
    err := ReformatConstraints(pd);
    if err.Some? { return; }
    err := ReformatVariables(pd);
  }

  // ---------------------------------------------------------------------------------
  // permute_constraints.

  /** A list without repeated entries has as many distinct entries as it is long. */
  lemma {:induction false} DistinctCard(s: seq<int>)
    requires forall i, j :: 0 <= i < j < |s| ==> s[i] != s[j]
    ensures |set x | x in s| == |s|
  {
    if s != [] {
      DistinctCard(s[1..]);
      assert (set x | x in s) == {s[0]} + (set x | x in s[1..]);
      assert s[0] !in (set x | x in s[1..]);
    }
  }

  /** As written, permute_constraints hands the remove entry point a full permutation of
      the n constraints, so that every one of them is removed and none is left. */
  lemma PermuteAsWrittenRemovesAll(perm: seq<int>, flags: EditFlags)
    requires IsPermutation(perm, 0)
    ensures ConstraintsAfter(|perm|, Call.RemoveConstraints(ToOneBased(perm), flags)) == 0
  {
    var t := ToOneBased(perm);
    PermutationToOneBased(perm);
    assert (set i | i in t && 1 <= i <= |perm|) == (set x | x in t);
    DistinctCard(t);
  }

  /** The corrected permute_constraints hands the permute entry point the 1-based form of
      the permutation, which is a 1-based permutation of the same n constraints, and
      keeps them all. */
  lemma PermuteKeepsAll(perm: seq<int>, flags: EditFlags)
    requires IsPermutation(perm, 0)
    ensures IsPermutation(ToOneBased(perm), 1)
    ensures ConstraintsAfter(|perm|, Call.PermuteConstraints(ToOneBased(perm), flags)) == |perm|
  {
    PermutationToOneBased(perm);
  }
}
