/** OpenBB.py: the front-end class OpenBBinterface, which calls the Julia package through
    pyjulia's `from julia import OpenBB`.

    setup splits the options, reformats a copy of the problem dictionary and forwards
    both; the problem-editing methods check and reformat their argument and forward it
    with indices moved to 1-based; the sparsity getters move the returned pattern back
    to 0-based in place. The caller's options and problem dictionaries are only read. */
module OpenBB {
  import opened PyValues
  import opened IndexBase
  import opened Settings
  import opened Reformat
  import opened JuliaCalls

  /** The test of setup for loading the model file on every worker: whether the
      branch-and-bound setting numProcesses equals 0 or exceeds 1, with Python's
      comparisons (False == 0, True == 1, and ordering a non-number against an int
      raises TypeError). */
  function IncludeCondition(v: Value): Result<bool> {
    match v
    case Num(x) => Ok(x == 0.0 || x > 1.0)
    case Flag(b) => Ok(!b)
    case _ => Err(TypeError("numProcesses"))
  }

  /** On a process count, the include is issued unless the count is exactly 1 (or
      negative); False counts as 0 and so triggers it, True as 1 and so does not. */
  lemma IncludeConditionOnCounts(n: int)
    ensures IncludeCondition(Num(n as real)) == Ok(n == 0 || n >= 2)
    ensures 0 <= n ==> (IncludeCondition(Num(n as real)) == Ok(true) <==> n != 1)
    ensures IncludeCondition(Flag(false)) == Ok(true) && IncludeCondition(Flag(true)) == Ok(false)
  {
  }

  /** The model file every worker includes, relative to the directory of OpenBB.py. */
  function MpcFile(dir: string): string {
    dir + "/../../../MPCforOpenBB.jl"
  }

  /** What one call of setup does: the Julia calls it makes, the warnings it issues, and
      how it ends. */
  datatype Effects = Effects(calls: seq<Call>, warnings: seq<Warning>, outcome: Outcome)

  /** The Julia calls that load the two lists of settings fields. */
  function LoadCalls(s: string): seq<Call>
    requires s in Subsolvers
  {
    [EvalString(FieldNamesCode(BBSettingsType)), EvalString(FieldNamesCode(SettingsType(s)))]
  }

  /** The problem check and copy of setup and append_problem: NameError naming the first
      missing block, or else the fresh reformatted copy. */
  function CheckedProblem(p: Problem): (r: Result<Problem>)
    ensures FirstMissingBlock(p).Some? ==> r == Err(NameError(MissingBlock(FirstMissingBlock(p).value)))
    ensures HasBlocks(p) ==> r == FreshProblem(p)
  {
    if FirstMissingBlock(p).Some? then Err(NameError(MissingBlock(FirstMissingBlock(p).value)))
    else FreshProblem(p)
  }

  /** What the problem check means for the caller. A missing block raises NameError
      naming the first of objFun, cnsSet, varSet that is missing. With all three present,
      the check fails exactly when a step of the reformatting fails, raising the error of
      the first failing step; when it succeeds, the copy holds exactly the three blocks,
      each the conversion of the caller's block. */
  lemma CheckedProblemMeaning(p: Problem)
    ensures forall i :: 0 <= i < |RequiredBlocks| && RequiredBlocks[i] !in p
                        && (forall j :: 0 <= j < i ==> RequiredBlocks[j] in p) ==>
              CheckedProblem(p) == Err(NameError(MissingBlock(RequiredBlocks[i])))
    ensures HasBlocks(p) ==> (CheckedProblem(p).Ok? <==> NoneFails(p, AllSteps))
    ensures HasBlocks(p) && CheckedProblem(p).Err? ==> FirstFailsWith(p, AllSteps, CheckedProblem(p).error)
    ensures CheckedProblem(p).Ok? ==>
      && HasBlocks(p)
      && var q := CheckedProblem(p).value;
      && q.Keys == {"objFun", "cnsSet", "varSet"}
      && Converted(ObjectiveEntries, p["objFun"], q["objFun"])
      && Converted(ConstraintEntries, p["cnsSet"], q["cnsSet"])
      && Converted(VariableEntries, p["varSet"], q["varSet"])
  {
    if HasBlocks(p) {
      ReformatErrors(p);
      if FreshProblem(p).Ok? {
        FreshProblemShape(p);
      }
    }
  }

  /** What setup holds of problemDict: None when it was None, else the checked copy. */
  function PreparedProblem(problem: Option<Problem>): Option<Result<Problem>> {
    if problem.None? then None else Some(CheckedProblem(problem.value))
  }

  /** The part of setup after the settings split sp for subsolver s, with prep the
      prepared problem: the calls it makes and how it ends. */
  function ForwardSetup(s: string, prep: Option<Result<Problem>>, sp: Split, dir: string): (seq<Call>, Outcome) {
    if prep.None? then ([Call.Setup(s, map[], sp.bb, sp.ss)], Done)
    else if prep.value.Err? then ([], Raised(prep.value.error))
    else
      var setup := Call.Setup(s, prep.value.value, sp.bb, sp.ss);
      if "numProcesses" !in sp.bb then ([setup], Raised(KeyError("numProcesses")))
      else if IncludeCondition(sp.bb["numProcesses"]).Err? then
        ([setup], Raised(IncludeCondition(sp.bb["numProcesses"]).error))
      else if IncludeCondition(sp.bb["numProcesses"]).value then
        ([setup, IncludeEverywhere(MpcFile(dir))], Done)
      else ([setup], Done)
  }

  /** setup(problemDict, options), with problem None for problemDict=None, items the
      options, f the field names Julia reports and dir the directory of OpenBB.py. */
  function SetupEffects(problem: Option<Problem>, items: seq<(string, Value)>, f: FieldLists, dir: string): Effects
    requires DistinctKeys(items)
  {
    match ChooseSubsolver(items)
    case Err(x) =>
      Effects(if "subsolver" in KeysOf(items) then [EvalString(FieldNamesCode(BBSettingsType))] else [], [], Raised(x))
    case Ok(s) =>
      var sp := SplitOf(RouterFor(s, f), Pop(items, "subsolver"));
      var fw := ForwardSetup(s, PreparedProblem(problem), sp, dir);
      Effects(LoadCalls(s) + fw.0, sp.warnings, fw.1)
  }

  /** The calls setup makes after the split: Setup with the subsolver and the split
      settings, and possibly the include right after it; nothing when the problem check
      or its copy failed. */
  lemma ForwardSetupCalls(s: string, prep: Option<Result<Problem>>, sp: Split, dir: string)
    ensures var fw := ForwardSetup(s, prep, sp, dir);
      && |fw.0| <= 2
      && (fw.0 == [] <==> prep.Some? && prep.value.Err?)
      && (fw.0 != [] ==> fw.0[0] == Call.Setup(s, if prep.None? then map[] else prep.value.value, sp.bb, sp.ss))
      && (|fw.0| == 2 ==> fw.0[1] == IncludeEverywhere(MpcFile(dir)))
  {
  }

  /** The only Setup call after the split is the first call. */
  lemma ForwardSetupOneSetup(s: string, prep: Option<Result<Problem>>, sp: Split, dir: string, c: Call)
    requires c in ForwardSetup(s, prep, sp, dir).0 && c.Setup?
    ensures c == ForwardSetup(s, prep, sp, dir).0[0]
    ensures c == Call.Setup(s, c.problem, sp.bb, sp.ss)
    ensures prep.Some? ==> prep.value == Ok(c.problem)
    ensures prep.None? ==> c.problem == map[]
  {
  }

  /** After the split, the include is issued exactly when a problem was forwarded whose
      numProcesses passes the test, and it comes last; KeyError is raised exactly when a
      problem was forwarded and no numProcesses was set. */
  lemma ForwardSetupInclude(s: string, prep: Option<Result<Problem>>, sp: Split, dir: string)
    ensures var fw := ForwardSetup(s, prep, sp, dir);
      && (IncludeEverywhere(MpcFile(dir)) in fw.0 <==>
           prep.Some? && prep.value.Ok? && "numProcesses" in sp.bb && IncludeCondition(sp.bb["numProcesses"]) == Ok(true))
      && (fw.0 != [] ==> (fw.1 == Raised(KeyError("numProcesses")) <==> prep.Some? && "numProcesses" !in sp.bb))
      && (forall c :: c in fw.0 && c.IncludeEverywhere? ==> c == IncludeEverywhere(MpcFile(dir)) && fw.0[|fw.0| - 1] == c)
  {
  }

  /** Once the subsolver is known, setup loads the two field lists, issues the warnings of
      the split and then does what ForwardSetup does; before that it forwards nothing. */
  lemma SetupPhases(problem: Option<Problem>, items: seq<(string, Value)>, f: FieldLists, dir: string)
    requires DistinctKeys(items)
    ensures var e := SetupEffects(problem, items, f, dir);
      ChooseSubsolver(items).Err? ==>
        && e.outcome == Raised(ChooseSubsolver(items).error) && e.warnings == []
        && forall c :: c in e.calls ==> c == EvalString(FieldNamesCode(BBSettingsType))
    ensures var e := SetupEffects(problem, items, f, dir);
      ChooseSubsolver(items).Ok? ==>
        var s := ChooseSubsolver(items).value;
        var sp := SplitOf(RouterFor(s, f), Pop(items, "subsolver"));
        var fw := ForwardSetup(s, PreparedProblem(problem), sp, dir);
        && e.calls == LoadCalls(s) + fw.0
        && e.warnings == sp.warnings
        && e.outcome == fw.1
  {
  }

  /** Without a known subsolver setup raises NameError (TypeError for a name that is not a
      string) before it forwards anything: without the key it has not even loaded a
      settings list, with an unknown name only the branch-and-bound one. */
  lemma SetupNeedsKnownSubsolver(problem: Option<Problem>, items: seq<(string, Value)>, f: FieldLists, dir: string)
    requires DistinctKeys(items)
    ensures var e := SetupEffects(problem, items, f, dir);
      "subsolver" !in KeysOf(items) ==> e == Effects([], [], Raised(NameError(NoSubsolver)))
    ensures var e := SetupEffects(problem, items, f, dir);
      forall s :: Lookup(items, "subsolver") == Some(Text(s)) && s !in Subsolvers ==>
        e == Effects([EvalString(FieldNamesCode(BBSettingsType))], [], Raised(NameError(UnknownSubsolver(s))))
    ensures var e := SetupEffects(problem, items, f, dir);
      ChooseSubsolver(items).Err? ==> e.outcome.Raised? && forall c :: c in e.calls ==> c.EvalString?
  {
    SetupPhases(problem, items, f, dir);
  }

  /** No Setup call is made when a block of the problem dictionary is missing; the error
      names the first missing one of objFun, cnsSet, varSet. */
  lemma SetupMissingBlock(p: Problem, items: seq<(string, Value)>, f: FieldLists, dir: string)
    requires DistinctKeys(items) && ChooseSubsolver(items).Ok? && !HasBlocks(p)
    ensures var e := SetupEffects(Some(p), items, f, dir);
      && e.outcome == Raised(NameError(MissingBlock(FirstMissingBlock(p).value)))
      && !exists c :: c in e.calls && c.Setup?
  {
    SetupPhases(Some(p), items, f, dir);
    var s := ChooseSubsolver(items).value;
    var sp := SplitOf(RouterFor(s, f), Pop(items, "subsolver"));
    ForwardSetupCalls(s, PreparedProblem(Some(p)), sp, dir);
    OnlyLoadCalls(SetupEffects(Some(p), items, f, dir).calls, s);
  }

  lemma OnlyLoadCalls(calls: seq<Call>, s: string)
    requires s in Subsolvers && calls == LoadCalls(s) + []
    ensures !exists c :: c in calls && c.Setup?
  {
    assert calls == LoadCalls(s);
  }

  /** With problemDict=None, setup forwards an empty problem, ends without error and
      does not issue the include, whatever numProcesses is. */
  lemma SetupWithoutProblem(items: seq<(string, Value)>, f: FieldLists, dir: string)
    requires DistinctKeys(items) && ChooseSubsolver(items).Ok?
    ensures var e := SetupEffects(None, items, f, dir);
      && e.outcome == Done
      && |e.calls| == 3
      && e.calls[2].Setup? && e.calls[2].subsolver == ChooseSubsolver(items).value && e.calls[2].problem == map[]
      && !exists c :: c in e.calls && c.IncludeEverywhere?
  {
    SetupPhases(None, items, f, dir);
  }

  /** A Setup call made by setup is the one made after the split, with its settings and
      the prepared problem. */
  lemma SetupCallIsForwarded(problem: Option<Problem>, items: seq<(string, Value)>, f: FieldLists, dir: string, c: Call)
    requires DistinctKeys(items)
    requires c in SetupEffects(problem, items, f, dir).calls && c.Setup?
    ensures ChooseSubsolver(items).Ok?
    ensures var s := ChooseSubsolver(items).value;
      var sp := SplitOf(RouterFor(s, f), Pop(items, "subsolver"));
      && c == Call.Setup(s, c.problem, sp.bb, sp.ss)
      && (problem.Some? ==> CheckedProblem(problem.value) == Ok(c.problem))
      && (problem.None? ==> c.problem == map[])
      && SetupEffects(problem, items, f, dir).warnings == sp.warnings
  {
    SetupPhases(problem, items, f, dir);
    var s := ChooseSubsolver(items).value;
    var sp := SplitOf(RouterFor(s, f), Pop(items, "subsolver"));
    var fw := ForwardSetup(s, PreparedProblem(problem), sp, dir);
    assert c in LoadCalls(s) + fw.0;
    assert c in fw.0;
    ForwardSetupOneSetup(s, PreparedProblem(problem), sp, dir, c);
  }

  /** Where the split puts an option other than 'subsolver': its value stored unchanged
      where its key routes it, or its key warned about. */
  lemma SplitOfOptions(rt: Router, items: seq<(string, Value)>, i: int)
    requires DistinctKeys(items)
    requires 0 <= i < |items| && items[i].0 != "subsolver"
    ensures var sp := SplitOf(rt, Pop(items, "subsolver"));
      match RouteOf(rt, items[i].0)
      case ToBB(key) => key in sp.bb && sp.bb[key] == items[i].1
      case ToSS(field) => field in sp.ss && sp.ss[field] == items[i].1
      case Dropped(w) => w in sp.warnings
  {
    var opts := Pop(items, "subsolver");
    PopKeeps(items, "subsolver", i);
    var j :| 0 <= j < |opts| && opts[j] == items[i];
    SplitRoutes(rt, opts, j);
  }

  /** The split leaves 'subsolver' out of the branch-and-bound settings and gives each
      other option one place, a setting or a warning. */
  lemma SplitOfSizes(rt: Router, items: seq<(string, Value)>)
    requires DistinctKeys(items) && "subsolver" in KeysOf(items)
    ensures var sp := SplitOf(rt, Pop(items, "subsolver"));
      && "subsolver" !in sp.bb
      && |sp.bb| + |sp.ss| + |sp.warnings| == |items| - 1
  {
    SubsolverKeyNotForwarded(rt, items);
    SplitCount(rt, Pop(items, "subsolver"));
  }

  /** Every Setup call made forwards the known subsolver and the settings split of the
      options other than 'subsolver': each value stored unchanged where its key routes it,
      each dropped key warned about, 'subsolver' itself in neither dictionary, and one
      place (a setting or a warning) for each option. */
  lemma SetupForwardsSplit(problem: Option<Problem>, items: seq<(string, Value)>, f: FieldLists, dir: string, c: Call)
    requires DistinctKeys(items)
    requires c in SetupEffects(problem, items, f, dir).calls && c.Setup?
    ensures ChooseSubsolver(items).Ok? && c.subsolver == ChooseSubsolver(items).value
    ensures forall i :: 0 <= i < |items| && items[i].0 != "subsolver" ==>
      match RouteOf(RouterFor(c.subsolver, f), items[i].0)
      case ToBB(key) => key in c.bbSettings && c.bbSettings[key] == items[i].1
      case ToSS(field) => field in c.ssSettings && c.ssSettings[field] == items[i].1
      case Dropped(w) => w in SetupEffects(problem, items, f, dir).warnings
    ensures "subsolver" !in c.bbSettings
    ensures |c.bbSettings| + |c.ssSettings| + |SetupEffects(problem, items, f, dir).warnings| == |items| - 1
  {
    SetupCallIsForwarded(problem, items, f, dir, c);
    var rt := RouterFor(c.subsolver, f);
    forall i | 0 <= i < |items| && items[i].0 != "subsolver" {
      SplitOfOptions(rt, items, i);
    }
    SplitOfSizes(rt, items);
  }

  /** The problem forwarded by setup is a fresh dictionary of the three converted blocks
      (see FreshProblemShape), built only when all blocks are present. */
  lemma SetupForwardsFreshCopy(p: Problem, items: seq<(string, Value)>, f: FieldLists, dir: string, c: Call)
    requires DistinctKeys(items)
    requires c in SetupEffects(Some(p), items, f, dir).calls && c.Setup?
    ensures HasBlocks(p) && FreshProblem(p) == Ok(c.problem)
    ensures c.problem.Keys == {"objFun", "cnsSet", "varSet"}
    ensures Converted(ObjectiveEntries, p["objFun"], c.problem["objFun"])
    ensures Converted(ConstraintEntries, p["cnsSet"], c.problem["cnsSet"])
    ensures Converted(VariableEntries, p["varSet"], c.problem["varSet"])
  {
    SetupCallIsForwarded(Some(p), items, f, dir, c);
    FreshProblemShape(p);
  }

  /** The include is issued exactly when setup was given a problem, forwarded it, and the
      forwarded numProcesses passes the test, and it is the last call; setup raises
      KeyError after forwarding when the options set no numProcesses. */
  lemma SetupIncludeIff(problem: Option<Problem>, items: seq<(string, Value)>, f: FieldLists, dir: string)
    requires DistinctKeys(items)
    ensures var e := SetupEffects(problem, items, f, dir);
      IncludeEverywhere(MpcFile(dir)) in e.calls <==>
        && problem.Some?
        && exists c :: c in e.calls && c.Setup? && "numProcesses" in c.bbSettings
                       && IncludeCondition(c.bbSettings["numProcesses"]) == Ok(true)
    ensures var e := SetupEffects(problem, items, f, dir);
      forall c :: c in e.calls && c.Setup? ==>
        (e.outcome == Raised(KeyError("numProcesses")) <==> problem.Some? && "numProcesses" !in c.bbSettings)
    ensures var e := SetupEffects(problem, items, f, dir);
      forall c :: c in e.calls && c.IncludeEverywhere? ==> c == IncludeEverywhere(MpcFile(dir)) && e.calls[|e.calls| - 1] == c
  {
    SetupPhases(problem, items, f, dir);
    if ChooseSubsolver(items).Ok? {
      var s := ChooseSubsolver(items).value;
      var sp := SplitOf(RouterFor(s, f), Pop(items, "subsolver"));
      var prep := PreparedProblem(problem);
      var fw := ForwardSetup(s, prep, sp, dir);
      ForwardSetupCalls(s, prep, sp, dir);
      ForwardSetupInclude(s, prep, sp, dir);
      IncludeIffAt(LoadCalls(s), fw.0, problem.Some?, prep.Some? && prep.value.Ok?, sp.bb, MpcFile(dir));
      forall c | c in fw.0 && c.Setup? {
        ForwardSetupOneSetup(s, prep, sp, dir, c);
      }
    }
  }

  /** The list-level step of SetupIncludeIff: the calls are a two-call prefix and the
      forwarded calls, which hold the Setup call first when they are not empty. */
  lemma IncludeIffAt(pre: seq<Call>, fw: seq<Call>, given: bool, sent: bool, bb: Block, file: string)
    requires |pre| == 2 && forall c :: c in pre ==> c.EvalString?
    requires |fw| <= 2 && (fw != [] <==> !given || sent) && (sent ==> given)
    requires fw != [] ==> fw[0].Setup? && fw[0].bbSettings == bb
    requires |fw| == 2 ==> fw[1] == IncludeEverywhere(file)
    requires IncludeEverywhere(file) in fw <==> sent && "numProcesses" in bb && IncludeCondition(bb["numProcesses"]) == Ok(true)
    ensures IncludeEverywhere(file) in pre + fw <==>
      && given
      && exists c :: c in pre + fw && c.Setup? && "numProcesses" in c.bbSettings
                     && IncludeCondition(c.bbSettings["numProcesses"]) == Ok(true)
    ensures forall c :: c in pre + fw && c.IncludeEverywhere? ==> c == IncludeEverywhere(file) && (pre + fw)[|pre + fw| - 1] == c
  {
  }

  /** set_objective's copy holds Q as a matrix and L as a flat array, each exactly when
      the caller's dictionary has it, and nothing else. */
  lemma ObjectiveCopyConverted(d: Block)
    ensures Converted(ObjectiveEditEntries, d, ObjectiveCopy(d))
    ensures ObjectiveCopy(d).Keys == d.Keys * {"Q", "L"}
  {
    assert DistinctEntryKeys(ObjectiveEditEntries);
    BuildFromFresh(ObjectiveEditEntries, d);
    assert forall k :: k in EntryKeys(ObjectiveEditEntries) <==> k == "Q" || k == "L";
  }

  /** As written, set_objective forwards a dictionary other than the converted copy: a
      list L goes out as the list, the copy holds it as a flat array. */
  lemma ObjectiveForwardedUnconverted()
    ensures var d := map["L" := NumList([1.0, 2.0])];
      && |d| > 0
      && ObjectiveCopy(d) == map["L" := FlatArray(NumList([1.0, 2.0]))]
      && d != ObjectiveCopy(d)
  {
    var d := map["L" := NumList([1.0, 2.0])];
    assert d["L"] != ObjectiveCopy(d)["L"];
  }

  /** The front-end object: the Julia calls made so far and the warnings issued so far. */
  class OpenBBInterface {
    var log: seq<Call>
    var warnings: seq<Warning>
    /** The directory of OpenBB.py, which the include path is built from. */
    const dir: string

    constructor (dir: string)
      ensures log == [] && warnings == [] && this.dir == dir
    {
      log := [];
      warnings := [];
      this.dir := dir;
    }

    /** The first part of setup: pop the subsolver name from the copy of the options and
        load the two lists of settings fields, or raise. */
    method LoadSettingsLists(opts: seq<(string, Value)>, f: FieldLists) returns (r: Result<Router>)
      requires DistinctKeys(opts)
      modifies this
      ensures warnings == old(warnings)
      ensures r.Ok? <==> ChooseSubsolver(opts).Ok?
      ensures r.Ok? ==>
        && r.value == RouterFor(ChooseSubsolver(opts).value, f)
        && log == old(log) + LoadCalls(ChooseSubsolver(opts).value)
      ensures r.Err? ==>
        && r.error == ChooseSubsolver(opts).error
        && log == old(log) + if "subsolver" in KeysOf(opts) then [EvalString(FieldNamesCode(BBSettingsType))] else []
    {
      if Lookup(opts, "subsolver").None? {
        return Err(NameError(NoSubsolver));
      }
      var subsolver := Lookup(opts, "subsolver").value;
      log := log + [EvalString(FieldNamesCode(BBSettingsType))];
      var ssList: seq<string>;
      if subsolver == Text("osqp") {
        log := log + [EvalString(FieldNamesCode("OSQPsettings"))];
        ssList := f.osqp;
      } else if subsolver == Text("gurobi") {
        log := log + [EvalString(FieldNamesCode("GUROBIsettings"))];
        ssList := f.gurobi;
      } else if subsolver == Text("qpalm") {
        log := log + [EvalString(FieldNamesCode("QPALMsettings"))];
        ssList := f.qpalm;
      } else if subsolver.Text? {
        return Err(NameError(UnknownSubsolver(subsolver.s)));
      } else {
        return Err(TypeError("subsolver"));
      }
      return Ok(Router(subsolver.s, f.bb, ssList));
    }

    /** The last part of setup, once the settings are split: check and reformat the
        problem, forward it, and include the model file on the workers. */
    method ForwardProblem(name: string, problem: Option<Problem>, split: Split) returns (r: Outcome)
      modifies this
      ensures warnings == old(warnings)
      ensures var fw := ForwardSetup(name, PreparedProblem(problem), split, dir);
        log == old(log) + fw.0 && r == fw.1
    {
      if problem.None? {
        log := log + [Call.Setup(name, map[], split.bb, split.ss)];
        return Done;
      }
      var p := problem.value;
      if "objFun" !in p {
        return Raised(NameError(MissingBlock("objFun")));
      } else if "cnsSet" !in p {
        return Raised(NameError(MissingBlock("cnsSet")));
      } else if "varSet" !in p {
        return Raised(NameError(MissingBlock("varSet")));
      }
      var local := FreshProblem(p);
      if local.Err? {
        return Raised(local.error);
      }
      log := log + [Call.Setup(name, local.value, split.bb, split.ss)];
      if "numProcesses" !in split.bb {
        return Raised(KeyError("numProcesses"));
      }
      var multi := IncludeCondition(split.bb["numProcesses"]);
      if multi.Err? {
        return Raised(multi.error);
      }
      if multi.value {
        log := log + [IncludeEverywhere(MpcFile(dir))];
      }
      return Done;
    }

    /** setup(problemDict, options) with the field names f that Julia reports. */
    method Setup(problem: Option<Problem>, options: OptionsDict, f: FieldLists) returns (r: Outcome)
      requires options.Valid()
      modifies this
      ensures options.items == old(options.items)
      ensures var e := SetupEffects(problem, options.items, f, dir);
        log == old(log) + e.calls && warnings == old(warnings) + e.warnings && r == e.outcome
    {
      var opts := options.items;  // copy(options)
      SetupPhases(problem, opts, f, dir);
      ghost var log0 := log;
      var rt := LoadSettingsLists(opts, f);
      if rt.Err? {
        r := Raised(rt.error);
      } else {
        ghost var s := ChooseSubsolver(opts).value;
        var split := SplitOptions(rt.value, Pop(opts, "subsolver"));
        warnings := warnings + split.warnings;
        ghost var fw := ForwardSetup(s, PreparedProblem(problem), split, dir);
        r := ForwardProblem(rt.value.subsolver, problem, split);
        ConcatAssoc(log0, LoadCalls(s), fw.0);
      }
    }

    /** get_constraints_sparsity, with rows and cols the two arrays Julia returns. */
    method GetConstraintsSparsity(rows: array<int>, cols: array<int>) returns (r: Outcome)
      requires rows != cols
      modifies this, rows, cols
      ensures log == old(log) + [Call.GetConstraintsSparsity] && warnings == old(warnings)
      ensures rows.Length <= cols.Length ==>
        && r == Done
        && rows[..] == ToZeroBased(old(rows[..]))
        && cols[..] == ToZeroBased(old(cols[..rows.Length])) + old(cols[rows.Length..])
      ensures cols.Length < rows.Length ==>
        && r == Raised(IndexError)
        && rows[..] == ToZeroBased(old(rows[..cols.Length + 1])) + old(rows[cols.Length + 1..])
        && cols[..] == ToZeroBased(old(cols[..]))
    {
      log := log + [Call.GetConstraintsSparsity];
      r := ShiftDownPair(rows, cols);
    }

    /** get_constraint_sparsity(index), with out the array Julia returns. */
    method GetConstraintSparsity(index: int, out: array<int>)
      modifies this, out
      ensures log == old(log) + [Call.GetConstraintSparsity(index + 1)] && warnings == old(warnings)
      ensures out[..] == ToZeroBased(old(out[..]))
    {
      log := log + [Call.GetConstraintSparsity(index + 1)];
      ShiftInPlace(out, -1);
    }

    /** get_objective_sparsity, with rows and cols the two arrays Julia returns. */
    method GetObjectiveSparsity(rows: array<int>, cols: array<int>) returns (r: Outcome)
      requires rows != cols
      modifies this, rows, cols
      ensures log == old(log) + [Call.GetObjectiveSparsity] && warnings == old(warnings)
      ensures rows.Length <= cols.Length ==>
        && r == Done
        && rows[..] == ToZeroBased(old(rows[..]))
        && cols[..] == ToZeroBased(old(cols[..rows.Length])) + old(cols[rows.Length..])
      ensures cols.Length < rows.Length ==>
        && r == Raised(IndexError)
        && rows[..] == ToZeroBased(old(rows[..cols.Length + 1])) + old(rows[cols.Length + 1..])
        && cols[..] == ToZeroBased(old(cols[..]))
    {
      log := log + [Call.GetObjectiveSparsity];
      r := ShiftDownPair(rows, cols);
    }

    /** append_constraints(newConstraintsDict, ...). */
    method AppendConstraints(d: Block, flags: EditFlags) returns (r: Outcome)
      modifies this
      ensures warnings == old(warnings)
      ensures !HasConstraintKeys(d) ==> r == Raised(NameError(MissingConstraintKeys)) && log == old(log)
      ensures HasConstraintKeys(d) ==> r == Done && log == old(log) + [Call.AppendConstraints(ConstraintsCopy(d), flags)]
    {
      if "A" !in d || "loBs" !in d || "upBs" !in d {
        return Raised(NameError(MissingConstraintKeys));
      }
      var local := ConstraintsCopy(d);
      log := log + [Call.AppendConstraints(local, flags)];
      return Done;
    }

    /** insert_constraints(newConstraintsDict, index, ...): the insertion point goes out
        1-based. */
    method InsertConstraints(d: Block, index: int, flags: EditFlags) returns (r: Outcome)
      modifies this
      ensures warnings == old(warnings)
      ensures !HasConstraintKeys(d) ==> r == Raised(NameError(MissingConstraintKeys)) && log == old(log)
      ensures HasConstraintKeys(d) ==>
        r == Done && log == old(log) + [Call.InsertConstraints(ConstraintsCopy(d), index + 1, flags)]
    {
      if "A" !in d || "loBs" !in d || "upBs" !in d {
        return Raised(NameError(MissingConstraintKeys));
      }
      var local := ConstraintsCopy(d);
      log := log + [Call.InsertConstraints(local, index + 1, flags)];
      return Done;
    }

    /** remove_constraints(indices, ...): the caller's list is made 1-based in place and
        that same list is forwarded. */
    method RemoveConstraints(indices: array<int>, flags: EditFlags)
      modifies this, indices
      ensures indices[..] == ToOneBased(old(indices[..]))
      ensures log == old(log) + [Call.RemoveConstraints(indices[..], flags)] && warnings == old(warnings)
    {
      ShiftInPlace(indices, 1);
      log := log + [Call.RemoveConstraints(indices[..], flags)];
    }

    /** permute_constraints(permutation, ...): likewise, to the permute entry point. */
    method PermuteConstraints(permutation: array<int>, flags: EditFlags)
      modifies this, permutation
      ensures permutation[..] == ToOneBased(old(permutation[..]))
      ensures log == old(log) + [Call.PermuteConstraints(permutation[..], flags)] && warnings == old(warnings)
    {
      ShiftInPlace(permutation, 1);
      log := log + [Call.PermuteConstraints(permutation[..], flags)];
    }

    /** set_objective(newObjectiveDict, ...) as written: the converted copy is built,
        but the caller's dictionary is what is forwarded; an empty dictionary forwards
        nothing. */
    method SetObjectiveAsWritten(d: Block, flags: EditFlags)
      modifies this
      ensures warnings == old(warnings)
      ensures |d| == 0 ==> log == old(log)
      ensures |d| > 0 ==> log == old(log) + [Call.SetObjective(d, flags)]
    {
      if |d| > 0 {
        var local := ObjectiveCopy(d);
        log := log + [Call.SetObjective(d, flags)];
      }
    }

    /** set_objective(newObjectiveDict, ...) as evidently intended: the converted copy
        (see ObjectiveCopyConverted) is what is forwarded. */
    method SetObjective(d: Block, flags: EditFlags)
      modifies this
      ensures warnings == old(warnings)
      ensures |d| == 0 ==> log == old(log)
      ensures |d| > 0 ==> log == old(log) + [Call.SetObjective(ObjectiveCopy(d), flags)]
    {
      if |d| > 0 {
        var local := ObjectiveCopy(d);
        log := log + [Call.SetObjective(local, flags)];
      }
    }

    /** set_constraintSet(newConstraintsDict, ...): an empty dictionary forwards nothing;
        otherwise the first of A, loBs, upBs that is missing raises KeyError. */
    method SetConstraintSet(d: Block, flags: EditFlags) returns (r: Outcome)
      modifies this
      ensures warnings == old(warnings)
      ensures |d| == 0 ==> r == Done && log == old(log)
      ensures |d| > 0 && !HasConstraintKeys(d) ==>
        && log == old(log)
        && BuildFrom(map[], ConstraintEntries, d).Err?
        && r == Raised(BuildFrom(map[], ConstraintEntries, d).error)
      ensures |d| > 0 && HasConstraintKeys(d) ==>
        r == Done && log == old(log) + [Call.SetConstraintSet(ConstraintsCopy(d), flags)]
    {
      if |d| > 0 {
        if "A" !in d {
          return Raised(KeyError("A"));
        } else if "loBs" !in d {
          return Raised(KeyError("loBs"));
        } else if "upBs" !in d {
          return Raised(KeyError("upBs"));
        }
        var local := ConstraintsCopy(d);
        log := log + [Call.SetConstraintSet(local, flags)];
      }
      return Done;
    }

    /** append_problem(problemDict, ...): None forwards nothing; otherwise the checks and
        the fresh reformatting of setup, and the copy is forwarded. */
    method AppendProblem(problem: Option<Problem>, flags: EditFlags) returns (r: Outcome)
      modifies this
      ensures warnings == old(warnings)
      ensures problem.None? ==> r == Done && log == old(log)
      ensures problem.Some? && CheckedProblem(problem.value).Err? ==>
        r == Raised(CheckedProblem(problem.value).error) && log == old(log)
      ensures problem.Some? && CheckedProblem(problem.value).Ok? ==>
        r == Done && log == old(log) + [Call.AppendProblem(CheckedProblem(problem.value).value, flags)]
    {
      if problem.None? {
        return Done;
      }
      var p := problem.value;
      if "objFun" !in p {
        return Raised(NameError(MissingBlock("objFun")));
      } else if "cnsSet" !in p {
        return Raised(NameError(MissingBlock("cnsSet")));
      } else if "varSet" !in p {
        return Raised(NameError(MissingBlock("varSet")));
      }
      var local := FreshProblem(p);
      if local.Err? {
        return Raised(local.error);
      }
      log := log + [Call.AppendProblem(local.value, flags)];
      return Done;
    }

    /** integralize_variables(newDscIndices, newSos1Groups, ...): the caller's index list
        is made 1-based in place; the groups go out as given (the default is an empty
        integer array). */
    method IntegralizeVariables(dscIndices: array<int>, sos1Groups: Value, flags: EditFlags)
      modifies this, dscIndices
      ensures dscIndices[..] == ToOneBased(old(dscIndices[..]))
      ensures log == old(log) + [Call.IntegralizeVariables(dscIndices[..], Some(sos1Groups), flags)]
      ensures warnings == old(warnings)
    {
      ShiftInPlace(dscIndices, 1);
      log := log + [Call.IntegralizeVariables(dscIndices[..], Some(sos1Groups), flags)];
    }
  }
}
