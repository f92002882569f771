# OpenBB Python front-ends, modelled in Dafny

OpenBB is a branch-and-bound solver for mixed-integer quadratic programs, written in
Julia. Two Python classes give access to it. Each turns a Python call into a call of the
Julia package:

- `OpenBBinterface` in `OpenBB.py` goes through pyjulia's `OpenBB` module;
- `OpenBBmodel` in `python_interface.py` goes through a `Julia()` instance.

This project models what the two classes do before they hand over to Julia:

- **setup**:
  - pick the subsolver (osqp, gurobi or qpalm) from the options;
  - load the lists of recognised settings fields;
  - split the remaining options into branch-and-bound settings and subsolver settings, warning once for each option not recognised;
  - check that the problem dictionary has the blocks `objFun`, `cnsSet` and `varSet`;
  - convert the problem's entries to numpy and to 1-based indices. `OpenBB.py` builds a fresh dictionary; `python_interface.py` rewrites the caller's dictionary in place.
  - forward the result. `OpenBB.py` then tests `numProcesses` to decide whether every worker must include the MPC model file.
- **the 0-based/1-based index boundary**:
  - insertion points, index lists, permutations and discrete-variable indices go out shifted by +1;
  - sparsity patterns come back shifted by −1.
  - The remove, permute and integralize index lists, and the returned sparsity arrays, are rewritten in place. Insertion points and the row index of `get_constraint_sparsity` are scalars forwarded as `index + 1`. The `dscIndices` of a problem are replaced by a new list built by a comprehension.
- **the problem-editing calls**: append/insert/remove/permute constraints, set objective, set constraint set, append problem, integralize variables. Each has its key checks and its reformatting.

The Julia package is not modelled. Each front-end object keeps a log (`seq<Call>`) of the Julia calls it makes, together with the warnings it issues. What Julia returns is passed in as a parameter: the field-name lists (`FieldLists`) and the sparsity arrays.

Modules:

| module | contents |
|---|---|
| `PyValues` | Python values, exceptions and dictionaries: ordered options, problem maps, `int()`, slices, `dict.pop` |
| `IndexBase` | the ±1 index shift, its round trip, and the in-place loops |
| `Settings` | subsolver choice and options routing, with the laws of the split |
| `Reformat` | the entry tables and the problem conversion, fresh and in place, and how the two agree |
| `JuliaCalls` | the call log's alphabet |
| `OpenBB` | class `OpenBBInterface` (`OpenBB.py`) and its setup semantics |
| `PythonInterface` | class `OpenBBModel` (`python_interface.py`), its in-place reformatting, and lemmas comparing the two front-ends |

Two facts about the code shape the model:

- Both front-ends read a sparsity result as two parallel index arrays and decrement them element by element.
- Neither front-end checks the remove/permute indices; only the Julia side could.

## Model

| member | source | states |
|---|---|---|
| PyValues.PyInt | src/alternative_interfaces/python_interface/OpenBB.py:96-97 | `int(x)` truncates toward zero: `n <= x < n+1` for `x >= 0`, and `n-1 < x <= n` for `x < 0` |
| PyValues.PyIntOfInteger | src/alternative_interfaces/python_interface/OpenBB.py:96-97 | `int(n)` is `n` on an integral number |
| PyValues.SliceTo | src/alternative_interfaces/python_interface/OpenBB.py:57 | `k[:n]` is the prefix of `k` of length `min(n, len(k))` |
| PyValues.SliceFrom | src/alternative_interfaces/python_interface/OpenBB.py:58-59 | `k[n:]` is what follows the first `n` characters, so that `k[:n] + k[n:] == k`; it is `""` when `k` is shorter than `n` |
| PyValues.Lookup | src/alternative_interfaces/python_interface/OpenBB.py:37-40 | lookup finds nothing exactly when the key is absent; otherwise the pair found is in the dictionary |
| PyValues.Pop | src/alternative_interfaces/python_interface/OpenBB.py:40 | `pop('subsolver')` leaves a dictionary (distinct keys) with exactly the other keys, one pair shorter, and with only pairs of the original |
| PyValues.PopKeeps | src/alternative_interfaces/python_interface/OpenBB.py:40 | `pop` keeps every pair whose key is not the one popped |
| PyValues.PopInOrder | src/alternative_interfaces/python_interface/OpenBB.py:40 | `pop` removes exactly the one pair for the key and keeps the others in their order; with the key absent, nothing changes |
| IndexBase.ShiftShift | src/alternative_interfaces/python_interface/python_interface.py:89 | shifting by `a` and then by `b` is shifting by `a + b` |
| IndexBase.RoundTrip | src/alternative_interfaces/python_interface/OpenBB.py:183-187 | the outgoing +1 and the returning −1 undo each other, in both orders |
| IndexBase.OneBasedInRange | src/alternative_interfaces/python_interface/OpenBB.py:273-276 | 0-based indices into `n` rows are exactly those whose +1 shift lies in `1..n` (iff) |
| IndexBase.PermutationToOneBased | src/alternative_interfaces/python_interface/OpenBB.py:280-283 | a list is a 0-based permutation iff its +1 shift is a 1-based permutation |
| IndexBase.ShiftInPlace | src/alternative_interfaces/python_interface/OpenBB.py:274-275 | the loop leaves the array holding every old entry plus `d`, in the same order and with the same length |
| IndexBase.ShiftDownPair | src/alternative_interfaces/python_interface/OpenBB.py:177-179 | the sparsity loop decrements every row entry and the matching column entries, leaving the rest of the columns as they were. When the columns are shorter it raises IndexError, having decremented one row entry more than the columns |
| Settings.SettingsType | src/alternative_interfaces/python_interface/OpenBB.py:44-49 | each subsolver's settings type is a type other than the branch-and-bound one |
| Settings.ChooseSubsolver | src/alternative_interfaces/python_interface/OpenBB.py:36-51 | the subsolver is chosen exactly when the `subsolver` option is the name of a known subsolver. NameError(no subsolver) is raised exactly when the key is absent |
| Settings.RouteMeaning | src/alternative_interfaces/python_interface/OpenBB.py:56-66 | a key with the `<subsolver>.` prefix goes to the subsolver settings under its suffix, if that suffix is a field, and otherwise to a warning naming the suffix. Any other key goes to the branch-and-bound settings if it is a field, and otherwise to a warning naming the key |
| Settings.SplitOptions | src/alternative_interfaces/python_interface/OpenBB.py:54-66 | the settings loop builds exactly the split of the options taken in their dictionary order |
| Settings.SplitBBKeys | src/alternative_interfaces/python_interface/OpenBB.py:63-64 | the branch-and-bound settings hold exactly the keys routed to them |
| Settings.SplitSSKeys | src/alternative_interfaces/python_interface/OpenBB.py:57-59 | the subsolver settings hold exactly the fields routed to them |
| Settings.SplitWarnings | src/alternative_interfaces/python_interface/OpenBB.py:60-61 | a warning is issued exactly for a dropped key |
| Settings.SameFieldSameKey | src/alternative_interfaces/python_interface/OpenBB.py:57-59 | two keys routed to the same subsolver field are the same key, so the stripped suffix loses nothing |
| Settings.SplitRoutes | src/alternative_interfaces/python_interface/OpenBB.py:56-66 | every option's value is stored unchanged where its key is routed; a dropped option adds its warning |
| Settings.SplitCount | src/alternative_interfaces/python_interface/OpenBB.py:56-66 | \|bb\| + \|ss\| + number of warnings = number of options: no option is counted twice or lost |
| Settings.SubsolverKeyNotForwarded | src/alternative_interfaces/python_interface/OpenBB.py:40 | after the pop, `subsolver` is never a branch-and-bound setting |
| Settings.SubsolverFieldNeedsPrefixedKey | src/alternative_interfaces/python_interface/OpenBB.py:57-59 | a subsolver setting named `subsolver` can only come from the key `<subsolver>.subsolver` |
| Reformat.BuildFromErrors | src/alternative_interfaces/python_interface/OpenBB.py:83-98 | the fresh conversion succeeds iff no entry fails; otherwise it raises the error of the first failing entry of the table |
| Reformat.BuildFromResult | src/alternative_interfaces/python_interface/OpenBB.py:83-98 | a successful conversion keeps the accumulator's other keys. Under each entry's key it holds the converted value exactly when the source has that key |
| Reformat.ConstraintsCopy | src/alternative_interfaces/python_interface/OpenBB.py:246-250 | the local constraint dictionary holds exactly `A`, `loBs`, `upBs`, converted; it is what the table conversion builds |
| Reformat.ObjectiveCopy | src/alternative_interfaces/python_interface/OpenBB.py:294-297 | the local objective dictionary is the (never failing) table conversion of `Q` and `L` |
| Reformat.InPlaceMatchesFreshFrom | src/alternative_interfaces/python_interface/python_interface.py:77-91 | converting entries in place is the caller's block overwritten by what the fresh conversion builds, and it raises the fresh conversion's error (generalised to a partly converted block) |
| Reformat.InPlaceMatchesFresh | src/alternative_interfaces/python_interface/python_interface.py:77-91 | per block: in place = caller's block overwritten by the fresh conversion, and the same error |
| Reformat.FirstMissingBlock | src/alternative_interfaces/python_interface/OpenBB.py:74-79 | no block is reported missing iff all three are present. The one reported is the first missing of objFun, cnsSet, varSet |
| Reformat.EntriesDistinct | src/alternative_interfaces/python_interface/OpenBB.py:83-98 | each block's conversion visits every key at most once |
| Reformat.BuildFromFresh | src/alternative_interfaces/python_interface/OpenBB.py:83-98 | a fresh block holds a key iff the caller's block does (for table keys only), with the converted value |
| Reformat.FreshProblemShape | src/alternative_interfaces/python_interface/OpenBB.py:83-98 | the fresh problem has exactly the three blocks, each the conversion of the caller's block. Optional entries are copied only if present, and keys outside the tables are not copied |
| Reformat.ReformatErrors | src/alternative_interfaces/python_interface/OpenBB.py:83-98 | reformatting fails iff some step fails, and it raises the error of the first failing step in source order (objFun, cnsSet, varSet, then table order) |
| Reformat.InPlaceProblemMatchesFresh | src/alternative_interfaces/python_interface/python_interface.py:76-91 | the two files agree. In place, the caller's dictionary becomes itself overwritten by exactly OpenBB.py's fresh copy, with other keys and blocks kept, and it raises exactly the same error |
| Reformat.DscIndicesToOneBased | src/alternative_interfaces/python_interface/OpenBB.py:96 | dscIndices keeps its length and order and every entry becomes `int(x) + 1`. On a list of ints this is exactly the +1 shift |
| Reformat.Sos1GroupsKept | src/alternative_interfaces/python_interface/OpenBB.py:97 | sos1Groups entries keep their values when integral; they are not shifted |
| Reformat.ConvertAgain | src/alternative_interfaces/python_interface/python_interface.py:77-91 | a converted value converts again without raising |
| Reformat.SecondPassBlock | src/alternative_interfaces/python_interface/python_interface.py:77-91 | no entry of a block overwritten by its own conversion fails |
| Reformat.SecondPassBlockOk | src/alternative_interfaces/python_interface/python_interface.py:77-91 | converting a block overwritten by its own conversion succeeds |
| Reformat.SecondPassSucceeds | src/alternative_interfaces/python_interface/python_interface.py:76-91 | reformatting a dictionary already reformatted in place raises nothing |
| Reformat.DscIndicesOfFresh | src/alternative_interfaces/python_interface/OpenBB.py:96 | a successful reformatting forwards a 0-based int list as dscIndices shifted by +1 |
| Reformat.InPlaceTwiceShiftsTwice | src/alternative_interfaces/python_interface/python_interface.py:89 | because python_interface.py rewrites the caller's dictionary, reusing it converts dscIndices a second time, and they reach Julia shifted by 2 |
| OpenBB.IncludeConditionOnCounts | src/alternative_interfaces/python_interface/OpenBB.py:105 | on a process count `n`, the include test holds iff `n == 0 or n >= 2`; False counts as 0 and True as 1 |
| OpenBB.CheckedProblemMeaning | src/alternative_interfaces/python_interface/OpenBB.py:73-98 | a missing block raises NameError naming the first of `objFun`, `cnsSet`, `varSet` that is missing. With all three present, the check fails iff some reformatting step fails, raising the first failing step's error. On success the copy holds exactly the three blocks, each the table conversion of the caller's block |
| OpenBB.ForwardSetupCalls | src/alternative_interfaces/python_interface/OpenBB.py:68-106 | after the split, at most two calls are made. None are made iff the problem check raised. Otherwise the first is `setup` with the empty or reformatted problem and the settings, and the second, if any, is the include |
| OpenBB.ForwardSetupOneSetup | src/alternative_interfaces/python_interface/OpenBB.py:68-102 | the only setup call carries the split settings and the checked problem, or `{}` without one |
| OpenBB.ForwardSetupInclude | src/alternative_interfaces/python_interface/OpenBB.py:104-106 | the include is issued iff a problem was given, forwarded, and `numProcesses` passes the test. Once setup was forwarded, KeyError is raised iff a problem was given and `numProcesses` was not set. The include is the last call |
| OpenBB.SetupNeedsKnownSubsolver | src/alternative_interfaces/python_interface/OpenBB.py:36-51 | with no `subsolver`, NameError is raised before any call. With an unknown one, NameError is raised after loading only the branch-and-bound fields. Any failure to choose raises, having evaluated field lists only |
| OpenBB.SetupMissingBlock | src/alternative_interfaces/python_interface/OpenBB.py:74-79 | a missing block raises NameError naming the first missing block, and no setup call is made |
| OpenBB.SetupWithoutProblem | src/alternative_interfaces/python_interface/OpenBB.py:69-71 | with no problem, setup makes three calls, the last a setup with `{}`; it never includes the model file and returns normally |
| OpenBB.SetupCallIsForwarded | src/alternative_interfaces/python_interface/OpenBB.py:68-102 | every setup call made holds the chosen subsolver, the split settings and the checked problem; the warnings are the split's |
| OpenBB.SplitOfOptions | src/alternative_interfaces/python_interface/OpenBB.py:54-66 | every option other than `subsolver` ends up, unchanged, where its route sends it |
| OpenBB.SplitOfSizes | src/alternative_interfaces/python_interface/OpenBB.py:36-66 | after the pop, `subsolver` is not forwarded, and the two settings plus the warnings number one less than the options |
| OpenBB.SetupForwardsSplit | src/alternative_interfaces/python_interface/OpenBB.py:36-71 | the forwarded settings route every option as the routing rule says. `subsolver` is absent, and the counts add up to the options minus one |
| OpenBB.SetupForwardsFreshCopy | src/alternative_interfaces/python_interface/OpenBB.py:83-102 | the forwarded problem is the fresh copy: exactly the three blocks, each the table conversion of the caller's block |
| OpenBB.SetupIncludeIff | src/alternative_interfaces/python_interface/OpenBB.py:102-106 | the include is issued iff a problem was given and the forwarded settings pass the `numProcesses` test. Setup raises KeyError iff a problem was given and `numProcesses` is absent from the settings. The include comes last |
| OpenBB.ObjectiveCopyConverted | src/alternative_interfaces/python_interface/OpenBB.py:294-297 | the local objective is exactly the table conversion, holding the caller's keys among `Q`, `L` |
| OpenBB.ObjectiveForwardedUnconverted | src/alternative_interfaces/python_interface/OpenBB.py:292-300 | for `{'L': [1.0, 2.0]}` the reformatted dictionary differs from the one forwarded |
| OpenBB.OpenBBInterface.LoadSettingsLists | src/alternative_interfaces/python_interface/OpenBB.py:36-51 | it returns a router iff the subsolver is chosen, after evaluating both field lists. Otherwise it raises the chooser's error, having evaluated the branch-and-bound list only when a `subsolver` was given |
| OpenBB.OpenBBInterface.ForwardProblem | src/alternative_interfaces/python_interface/OpenBB.py:68-106 | the log grows by the forwarding calls and the outcome is the forwarding outcome |
| OpenBB.OpenBBInterface.Setup | src/alternative_interfaces/python_interface/OpenBB.py:33-107 | the options are unchanged. The log, warnings and outcome are exactly those of the setup semantics |
| OpenBB.OpenBBInterface.GetConstraintsSparsity | src/alternative_interfaces/python_interface/OpenBB.py:175-180 | the call is logged; both index arrays come back shifted to 0-based over the rows' length, or IndexError when the columns are shorter |
| OpenBB.OpenBBInterface.GetConstraintSparsity | src/alternative_interfaces/python_interface/OpenBB.py:183-187 | forwards `index + 1`; every returned entry is shifted to 0-based |
| OpenBB.OpenBBInterface.GetObjectiveSparsity | src/alternative_interfaces/python_interface/OpenBB.py:190-195 | as for the constraints: logged, both arrays shifted to 0-based, or IndexError |
| OpenBB.OpenBBInterface.AppendConstraints | src/alternative_interfaces/python_interface/OpenBB.py:241-253 | NameError and nothing forwarded unless `A`, `loBs`, `upBs` are all present; otherwise forwards the converted local copy |
| OpenBB.OpenBBInterface.InsertConstraints | src/alternative_interfaces/python_interface/OpenBB.py:256-269 | the same guard, then forwards the converted local copy at `index + 1` |
| OpenBB.OpenBBInterface.RemoveConstraints | src/alternative_interfaces/python_interface/OpenBB.py:273-277 | the caller's list is shifted +1 in place and that list is forwarded |
| OpenBB.OpenBBInterface.PermuteConstraints | src/alternative_interfaces/python_interface/OpenBB.py:280-284 | the caller's permutation is shifted +1 in place and forwarded to the permute entry point |
| OpenBB.OpenBBInterface.SetObjectiveAsWritten | src/alternative_interfaces/python_interface/OpenBB.py:292-300 | an empty dictionary forwards nothing. Otherwise the caller's dictionary itself is forwarded, not the reformatted one |
| OpenBB.OpenBBInterface.SetObjective | src/alternative_interfaces/python_interface/OpenBB.py:292-300 | an empty dictionary forwards nothing. Otherwise the reformatted local objective is forwarded |
| OpenBB.OpenBBInterface.SetConstraintSet | src/alternative_interfaces/python_interface/OpenBB.py:303-312 | an empty dictionary forwards nothing. A missing key raises the conversion's error with nothing forwarded; otherwise the converted copy is forwarded |
| OpenBB.OpenBBInterface.AppendProblem | src/alternative_interfaces/python_interface/OpenBB.py:316-346 | `None` forwards nothing. A missing block or a conversion error raises with nothing forwarded; otherwise the fresh reformatted copy is forwarded |
| OpenBB.OpenBBInterface.IntegralizeVariables | src/alternative_interfaces/python_interface/OpenBB.py:350-354 | the discrete indices are shifted +1 in place and forwarded with the sos1 groups |
| PythonInterface.CheckedInPlaceMeaning | src/alternative_interfaces/python_interface/python_interface.py:68-91 | a missing block raises NameError naming the first missing one and leaves the dictionary untouched. With all three present, the conversion raises iff some step fails, with the first failing step's error. Raising nothing, the caller's dictionary ends as OpenBB.py's fresh copy laid over it. No top-level key is added or removed |
| PythonInterface.ModelForwardCalls | src/alternative_interfaces/python_interface/python_interface.py:63-96 | at most one call, the setup. It is made iff reformatting raised nothing, and setup raises iff it is not made |
| PythonInterface.ModelSetupIgnoresNumProcesses | src/alternative_interfaces/python_interface/python_interface.py:94-96 | with a known subsolver and a convertible problem, setup returns normally after three calls, whatever `numProcesses` is. No include and no KeyError |
| PythonInterface.ModelSetupForwardsConvertedCaller | src/alternative_interfaces/python_interface/python_interface.py:76-95 | the forwarded problem is the caller's dictionary overwritten by the fresh conversion, and the caller is left holding it |
| PythonInterface.ModelSetupConversionError | src/alternative_interfaces/python_interface/python_interface.py:76-91 | a conversion error raises that error, no setup call is made, and the caller keeps the partly converted dictionary |
| PythonInterface.ModelSetupNeedsKnownSubsolver | src/alternative_interfaces/python_interface/python_interface.py:31-45 | no `subsolver` raises NameError before any call. An unknown one raises NameError after loading only the branch-and-bound fields. The problem is untouched |
| PythonInterface.FrontEndsWarnAlike | src/alternative_interfaces/python_interface/python_interface.py:47-60 | the two setups issue the same warnings on the same options |
| PythonInterface.FrontEndsForwardAlike | src/alternative_interfaces/python_interface/python_interface.py:62-95 | whenever OpenBB.py forwards setup, python_interface.py forwards the same subsolver and settings. Its problem is the caller's dictionary overwritten by OpenBB.py's copy |
| PythonInterface.FrontEndsForwardAlikeBack | src/alternative_interfaces/python_interface/python_interface.py:62-95 | conversely, whenever python_interface.py forwards setup, OpenBB.py forwards the same subsolver and settings with its fresh copy |
| PythonInterface.ModelSetupCallIsForwarded | src/alternative_interfaces/python_interface/python_interface.py:62-95 | every setup call made holds the chosen subsolver and the split settings, and is made only after a conversion that raised nothing |
| PythonInterface.OpenBBModel.LoadSettingsLists | src/alternative_interfaces/python_interface/python_interface.py:30-45 | it returns a router iff the subsolver is chosen, after loading both field lists. Otherwise it raises the chooser's error, having loaded the branch-and-bound list only when a `subsolver` was given |
| PythonInterface.OpenBBModel.ForwardProblem | src/alternative_interfaces/python_interface/python_interface.py:62-96 | the log grows by the forwarding call, the outcome is the forwarding outcome, and the caller's dictionary ends as the in-place reformatting leaves it |
| PythonInterface.OpenBBModel.Setup | src/alternative_interfaces/python_interface/python_interface.py:27-96 | the options are unchanged. The log, warnings, outcome and the caller's problem dictionary are exactly those of the setup semantics |
| PythonInterface.OpenBBModel.GetConstraintsSparsity | src/alternative_interfaces/python_interface/python_interface.py:138-143 | the call is logged; `out[1]` and `out[2]` come back shifted to 0-based over `out[1]`'s length, or IndexError when `out[2]` is shorter |
| PythonInterface.OpenBBModel.GetConstraintSparsity | src/alternative_interfaces/python_interface/python_interface.py:146-150 | forwards `index + 1`; every returned entry is shifted to 0-based |
| PythonInterface.OpenBBModel.GetObjectiveSparsity | src/alternative_interfaces/python_interface/python_interface.py:153-158 | as for the constraints, on `out[1]` and `out[2]` |
| PythonInterface.OpenBBModel.AppendConstraints | src/alternative_interfaces/python_interface/python_interface.py:194-198 | NameError and nothing forwarded unless `A`, `loBs`, `upBs` are present; otherwise the caller's dictionary itself is forwarded |
| PythonInterface.OpenBBModel.InsertConstraints | src/alternative_interfaces/python_interface/python_interface.py:201-205 | the same guard, then forwards the caller's dictionary at `index + 1` |
| PythonInterface.OpenBBModel.RemoveConstraints | src/alternative_interfaces/python_interface/python_interface.py:209-213 | the caller's list is shifted +1 in place and that list is forwarded |
| PythonInterface.OpenBBModel.PermuteConstraintsAsWritten | src/alternative_interfaces/python_interface/python_interface.py:216-220 | the permutation is shifted +1 in place and forwarded to the remove entry point |
| PythonInterface.OpenBBModel.PermuteConstraints | src/alternative_interfaces/python_interface/python_interface.py:216-220 | the permutation is shifted +1 in place and forwarded to the permute entry point |
| PythonInterface.OpenBBModel.AppendProblem | src/alternative_interfaces/python_interface/python_interface.py:229-258 | `None` forwards nothing. Otherwise the caller's dictionary is checked and reformatted in place; it is forwarded iff that raised nothing, and the error is raised otherwise |
| PythonInterface.OpenBBModel.IntegralizeVariables | src/alternative_interfaces/python_interface/python_interface.py:262-266 | the discrete indices are shifted +1 in place and forwarded, without sos1 groups |
| PythonInterface.ConvertEntry | src/alternative_interfaces/python_interface/python_interface.py:77-91 | one statement of the in-place conversion changes only its own block, as one in-place step does, and advances the block's conversion by one entry |
| PythonInterface.ReformatObjective | src/alternative_interfaces/python_interface/python_interface.py:77-78 | the objective block becomes its in-place conversion, with its error, and nothing else changes |
| PythonInterface.ReformatConstraints | src/alternative_interfaces/python_interface/python_interface.py:81-83 | the constraint block becomes its in-place conversion, with its error, and nothing else changes |
| PythonInterface.ReformatVariables | src/alternative_interfaces/python_interface/python_interface.py:86-91 | the variable block becomes its in-place conversion, with its error, and nothing else changes |
| PythonInterface.ReformatVariableValues | src/alternative_interfaces/python_interface/python_interface.py:86-88 | the bounds and `vals` statements convert the first three variable entries in place |
| PythonInterface.ReformatVariableLists | src/alternative_interfaces/python_interface/python_interface.py:89-91 | the `dscIndices`, `sos1Groups`, `pseudoCosts` statements convert the last three variable entries in place |
| PythonInterface.ReformatInPlace | src/alternative_interfaces/python_interface/python_interface.py:76-91 | the caller's dictionary and the error are exactly the in-place problem reformatting |
| PythonInterface.PermuteAsWrittenRemovesAll | src/alternative_interfaces/python_interface/python_interface.py:216-220 | forwarding a full permutation of `n` rows to the remove entry point leaves 0 constraints |
| PythonInterface.PermuteKeepsAll | src/alternative_interfaces/python_interface/python_interface.py:216-218 | the shifted permutation is a 1-based permutation, and forwarding it to the permute entry point keeps all `n` constraints |

## Left out

- The Julia package (branch and bound, subsolvers, workspace, distributed workers) is not modelled; each call into it is a log entry, and its return values are parameters.
- The pass-through members of both classes (`solve`, the `get_*` inspectors other than the sparsity getters, `reset`, `clear`, `update`, `reset_explored_nodes`, `update_bounds`, `update_objectiveCutoff`/`update_cutoff`) forward their arguments without logic and are not modelled.
- `eval_string` (OpenBB.py:27-28) is the Julia evaluation itself; the gurobi branch's call through it is logged like the others' direct calls.
- The start-up in `__init__` (`Julia()` and the include of the ctypes interface in python_interface.py) is foreign code loading and is not modelled; the constructors start with an empty log.
- numpy's `matrix`, `array(...).flatten()` are opaque constructors (`Matrix`, `FlatArray`) that never fail; numpy's own conversion errors are not modelled. Numbers are finite reals (`Num(real)`), so a NaN or infinite entry, on which `int()` raises ValueError or OverflowError, is not modelled. The two list comprehensions accept only the model's number lists; tuples, strings and lists of numeric strings passed as `dscIndices` or `sos1Groups`, which Python would also index, are not modelled. TypeError stands for every failing comprehension.
- The warning texts and the exception messages are modelled by their reasons, not their strings; Python's warning filters (which may suppress repeats) are not modelled.
- `path.abspath(path.dirname(__file__))` is the parameter `dir` of `OpenBBInterface`; the file system is not modelled.
- Options keys are strings; non-string keys are not modelled.
- python_interface.py loads each field list through two Julia calls (an `eval` and `fieldnames`); the model logs them as one `FieldNames` call.
- Aliasing between the caller's values and what Julia keeps is not modelled: the log records each argument's value as it stands at the call. The problem's inner dictionaries are values of the `ProblemDict` object, so aliasing between two blocks is not modelled either.
- OpenBB.OpenBBInterface.GetConstraintsSparsity: the Julia result `out` is modelled as its two index arrays `rows` (`out[0]`) and `cols` (`out[1]`), assumed distinct; a shorter tuple is not modelled. The same holds for GetObjectiveSparsity and, with `out[1]`/`out[2]`, for PythonInterface.OpenBBModel.GetConstraintsSparsity and GetObjectiveSparsity, whose untouched `out[0]` is not modelled.
- IndexBase.ShiftDownPair: requires the two arrays to be distinct objects; Julia returning the same array twice is not modelled.
- OpenBB.IncludeCondition: comparing a non-number, non-bool `numProcesses` with an int is modelled as TypeError; Python 3 raises that for the `>` comparison only after the `==` one is false, which gives the same outcome.
- JuliaCalls.ConstraintsAfter is the constraint count the Julia entry points' names promise (remove drops the listed rows, permute keeps them all); the Julia code is not part of this model.
- OpenBB.SetupNeedsKnownSubsolver: its third ensures is one-directional (a failure to choose the subsolver raises with only field-list calls); the converse does not hold, as a missing block or a conversion error also raises without a setup call.
- The remove/insert index arguments are not validated by either front-end, so the model does not require them in range; the range and permutation facts are stated as separate lemmas.

## Findings

| source | as written | input that shows it | evidently intended | confidence | as-written member | corrected member |
|---|---|---|---|---|---|---|
| src/alternative_interfaces/python_interface/python_interface.py:216-220 | `permute_constraints` forwards the shifted permutation to `remove_constraints_b` | the permutation `[0]` of a workspace with 1 constraint: every constraint is removed, leaving 0 | forward to `permute_constraints_b`, as OpenBB.py:283 does, keeping all constraints | high, not executed | PythonInterface.OpenBBModel.PermuteConstraintsAsWritten | PythonInterface.OpenBBModel.PermuteConstraints |
| src/alternative_interfaces/python_interface/OpenBB.py:292-300 | `set_objective` builds the reformatted `localObjectiveDict` and then forwards the caller's `newObjectiveDict` | `{'L': [1.0, 2.0]}`: the forwarded `L` is the plain list, not the flattened array | forward `localObjectiveDict`, as `set_constraintSet` (OpenBB.py:311) forwards its local copy | medium, not executed | OpenBB.OpenBBInterface.SetObjectiveAsWritten | OpenBB.OpenBBInterface.SetObjective |

For the first row, PythonInterface.PermuteAsWrittenRemovesAll proves the as-written behaviour: any full permutation removes all the constraints. PythonInterface.PermuteKeepsAll proves that the corrected forwarding keeps all `n`. For the second row, OpenBB.ObjectiveForwardedUnconverted exhibits the input; OpenBB.ObjectiveCopyConverted proves what the corrected forwarding sends.
