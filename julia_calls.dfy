/** The Julia package behind the front-ends, seen as the calls it receives.

    Both front-ends do nothing but prepare arguments and call into the Julia package
    (self.jl). The package itself is not part of this model: each call is recorded, with
    the arguments as they stand when the call is made, in a log that the front-end
    classes keep. What Julia answers (field-name lists, sparsity patterns) is handed to
    the front-end methods as parameters. */
module JuliaCalls {
  import opened PyValues

  /** The trailing keyword arguments of the problem-editing calls. */
  datatype EditFlags = EditFlags(suppressWarnings: bool, suppressUpdate: bool, localOnly: bool)

  /** A call into the Julia package, with its arguments. Index arguments are 1-based. */
  datatype Call =
    | EvalString(code: string)              // OpenBB.py: Julia code evaluated as a string
    | FieldNames(typeName: string)          // python_interface.py: the field names of an OpenBB type
    | IncludeEverywhere(file: string)       // OpenBB.py: a file included on every Julia process
    | Setup(subsolver: string, problem: Problem, bbSettings: Block, ssSettings: Block)
    | GetConstraintsSparsity
    | GetConstraintSparsity(index: int)
    | GetObjectiveSparsity
    | AppendConstraints(constraints: Block, flags: EditFlags)
    | InsertConstraints(constraints: Block, index: int, flags: EditFlags)
    | RemoveConstraints(indices: seq<int>, flags: EditFlags)
    | PermuteConstraints(permutation: seq<int>, flags: EditFlags)
    | SetObjective(objective: Block, flags: EditFlags)
    | SetConstraintSet(constraints: Block, flags: EditFlags)
    | AppendProblem(problem: Problem, flags: EditFlags)
    | IntegralizeVariables(dscIndices: seq<int>, sos1Groups: Option<Value>, flags: EditFlags)

  /** The Julia code OpenBB.py evaluates to list the fields of a settings type. */
  function FieldNamesCode(typeName: string): string {
    "fieldnames(" + typeName + ")"
  }

  /** The number of constraints in the Julia workspace after a call, for a workspace of
      n constraints. The Julia side is not part of this model; this is what the names of
      its two reordering entry points promise: remove_constraints! drops every constraint
      whose 1-based index is listed, permute_constraints! keeps them all. */
  function ConstraintsAfter(n: nat, c: Call): int {
    match c
    case RemoveConstraints(indices, _) => n - |set i | i in indices && 1 <= i <= n|
    case _ => n
  }
}
