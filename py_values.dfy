/** Python-side values, errors and dictionaries seen by the two OpenBB front-ends.

    Every object the front-ends receive from their caller is a Python value: numbers,
    booleans, strings, lists or numpy arrays of numbers, and objects the front-ends only
    pass on (numpy conversions of them included). Dictionaries are modelled in two ways:
    the settings dictionary keeps its insertion order (Python iterates a dict in that
    order, which fixes the order of the warnings), and a problem or constraint dictionary
    is a map from key to value, because only membership and lookup matter for it. */
module PyValues {

  datatype Option<T> = None | Some(value: T)

  /** A value handed over by the caller, or built by a front-end from one. */
  datatype Value =
    | Num(x: real)              // a Python int or float
    | Flag(b: bool)             // a Python bool
    | Text(s: string)           // a Python str
    | NumList(xs: seq<real>)    // a Python list or 1-D array of numbers
    | IntList(ns: seq<int>)     // a Python list of ints (as built by a list comprehension)
    | Opaque(id: nat)           // any other object, passed on untouched
    | Matrix(of: Value)         // numpy.matrix(of)
    | FlatArray(of: Value)      // numpy.array(of).flatten()

  /** A dictionary whose values are only looked up: a block of a problem dictionary,
      a constraint set, an objective, a settings dictionary built by a front-end. */
  type Block = map<string, Value>

  /** A problem dictionary: 'objFun', 'cnsSet', 'varSet' (and whatever else the caller put
      there) each hold a dictionary. */
  type Problem = map<string, Block>

  /** Why a NameError is raised. */
  datatype NameReason =
    | NoSubsolver                    // no 'subsolver' key in the options
    | UnknownSubsolver(name: string) // a subsolver other than osqp, gurobi, qpalm
    | MissingBlock(block: string)    // a problem dictionary without objFun / cnsSet / varSet
    | MissingConstraintKeys          // a constraint dictionary without one of A, loBs, upBs

  /** The Python exceptions the front-ends raise themselves or let escape. */
  datatype PyError =
    | NameError(reason: NameReason)
    | KeyError(key: string)          // a dictionary lookup of an absent key
    | IndexError                     // a list index past the end
    | TypeError(context: string)     // an operation applied to a value of the wrong kind

  /** How a front-end call ends: it returns, or it raises. */
  datatype Outcome = Done | Raised(error: PyError)

  datatype Result<T> = Ok(value: T) | Err(error: PyError) {
    predicate IsFailure() { Err? }
    function PropagateFailure<U>(): Result<U> requires Err? { Err(error) }
    function Extract(): T requires Ok? { value }
  }

  /** Python's int(x) on a number: truncation toward zero. */
  function PyInt(x: real): (n: int)
    ensures 0.0 <= x ==> n as real <= x < n as real + 1.0
    ensures x < 0.0 ==> n as real - 1.0 < x <= n as real
  {
    if 0.0 <= x then x.Floor else -((-x).Floor)
  }

  /** int(n) is n on a number that is already integral. */
  lemma PyIntOfInteger(n: int)
    ensures PyInt(n as real) == n
  {
  }

  /** Python's slice s[:n] for n >= 0: the first n characters, or all of s when it is shorter. */
  function SliceTo(s: string, n: nat): (r: string)
    ensures |r| == if n <= |s| then n else |s|
    ensures r <= s
  {
    if n <= |s| then s[..n] else s
  }

  /** Python's slice s[n:] for n >= 0: what follows the first n characters, or "" when
      s is shorter. */
  function SliceFrom(s: string, n: nat): (r: string)
    ensures n <= |s| ==> s[..n] + r == s
    ensures |s| < n ==> r == ""
  {
    if n <= |s| then s[n..] else ""
  }

  // ---------------------------------------------------------------------------------
  // Ordered dictionaries: a sequence of (key, value) pairs with distinct keys.

  function KeysOf(items: seq<(string, Value)>): (ks: set<string>)
    ensures forall i :: 0 <= i < |items| ==> items[i].0 in ks
    ensures forall k :: k in ks ==> exists i :: 0 <= i < |items| && items[i].0 == k
  {
    set p | p in items :: p.0
  }

  /** What makes a sequence of pairs a dictionary: no key occurs twice. */
  predicate DistinctKeys(items: seq<(string, Value)>) {
    forall i, j :: 0 <= i < j < |items| ==> items[i].0 != items[j].0
  }

  /** Looking a key up in an ordered dictionary. */
  function Lookup(items: seq<(string, Value)>, key: string): (r: Option<Value>)
    ensures r.None? <==> key !in KeysOf(items)
    ensures r.Some? ==> exists i :: 0 <= i < |items| && items[i] == (key, r.value)
  {
    if items == [] then None
    else if items[0].0 == key then Some(items[0].1)
    else
      var r := Lookup(items[1..], key);
      assert KeysOf(items) == {items[0].0} + KeysOf(items[1..]);
      r
  }

  /** dict.pop(key) on a dictionary holding key: the same pairs, in the same order,
      without the one for key. */
  function Pop(items: seq<(string, Value)>, key: string): (r: seq<(string, Value)>)
    requires DistinctKeys(items)
    ensures DistinctKeys(r)
    ensures KeysOf(r) == KeysOf(items) - {key}
    ensures key in KeysOf(items) ==> |r| == |items| - 1
    ensures forall i :: 0 <= i < |r| ==> r[i] in items
  {
    if items == [] then []
    else
      var rest := Pop(items[1..], key);
      KeysOfCons(items[0], items[1..]);
      if items[0].0 == key then
        items[1..]
      else
        KeysOfCons(items[0], rest);
        DistinctCons(items[0], rest);
        [items[0]] + rest
  }

  lemma KeysOfCons(p: (string, Value), rest: seq<(string, Value)>)
    ensures KeysOf([p] + rest) == {p.0} + KeysOf(rest)
  {
    assert forall q :: q in [p] + rest <==> q == p || q in rest;
  }

  lemma DistinctCons(p: (string, Value), rest: seq<(string, Value)>)
    requires DistinctKeys(rest) && p.0 !in KeysOf(rest)
    ensures DistinctKeys([p] + rest)
  {
  }

  /** dict.pop(key) keeps every other pair. */
  lemma {:induction false} PopKeeps(items: seq<(string, Value)>, key: string, i: int)
    requires DistinctKeys(items) && 0 <= i < |items| && items[i].0 != key
    ensures items[i] in Pop(items, key)
  {
    if i > 0 {
      PopKeeps(items[1..], key, i - 1);
    }
  }

  /** dict.pop(key) keeps the other pairs in their order: it removes the one pair for key,
      and nothing when key is absent. */
  lemma {:induction false} PopInOrder(items: seq<(string, Value)>, key: string)
    requires DistinctKeys(items)
    ensures key !in KeysOf(items) ==> Pop(items, key) == items
    ensures key in KeysOf(items) ==>
      exists i :: 0 <= i < |items| && items[i].0 == key && Pop(items, key) == items[..i] + items[i + 1..]
  {
    if items == [] {
    } else if items[0].0 == key {
      assert Pop(items, key) == items[..0] + items[0 + 1..];
    } else {
      PopInOrder(items[1..], key);
      PopInOrderCons(items, key);
    }
  }

  /** The step of PopInOrder past a head pair that is not popped. */
  lemma PopInOrderCons(items: seq<(string, Value)>, key: string)
    requires DistinctKeys(items) && items != [] && items[0].0 != key
    requires var t := items[1..];
      && (key !in KeysOf(t) ==> Pop(t, key) == t)
      && (key in KeysOf(t) ==> exists j :: 0 <= j < |t| && t[j].0 == key && Pop(t, key) == t[..j] + t[j + 1..])
    ensures key !in KeysOf(items) ==> Pop(items, key) == items
    ensures key in KeysOf(items) ==>
      exists i :: 0 <= i < |items| && items[i].0 == key && Pop(items, key) == items[..i] + items[i + 1..]
  {
    var t := items[1..];
    DistinctTail(items);
    KeysOfCons(items[0], t);
    assert Pop(items, key) == [items[0]] + Pop(t, key);
    if key in KeysOf(t) {
      var j :| 0 <= j < |t| && t[j].0 == key && Pop(t, key) == t[..j] + t[j + 1..];
      SpliceCons(items, j);
      assert items[j + 1].0 == key && Pop(items, key) == items[..j + 1] + items[j + 1 + 1..];
    } else {
      assert [items[0]] + t == items;
    }
  }

  lemma DistinctTail(items: seq<(string, Value)>)
    requires DistinctKeys(items) && items != []
    ensures DistinctKeys(items[1..])
  {
    forall i, j | 0 <= i < j < |items| - 1 ensures items[1..][i].0 != items[1..][j].0 {
      assert items[1..][i] == items[i + 1] && items[1..][j] == items[j + 1];
    }
  }

  /** Removing position j + 1 of a list is keeping its head and removing position j of its tail. */
  lemma SpliceCons<T>(s: seq<T>, j: int)
    requires 0 <= j < |s| - 1
    ensures [s[0]] + (s[1..][..j] + s[1..][j + 1..]) == s[..j + 1] + s[j + 1 + 1..]
  {
    assert s[..j + 1] == [s[0]] + s[1..][..j];
    assert s[j + 2..] == s[1..][j + 1..];
  }

  /** Appending to a list in two steps or in one. */
  lemma ConcatAssoc<T>(a: seq<T>, b: seq<T>, c: seq<T>)
    ensures a + b + c == a + (b + c)
  {
  }

  /** A settings dictionary handed to setup by the caller. */
  class OptionsDict {
    var items: seq<(string, Value)>

    ghost predicate Valid()
      reads this
    {
      DistinctKeys(items)
    }

    constructor (items: seq<(string, Value)>)
      requires DistinctKeys(items)
      ensures Valid() && this.items == items
    {
      this.items := items;
    }
  }

  /** A problem dictionary handed to setup or append_problem by the caller. */
  class ProblemDict {
    var blocks: Problem

    constructor (blocks: Problem)
      ensures this.blocks == blocks
    {
      this.blocks := blocks;
    }
  }
}
