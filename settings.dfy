/** The settings router of setup, common to both front-ends.

    setup takes the subsolver name out of the options, checks it against the three
    subsolvers the package knows, and splits the remaining options into branch-and-bound
    settings and subsolver settings. A key of the form '<subsolver>.<field>' goes to the
    subsolver settings under '<field>' when the subsolver has such a field; any other key
    goes to the branch-and-bound settings when they have a field of that name. Every
    other key is dropped with one warning. The recognised field names come from the Julia
    package and are inputs here. */
module Settings {
  import opened PyValues

  const Subsolvers: set<string> := {"osqp", "gurobi", "qpalm"}

  /** The Julia settings type whose field names setup loads first. */
  const BBSettingsType: string := "BBsettings"

  /** The Julia settings type of each known subsolver. */
  function SettingsType(subsolver: string): (t: string)
    requires subsolver in Subsolvers
    ensures t != BBSettingsType
  {
    if subsolver == "osqp" then "OSQPsettings"
    else if subsolver == "gurobi" then "GUROBIsettings"
    else "QPALMsettings"
  }

  /** The field names of the Julia settings types, as the package reports them. */
  datatype FieldLists = FieldLists(bb: seq<string>, osqp: seq<string>, gurobi: seq<string>, qpalm: seq<string>)

  function SubsolverFields(f: FieldLists, subsolver: string): seq<string>
    requires subsolver in Subsolvers
  {
    if subsolver == "osqp" then f.osqp
    else if subsolver == "gurobi" then f.gurobi
    else f.qpalm
  }

  /** The subsolver setup selects from the options: NameError when there is no
      'subsolver' key or its value is a string naming none of the three subsolvers, and
      TypeError when it is not a string (the NameError message concatenates it to a str). */
  function ChooseSubsolver(items: seq<(string, Value)>): (r: Result<string>)
    ensures r.Ok? <==> exists s :: s in Subsolvers && Lookup(items, "subsolver") == Some(Text(s))
    ensures r.Ok? ==> Lookup(items, "subsolver") == Some(Text(r.value))
    ensures r == Err(NameError(NoSubsolver)) <==> "subsolver" !in KeysOf(items)
  {
    match Lookup(items, "subsolver")
    case None => Err(NameError(NoSubsolver))
    case Some(v) =>
      if v.Text? && v.s in Subsolvers then Ok(v.s)
      else if v.Text? then Err(NameError(UnknownSubsolver(v.s)))
      else Err(TypeError("subsolver"))
  }

  /** The router setup builds for a known subsolver. */
  function RouterFor(subsolver: string, f: FieldLists): Router
    requires subsolver in Subsolvers
  {
    Router(subsolver, f.bb, SubsolverFields(f, subsolver))
  }

  /** A warning issued by setup (Python's warnings.warn). */
  datatype Warning =
    | UnknownSubsolverOption(field: string)  // 'OpenBB, subsolver option not recognized: <field>'
    | UnknownOption(key: string)             // 'OpenBB, option not recognized: <key>'

  /** What setup needs to route a key: the subsolver and the two lists of field names. */
  datatype Router = Router(subsolver: string, bbFields: seq<string>, ssFields: seq<string>)

  /** Where one option key ends up. */
  datatype Route =
    | ToBB(key: string)      // bb_settings[key]
    | ToSS(field: string)    // ss_settings[field]
    | Dropped(w: Warning)    // in neither, with this warning

  function Prefix(rt: Router): string { rt.subsolver + "." }

  /** The routing rule, with Python's slices k[:len(subsolver)+1] and k[len(subsolver)+1:]. */
  function RouteOf(rt: Router, k: string): Route
  {
    var n := |rt.subsolver| + 1;
    if SliceTo(k, n) == Prefix(rt) then
      var field := SliceFrom(k, n);
      if field in rt.ssFields then ToSS(field) else Dropped(UnknownSubsolverOption(field))
    else if k in rt.bbFields then ToBB(k)
    else Dropped(UnknownOption(k))
  }

  /** The routing rule in words: a key is routed by whether '<subsolver>.' is a prefix of
      it; a prefixed key goes to the subsolver settings under the rest of the key exactly
      when the subsolver has that field, an unprefixed key goes to the branch-and-bound
      settings unchanged exactly when they have that field, and every other key is
      dropped with the warning that names it (by its field when it is prefixed). */
  lemma RouteMeaning(rt: Router, k: string)
    ensures Prefix(rt) <= k ==>
      var field := k[|Prefix(rt)|..];
      RouteOf(rt, k) == if field in rt.ssFields then ToSS(field) else Dropped(UnknownSubsolverOption(field))
    ensures !(Prefix(rt) <= k) ==>
      RouteOf(rt, k) == if k in rt.bbFields then ToBB(k) else Dropped(UnknownOption(k))
  {
  }

  /** bb_settings, ss_settings and the warnings issued, in order. */
  datatype Split = Split(bb: Block, ss: Block, warnings: seq<Warning>)

  /** The settings split after the options opts have been visited in order. */
  function SplitOf(rt: Router, opts: seq<(string, Value)>): Split
  {
    if opts == [] then Split(map[], map[], [])
    else
      var s := SplitOf(rt, opts[..|opts| - 1]);
      var (k, v) := opts[|opts| - 1];
      match RouteOf(rt, k)
      case ToBB(key) => s.(bb := s.bb[key := v])
      case ToSS(field) => s.(ss := s.ss[field := v])
      case Dropped(w) => s.(warnings := s.warnings + [w])
  }

  /** The loop of setup that builds the two settings dictionaries. */
  method SplitOptions(rt: Router, opts: seq<(string, Value)>) returns (s: Split)
    ensures s == SplitOf(rt, opts)
  {
    var bb: Block := map[];
    var ss: Block := map[];
    var warnings: seq<Warning> := [];
    var i := 0;
    while i < |opts|
      invariant 0 <= i <= |opts|
      invariant Split(bb, ss, warnings) == SplitOf(rt, opts[..i])
    {
      var (k, v) := opts[i];
      assert opts[..i + 1][..i] == opts[..i];
      var n := |rt.subsolver| + 1;
      if SliceTo(k, n) == rt.subsolver + "." {
        if SliceFrom(k, n) in rt.ssFields {
          ss := ss[SliceFrom(k, n) := v];
        } else {
          warnings := warnings + [UnknownSubsolverOption(SliceFrom(k, n))];
        }
      } else {
        if k in rt.bbFields {
          bb := bb[k := v];
        } else {
          warnings := warnings + [UnknownOption(k)];
        }
      }
      i := i + 1;
    }
    assert opts[..i] == opts;
    s := Split(bb, ss, warnings);
  }

  // ---------------------------------------------------------------------------------
  // What the split means.

  /** The keys routed to the branch-and-bound settings. */
  ghost function BBKeys(rt: Router, opts: seq<(string, Value)>): set<string> {
    set i | 0 <= i < |opts| && RouteOf(rt, opts[i].0).ToBB? :: opts[i].0
  }

  /** The subsolver fields named by the keys routed to the subsolver settings. */
  ghost function SSFields(rt: Router, opts: seq<(string, Value)>): set<string> {
    set i | 0 <= i < |opts| && RouteOf(rt, opts[i].0).ToSS? :: RouteOf(rt, opts[i].0).field
  }

  /** One step of the split: the last entry of opts is routed on top of the split of
      the entries before it. */
  lemma SplitOfLast(rt: Router, opts: seq<(string, Value)>)
    requires opts != []
    ensures var s := SplitOf(rt, opts[..|opts| - 1]);
      var (k, v) := opts[|opts| - 1];
      var r := RouteOf(rt, k);
      && SplitOf(rt, opts).bb == (if r.ToBB? then s.bb[k := v] else s.bb)
      && SplitOf(rt, opts).ss == (if r.ToSS? then s.ss[r.field := v] else s.ss)
      && SplitOf(rt, opts).warnings == (if r.Dropped? then s.warnings + [r.w] else s.warnings)
  {
  }

  /** The branch-and-bound settings hold exactly the keys routed to them. */
  lemma {:induction false} SplitBBKeys(rt: Router, opts: seq<(string, Value)>)
    ensures SplitOf(rt, opts).bb.Keys == BBKeys(rt, opts)
  {
    if opts != [] {
      var last := |opts| - 1;
      var init := opts[..last];
      SplitBBKeys(rt, init);
      SplitOfLast(rt, opts);
      assert forall i :: 0 <= i < last ==> opts[i] == init[i];
      assert BBKeys(rt, opts) == BBKeys(rt, init) + (if RouteOf(rt, opts[last].0).ToBB? then {opts[last].0} else {});
    }
  }

  /** The subsolver settings hold exactly the fields routed to them. */
  lemma {:induction false} SplitSSKeys(rt: Router, opts: seq<(string, Value)>)
    ensures SplitOf(rt, opts).ss.Keys == SSFields(rt, opts)
  {
    if opts != [] {
      var last := |opts| - 1;
      var init := opts[..last];
      SplitSSKeys(rt, init);
      SplitOfLast(rt, opts);
      assert forall i :: 0 <= i < last ==> opts[i] == init[i];
      var r := RouteOf(rt, opts[last].0);
      assert SSFields(rt, opts) == SSFields(rt, init) + (if r.ToSS? then {r.field} else {});
    }
  }

  /** A warning is issued exactly for the dropped keys. */
  lemma {:induction false} SplitWarnings(rt: Router, opts: seq<(string, Value)>)
    ensures forall w :: w in SplitOf(rt, opts).warnings <==>
              exists i :: 0 <= i < |opts| && RouteOf(rt, opts[i].0) == Dropped(w)
  {
    if opts != [] {
      var last := |opts| - 1;
      var init := opts[..last];
      SplitWarnings(rt, init);
      SplitOfLast(rt, opts);
      assert forall i :: 0 <= i < last ==> opts[i] == init[i];
    }
  }

  /** Two keys routed to the same subsolver field are the same key. */
  lemma SameFieldSameKey(rt: Router, k1: string, k2: string)
    requires RouteOf(rt, k1).ToSS? && RouteOf(rt, k2).ToSS?
    requires RouteOf(rt, k1).field == RouteOf(rt, k2).field
    ensures k1 == k2
  {
    var n := |rt.subsolver| + 1;
    assert k1 == k1[..n] + k1[n..] && k2 == k2[..n] + k2[n..];
  }

  /** Each entry's value is stored unchanged where its key is routed, and a dropped
      entry adds its one warning. */
  lemma {:induction false} SplitRoutes(rt: Router, opts: seq<(string, Value)>, i: int)
    requires DistinctKeys(opts)
    requires 0 <= i < |opts|
    ensures var s := SplitOf(rt, opts);
      match RouteOf(rt, opts[i].0)
      case ToBB(key) => key in s.bb && s.bb[key] == opts[i].1
      case ToSS(field) => field in s.ss && s.ss[field] == opts[i].1
      case Dropped(w) => w in s.warnings
  {
    var last := |opts| - 1;
    var init := opts[..last];
    assert DistinctKeys(init);
    SplitOfLast(rt, opts);
    if i < last {
      SplitRoutes(rt, init, i);
      assert opts[i] == init[i];
      // the last key differs from opts[i], so it does not overwrite opts[i]'s entry
      assert opts[last].0 != opts[i].0;
      match RouteOf(rt, opts[i].0)
      case ToBB(key) =>
      case ToSS(field) =>
        if RouteOf(rt, opts[last].0).ToSS? && RouteOf(rt, opts[last].0).field == field {
          SameFieldSameKey(rt, opts[last].0, opts[i].0);
        }
      case Dropped(w) =>
    }
  }

  /** Counting: every option other than 'subsolver' is either stored in one of the two
      dictionaries or dropped with one warning, never both and never twice. */
  lemma {:induction false} SplitCount(rt: Router, opts: seq<(string, Value)>)
    requires DistinctKeys(opts)
    ensures var s := SplitOf(rt, opts); |s.bb| + |s.ss| + |s.warnings| == |opts|
  {
    if opts != [] {
      var last := |opts| - 1;
      var init := opts[..last];
      assert DistinctKeys(init);
      SplitCount(rt, init);
      SplitBBKeys(rt, init);
      SplitSSKeys(rt, init);
      SplitOfLast(rt, opts);
      var s := SplitOf(rt, init);
      var k := opts[last].0;
      match RouteOf(rt, k)
      case ToBB(key) =>
        assert key !in s.bb by {
          assert forall j :: 0 <= j < |init| ==> init[j] == opts[j];
        }
      case ToSS(field) =>
        if field in s.ss {
          var j :| 0 <= j < |init| && RouteOf(rt, init[j].0).ToSS? && RouteOf(rt, init[j].0).field == field;
          assert opts[j] == init[j];
          SameFieldSameKey(rt, k, init[j].0);
        }
      case Dropped(w) =>
    }
  }

  /** The 'subsolver' key, popped before the split, is never a branch-and-bound setting. */
  lemma SubsolverKeyNotForwarded(rt: Router, items: seq<(string, Value)>)
    requires DistinctKeys(items)
    ensures "subsolver" !in SplitOf(rt, Pop(items, "subsolver")).bb
  {
    var opts := Pop(items, "subsolver");
    SplitBBKeys(rt, opts);
    forall i | 0 <= i < |opts| ensures opts[i].0 != "subsolver" {
      assert opts[i].0 in KeysOf(opts);
    }
  }

  /** A subsolver setting named 'subsolver' can only come from a key
      '<subsolver>.subsolver' that the subsolver recognises. */
  lemma SubsolverFieldNeedsPrefixedKey(rt: Router, opts: seq<(string, Value)>)
    ensures "subsolver" in SplitOf(rt, opts).ss ==>
              "subsolver" in rt.ssFields && Prefix(rt) + "subsolver" in KeysOf(opts)
  {
    SplitSSKeys(rt, opts);
    if "subsolver" in SplitOf(rt, opts).ss {
      var j :| 0 <= j < |opts| && RouteOf(rt, opts[j].0).ToSS? && RouteOf(rt, opts[j].0).field == "subsolver";
      var k := opts[j].0;
      var n := |rt.subsolver| + 1;
      assert k == k[..n] + k[n..];
      assert k in KeysOf(opts);
    }
  }
}
