/**
 * Reading the provider configuration: subscripts and `.get` on nested
 * mappings, the two-layer deep merge of the user configuration over the
 * defaults, and the choice `_read_config` makes between merging and
 * taking the defaults as they are.
 */
module Config {
  import opened Values
  import opened Errors

  /** `v[k]`: a KeyError when the mapping lacks k, a TypeError when v is no mapping. */
  function Index(v: Value, k: string): (r: Result<Value>)
    ensures r.Ok? <==> v.Dict? && k in v.entries
    ensures r.Ok? ==> r.value == v.entries[k]
    ensures v.Dict? && k !in v.entries ==> r == Err(KeyError(k))
    ensures !v.Dict? ==> r == Err(WrongType)
  {
    match v
    case Dict(m) => if k in m then Ok(m[k]) else Err(KeyError(k))
    case _ => Err(WrongType)
  }

  /** `v.get(k, default)`: never fails on a mapping, an AttributeError on anything else. */
  function Get(v: Value, k: string, default: Value): (r: Result<Value>)
    ensures r.Ok? <==> v.Dict?
    ensures r.Ok? && k in v.entries ==> r.value == v.entries[k]
    ensures r.Ok? && k !in v.entries ==> r.value == default
  {
    match v
    case Dict(m) => Ok(if k in m then m[k] else default)
    case _ => Err(WrongType)
  }

  /** `v[k0][k1]...[kn]`, failing at the first subscript that fails. */
  function Lookup(v: Value, path: seq<string>): (r: Result<Value>)
    ensures r.Err? ==> r.error.KeyError? || r.error == WrongType
    ensures path == [] ==> r == Ok(v)
    decreases |path|
  {
    if path == [] then Ok(v)
    else
      match Index(v, path[0])
      case Err(e) => Err(e)
      case Ok(w) => Lookup(w, path[1..])
  }

  /** Subscripting one key further along a path is subscripting the value found at the path. */
  lemma {:induction false} LookupExtend(v: Value, path: seq<string>, k: string)
    ensures Lookup(v, path + [k]) ==
      match Lookup(v, path)
      case Err(e) => Err(e)
      case Ok(w) => Index(w, k)
    decreases |path|
  {
    if path == [] {
      assert Lookup(v, [k]) == match Index(v, k) case Err(e) => Err(e) case Ok(w) => Lookup(w, []);
    } else {
      assert (path + [k])[1..] == path[1..] + [k];
      if Index(v, path[0]).Ok? {
        LookupExtend(Index(v, path[0]).value, path[1..], k);
      }
    }
  }

  /** A value that can only be used where Python expects a `str`. */
  function AsString(v: Value): (r: Result<string>)
    ensures r.Ok? <==> v.Str?
    ensures r.Ok? ==> v == Str(r.value)
  {
    if v.Str? then Ok(v.s) else Err(WrongType)
  }

  // ---------------------------------------------------------------------
  // _deep_merge_dictionaries(overriding, overridden)
  // ---------------------------------------------------------------------

  /**
   * Some key holds a mapping on the overriding side and a non-mapping on
   * the overridden side, at the top level or inside two mappings that the
   * merge descends into.
   */
  predicate Conflict(over: map<string, Value>, under: map<string, Value>)
    decreases Dict(over)
  {
    exists k :: k in over && k in under && over[k].Dict? &&
      (!under[k].Dict? || Conflict(over[k].entries, under[k].entries))
  }

  /**
   * The key the merge reports when it meets a conflict. The loop visits
   * the keys in the mapping's iteration order, which Python leaves
   * unspecified, so this is some key at which a conflict sits, found at
   * whatever depth the merge had descended to.
   */
  ghost function ConflictKey(over: map<string, Value>, under: map<string, Value>): string
    requires Conflict(over, under)
    decreases Dict(over)
  {
    var k := FirstConflictingKey(over, under);
    if !under[k].Dict? then k else ConflictKey(over[k].entries, under[k].entries)
  }

  /** The top-level key, among those where a conflict sits, that the loop happens to visit first. */
  ghost function FirstConflictingKey(over: map<string, Value>, under: map<string, Value>): (k: string)
    requires Conflict(over, under)
    ensures k in over && k in under && over[k].Dict? &&
      (!under[k].Dict? || Conflict(over[k].entries, under[k].entries))
  {
    var k :| k in over && k in under && over[k].Dict? &&
      (!under[k].Dict? || Conflict(over[k].entries, under[k].entries));
    k
  }

  /**
   * The deep merge: start from (a copy of) the overridden mapping; for each
   * key of the overriding one, merge recursively where both sides hold
   * mappings, fail where only the overriding side does, and otherwise let
   * the overriding value replace whatever was there. Values are immutable
   * here, so the deep copies of the source need no counterpart.
   */
  ghost function DeepMerge(over: map<string, Value>, under: map<string, Value>): (r: Result<map<string, Value>>)
    decreases Dict(over)
    ensures r.Err? <==> Conflict(over, under)
    ensures r.Err? ==> r.error.TypeConflict?
    ensures r.Ok? ==> r.value.Keys == over.Keys + under.Keys
  {
    if Conflict(over, under) then Err(TypeConflict(ConflictKey(over, under)))
    else
      Ok(map k | k in over.Keys + under.Keys ::
           if k in over && k in under && over[k].Dict?
           then Dict(DeepMerge(over[k].entries, under[k].entries).value)
           else if k in over then over[k]
           else under[k])
  }

  /** The merge at one key: the overriding value wins unless both sides are mappings, keys only in the defaults keep their value, and two mappings are merged recursively. */
  lemma MergeAtKey(over: map<string, Value>, under: map<string, Value>, k: string)
    requires DeepMerge(over, under).Ok?
    ensures k in DeepMerge(over, under).value <==> k in over || k in under
    ensures k in over && !(k in under && over[k].Dict?) ==> DeepMerge(over, under).value[k] == over[k]
    ensures k !in over && k in under ==> DeepMerge(over, under).value[k] == under[k]
    ensures k in over && k in under && over[k].Dict? ==>
      && under[k].Dict?
      && DeepMerge(over[k].entries, under[k].entries).Ok?
      && DeepMerge(over, under).value[k] == Dict(DeepMerge(over[k].entries, under[k].entries).value)
  {
  }

  /** A conflict found by following `path` through both configurations: every key but the last holds mappings on both sides, and the last holds a mapping only on the overriding side. */
  ghost predicate ConflictAt(over: map<string, Value>, under: map<string, Value>, path: seq<string>)
    decreases |path|
  {
    && |path| > 0
    && path[0] in over && path[0] in under && over[path[0]].Dict?
    && if |path| == 1 then !under[path[0]].Dict?
       else under[path[0]].Dict? && ConflictAt(over[path[0]].entries, under[path[0]].entries, path[1..])
  }

  lemma {:induction false} ConflictPathOfKey(over: map<string, Value>, under: map<string, Value>) returns (path: seq<string>)
    requires Conflict(over, under)
    ensures ConflictAt(over, under, path) && path[|path| - 1] == ConflictKey(over, under)
    ensures path[0] == FirstConflictingKey(over, under)
    decreases Dict(over)
  {
    var k := FirstConflictingKey(over, under);
    if !under[k].Dict? {
      path := [k];
    } else {
      var rest := ConflictPathOfKey(over[k].entries, under[k].entries);
      path := [k] + rest;
      assert path[1..] == rest;
    }
  }

  lemma {:induction false} ConflictFromPath(over: map<string, Value>, under: map<string, Value>, path: seq<string>)
    requires ConflictAt(over, under, path)
    ensures Conflict(over, under)
    decreases |path|
  {
    var k := path[0];
    if |path| > 1 {
      ConflictFromPath(over[k].entries, under[k].entries, path[1..]);
    }
    assert k in over && k in under && over[k].Dict? &&
      (!under[k].Dict? || Conflict(over[k].entries, under[k].entries));
  }

  /** The merge fails exactly when some path leads to a type conflict, and the key it reports ends such a path. */
  lemma MergeFailsExactlyOnConflict(over: map<string, Value>, under: map<string, Value>)
    ensures DeepMerge(over, under).Err? <==> exists path :: ConflictAt(over, under, path)
    ensures DeepMerge(over, under).Err? ==>
      exists path :: ConflictAt(over, under, path) && DeepMerge(over, under).error == TypeConflict(path[|path| - 1])
  {
    if Conflict(over, under) {
      var path := ConflictPathOfKey(over, under);
      assert DeepMerge(over, under).Err?;
      assert ConflictAt(over, under, path) && DeepMerge(over, under).error == TypeConflict(path[|path| - 1]);
      assert exists p :: ConflictAt(over, under, p);
    } else {
      forall path | ConflictAt(over, under, path) ensures false {
        ConflictFromPath(over, under, path);
      }
    }
  }

  /**
   * A user mapping over a default non-mapping at a top-level key fails with
   * that key's name whenever no other top-level key starts a conflict, so
   * that whatever order the loop visits the keys in, it reports this one.
   */
  lemma TopLevelConflict(over: map<string, Value>, under: map<string, Value>, k: string)
    requires k in over && k in under && over[k].Dict? && !under[k].Dict?
    requires forall path :: ConflictAt(over, under, path) ==> path[0] == k
    ensures DeepMerge(over, under) == Err(TypeConflict(k))
  {
    assert ConflictAt(over, under, [k]);
    ConflictFromPath(over, under, [k]);
    var path := ConflictPathOfKey(over, under);
  }

  /** Walking a path in the merged configuration. */
  ghost function MergedLookup(over: map<string, Value>, under: map<string, Value>, path: seq<string>): Result<Value>
    requires DeepMerge(over, under).Ok?
  {
    Lookup(Dict(DeepMerge(over, under).value), path)
  }

  /** User values win at the leaves: wherever a path leads to a non-mapping in the user configuration, the merged configuration holds the same value there. */
  lemma {:induction false} UserLeafWins(over: map<string, Value>, under: map<string, Value>, path: seq<string>, v: Value)
    requires DeepMerge(over, under).Ok?
    requires Lookup(Dict(over), path) == Ok(v) && !v.Dict?
    ensures MergedLookup(over, under, path) == Ok(v)
    decreases |path|
  {
    var merged := DeepMerge(over, under).value;
    var k := path[0];
    MergeAtKey(over, under, k);
    var w := over[k];
    if |path| == 1 {
      assert w == v;
      assert Lookup(Dict(merged), path) == Lookup(merged[k], []);
    } else {
      assert Lookup(w, path[1..]) == Ok(v);
      assert w.Dict?;
      if k in under {
        UserLeafWins(w.entries, under[k].entries, path[1..], v);
      }
    }
  }

  /** Defaults survive: wherever the user configuration has no key along a path that the defaults follow to a value, the merged configuration holds the default value there. */
  lemma {:induction false} DefaultsSurvive(over: map<string, Value>, under: map<string, Value>, path: seq<string>, v: Value)
    requires DeepMerge(over, under).Ok?
    requires Lookup(Dict(under), path) == Ok(v)
    requires Lookup(Dict(over), path).Err? && Lookup(Dict(over), path).error.KeyError?
    ensures MergedLookup(over, under, path) == Ok(v)
    decreases |path|
  {
    var merged := DeepMerge(over, under).value;
    var k := path[0];
    MergeAtKey(over, under, k);
    if k in over {
      var w := over[k];
      assert Lookup(w, path[1..]) == Lookup(Dict(over), path);
      assert path[1..] != [];
      assert w.Dict?;
      var u := under[k];
      assert Lookup(u, path[1..]) == Ok(v);
      assert u.Dict?;
      DefaultsSurvive(w.entries, u.entries, path[1..], v);
    }
  }

  /** Merging an empty user configuration gives the defaults back. */
  lemma MergeEmptyOverride(under: map<string, Value>)
    ensures DeepMerge(map[], under) == Ok(under)
  {
    assert !Conflict(map[], under);
    assert DeepMerge(map[], under).value == under;
  }

  /** Merging a configuration over itself gives it back. */
  lemma {:induction false} MergeWithItself(m: map<string, Value>)
    ensures DeepMerge(m, m) == Ok(m)
    decreases Dict(m)
  {
    forall k | k in m && m[k].Dict?
      ensures DeepMerge(m[k].entries, m[k].entries) == Ok(m[k].entries)
    {
      MergeWithItself(m[k].entries);
    }
    assert !Conflict(m, m);
    var merged := DeepMerge(m, m).value;
    forall k | k in m ensures merged[k] == m[k] {
      MergeAtKey(m, m, k);
    }
    assert merged == m;
  }

  /** The merge laws: `{a:1}` over `{a:2, b:3}` gives `{a:1, b:3}`; `{a:{x:1}}` over `{a:{x:2, y:3}}` gives `{a:{x:1, y:3}}`; `{a:{x:1}}` over `{a:5}` is a type conflict at `a`. */
  lemma MergeExamples()
    ensures DeepMerge(map["a" := Int(1)], map["a" := Int(2), "b" := Int(3)])
         == Ok(map["a" := Int(1), "b" := Int(3)])
    ensures DeepMerge(map["a" := Dict(map["x" := Int(1)])], map["a" := Dict(map["x" := Int(2), "y" := Int(3)])])
         == Ok(map["a" := Dict(map["x" := Int(1), "y" := Int(3)])])
    ensures DeepMerge(map["a" := Dict(map["x" := Int(1)])], map["a" := Int(5)]) == Err(TypeConflict("a"))
  {
    var o1, u1 := map["a" := Int(1)], map["a" := Int(2), "b" := Int(3)];
    assert !Conflict(o1, u1);
    MergeAtKey(o1, u1, "a");
    MergeAtKey(o1, u1, "b");
    assert DeepMerge(o1, u1).value == map["a" := Int(1), "b" := Int(3)];

    var ix, ux := map["x" := Int(1)], map["x" := Int(2), "y" := Int(3)];
    assert !Conflict(ix, ux);
    MergeAtKey(ix, ux, "x");
    MergeAtKey(ix, ux, "y");
    assert DeepMerge(ix, ux).value == map["x" := Int(1), "y" := Int(3)];
    assert DeepMerge(ix, ux) == Ok(map["x" := Int(1), "y" := Int(3)]);
    var o2, u2 := map["a" := Dict(ix)], map["a" := Dict(ux)];
    assert !Conflict(o2, u2);
    MergeAtKey(o2, u2, "a");
    assert DeepMerge(o2, u2).value == map["a" := Dict(map["x" := Int(1), "y" := Int(3)])];

    TopLevelConflict(map["a" := Dict(ix)], map["a" := Int(5)], "a");
  }

  // ---------------------------------------------------------------------
  // _read_config: `_deep_merge_dictionaries(user, defaults) if user else defaults`
  // ---------------------------------------------------------------------

  /**
   * The merge selection of `_read_config`, given the two loaded documents.
   * An empty or absent user document leaves the defaults as they are. A
   * non-empty user document that is not a mapping has no `iteritems`,
   * and one that is a mapping cannot be merged into defaults that are not
   * one (the membership test or the item assignment raises); both are
   * TypeErrors or AttributeErrors.
   */
  ghost function SelectConfig(user: Value, defaults: Value): (r: Result<Value>)
    ensures !Truthy(user) ==> r == Ok(defaults)
    ensures Truthy(user) && !(user.Dict? && defaults.Dict?) ==> r == Err(WrongType)
    ensures r.Ok? && Truthy(user) ==> r.value.Dict? && r.value.entries.Keys == user.entries.Keys + defaults.entries.Keys
  {
    if !Truthy(user) then Ok(defaults)
    else if user.Dict? && defaults.Dict? then
      match DeepMerge(user.entries, defaults.entries)
      case Ok(m) => Ok(Dict(m))
      case Err(e) => Err(e)
    else Err(WrongType)
  }

  /** Skipping the merge for an empty user mapping changes nothing: for two mappings the selection always equals their merge. */
  lemma SelectAgreesWithMerge(user: map<string, Value>, defaults: map<string, Value>)
    ensures SelectConfig(Dict(user), Dict(defaults)) ==
      match DeepMerge(user, defaults)
      case Ok(m) => Ok(Dict(m))
      case Err(e) => Err(e)
  {
    if user == map[] {
      MergeEmptyOverride(defaults);
    }
  }
}
