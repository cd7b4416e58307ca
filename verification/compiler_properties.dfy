/** What the compiler promises, stated over its specification functions. */
module CompilerProperties {
  import opened Wrappers
  import opened Strings
  import opened OpenApi
  import opened FieldMapping
  import opened SchemaCompiler

  // ---------------------------------------------------------------------------
  // One model

  /** A compiled model has exactly one descriptor per property, in property order, each
      keyed by the property name, carrying its description as help text, no label and no
      placeholder, the table's choice of type, list and choices, and a `required` flag that
      is membership in `required` (undefined when there is no `required` array). */
  lemma {:induction false} CompiledFieldsDescribeProperties(props: seq<(string, Property)>, required: Option<seq<string>>, collection: string)
    requires CompileProperties(props, required, collection).Ok?
    ensures var fs := CompileProperties(props, required, collection).value;
      |fs| == |props| &&
      forall i | 0 <= i < |props| ::
        && fs[i].key == props[i].0
        && fs[i].labelText == None
        && fs[i].placeholder == None
        && fs[i].helpText == props[i].1.description
        && fs[i].required == (if required.Some? then Some(props[i].0 in required.value) else None)
        && MapProperty(props[i].1) == Ok(TypeChoice(fs[i].fieldType, fs[i].list, fs[i].choices))
  {
    if props != [] {
      CompiledFieldsDescribeProperties(props[1..], required, collection);
      var fs := CompileProperties(props, required, collection).value;
      assert forall i | 1 <= i < |props| :: fs[i] == fs[1..][i - 1] && props[i] == props[1..][i - 1];
    }
  }

  /** A model compiles exactly when every one of its properties maps. */
  lemma {:induction false} CompilePropertiesSucceedsIff(props: seq<(string, Property)>, required: Option<seq<string>>, collection: string)
    ensures CompileProperties(props, required, collection).Ok? <==>
      forall i | 0 <= i < |props| :: MapProperty(props[i].1).Ok?
  {
    if props != [] {
      CompilePropertiesSucceedsIff(props[1..], required, collection);
      assert forall i | 1 <= i < |props| :: props[i] == props[1..][i - 1];
    }
  }

  /** A model that fails, fails on its first unmappable property, naming that property and
      the collection. */
  lemma {:induction false} CompilePropertiesFirstError(props: seq<(string, Property)>, required: Option<seq<string>>, collection: string)
    requires CompileProperties(props, required, collection).Err?
    ensures exists k | 0 <= k < |props| ::
      && MapProperty(props[k].1).Err?
      && CompileProperties(props, required, collection).error
         == UnmappableProperty(props[k].0, collection, MapProperty(props[k].1).error)
      && forall j | 0 <= j < k :: MapProperty(props[j].1).Ok?
  {
    if MapProperty(props[0].1).Ok? {
      CompilePropertiesFirstError(props[1..], required, collection);
      var k :| 0 <= k < |props[1..]|
        && MapProperty(props[1..][k].1).Err?
        && CompileProperties(props[1..], required, collection).error
           == UnmappableProperty(props[1..][k].0, collection, MapProperty(props[1..][k].1).error)
        && forall j | 0 <= j < k :: MapProperty(props[1..][j].1).Ok?;
      assert props[k + 1] == props[1..][k];
      assert forall j | 1 <= j < k + 1 :: props[j] == props[1..][j - 1];
    }
  }

  // ---------------------------------------------------------------------------
  // The whole document

  /** The sub-sequence of `paths` that are collections, in order. */
  function Qualifying(paths: seq<(string, PathItem)>): (r: seq<(string, PathItem)>)
    ensures |r| <= |paths|
    ensures forall e | e in r :: e in paths && Qualifies(e.0)
    ensures forall e | e in paths && Qualifies(e.0) :: e in r
    decreases |paths|
  {
    if paths == [] then []
    else if Qualifies(paths[0].0) then [paths[0]] + Qualifying(paths[1..])
    else Qualifying(paths[1..])
  }

  /** Filtering keeps order: the collections of `ps + qs` are those of `ps` followed by those of `qs`. */
  lemma {:induction false} QualifyingAppend(ps: seq<(string, PathItem)>, qs: seq<(string, PathItem)>)
    ensures Qualifying(ps + qs) == Qualifying(ps) + Qualifying(qs)
  {
    if ps == [] {
      assert ps + qs == qs;
    } else {
      assert (ps + qs)[0] == ps[0] && (ps + qs)[1..] == ps[1..] + qs;
      QualifyingAppend(ps[1..], qs);
    }
  }

  /** `/` and the `/rpc/` paths are never resolved: the run is the run over the collections alone,
      so what those paths hold does not matter. */
  lemma {:induction false} RunOnlySeesCollections(defs: map<string, ModelDef>, paths: seq<(string, PathItem)>)
    ensures Run(defs, paths) == Run(defs, Qualifying(paths))
  {
    if paths != [] {
      RunOnlySeesCollections(defs, paths[1..]);
      if Qualifies(paths[0].0) {
        var q := [paths[0]] + Qualifying(paths[1..]);
        assert q[0] == paths[0] && q[1..] == Qualifying(paths[1..]);
      }
    }
  }

  /** The root path, every `/rpc/` path and nothing else is skipped: `/rpc` without the
      trailing slash is a collection. */
  lemma QualifyingPaths()
    ensures !Qualifies("/")
    ensures !Qualifies("/rpc/foo")
    ensures Qualifies("/rpc")
    ensures Qualifies("/widgets")
    ensures forall c: string :: StartsWith(c, "/rpc/") ==> !Qualifies(c)
  {
    NotAnRpc("/widgets");
  }

  /** A path whose second character is not `r` is not under `/rpc/`. */
  lemma NotAnRpc(c: string)
    requires |c| >= 2 && c[1] != 'r'
    ensures !StartsWith(c, "/rpc/")
  {
  }

  /** Running over two parts of `paths` is running over the first and, unless it failed,
      continuing with the second: collections written before a failure stay written, and
      nothing after a failure is compiled. */
  lemma {:induction false} RunAppend(defs: map<string, ModelDef>, ps: seq<(string, PathItem)>, qs: seq<(string, PathItem)>)
    ensures Run(defs, ps + qs) == Then(Run(defs, ps), Run(defs, qs))
  {
    if ps == [] {
      assert ps + qs == qs;
      assert [] + Run(defs, qs).written == Run(defs, qs).written;
    } else {
      assert (ps + qs)[0] == ps[0] && (ps + qs)[1..] == ps[1..] + qs;
      RunAppend(defs, ps[1..], qs);
      var a, b := Run(defs, ps[1..]), Run(defs, qs);
      if a.failure.None? {
        assert forall s: SchemaFile :: [s] + (a.written + b.written) == ([s] + a.written) + b.written;
      }
    }
  }

  /** When a collection fails after a run over `ps` that succeeded, the files written are
      exactly those of `ps`, the error is that collection's, and nothing later is compiled. */
  lemma RunStopsAtFailure(defs: map<string, ModelDef>, ps: seq<(string, PathItem)>,
                          c: string, item: PathItem, qs: seq<(string, PathItem)>)
    requires Run(defs, ps).failure.None?
    requires Qualifies(c) && CompileCollection(defs, c, item).Err?
    ensures Run(defs, ps + [(c, item)] + qs).written == Run(defs, ps).written
    ensures Run(defs, ps + [(c, item)] + qs).failure == Some(CompileCollection(defs, c, item).error)
  {
    assert ps + [(c, item)] + qs == ps + ([(c, item)] + qs);
    RunAppend(defs, ps, [(c, item)] + qs);
    assert ([(c, item)] + qs)[0] == (c, item);
  }

  /** The run ends without error exactly when every collection compiles. */
  lemma {:induction false} RunSucceedsIff(defs: map<string, ModelDef>, paths: seq<(string, PathItem)>)
    ensures Run(defs, paths).failure.None? <==>
      forall i | 0 <= i < |paths| && Qualifies(paths[i].0) :: CompileCollection(defs, paths[i].0, paths[i].1).Ok?
  {
    if paths != [] {
      RunSucceedsIff(defs, paths[1..]);
      assert forall i | 1 <= i < |paths| :: paths[i] == paths[1..][i - 1];
    }
  }

  /** A failed run reports the error of its first collection that does not compile. */
  lemma {:induction false} RunFailureIsFirst(defs: map<string, ModelDef>, paths: seq<(string, PathItem)>)
    requires Run(defs, paths).failure.Some?
    ensures exists k | 0 <= k < |paths| ::
      && Qualifies(paths[k].0)
      && CompileCollection(defs, paths[k].0, paths[k].1) == Err(Run(defs, paths).failure.value)
      && forall j | 0 <= j < k && Qualifies(paths[j].0) :: CompileCollection(defs, paths[j].0, paths[j].1).Ok?
  {
    var c := paths[0].0;
    if !Qualifies(c) || CompileCollection(defs, c, paths[0].1).Ok? {
      RunFailureIsFirst(defs, paths[1..]);
      var k :| 0 <= k < |paths[1..]|
        && Qualifies(paths[1..][k].0)
        && CompileCollection(defs, paths[1..][k].0, paths[1..][k].1) == Err(Run(defs, paths[1..]).failure.value)
        && forall j | 0 <= j < k && Qualifies(paths[1..][j].0) ::
             CompileCollection(defs, paths[1..][j].0, paths[1..][j].1).Ok?;
      assert paths[k + 1] == paths[1..][k];
      assert forall j | 1 <= j < k + 1 :: paths[j] == paths[1..][j - 1];
    }
  }

  /** When every path is a collection and the run succeeds, file `i` is collection `i`,
      named without its leading character, holding that collection's compiled fields. */
  lemma {:induction false} RunWritesEachCollection(defs: map<string, ModelDef>, paths: seq<(string, PathItem)>)
    requires forall i | 0 <= i < |paths| :: Qualifies(paths[i].0)
    requires Run(defs, paths).failure.None?
    ensures |Run(defs, paths).written| == |paths|
    ensures forall i | 0 <= i < |paths| ::
      && CompileCollection(defs, paths[i].0, paths[i].1).Ok?
      && Run(defs, paths).written[i]
         == SchemaFile(CollectionName(paths[i].0), CompileCollection(defs, paths[i].0, paths[i].1).value)
  {
    if paths != [] {
      var tail := paths[1..];
      assert forall i | 0 <= i < |tail| :: tail[i] == paths[i + 1];
      assert Qualifies(paths[0].0);
      var head := CompileCollection(defs, paths[0].0, paths[0].1);
      assert head.Ok?;
      var rest := Run(defs, tail);
      assert Run(defs, paths) == RunOutcome([SchemaFile(CollectionName(paths[0].0), head.value)] + rest.written, rest.failure);
      RunWritesEachCollection(defs, tail);
      var w := Run(defs, paths).written;
      assert forall i | 1 <= i < |paths| :: w[i] == rest.written[i - 1] && paths[i] == tail[i - 1];
    }
  }

  /** A run that succeeds writes file `i` for the `i`-th collection among `paths`, named
      without its first character, holding that collection's compiled fields. */
  lemma {:induction false} RunWritesQualifying(defs: map<string, ModelDef>, paths: seq<(string, PathItem)>)
    requires Run(defs, paths).failure.None?
    ensures var q := Qualifying(paths);
      && |Run(defs, paths).written| == |q|
      && forall i | 0 <= i < |q| ::
           && CompileCollection(defs, q[i].0, q[i].1).Ok?
           && Run(defs, paths).written[i] == SchemaFile(CollectionName(q[i].0), CompileCollection(defs, q[i].0, q[i].1).value)
  {
    var q := Qualifying(paths);
    RunOnlySeesCollections(defs, paths);
    assert forall i | 0 <= i < |q| :: q[i] in q;
    RunWritesEachCollection(defs, q);
  }

  // ---------------------------------------------------------------------------
  // Worked scenarios

  function WidgetsItem(): PathItem
  {
    PathItem(Some(Operation(map["200" := Response(Some(Schema(Some(SchemaItems(Some("#/definitions/widgets"))))))])))
  }

  function WidgetsModel(): ModelDef
  {
    ModelDef(
      Some("object"),
      [("id", Property(Some("string"), Some("uuid"), None, None, None)),
       ("qty", Property(Some("integer"), None, None, None, None))],
      Some(["id"]))
  }

  /** `/` and `/rpc/foo` are skipped and `/widgets` yields one file with a required uuid string
      and an optional integer. */
  lemma WidgetsScenario(root: PathItem, rpc: PathItem)
    ensures Run(map["widgets" := WidgetsModel()], [("/", root), ("/rpc/foo", rpc), ("/widgets", WidgetsItem())])
      == RunOutcome(
           [SchemaFile("widgets", [
              Field("id", None, None, String, None, None, Some(true), None),
              Field("qty", None, None, Integer, None, None, Some(false), None)])],
           None)
  {
    var paths := [("/", root), ("/rpc/foo", rpc), ("/widgets", WidgetsItem())];
    var defs := map["widgets" := WidgetsModel()];
    assert StartsWith("/rpc/foo", "/rpc/");
    NotAnRpc("/widgets");
    assert paths[1..][1..] == [("/widgets", WidgetsItem())];
    SliceAfterPrefix(DefinitionsPrefix, "widgets");
    assert DefinitionsPrefix + "widgets" == "#/definitions/widgets";
    assert ModelRef(WidgetsItem()) == Some("#/definitions/widgets");
    assert ResolveModel(defs, "/widgets", WidgetsItem()) == Ok(WidgetsModel());
    assert CollectionName("/widgets") == "widgets";
    var props := WidgetsModel().properties;
    assert "qty" !in ["id"];
    var id := Field("id", None, None, String, None, None, Some(true), None);
    var qty := Field("qty", None, None, Integer, None, None, Some(false), None);
    var tail := props[1..];
    assert tail != [] && tail[0].0 == "qty" && tail[0].1 == props[1].1 && tail[1..] == [];
    assert CompileField(tail[0].0, tail[0].1, Some(["id"]), "widgets") == Ok(qty);
    assert CompileProperties(tail[1..], Some(["id"]), "widgets") == Ok([]);
    assert [qty] + [] == [qty];
    assert CompileProperties(tail, Some(["id"]), "widgets") == Ok([qty]);
    assert MapProperty(props[0].1) == Ok(Plain(String));
    assert CompileField("id", props[0].1, Some(["id"]), "widgets") == Ok(id);
    assert props != [] && props[0].0 == "id" && props[1..] == tail;
    assert [id] + [qty] == [id, qty];
    assert CompileProperties(props, Some(["id"]), "widgets") == Ok([id, qty]);
    assert paths[1..][1..][0] == ("/widgets", WidgetsItem()) && paths[1..][1..][1..] == [];
    assert Run(defs, paths[1..][1..][1..]) == RunOutcome([], None);
    assert Run(defs, paths[1..][1..]) == RunOutcome([SchemaFile("widgets", [id, qty])], None);
    assert Run(defs, paths[1..]) == Run(defs, paths[1..][1..]);
  }

  /** An unknown string format aborts the run with an error naming the property and the
      collection, and nothing is written for that collection or any later one. */
  lemma MoneyScenario(later: PathItem)
    ensures var money := ModelDef(Some("object"), [("price", Property(Some("string"), Some("money"), None, None, None))], None);
      Run(map["widgets" := money], [("/widgets", WidgetsItem()), ("/later", later)])
      == RunOutcome([], Some(UnmappableProperty("price", "widgets", UnexpectedStringFormat(Some("money")))))
  {
    NotAnRpc("/widgets");
    SliceAfterPrefix(DefinitionsPrefix, "widgets");
  }
}
