/** The compiler: which paths are collections, how a collection's model is found, how a model
    becomes its list of field descriptors, and the run over the whole document. */
module SchemaCompiler {
  import opened Wrappers
  import opened Strings
  import opened OpenApi
  import opened FieldMapping

  /** One Zapier FieldSchema entry. `label` (here `labelText`) and `placeholder` are always `undefined`;
      `required` is `undefined` when the model has no `required` array. */
  datatype Field = Field(
    key: string,
    labelText: Option<string>,
    helpText: Option<string>,
    fieldType: FieldType,
    list: Option<bool>,
    choices: Option<seq<string>>,
    required: Option<bool>,
    placeholder: Option<string>)

  /** The errors that abort the run; each carries what its message names. */
  datatype CompileError =
    | MissingModelRef(collection: string)
    | MalformedRef(reference: string)
    | UnresolvedModel(reference: string)
    | WrongModelKind(modelType: Option<string>)
    | UnmappableProperty(property: string, collection: string, issue: PropertyIssue)

  /** One output file: the collection name and its field list. */
  datatype SchemaFile = SchemaFile(name: string, fields: seq<Field>)

  /** What a run leaves behind: the files written, in order, and the error that stopped it, if any. */
  datatype RunOutcome = RunOutcome(written: seq<SchemaFile>, failure: Option<CompileError>)

  const DefinitionsPrefix: string := "#/definitions/"

  /** A path is a collection unless it is the introspection root `/` or an RPC under `/rpc/`. */
  function Qualifies(collection: string): (r: bool)
    ensures r <==> collection != "/" && !exists rest :: collection == "/rpc/" + rest
  {
    collection != "/" && !StartsWith(collection, "/rpc/")
  }

  /** `collection.slice('/'.length)`: the first character is dropped whatever it is. */
  function CollectionName(collection: string): (r: string)
    ensures collection != "" ==> [collection[0]] + r == collection
    ensures collection == "" ==> r == ""
  {
    SliceFrom(collection, 1)
  }

  /** Follows the collection's `$ref` to its model. A missing or empty reference, a reference
      outside `#/definitions/`, an unknown name and a model that is not an object each fail;
      in every other case the reference resolves. */
  function ResolveModel(defs: map<string, ModelDef>, collection: string, item: PathItem): (r: Result<ModelDef, CompileError>)
    ensures r.Ok? <==>
      && ModelRef(item).Some? && ModelRef(item).value != ""
      && StartsWith(ModelRef(item).value, DefinitionsPrefix)
      && SliceFrom(ModelRef(item).value, |DefinitionsPrefix|) in defs
      && defs[SliceFrom(ModelRef(item).value, |DefinitionsPrefix|)].modelType == Some("object")
    ensures r.Err? ==> !r.error.UnmappableProperty?
    ensures r.Ok? ==>
      && r.value.modelType == Some("object")
      && exists name | name in defs :: defs[name] == r.value && ModelRef(item) == Some(DefinitionsPrefix + name)
    ensures r == Err(MissingModelRef(CollectionName(collection))) <==> ModelRef(item) == None || ModelRef(item) == Some("")
    ensures (r.Err? && r.error.MalformedRef?) <==>
      ModelRef(item).Some? && ModelRef(item).value != "" && !StartsWith(ModelRef(item).value, DefinitionsPrefix)
    ensures (r.Err? && r.error.UnresolvedModel?) <==>
      && ModelRef(item).Some? && StartsWith(ModelRef(item).value, DefinitionsPrefix)
      && SliceFrom(ModelRef(item).value, |DefinitionsPrefix|) !in defs
    ensures (r.Err? && r.error.WrongModelKind?) <==>
      && ModelRef(item).Some? && StartsWith(ModelRef(item).value, DefinitionsPrefix)
      && SliceFrom(ModelRef(item).value, |DefinitionsPrefix|) in defs
      && defs[SliceFrom(ModelRef(item).value, |DefinitionsPrefix|)].modelType != Some("object")
    ensures r.Err? && r.error.WrongModelKind? ==>
      r.error.modelType == defs[SliceFrom(ModelRef(item).value, |DefinitionsPrefix|)].modelType
    ensures r.Err? && (r.error.MalformedRef? || r.error.UnresolvedModel?) ==> r.error.reference == ModelRef(item).value
  {
    match ModelRef(item)
    case None => Err(MissingModelRef(CollectionName(collection)))
    case Some(ref) =>
      if ref == "" then Err(MissingModelRef(CollectionName(collection)))
      else if !StartsWith(ref, DefinitionsPrefix) then Err(MalformedRef(ref))
      else
        var name := SliceFrom(ref, |DefinitionsPrefix|);
        if name !in defs then Err(UnresolvedModel(ref))
        else if defs[name].modelType != Some("object") then Err(WrongModelKind(defs[name].modelType))
        else
          assert ref == DefinitionsPrefix + name;
          Ok(defs[name])
  }

  /** `model.required?.includes(key)`: `undefined` without a `required` array, otherwise membership. */
  function RequiredFlag(required: Option<seq<string>>, key: string): (r: Option<bool>)
    ensures r == Some(true) <==> required.Some? && key in required.value
    ensures r == Some(false) <==> required.Some? && key !in required.value
    ensures r == None <==> required.None?
  {
    match required
    case None => None
    case Some(names) => Some(key in names)
  }

  /** The descriptor of property `key`, or the error naming it and its collection: the table
      chooses type, list and choices; the rest of the descriptor comes from the property. */
  function CompileField(key: string, p: Property, required: Option<seq<string>>, collection: string)
    : (r: Result<Field, CompileError>)
    ensures r.Ok? <==> MapProperty(p).Ok?
    ensures r.Err? ==> r.error == UnmappableProperty(key, collection, MapProperty(p).error)
    ensures r.Ok? ==>
      && r.value.key == key
      && r.value.labelText == None && r.value.placeholder == None
      && r.value.helpText == p.description
      && (r.value.required == Some(true) <==> required.Some? && key in required.value)
      && (r.value.required == None <==> required.None?)
      && MapProperty(p) == Ok(TypeChoice(r.value.fieldType, r.value.list, r.value.choices))
  {
    match MapProperty(p)
    case Err(issue) => Err(UnmappableProperty(key, collection, issue))
    case Ok(choice) =>
      Ok(Field(key, None, p.description, choice.fieldType, choice.list, choice.choices, RequiredFlag(required, key), None))
  }

  /** The field list of a model: one descriptor per property in order, or the first property's error. */
  function CompileProperties(props: seq<(string, Property)>, required: Option<seq<string>>, collection: string)
    : (r: Result<seq<Field>, CompileError>)
    ensures r.Ok? ==> |r.value| == |props|
    ensures r.Err? ==> r.error.UnmappableProperty? && r.error.collection == collection
    decreases |props|
  {
    if props == [] then Ok([])
    else
      match CompileField(props[0].0, props[0].1, required, collection)
      case Err(e) => Err(e)
      case Ok(f) =>
        match CompileProperties(props[1..], required, collection)
        case Err(e) => Err(e)
        case Ok(fs) => Ok([f] + fs)
  }

  /** The fields already built followed by the result for the properties still to come. */
  function Prepend(done: seq<Field>, rest: Result<seq<Field>, CompileError>): Result<seq<Field>, CompileError>
  {
    match rest
    case Err(e) => Err(e)
    case Ok(fs) => Ok(done + fs)
  }

  /** The loop over `model.properties`, pushing one descriptor per property. */
  method CompileModel(model: ModelDef, collection: string) returns (r: Result<seq<Field>, CompileError>)
    ensures r == CompileProperties(model.properties, model.required, collection)
    ensures r.Ok? ==> |r.value| == |model.properties|
    ensures r.Ok? ==> forall i | 0 <= i < |model.properties| :: r.value[i].key == model.properties[i].0
  {
    var props := model.properties;
    var schema: seq<Field> := [];
    var i := 0;
    assert props[0..] == props;
    ghost var all := CompileProperties(props, model.required, collection);
    if all.Ok? {
      assert [] + all.value == all.value;
    }
    while i < |props|
      invariant 0 <= i <= |props|
      invariant |schema| == i
      invariant forall j | 0 <= j < i :: schema[j].key == props[j].0
      invariant CompileProperties(props, model.required, collection)
                == Prepend(schema, CompileProperties(props[i..], model.required, collection))
    {
      var key := props[i].0;
      var p := props[i].1;
      assert props[i..][0] == props[i] && props[i..][1..] == props[i + 1..];
      var compiled := CompileField(key, p, model.required, collection);
      if compiled.Err? {
        return Err(compiled.error);
      }
      var field := compiled.value;
      ghost var rest := CompileProperties(props[i + 1..], model.required, collection);
      assert CompileProperties(props[i..], model.required, collection) == Prepend([field], rest);
      if rest.Ok? {
        assert schema + ([field] + rest.value) == (schema + [field]) + rest.value;
      }
      schema := schema + [field];
      i := i + 1;
    }
    assert props[i..] == [];
    assert schema + [] == schema;
    r := Ok(schema);
  }

  /** The compiled fields of one collection: resolution, then the model's properties. */
  function CompileCollection(defs: map<string, ModelDef>, collection: string, item: PathItem)
    : (r: Result<seq<Field>, CompileError>)
    ensures ResolveModel(defs, collection, item).Err? ==> r == Err(ResolveModel(defs, collection, item).error)
    ensures ResolveModel(defs, collection, item).Ok? ==>
      r == CompileProperties(ResolveModel(defs, collection, item).value.properties,
                             ResolveModel(defs, collection, item).value.required, CollectionName(collection))
    ensures r.Ok? ==> |r.value| == |ResolveModel(defs, collection, item).value.properties|
    ensures r.Err? && r.error.UnmappableProperty? ==>
      ResolveModel(defs, collection, item).Ok? && r.error.collection == CollectionName(collection)
  {
    match ResolveModel(defs, collection, item)
    case Err(e) => Err(e)
    case Ok(model) => CompileProperties(model.properties, model.required, CollectionName(collection))
  }

  /** The run over `paths` in order: skipped paths leave no trace, each collection is written
      as soon as it compiles, and the first error stops the run. */
  function Run(defs: map<string, ModelDef>, paths: seq<(string, PathItem)>): (r: RunOutcome)
    ensures |r.written| <= |paths|
    decreases |paths|
  {
    if paths == [] then RunOutcome([], None)
    else
      var collection := paths[0].0;
      if !Qualifies(collection) then Run(defs, paths[1..])
      else
        match CompileCollection(defs, collection, paths[0].1)
        case Err(e) => RunOutcome([], Some(e))
        case Ok(fields) =>
          var rest := Run(defs, paths[1..]);
          RunOutcome([SchemaFile(CollectionName(collection), fields)] + rest.written, rest.failure)
  }

  /** The outcome of running over one part of `paths` and then another. */
  function Then(first: RunOutcome, second: RunOutcome): RunOutcome
  {
    if first.failure.Some? then first
    else RunOutcome(first.written + second.written, second.failure)
  }

  /** The top-level loop over `data.paths`. */
  method CompileDoc(doc: Document) returns (written: seq<SchemaFile>, failure: Option<CompileError>)
    ensures RunOutcome(written, failure) == Run(doc.definitions, doc.paths)
  {
    var paths := doc.paths;
    written := [];
    var i := 0;
    while i < |paths|
      invariant 0 <= i <= |paths|
      invariant Run(doc.definitions, paths) == Then(RunOutcome(written, None), Run(doc.definitions, paths[i..]))
    {
      var collection := paths[i].0;
      assert paths[i..][0] == paths[i] && paths[i..][1..] == paths[i + 1..];
      if !Qualifies(collection) {
        i := i + 1;
        continue;
      }
      var model := ResolveModel(doc.definitions, collection, paths[i].1);
      if model.Err? {
        return written, Some(model.error);
      }
      var fields := CompileModel(model.value, CollectionName(collection));
      if fields.Err? {
        return written, Some(fields.error);
      }
      written := written + [SchemaFile(CollectionName(collection), fields.value)];
      i := i + 1;
    }
    assert paths[i..] == [];
    assert written + [] == written;
    failure := None;
  }
}
