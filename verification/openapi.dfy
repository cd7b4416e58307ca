/** The parsed PostgREST OpenAPI 2.0 document, reduced to the parts the compiler reads.
    Every field that JavaScript reads through `?.` or that may be `undefined` is an `Option`. */
module OpenApi {
  import opened Wrappers

  /** The `items` object of an array-typed property; only its `type` is read. */
  datatype Items = Items(itemType: Option<string>)

  /** One column of a model: `type`, `format`, `items`, `enum` and `description`. */
  datatype Property = Property(
    propType: Option<string>,
    format: Option<string>,
    items: Option<Items>,
    enumValues: Option<seq<string>>,
    description: Option<string>)

  /** One entry of `definitions`: `type`, `properties` in enumeration order, and `required`.
      An absent `properties` object enumerates nothing, so it is the empty sequence here. */
  datatype ModelDef = ModelDef(
    modelType: Option<string>,
    properties: seq<(string, Property)>,
    required: Option<seq<string>>)

  /** The links of `get.responses["200"].schema.items.$ref`. */
  datatype SchemaItems = SchemaItems(reference: Option<string>)
  datatype Schema = Schema(items: Option<SchemaItems>)
  datatype Response = Response(schema: Option<Schema>)
  datatype Operation = Operation(responses: map<string, Response>)
  datatype PathItem = PathItem(get: Option<Operation>)

  /** The document: `paths` in key order and `definitions` by name. */
  datatype Document = Document(
    paths: seq<(string, PathItem)>,
    definitions: map<string, ModelDef>)

  /** `get?.responses?.['200']?.schema?.items?.$ref`: `None` as soon as a link is missing. */
  function ModelRef(item: PathItem): Option<string>
  {
    match item.get
    case None => None
    case Some(op) =>
      if "200" !in op.responses then None
      else match op.responses["200"].schema
        case None => None
        case Some(schema) =>
          match schema.items
          case None => None
          case Some(items) => items.reference
  }

  /** Reading the reference back out of a fully built chain gives the reference that was put
      in; a chain broken at the `get`, `"200"`, `schema` or `items` link gives `undefined`. */
  lemma ModelRefReadsChain(responses: map<string, Response>, reference: Option<string>)
    ensures ModelRef(PathItem(Some(Operation(responses["200" := Response(Some(Schema(Some(SchemaItems(reference)))))]))))
            == reference
    ensures ModelRef(PathItem(None)) == None
    ensures "200" !in responses ==> ModelRef(PathItem(Some(Operation(responses)))) == None
    ensures "200" in responses && responses["200"].schema.None? ==>
              ModelRef(PathItem(Some(Operation(responses)))) == None
    ensures "200" in responses && responses["200"].schema == Some(Schema(None)) ==>
              ModelRef(PathItem(Some(Operation(responses)))) == None
  {
  }

  /** `items?.type` of a property. */
  function ItemType(p: Property): Option<string>
  {
    match p.items
    case None => None
    case Some(items) => items.itemType
  }

  /** `items?.type` is the declared item type when `items` is present, and `undefined` both
      when `items` is missing and when it has no `type`. */
  lemma ItemTypeReadsItems(p: Property, itemType: Option<string>)
    ensures ItemType(p.(items := Some(Items(itemType)))) == itemType
    ensures ItemType(p.(items := None)) == None
    ensures ItemType(p).Some? <==> p.items.Some? && p.items.value.itemType.Some?
  {
  }
}
