/** The per-property decision table: which Zapier field type a PostgREST column becomes. */
module FieldMapping {
  import opened Wrappers
  import opened Strings
  import opened OpenApi

  /** The target `type` values of a Zapier FieldSchema that the compiler produces. */
  datatype FieldType = Text | String | Datetime | Boolean | Number | Integer | File

  /** What the table decides for one property: the target type, and `list` and `choices`,
      which stay `undefined` except on the array and the enum branches. */
  datatype TypeChoice = TypeChoice(fieldType: FieldType, list: Option<bool>, choices: Option<seq<string>>)

  /** Why a property cannot be mapped; each is one of the `throw`s of the table. */
  datatype PropertyIssue =
    | UnexpectedStringFormat(format: Option<string>)
    | UndefinedItemsType
    | UnexpectedItemsType(itemType: string)
    | UnexpectedUndefinedFormat(format: Option<string>)
    | UnexpectedPropertyType(propType: string)

  /** A plain target type, with neither `list` nor `choices`. */
  function Plain(t: FieldType): TypeChoice
  {
    TypeChoice(t, None, None)
  }

  const DatetimeFormats: set<string> := {"date", "timestamp with time zone", "time without time zone"}
  const PlainStringFormats: set<string> := {"name", "tsvector", "character", "character varying"}

  /** The inner `switch` on `format` for a `string`-typed property. The two prefix tests use
      `format?.startsWith`, so a missing format skips both and reaches the error. */
  function MapStringFormat(format: Option<string>, enumValues: Option<seq<string>>): (r: Result<TypeChoice, PropertyIssue>)
    ensures r.Ok? ==> r.value.fieldType in {Text, String, Datetime} && r.value.list == None
    ensures r.Ok? && r.value.choices.Some? ==> r.value.choices == enumValues
    ensures format.None? ==> r.Err?
    ensures r.Err? ==> r.error == UnexpectedStringFormat(format)
  {
    match format
    case None => Err(UnexpectedStringFormat(None))
    case Some(f) =>
      if f == "text" then Ok(Plain(Text))
      else if f == "uuid" then Ok(Plain(String))
      else if f in DatetimeFormats then Ok(Plain(Datetime))
      else if f in PlainStringFormats then Ok(Plain(String))
      else if StartsWith(f, "public.geography") then Ok(Plain(String))
      else if StartsWith(f, "public.") && enumValues.Some? then Ok(TypeChoice(String, None, enumValues))
      else Err(UnexpectedStringFormat(format))
  }

  /** The outer `switch` on the property's `type`. */
  function MapProperty(p: Property): (r: Result<TypeChoice, PropertyIssue>)
    // each error belongs to one branch of the table and carries the value its message names
    ensures r.Err? && r.error.UnexpectedStringFormat? ==>
      p.propType == Some("string") && r.error.format == p.format
    ensures r.Err? && (r.error.UndefinedItemsType? || r.error.UnexpectedItemsType?) ==> p.propType == Some("array")
    ensures r.Err? && r.error.UnexpectedItemsType? ==>
      ItemType(p) == Some(r.error.itemType) && r.error.itemType !in {"", "string", "integer"}
    ensures r.Err? && r.error.UnexpectedUndefinedFormat? ==>
      p.propType == None && r.error.format == p.format && p.format !in {Some("json"), Some("jsonb")}
    ensures r.Err? && r.error.UnexpectedPropertyType? ==>
      && p.propType == Some(r.error.propType)
      && r.error.propType !in {"string", "boolean", "number", "integer", "array"}
  {
    match p.propType
    case None =>
      if p.format == Some("json") then Ok(Plain(String))
      else if p.format == Some("jsonb") then Ok(Plain(File))
      else Err(UnexpectedUndefinedFormat(p.format))
    case Some(t) =>
      if t == "string" then MapStringFormat(p.format, p.enumValues)
      else if t == "boolean" then Ok(Plain(Boolean))
      else if t == "number" then Ok(Plain(Number))
      else if t == "integer" then Ok(Plain(Integer))
      else if t == "array" then
        // `!items?.type` also rejects the empty string
        var it := ItemType(p);
        if it.None? || it.value == "" then Err(UndefinedItemsType)
        else if it.value == "string" then Ok(TypeChoice(String, Some(true), None))
        else if it.value == "integer" then Ok(TypeChoice(Integer, Some(true), None))
        else Err(UnexpectedItemsType(it.value))
      else Err(UnexpectedPropertyType(t))
  }

  /** The rows of the table for `type: "string"` that name one exact format. */
  const StringFormatTable: seq<(string, FieldType)> := [
    ("text", Text),
    ("uuid", String),
    ("date", Datetime),
    ("timestamp with time zone", Datetime),
    ("time without time zone", Datetime),
    ("name", String),
    ("tsvector", String),
    ("character", String),
    ("character varying", String)
  ]

  /** An independent description of the table, organised by target type:
      the shapes of property that become a field of type `t`. */
  predicate Yields(p: Property, t: FieldType)
  {
    var f := p.format;
    match t
    case Text => p.propType == Some("string") && f == Some("text")
    case Datetime => p.propType == Some("string") && f.Some? && f.value in DatetimeFormats
    case Boolean => p.propType == Some("boolean")
    case Number => p.propType == Some("number")
    case Integer =>
      p.propType == Some("integer") || (p.propType == Some("array") && ItemType(p) == Some("integer"))
    case File => p.propType == None && f == Some("jsonb")
    case String =>
      || (p.propType == None && f == Some("json"))
      || (p.propType == Some("array") && ItemType(p) == Some("string"))
      || (p.propType == Some("string") && f.Some? &&
          (|| f.value == "uuid"
           || f.value in PlainStringFormats
           || StartsWith(f.value, "public.geography")
           || (StartsWith(f.value, "public.") && p.enumValues.Some?)))
  }

  /** None of the exact string formats starts with `public.`, so the prefix rows never shadow them. */
  lemma ExactFormatsAreNotPublic(f: string)
    requires f == "text" || f == "uuid" || f in DatetimeFormats || f in PlainStringFormats
    ensures !StartsWith(f, "public.")
    ensures !StartsWith(f, "public.geography")
  {
    assert |f| > 0 && f[0] != 'p';
    if |f| >= 7 {
      assert f[..7][0] == f[0];
    }
    if |f| >= 16 {
      assert f[..16][0] == f[0];
    }
  }

  /** Every exact-format row of the string table gives its target type, whatever the enum,
      and never sets `list` or `choices`. */
  lemma StringFormatTableRows(k: nat, items: Option<Items>, enumValues: Option<seq<string>>, description: Option<string>)
    requires k < |StringFormatTable|
    ensures MapProperty(Property(Some("string"), Some(StringFormatTable[k].0), items, enumValues, description))
            == Ok(Plain(StringFormatTable[k].1))
  {
  }

  /** A `string` property maps exactly when its format is one of the exact rows, has the
      `public.geography` prefix, or has the `public.` prefix and an enum; a missing format fails. */
  lemma StringPropertyMapsIff(p: Property)
    requires p.propType == Some("string")
    ensures MapProperty(p).Ok? <==>
      p.format.Some? &&
      ((exists k | 0 <= k < |StringFormatTable| :: StringFormatTable[k].0 == p.format.value)
       || StartsWith(p.format.value, "public.geography")
       || (StartsWith(p.format.value, "public.") && p.enumValues.Some?))
    ensures MapProperty(p).Err? ==> MapProperty(p) == Err(UnexpectedStringFormat(p.format))
  {
    if p.format.Some? {
      var f := p.format.value;
      if f == "text" { assert StringFormatTable[0].0 == f; }
      else if f == "uuid" { assert StringFormatTable[1].0 == f; }
      else if f == "date" { assert StringFormatTable[2].0 == f; }
      else if f == "timestamp with time zone" { assert StringFormatTable[3].0 == f; }
      else if f == "time without time zone" { assert StringFormatTable[4].0 == f; }
      else if f == "name" { assert StringFormatTable[5].0 == f; }
      else if f == "tsvector" { assert StringFormatTable[6].0 == f; }
      else if f == "character" { assert StringFormatTable[7].0 == f; }
      else if f == "character varying" { assert StringFormatTable[8].0 == f; }
    }
  }

  /** The table and the by-target description agree: a property becomes a field of type `t`
      exactly when it is one of the shapes `Yields` lists for `t`. */
  lemma MapPropertyYields(p: Property, t: FieldType)
    ensures (MapProperty(p).Ok? && MapProperty(p).value.fieldType == t) <==> Yields(p, t)
  {
    if p.format.Some? {
      var f := p.format.value;
      if f == "text" || f == "uuid" || f in DatetimeFormats || f in PlainStringFormats {
        ExactFormatsAreNotPublic(f);
      }
    }
  }

  /** `list` is set, and then to `true`, exactly on the array branch. */
  lemma ListOnlyForArrays(p: Property)
    requires MapProperty(p).Ok?
    ensures MapProperty(p).value.list == if p.propType == Some("array") then Some(true) else None
  {
  }

  /** `choices` is set exactly on the `public.` + enum branch, and then it is the enum verbatim. */
  lemma ChoicesOnlyForPublicEnums(p: Property)
    requires MapProperty(p).Ok?
    ensures MapProperty(p).value.choices.Some? <==>
      && p.propType == Some("string")
      && p.format.Some?
      && StartsWith(p.format.value, "public.")
      && !StartsWith(p.format.value, "public.geography")
      && p.enumValues.Some?
    ensures MapProperty(p).value.choices.Some? ==> MapProperty(p).value.choices == p.enumValues
  {
    if p.format.Some? {
      var f := p.format.value;
      if f == "text" || f == "uuid" || f in DatetimeFormats || f in PlainStringFormats {
        ExactFormatsAreNotPublic(f);
      }
    }
  }

  /** A `public.geography` format is a plain string even when an enum is present,
      because its test comes before the enum test. */
  lemma GeographyIgnoresEnum(f: string, items: Option<Items>, enumValues: Option<seq<string>>, description: Option<string>)
    requires StartsWith(f, "public.geography")
    ensures MapProperty(Property(Some("string"), Some(f), items, enumValues, description)) == Ok(Plain(String))
  {
    if f == "text" || f == "uuid" || f in DatetimeFormats || f in PlainStringFormats {
      ExactFormatsAreNotPublic(f);
    }
  }

  /** Any other `public.` format with an enum, even an empty one (an empty array is truthy),
      is a string whose choices are the enum in order. */
  lemma PublicEnumGivesChoices(f: string, items: Option<Items>, e: seq<string>, description: Option<string>)
    requires StartsWith(f, "public.") && !StartsWith(f, "public.geography")
    ensures MapProperty(Property(Some("string"), Some(f), items, Some(e), description)) == Ok(TypeChoice(String, None, Some(e)))
  {
    if f == "text" || f == "uuid" || f in DatetimeFormats || f in PlainStringFormats {
      ExactFormatsAreNotPublic(f);
    }
  }

  /** `boolean`, `number` and `integer` become the same-named target type; any type outside the
      table is an error naming it. */
  lemma ScalarAndUnknownTypes(p: Property)
    ensures p.propType == Some("boolean") ==> MapProperty(p) == Ok(Plain(Boolean))
    ensures p.propType == Some("number") ==> MapProperty(p) == Ok(Plain(Number))
    ensures p.propType == Some("integer") ==> MapProperty(p) == Ok(Plain(Integer))
    ensures p.propType.Some? && p.propType.value !in {"string", "boolean", "number", "integer", "array"} ==>
      MapProperty(p) == Err(UnexpectedPropertyType(p.propType.value))
  {
  }

  /** An array needs a non-empty `items.type`, and only `string` and `integer` items are known. */
  lemma ArrayPropertyMapping(p: Property)
    requires p.propType == Some("array")
    ensures ItemType(p) == None || ItemType(p) == Some("") ==> MapProperty(p) == Err(UndefinedItemsType)
    ensures ItemType(p) == Some("string") ==> MapProperty(p) == Ok(TypeChoice(String, Some(true), None))
    ensures ItemType(p) == Some("integer") ==> MapProperty(p) == Ok(TypeChoice(Integer, Some(true), None))
    ensures ItemType(p).Some? && ItemType(p).value !in {"", "string", "integer"} ==>
      MapProperty(p) == Err(UnexpectedItemsType(ItemType(p).value))
  {
  }

  /** Without a `type`, only the `json` and `jsonb` formats are known. */
  lemma UntypedPropertyMapping(p: Property)
    requires p.propType == None
    ensures p.format == Some("json") ==> MapProperty(p) == Ok(Plain(String))
    ensures p.format == Some("jsonb") ==> MapProperty(p) == Ok(Plain(File))
    ensures p.format != Some("json") && p.format != Some("jsonb") ==>
      MapProperty(p) == Err(UnexpectedUndefinedFormat(p.format))
  {
  }
}
