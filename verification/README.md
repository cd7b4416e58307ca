# openapi-zapier-fieldschema, modelled in Dafny

The tool reads a PostgREST OpenAPI 2.0 document. It writes one Zapier FieldSchema list for each
collection (REST resource) the document describes. This project models the compiler at the
centre of `index.js`:

- **Collection filtering.** `paths` is walked in key order. The introspection root `/` and every
  path under `/rpc/` are skipped.
- **Model resolution.** The collection's `get.responses["200"].schema.items.$ref` must be a
  non-empty `#/definitions/<name>` reference. `<name>` must be a key of `definitions`, and that
  model must have `type: "object"`.
- **Field mapping.** Each model property goes through the ordered decision table on `type`,
  then on `format`, `items.type` or `enum`. The result is a descriptor `{key, label, helpText,
  type, list?, choices?, required, placeholder}`, or an error that stops the run.

The parsed document is a tree of datatypes (`OpenApi`). JavaScript's `undefined` is `Option.None`.
A thrown `Error` is a `CompileError` value, which carries what its message names.

Modules:
- `Wrappers`: `Option` and `Result`.
- `Strings`: `startsWith` and `slice`.
- `OpenApi`: the input tree.
- `FieldMapping`: the pure decision table `MapProperty`, and lemmas about it.
- `SchemaCompiler`: resolution, plus the two loops of the source as methods. Each method is
  proved equal to a specification function: `CompileModel` against `CompileProperties`, and
  `CompileDoc` against `Run`.
- `CompilerProperties`: lemmas about those specification functions.

The run's output is the list of `(collection.slice(1), fields)` files, in the order they are
written, plus the error that stopped it, if any. Files written before the error stay written.

`required` is `model.required?.includes(property)` (index.js:155). It is therefore `undefined`
(`None`) when the model has no `required` array, and membership in that array otherwise.

## Model

| member | source | states |
|---|---|---|
| `Strings.StartsWith` | index.js:23 | `s.startsWith(prefix)` holds exactly when `s` is `prefix` followed by some string |
| `Strings.SliceFrom` | index.js:36 | `slice(n)` gives the rest of the string after its first `n` characters, or the empty string if the string is shorter |
| `OpenApi.ModelRefReadsChain` | index.js:27 | reading `get.responses["200"].schema.items.$ref` out of a built chain gives back the reference put in; a missing `get`, `"200"`, `schema` or `items` gives `undefined` |
| `OpenApi.ItemTypeReadsItems` | index.js:112 | `items?.type` is the declared item type when `items` is present, and `undefined` when `items` is missing or has no `type`; it is defined exactly when both are present |
| `FieldMapping.MapProperty` | index.js:54-153 | each error belongs to one branch of the table and carries the value its message names: the string format, the item type, the untyped format, or the unknown type, which is then none of the five known ones (index.js:93,113,126,144,151) |
| `FieldMapping.MapStringFormat` | index.js:58-94 | the string branch gives only `text`, `string` or `datetime`, never a list; any choices are the enum; a missing format fails; every failure is the unexpected-string-format error with that format |
| `FieldMapping.StringFormatTableRows` | index.js:58-80 | each exact string format in the table (`text`, `uuid`, the three date/time formats, `name`, `tsvector`, `character`, `character varying`) maps to its target type, whatever the enum, with no `list` and no `choices` |
| `FieldMapping.StringPropertyMapsIff` | index.js:56-94 | a `string` property maps iff it has a format that is an exact table row, or starts with `public.geography`, or starts with `public.` and has an enum; a missing format fails; every failure is the unexpected-string-format error |
| `FieldMapping.ExactFormatsAreNotPublic` | index.js:58-91 | no exact string format starts with `public.`, so the prefix tests never shadow an exact row |
| `FieldMapping.MapPropertyYields` | index.js:54-153 | the table agrees with an independent by-target description (`Yields`): a property becomes a field of type `t` exactly when it has one of the shapes listed for `t` |
| `FieldMapping.ListOnlyForArrays` | index.js:111-131 | on success, `list` is `true` for an array property and unset for every other property |
| `FieldMapping.ChoicesOnlyForPublicEnums` | index.js:81-94 | on success, `choices` is set iff the property is a string with a `public.` format that is not `public.geography`, and has an enum; `choices` is then the enum verbatim |
| `FieldMapping.GeographyIgnoresEnum` | index.js:82-85 | a `public.geography` format is a plain string even when an enum is present |
| `FieldMapping.PublicEnumGivesChoices` | index.js:87-91 | any other `public.` format with an enum, including an empty one, is a string whose choices are the enum in order |
| `FieldMapping.ScalarAndUnknownTypes` | index.js:99-152 | `boolean`, `number` and `integer` map to the same-named type; any type outside the table is the unexpected-property-type error naming it |
| `FieldMapping.ArrayPropertyMapping` | index.js:111-131 | an array with a missing or empty `items.type` is an error; `string` and `integer` items give that type with `list = true`; any other item type is an error naming it |
| `FieldMapping.UntypedPropertyMapping` | index.js:133-149 | without a `type`, format `json` gives `string` and `jsonb` gives `file`; any other format, or none, is an error |
| `SchemaCompiler.Qualifies` | index.js:18-25 | a path is a collection exactly when it is not `/` and is not `/rpc/` followed by anything |
| `SchemaCompiler.CollectionName` | index.js:29 | `collection.slice(1)`: putting back the first character gives the path again; the empty path gives the empty name |
| `SchemaCompiler.ResolveModel` | index.js:27-43 | resolution succeeds exactly when the `$ref` is non-empty, starts with `#/definitions/`, names a key of `definitions`, and that model's type is `object`; on success the model is object-typed, and the reference is `#/definitions/` followed by its name; a missing or empty `$ref`, a reference without the prefix, a name not in `definitions` and a model whose `type` is not `object` each give their own error, exactly in those cases, carrying the reference or model type its message names |
| `SchemaCompiler.RequiredFlag` | index.js:155 | `required` is `true` iff the `required` array exists and holds the key, `false` iff it exists and omits it, and `undefined` iff there is no array |
| `SchemaCompiler.CompileField` | index.js:47-158 | a property compiles iff the table maps it, otherwise the error names the property, the collection and the issue; the descriptor has the property's name as key, its description as help text, no label, no placeholder, the table's type, list and choices, and the `required` flag |
| `SchemaCompiler.CompileProperties` | index.js:45-164 | a compiled model has as many descriptors as properties; its only errors are unmappable properties of that collection |
| `SchemaCompiler.CompileCollection` | index.js:27-46 | a resolution error is passed on unchanged; once the model resolves, the result is exactly the compilation of that model's properties against its `required` array under the name `slice(1)` of the path: one descriptor per property, or the first property error, naming that collection |
| `SchemaCompiler.CompileModel` | index.js:45-164 | the loop that pushes one descriptor per property computes `CompileProperties`; on success the keys are the property names in order |
| `SchemaCompiler.Run` | index.js:16-168 | a run writes at most one file per path |
| `SchemaCompiler.CompileDoc` | index.js:16-168 | the loop over `paths` computes `Run`: the files written, in order, and the error that stopped it |
| `CompilerProperties.CompiledFieldsDescribeProperties` | index.js:45-163 | descriptor `i` has the key of property `i`, its description as help text, no label, no placeholder, the table's type, list and choices, and `required` = membership in `required` (unset without a `required` array) |
| `CompilerProperties.CompilePropertiesSucceedsIff` | index.js:46-153 | a model compiles iff every one of its properties maps |
| `CompilerProperties.CompilePropertiesFirstError` | index.js:46-153 | a model that fails reports its first unmappable property, with that property's name, the collection and the issue |
| `CompilerProperties.Qualifying` | index.js:16-25 | the collection paths are the paths other than `/` and `/rpc/...`, in order |
| `CompilerProperties.QualifyingAppend` | index.js:16-25 | filtering keeps order: the collections of `ps + qs` are those of `ps` followed by those of `qs` |
| `CompilerProperties.RunOnlySeesCollections` | index.js:16-25 | the run equals the run over the collection paths alone, so `/` and `/rpc/` paths are never resolved |
| `CompilerProperties.QualifyingPaths` | index.js:18-25 | `/` and `/rpc/foo` are skipped; `/rpc` without the trailing slash and `/widgets` are collections; nothing under `/rpc/` is one |
| `CompilerProperties.RunAppend` | index.js:16-168 | running over `ps + qs` is running over `ps`, then, unless that failed, over `qs`: earlier files survive a later failure, and nothing after a failure is compiled |
| `CompilerProperties.RunStopsAtFailure` | index.js:163-167 | when a collection fails after the earlier paths succeeded, the files written are exactly the earlier ones, the error is that collection's, and no later path is compiled |
| `CompilerProperties.RunSucceedsIff` | index.js:16-168 | the run ends without error iff every collection compiles |
| `CompilerProperties.RunFailureIsFirst` | index.js:16-168 | a failed run reports the error of its first collection that does not compile |
| `CompilerProperties.RunWritesEachCollection` | index.js:163-167 | if every path is a collection and the run succeeds, file `i` is collection `i`, named without its first character, holding its compiled fields |
| `CompilerProperties.RunWritesQualifying` | index.js:16-167 | a run that succeeds writes file `i` for the `i`-th collection among the paths, named without its first character, holding its compiled fields |
| `CompilerProperties.WidgetsScenario` | index.js:16-163 | `/` and `/rpc/foo` are skipped; `/widgets` gives a required uuid string `id` and an optional integer `qty` |
| `CompilerProperties.MoneyScenario` | index.js:56-93 | a string with format `money` aborts the run with an error naming the property and the collection; no file is written for it or for any later collection |

## Left out

- Reading and parsing `spec.json` (index.js:3). The document is taken as an already-parsed value.
- The output-directory reset (index.js:5-14): removal that tolerates ENOENT, then `mkdir`. This
  is filesystem I/O.
- The JSON serialisation and `writeFile` of each schema, and the console line (index.js:166-167).
  A written file is modelled as a `SchemaFile(name, fields)` in `RunOutcome.written`.
- `async`/`await`: the run is strictly sequential, so there is nothing concurrent to model.
- The wording of the error messages. Each error carries the values its message interpolates.
- JSON values that are not strings where the code expects one are outside the model. In
  JavaScript, `type: null` is reported as an unexpected type. A numeric `format` on a `string`
  property, and a non-zero numeric `$ref`, throw a `TypeError` on `startsWith` (index.js:32,82).
  `$ref: 0` is falsy and is reported as a missing reference. A numeric `format` without a `type`
  gives the unexpected-undefined-format error. On a `boolean`, `number`, `integer` or `array`
  property, `format` is never read. A `required` that is a string instead of an array is also
  left out.
- A `definitions` entry that is `null` or another falsy value. The code reports it as an
  unresolved model; here every entry is a model object.
- `definitions` keys inherited from `Object.prototype` (such as `constructor`). These give a
  wrong-model-kind error in JavaScript; here they are simply absent.
- An absent `paths`, `definitions` or `properties` is treated as empty. Enumerating
  `undefined` with `for…in` yields nothing, so the behaviour is the same.
- JavaScript's key enumeration order (integer-like keys first) is not computed. The sequences
  given to the model are taken to be in enumeration order already.
- CollectionName: JavaScript strings are sequences of UTF-16 code units, while Dafny's `string`
  is a sequence of Unicode scalar values. If a path's first character lies outside the Basic
  Multilingual Plane, `slice(1)` in JavaScript keeps a lone surrogate, but `CollectionName` (and
  `SliceFrom`) drops the whole character. The model does not capture that difference.
- Run: a failing `writeFile` (index.js:166) is not modelled. For example, a collection path with
  a further `/` names a subdirectory that index.js:14 never creates. `Run` and
  `RunWritesEachCollection` assume every compiled collection's file is written.
