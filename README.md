# swagger-api-mock, modelled in Dafny

swagger-api-mock turns a pre-parsed Swagger 2.0 document into two things:

- a mock dataset: one array of generated objects per entry of
  `definitions`, seeded from the caller's `mockData`;
- a route table: every `get`, `post`, `put` and `delete` operation of
  `paths`, registered under `method + '/' + compiledPath`, where
  `{name}` segments become `:name(pattern)` captures.

`new SwaggerAPIMock(config, options, callback)` does the following, in order:

1. validates the document;
2. merges the default options under the caller's;
3. generates the data;
4. builds the router.

This project models those four pieces and proves what they promise. The
modules are:

- `Wrappers`: `Option` and `Result`.
- `Json`: JavaScript values, truthiness, and objects as association lists
  in which the last binding wins.
- `Text`: `split`, `join`, first-occurrence `replace`, and integer
  rendering.
- `Schema`: the document's nodes, definitions, operations and the merged
  options.
- `Helpers`: `lib/helpers.js`.
- `Router`: `lib/router.js`. The `ApiRouter` class registers routes into a
  shared `RouteTable`.
- `MockData`: `lib/mock-data.js`. The `MockData` class holds the `data`
  and memoised `definitions` fields, and its methods update them in place.
- `ApiMock`: `lib/swagger-api-mock.js`. It covers validation, the option
  merge and the constructor.

The code loops where the source loops, and each looping method is proved
equal to a specification function:

- `joinPaths`, `getOperationIdFromUrl`, `parseQuery`;
- route registration;
- `setDefinitions`, the constructor's property loop, `generateValue`'s array
  loop, and both loops of `generate`;
- `validate`'s message loop.

The properties the source promises are lemmas about those functions.

Every object the source iterates with `_.forEach` is a list in the model,
in JavaScript's key enumeration order. That is integer-like keys first,
ascending, then the other keys in document order. It matters for the
`properties` of a definition, because `mockProperty` carries from one
property to the next. Path keys start with `/` and method keys are words,
so their enumeration order is document order.

Four things in the source stay outside the model and are passed in as
parameters:

- regex sampling (RandExp) is the function `sample`;
- `decodeURIComponent` is the function `decode`;
- the Routes.js matcher is the function `matcher` over the registered
  route list;
- swagger-tools validation is its result, a `Validation` value.

JavaScript's call stack is a `fuel` parameter. Exhausting it gives
`Err(StackOverflow)`, the `RangeError` that a self-referential definition
ends in. The `...MoreFuel` lemmas show that a result obtained with some
depth is the same result with any greater depth.

## Model

| member | source | states |
|---|---|---|
| Helpers.ToUpperCaseFirst | lib/helpers.js:3-6 | same length; the first character upper-cased, the rest kept |
| Helpers.JoinPaths | lib/helpers.js:18-32 | equals the loop's specification `JoinUpTo`; `undefined` exactly for no fragments; one fragment comes back unchanged; non-empty fragments give the `Joined` reference |
| Helpers.JoinUpToJoined | lib/helpers.js:18-32 | for non-empty fragments the accumulator after `n` fragments is the reference join of the first `n` (trailing slash dropped, one slash added while more follow) |
| Helpers.JoinTwoAtOneSlash | lib/helpers.js:13-32 | two fragments meet at exactly one slash, so `["path1","path2"]` and `["path1/","/path2"]` give the same path |
| Helpers.JoinExamplePlain | lib/helpers.js:13 | the documented example: `["path1","path2"]` gives `path1/path2` |
| Helpers.JoinExampleSlashes | lib/helpers.js:14 | the documented example: `["path1/","/path2"]` gives `path1/path2` |
| Helpers.GetServiceNameFromUrl | lib/helpers.js:42-45 | after one leading slash is dropped, the result is the capitalised text up to the first slash or the end |
| Helpers.ServiceNameAt | lib/helpers.js:37-45 | for any position of the first slash, the service name is the capitalised text before it (so `/products` and `/products/{productId}/images` agree) |
| Helpers.ServiceNameExample | lib/helpers.js:37 | `/products` gives `Products` |
| Helpers.OperationIdSegments | lib/helpers.js:59 | the pieces after dropping one leading slash and the first `{` and `}`: at least one, none containing a slash |
| Helpers.OperationIdSuffix | lib/helpers.js:60-68 | one piece gives that piece capitalised; otherwise the first piece is dropped and the rest are capitalised and concatenated; never contains a slash |
| Helpers.GetOperationIdFromUrl | lib/helpers.js:58-68 | the method name followed by `OperationIdSuffix` of the url |
| Helpers.OperationIdShape | lib/helpers.js:58-68 | every operation id starts with the method name, and the part after it has no slash |
| Helpers.OperationIdSuffixOne | lib/helpers.js:58-61 | a url `/a` of one segment without `/`, `{` or `}` gives `a` with its first character upper-cased |
| Helpers.OperationIdSuffixTemplate | lib/helpers.js:58-68 | a url `/a/{b}/d` of such segments drops the service name `a` and gives `b` and `d`, each upper-cased, concatenated |
| Helpers.OperationIdExampleSingle | lib/helpers.js:51 | the documented example: `post` and `/products` give `postProducts` |
| Helpers.OperationIdExampleTemplate | lib/helpers.js:50 | the documented example: `get` and `/products/{productId}/images` give `getProductIdImages` |
| Helpers.CapitalisedConcatNoSlash | lib/helpers.js:63-67 | concatenating capitalised slash-free pieces gives no slash |
| Helpers.ItemFormatOfReference | lib/helpers.js:82-84 | a `$ref` of `#/definitions/T` resolves to a node whose only field is `type` = `T` |
| Helpers.ItemFormatPlain | lib/helpers.js:77-86 | a node with no `schema` and no `$ref` resolves to itself, every field kept |
| Helpers.ItemFormatOfSchema | lib/helpers.js:79-81 | a `schema` wrapper resolves as its content does |
| Helpers.ItemFormatIdempotent | lib/helpers.js:77-86 | resolving a resolved node changes nothing |
| Helpers.GetItemFormatPattern | lib/helpers.js:95-125 | a truthy explicit pattern wins; otherwise `true\|false` for boolean, `[0-9]{min,max}` for number and integer, `[a-zA-Z0-9-]{min,max}` for string; a usable pattern exists exactly when there is an explicit one or the type is scalar |
| Helpers.PatternBounds | lib/helpers.js:98-108 | the bounds read back from a generated pattern are: `minLength` if set, else 1 when `required` is `true` or `'true'`, else `defaultMin`; and `maxLength` if set, else `defaultMax` |
| Helpers.RepetitionReadBack | lib/helpers.js:114-120 | the `{min,max}` suffix reads back as `(min, max)` for every pair of integers |
| Helpers.QueryMapKeys | lib/helpers.js:132-143 | a key is bound exactly when some `&`-piece decodes to it |
| Helpers.QueryMapLastWins | lib/helpers.js:136-140 | a key is bound to the decoded text between the first and second `=` of its last piece |
| Helpers.ParseQuery | lib/helpers.js:132-143 | equals `QueryMap` of the pieces; an absent or empty query gives the empty map; key membership and last-duplicate-wins values as above; the router's copy at lib/router.js:71-82 is the same code |
| Text.Split | lib/helpers.js:43 | `split`: at least one piece, no piece contains the separator, and the first piece is the text up to the first separator |
| Text.SplitJoin | lib/router.js:29-53 | joining separator-free pieces and splitting again gives the pieces back |
| Text.JoinSplit | lib/router.js:29-53 | splitting and joining on the same separator gives the string back |
| Text.RemoveFirst | lib/helpers.js:59 | `replace` with a string removes only the first occurrence, and a string without one is unchanged |
| Text.IntToStringRoundTrip | lib/helpers.js:114 | a number written into a pattern reads back as itself |
| Json.LookupSpec | lib/mock-data.js:86 | `obj[key]` is found exactly when the key is bound, and then the last binding is the one found |
| Router.GetParameterByName | lib/router.js:31-39 | none exactly when no parameter has the name; otherwise a parameter with that name after which none has it (the last one) |
| Router.CompileSegment | lib/router.js:41-52 | a segment changes exactly when it is `{name}`, a parameter `name` exists and that parameter yields a pattern; it then becomes `:name(pattern)`; everything else is kept, braces included |
| Router.CompileSegments | lib/router.js:41-53 | segment `k` of the result is the rewrite of segment `k` |
| Router.CorrectPath | lib/router.js:17-54 | no `parameters` returns the path unchanged; otherwise the leading slash (if any) plus the rewritten segments of the path without that slash, joined by `/` |
| Router.CorrectPathNoTemplate | lib/router.js:21-53 | a path with no `{...}` segment comes back identical |
| Router.CorrectPathSegments | lib/router.js:21-53 | a leading slash is kept and none is added; when no explicit pattern contains a slash, the result has the same segments, each rewritten |
| Router.CompiledSegmentNoSlash | lib/router.js:42-49 | a slash-free segment stays slash-free when rewritten |
| Router.DerivedPatternNoSlash | lib/router.js:45-48 | a generated pattern never contains a slash |
| Router.GetPathString | lib/router.js:62-64 | a route key is the method name, then one `/`, then the path, character by character, and nothing else |
| Router.PathStringFirstSlash | lib/router.js:62-64 | in a route key, the first slash comes right after the method name |
| Router.PathStringInjective | lib/router.js:62-64 | two route keys are equal exactly when their method names and paths are equal (method names without slashes) |
| Router.MissingBasePathThrows | lib/router.js:128 | see Findings: without `basePath` the join throws |
| Router.JoinBaseCorrected | lib/router.js:128 | see Findings: the corrected join agrees wherever the original does not throw, and an absent `basePath` acts like an empty one |
| Router.JoinBaseUrl | lib/router.js:128 | the route url is `joinPaths([basePath, url])` (corrected, see Findings: the url alone without a base path) |
| Router.PathEndpointsExact | lib/router.js:125-137 | the operations registered for a path are its get/post/put/delete methods, all of them, and nothing else; there are at most as many as its method entries |
| Router.PathEndpointsAppend | lib/router.js:125-137 | registration goes entry by entry in document order: the operations of `a + b` are those of `a` followed by those of `b` |
| Router.PathEndpointsOne | lib/router.js:133-136 | one method entry gives exactly one operation when its method is get, post, put or delete, and none otherwise |
| Router.RegistrationsExact | lib/router.js:133-136 | one route per registered operation, in order: key `method/compiledPath`, handler = the callback applied once to the joined url, method and operation (corrected, see Findings) |
| Router.RouteTable.constructor | lib/router.js:93 | the shared route table starts empty |
| Router.RouteTable.AddRoute | lib/router.js:135 | appends exactly one `(key, handler)` |
| Router.ApiRouter.constructor | lib/router.js:123-139 | appends the registrations of every allowed operation of the document, in document order, after the routes already in the shared table (corrected, see Findings) |
| Router.ApiRouter.RegisterPaths | lib/router.js:124-138 | the outer loop appends every path's registrations, in order |
| Router.ApiRouter.RegisterPath | lib/router.js:125-137 | the inner loop appends to the route table, in order, the registrations of exactly the path's get/post/put/delete entries and nothing else |
| Router.ApiRouter.Match | lib/router.js:147-154 | no match is returned as is; on a match the handler is kept, every query key is in the params with the query's value, and every other captured param keeps its value |
| Router.Pathname | lib/router.js:148 | the text before the first `?` |
| Router.Query | lib/router.js:148 | absent exactly when there is no `?`; otherwise the url is the pathname, `?`, then the query |
| MockData.Constructors | lib/mock-data.js:95-97 | one constructor per definition, in order, each with the definition's properties (in key enumeration order) and `required` array (empty when `required` is not an array) |
| MockData.MockData.constructor | lib/mock-data.js:22-26 | keeps `config` and `options`; `data` is empty and `definitions` not yet built |
| MockData.MockData.SetDefinitions | lib/mock-data.js:64-100 | afterwards `definitions` holds exactly the constructors of the document |
| MockData.MockData.MockObject | lib/mock-data.js:108-117 | equals the specification `MockObjectOf`; definitions are built |
| MockData.MockObjectShape | lib/mock-data.js:108-117 | `null` for a name that is not a definition (whatever the depth, so it never throws); the empty object for a `null` seed; otherwise an object whose keys are exactly the property names, in order, each holding that property's generated value |
| MockData.MockData.Construct | lib/mock-data.js:79-92 | equals the specification `Instance`; a `null` seed gives `{}` |
| MockData.ConstructShape | lib/mock-data.js:85-91 | one field per property, in order, named after the property and holding its generated value; fails exactly when one of those values fails |
| MockData.CarriedIsLastSeeded | lib/mock-data.js:84-88 | `mockProperty` at a property is the seed entry of the last property so far, in key enumeration order, that has one, so an unseeded property after a seeded one receives the earlier value |
| MockData.CarriedUnseeded | lib/mock-data.js:84-88 | with a falsy seed, or no seeded property yet, `mockProperty` is still `undefined` |
| MockData.SeededFieldVerbatim | lib/mock-data.js:130-133 | a scalar property with a truthy seed entry takes it verbatim |
| MockData.RequiredFieldSampledFromNonEmptyPattern | lib/mock-data.js:89-90 | a required string or number property without a seed is sampled from a pattern with lower bound 1 |
| MockData.MockData.GenerateValue | lib/mock-data.js:125-156 | equals the specification `GenValue` |
| MockData.GenElemsShape | lib/mock-data.js:145-147 | the array loop yields `n` elements, element `i` generated from `items` and seed element `i` |
| MockData.ArrayValueShape | lib/mock-data.js:136-149 | an array is as long as a truthy seed (1 without one); element `i` comes from `items` and `seed[i]` (`null` without a seed) |
| MockData.FileAndReferenceValues | lib/mock-data.js:150-155 | `file` gives `null`; any non-scalar, non-array type is `mockObject` of that name |
| MockData.GenValueMoreFuel | lib/mock-data.js:125-156 | a value generated within some stack depth is the same with a deeper stack |
| MockData.GenElemsMoreFuel | lib/mock-data.js:145-147 | the same for the array loop |
| MockData.ConstructMoreFuel | lib/mock-data.js:85-91 | the same for the constructor's loop |
| MockData.MockObjectMoreFuel | lib/mock-data.js:108-117 | the same for `mockObject` |
| MockData.ObjectsShape | lib/mock-data.js:53-55 | the pushes succeed exactly when every object does; object `i` comes from seed element `i` |
| MockData.NewObjectsShape | lib/mock-data.js:43-56 | a definition gets the seed array's length in objects when its seed is a non-empty array, `defaultLimit` otherwise; object `i` is `mockObject(name, seed[i])` (corrected, see Findings) |
| MockData.PassThroughAt | lib/mock-data.js:37-41 | a seed dataset named after no definition is stored (the last one of a name winning); every other entry is unchanged |
| MockData.AddDatasetEffect | lib/mock-data.js:51-56 | one turn fills its dataset (earlier entries kept and appended to) and leaves every other key as it was |
| MockData.DatasetsAt | lib/mock-data.js:43-57 | with distinct names, every dataset seen so far is filled and every other entry is unchanged |
| MockData.GenerateContents | lib/mock-data.js:32-59 | after `generate`: each definition's dataset is its earlier entries plus its generated objects; seed-only datasets are copied verbatim; everything else is unchanged (corrected, see Findings) |
| MockData.SeedArrayCorrected | lib/mock-data.js:47 | see Findings: the corrected read agrees wherever the original does not throw; with no seeds every definition gets `defaultLimit` objects |
| MockData.MockData.PassThrough | lib/mock-data.js:37-41 | equals the specification `PassThroughUpTo` over all seeds |
| MockData.MockData.PushLoop | lib/mock-data.js:53-55 | pushes the generated objects onto the array under `name`, one at a time, and nothing else changes |
| MockData.MockData.PushObjects | lib/mock-data.js:44-56 | equals the specification `AddDataset` with the count and objects above; the data becomes its result |
| MockData.MockData.FillDatasets | lib/mock-data.js:43-57 | equals the specification `DatasetsUpTo` over the definitions in order |
| MockData.MockData.Generate | lib/mock-data.js:32-59 | equals the specification `GenerateSpec` of the data before the call; the data becomes its result, and `definitions` ends as the document's constructors (corrected, see Findings) |
| ApiMock.MergeOptions | lib/swagger-api-mock.js:69-74 | every option the caller supplies overrides its default; `mockData` is passed through as given |
| ApiMock.MergeOptionsDefaults | lib/swagger-api-mock.js:69-74 | omitted options default to `ignoreHost` true, `defaultLimit` 2, `defaultMin` 0 and `defaultMax` 15; `mockData` has no default |
| ApiMock.MergeOptionsIdempotent | lib/swagger-api-mock.js:69-74 | merging merged options changes nothing, and complete options are taken as they are |
| ApiMock.ErrorLinesSnoc | lib/swagger-api-mock.js:24-26 | each error appends one line `#/path: message` plus a newline |
| ApiMock.Validate | lib/swagger-api-mock.js:10-31 | equals `ValidateSpec`: the validator's own error is rethrown; a result with errors throws the formatted message; otherwise validation passes |
| ApiMock.WarningsNeverAbort | lib/swagger-api-mock.js:15-29 | a result fails exactly when it has errors, whatever its warnings |
| ApiMock.ErrorLinesSplit | lib/swagger-api-mock.js:24-26 | the error lines split at newlines into one text per error, in order, then an empty tail |
| ApiMock.HeaderSplit | lib/swagger-api-mock.js:23 | the header splits into `The Swagger document is invalid...` and `Errors:` ahead of the rest |
| ApiMock.InvalidMessageLines | lib/swagger-api-mock.js:22-28 | the message splits into the two header lines, one `#/path: message` line per error, in order, and the empty tail |
| ApiMock.SwaggerAPIMock.constructor | lib/swagger-api-mock.js:68-77 | the instance holds the document, the merged options, the mock data and the router |
| ApiMock.NewSwaggerAPIMock | lib/swagger-api-mock.js:66-78 | a failed validation throws with no route registered; otherwise generation runs on fresh data under the merged options, and a failure throws with no route registered; otherwise the data is the generated data, and the shared table gains every registration under the merged options (corrected, see Findings) |
| ApiMock.AbsentMockDataThrows | lib/swagger-api-mock.js:69-76 | see Findings: with no `mockData` option and at least one definition, the seed read as written throws |

## Left out

- Regex sampling by RandExp is the parameter `sample`. Nothing is assumed about what it returns.
- The Routes.js matching algorithm is the parameter `matcher` over the registered `(key, handler)` list.
- swagger-tools validation is taken as its result, a `Validation` value. The callback is taken to run before the constructor continues.
- The `console.log` printing of warnings is I/O and is not modelled. Only the fact that warnings never abort is.
- `url.parse` is modelled as a split at the first `?`. Fragments, hosts and the other `url` fields are not modelled.
- `url.parse` gives a `null` pathname for an empty url or one that starts with `?`, so `match` looks up `method/null`. The model looks up `method/` with an empty pathname.
- `url.parse` escapes spaces, quotes, braces and some other characters in the pathname. The model passes the pathname through unescaped.
- `decodeURIComponent` is the parameter `decode`. Its URIError on malformed input is not modelled.
- The JSON deep copies (`getItemFormat`, `mockObject`) are not modelled. Dafny values cannot alias. The one visible effect of the round trip, `new` on a `null` seed becoming `{}`, is modelled.
- The `host` branch of `correctPath` is not modelled, because it does nothing. For the same reason, neither is the `ignoreHost` option's use.
- Property lookups that reach `Object.prototype`, e.g. a type or seed key named `constructor` or `toString`, are not modelled. Only own keys are.
- `length` is read only from arrays and strings. An object seed with its own `length` field counts as 0.
- Duplicate keys in JSON objects are not modelled. Objects are association lists in which the last binding wins. The generation lemmas assume distinct definition names.
- `property.required = ...` writes into the document's shared property object. The model recomputes the flag at each use (`WithRequired`) and does not keep the write.
- The `undefined` that `getItemFormat` yields for an array without `items` makes `JSON.stringify` return `undefined` and `JSON.parse` throw. This is modelled as `Err(MissingItems)`.
- MockData.MockData.PushObjects: when generation fails part-way, the objects pushed so far stay in `data` in the source. The model reports only the error.
- MockData.MockData.PushObjects: for a dataset holding a non-array value, the source evaluates `mockObject` once and then throws on `push`. The model reports `NotAnArray` without generating. When generation would itself fail first, the error reported differs.
- A JavaScript stack overflow is modelled by `fuel`. The depth at which a real engine overflows is not modelled.
- `getItemFormatPattern` writes `itemFormat.pattern` on a copy. It is modelled as a function that returns the pattern.
- Validator path components are strings. Numeric components, which `join` would render, are not modelled.
- Option values of the wrong JavaScript type (a string `defaultLimit`, say) are not modelled. `defaultLimit`, `defaultMin` and `defaultMax` are integers, and a negative `defaultLimit` gives no objects.
- `_.merge` on `matchingRoute.params` merges deeply. Query values are strings, so it is modelled as a map override.
- Router.ApiRouter.RegisterPath: a path's entries are all modelled as operations, and `correctPath` is computed only for allowed methods. The source calls `correctPath` on every key of a Path Item before filtering. A non-operation entry whose value is `null` (an `x-` extension, say) therefore makes `operation.parameters` throw, and the constructor aborts. The model registers the routes in that case. Non-operation keys (`parameters`, `$ref`, `x-*`) are not modelled.
- Helpers.ToUpperCaseFirst: upper-casing is ASCII only (`Text.Upper`). JavaScript's `toUpperCase` maps all of Unicode: `é` becomes `É`, and `ß` becomes the two characters `SS`. The same-length `ensures` holds for the model, not for the source. `GetServiceNameFromUrl`, `OperationIdSuffix` and the names built from them inherit this.
- String lengths and indices count Unicode code points (Dafny characters). JavaScript's `length` and `seed[i]` count UTF-16 code units, so a string seed with characters beyond U+FFFF has a different length in the source. `Json.Length`, `Json.At`, `MockData.ArrayValueShape` and `MockData.NewObjectsShape` count code points.
- `minLength` and `maxLength` are integers. The source copies any defined value into the pattern: `2.5` gives `{2.5,15}`, `null` gives `{null,15}`, and values of 1e21 or more are written in exponent notation. The model covers integers written in decimal.
- Helpers.GetItemFormat: its properties are stated by the lemmas `ItemFormatOfReference`, `ItemFormatPlain`, `ItemFormatOfSchema` and `ItemFormatIdempotent`, not by an `ensures` of its own.
- test/swagger-api-mock.js and Gruntfile.js are not part of this model.

## Findings

| source | as written | input that shows it | evidently intended | confidence | as-written member | corrected member |
|---|---|---|---|---|---|---|
| lib/mock-data.js:47 | `self.options.mockData[name]` is read for every definition, but `mockData` gets no default in lib/swagger-api-mock.js:69-74 | `new SwaggerAPIMock(doc, {}, cb)` with a document that has one definition throws a TypeError during `generate` | an absent `mockData` means no seeds, so every definition gets `defaultLimit` objects | not executed | MockData.SeedArrayAsWritten, ApiMock.AbsentMockDataThrows | MockData.Seeds, MockData.SeedArrayCorrected |
| lib/router.js:128 | `joinPaths([config.basePath, url])` with no `basePath` (optional in Swagger 2.0) starts from `undefined`, then calls `replace` on it | a document without `basePath` and a path `/products` throws a TypeError in the `ApiRouter` constructor | an absent `basePath` serves the paths from the root, like an empty one | not executed | Router.JoinBaseAsWritten, Router.MissingBasePathThrows | Router.JoinBase, Router.JoinBaseCorrected |
