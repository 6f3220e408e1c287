# swapi: the Swagger compiler and its decorators, in Dafny

swapi lets a TypeScript server describe its HTTP API with decorators on
route classes and their methods. These are `BaseUrl` on a class, and `Param`,
`Query`, `Body`, `Header`, `BodyIs*` and `Response` on a method, plus
`addResponseType` for shared schemas. The decorators record what they
describe in a registry of nodes (route classes), endpoints (methods) and
response types. `generateSwaggerJson` then compiles that registry into one
Swagger 2.0 document.

This project models the following:

- **The compiler** (`swagger_generator.dfy`, with `swagger_json.dfy`,
  `swagger_helpers.dfy` and `url_resolve.dfy`):
  - the document header taken from `package.json`;
  - one operation per endpoint of every non-abstract node, stored under its
    templated full path and its HTTP method;
  - the parameters of each operation, and its body parameter;
  - declared or default responses;
  - one definition per response type.

  Each `forEach` loop of the source is a method proved equal to a
  specification function; the `reduce` over a scheme is a function
  (`SchemeProperties`). The properties of the output are lemmas about those functions:
  which keys the `paths`, `responses`, `properties` and `definitions`
  objects get, that a later write wins, parameter order, and default
  statuses.
- **The helpers**:
  - `urlResolve` (`url_resolve.dfy`);
  - `pullOutParamsFromUrl` (`params_from_url.dfy`);
  - `convertToSwaggerUrl`, `isReference` and `createSwaggerReference`
    (`swagger_helpers.dfy`).
- **The decorators** (`response_decorator.dfy`, `variative_data.dfy`,
  `basic_url.dfy`). The registry itself is not part of this model. Each
  decorator application is modelled by the sequence of registry calls it
  makes: a `Command` per call, with its arguments (`registry.dfy`).
- **The compiler's view of the registry**: a value `Snapshot`, holding the
  nodes, each with its full path and endpoints, and the response types, in
  storage order.

JavaScript's own operations that matter to the results are written out in
`js_strings.dfy` and `js_objects.dfy`:

- `indexOf`, `slice`, `split` and `replace` with a plain pattern;
- the number-to-string coercion of a status used as a key;
- the last-write-wins behaviour of assigning keys of a plain object, and
  the one exception: a write to `__proto__` runs the inherited setter and
  stores no own property.

## Model

| member | source | states |
|---|---|---|
| SwaggerGenerator.GenerateSwaggerJson | src/sw.generator/index.ts:23-58 | The document equals `DocumentOf` on the registry view. `setUrlParamFromFullPath` is called once per compiled endpoint, in node-then-endpoint order, abstract nodes skipped. |
| SwaggerGenerator.AddNodePaths | src/sw.generator/index.ts:34-48 | The inner loop adds a node's endpoints to `paths` in order, exactly as `PathsAfter` over the node's entries, and records one `setUrlParamFromFullPath` call per endpoint. |
| SwaggerGenerator.EndpointPathAbsolute | src/sw.generator/index.ts:35-46 | Every templated path begins with `/`, so it is never `__proto__` and the write to `paths` always stores an own property. |
| SwaggerGenerator.AddEndpointPath | src/sw.generator/index.ts:35-47 | One endpoint is stored under its templated resolved path and its method, creating the path item when it is new. Its node and endpoint are recorded as synced. |
| SwaggerGenerator.PathsKeys | src/sw.generator/index.ts:41-47 | `paths` has exactly one key per distinct templated path. Each path item has exactly the methods of the endpoints that map to that path. |
| SwaggerGenerator.PathsLastWins | src/sw.generator/index.ts:41-47 | For an endpoint no later endpoint shares path and method with, `paths[path][method]` holds its operation. |
| SwaggerGenerator.PathsAfterAppend | src/sw.generator/index.ts:29-49 | Adding a batch of entries after another is the same as adding them one after the other. |
| SwaggerGenerator.EntriesAppend | src/sw.generator/index.ts:29-31 | The endpoints compiled from two runs of nodes are those of the first run followed by those of the second. |
| SwaggerGenerator.AbstractNodeIgnored | src/sw.generator/index.ts:30 | An abstract node contributes nothing, wherever it stands among the nodes. |
| SwaggerGenerator.DocumentHeader | src/sw.generator/index.ts:75-97 | The document is Swagger "2.0" with the package's version, name, description, license and author. Host, base path, schemes, produces and consumes come from the `swapi` settings, all absent without settings. |
| SwaggerGenerator.DefinitionsLastWins | src/sw.generator/index.ts:51-55 | Every response type not named `__proto__` has `definitions[type.name]`. For a name registered twice, the later type wins. |
| SwaggerGenerator.GenerateSwaggerJsonMethod | src/sw.generator/index.ts:99-120 | The operation equals `OperationOf`. The responses loop writes each declared status over the empty or default map. |
| SwaggerGenerator.OperationShape | src/sw.generator/index.ts:99-120 | The operation id is the camel-cased "node endpoint". `produces` comes from the settings. `parameters` is present iff there is a query or path parameter or a body, and then the body is named after the operation id. |
| SwaggerGenerator.HeaderParamsIgnored | src/sw.generator/index.ts:122-148 | Changing an endpoint's header parameters never changes its operation. |
| SwaggerGenerator.ResponsesDefault | src/sw.generator/index.ts:107 | An endpoint with no declared responses gets the default response of its method. |
| SwaggerGenerator.StatusKeyNotProto | src/sw.generator/index.ts:115-117 | The decimal spelling of a status ends in a digit, so it is never `__proto__` and every response write is stored. |
| SwaggerGenerator.ResponsesDeclaredKeys | src/sw.generator/index.ts:107-117 | With declared responses, the keys are exactly the decimal spellings of their statuses, and no default is mixed in. |
| SwaggerGenerator.ResponsesLastWins | src/sw.generator/index.ts:115-117 | A declared response whose status is not declared again later is the one compiled under that status. |
| SwaggerGenerator.DefaultResponse | src/sw.generator/index.ts:208-224 | GET gives only "200", POST only "201", and every other method only "204". Each is "OK" with a `string` schema. |
| SwaggerGenerator.ResponseObjectOf | src/sw.generator/index.ts:182-206 | The description is copied. A reference becomes `$ref` to `#/definitions/…` and a plain type becomes `type`. An array wraps that schema in `items` under type `array`. |
| SwaggerGenerator.PropertySchema | src/sw.generator/index.ts:168-176 | A property schema has `$ref` iff the type is a reference, then pointing into `#/definitions/`. Otherwise it has the type itself. |
| SwaggerGenerator.MethodParamsOrder | src/sw.generator/index.ts:122-148 | Parameters are all query parameters, then all path parameters, each copied field by field, then the body parameter iff there is a body. No header parameter appears, and the body parameter appears only last. |
| SwaggerGenerator.PrepareMethodParams | src/sw.generator/index.ts:122-148 | The method computes `MethodParams`. |
| SwaggerGenerator.BodyParameterShape | src/sw.generator/index.ts:150-166 | The body parameter is named `<operationId>Body` and lies in `body`. Its schema type is the endpoint's `bodyType`. `required` is present iff some field is required, and lists the required fields in order. |
| SwaggerGenerator.BodyPropertiesKeys | src/sw.generator/index.ts:168-177 | The body schema has one property per body field name other than `__proto__`, and no other. |
| SwaggerGenerator.BodyPropertiesLastWins | src/sw.generator/index.ts:168-177 | A field not named `__proto__` and not redeclared later gives its name's property, built by `PropertySchema`. |
| SwaggerGenerator.PrepareBodyParameter | src/sw.generator/index.ts:150-180 | The loop over body fields computes `BodyParameterOf`. |
| SwaggerGenerator.RequiredNames | src/sw.generator/index.ts:160-162 | The names are non-empty iff some field is required. Each is the name of a required field. |
| SwaggerGenerator.RequiredNamesAppend | src/sw.generator/index.ts:160-162 | Filtering required fields distributes over concatenation, so their order is kept. |
| SwaggerGenerator.DefinitionType | src/sw.generator/index.ts:226-252 | A definition has the type's kind. For `array` the properties sit under `items`, otherwise directly under `properties`. |
| SwaggerGenerator.SchemePropertiesLastWins | src/sw.generator/index.ts:231-243 | Each scheme entry not named `__proto__` and not redefined later yields its property, `$ref` or `type`. |
| SwaggerGenerator.SchemePropertiesKeys | src/sw.generator/index.ts:231-243 | The properties of a definition are keyed by exactly the scheme's entry names, less `__proto__`. |
| SwaggerGenerator.DefinitionsKeys | src/sw.generator/index.ts:51-55 | `definitions` has exactly one key per registered response type name other than `__proto__`, and no other. |
| SwaggerGenerator.DefinitionExample | src/sw.generator/index.ts:226-252 | An array type `Ids` with an `id: number` field compiles to `{type: array, items: {properties: {id: {type: number}}}}`. |
| SwaggerHelpers.ConvertToSwaggerUrl | src/sw.generator/index.ts:258-260 | The two `replace` passes leave no colon in the result. |
| SwaggerHelpers.ConvertIsTemplated | src/sw.generator/index.ts:258-260 | The two-pass replace turns each colon and the longest run of ASCII letters after it into `${letters}`, and keeps everything else. |
| SwaggerHelpers.ConvertToSwaggerUrlColons | src/sw.generator/index.ts:258-260 | The result has no colon, and a path without a colon is unchanged. |
| SwaggerHelpers.ConvertExampleToken | src/sw.generator/index.ts:258-260 | `/users/:id` becomes `/users/${id}`. |
| SwaggerHelpers.ConvertExampleUnderscore | src/sw.generator/index.ts:258-260 | `:user_id` becomes `${user}_id`. |
| SwaggerHelpers.ConvertExampleLoneColon | src/sw.generator/index.ts:258-260 | A lone `:` becomes `${}`. |
| SwaggerHelpers.IsReference | src/sw.generator/index.ts:262-264 | A type is a reference iff it starts with `#/`. |
| SwaggerHelpers.CreateSwaggerReference | src/sw.generator/index.ts:266-268 | A reference `#/X` becomes `#/definitions/X`, again a reference. |
| JsStrings.NumberToStringInjective | src/sw.generator/index.ts:116 | Distinct statuses give distinct response keys. |
| JsObjects.AssignAllLastWins | src/sw.generator/index.ts:176 | Assigning keys in order leaves each key other than `__proto__` with the value of its last write. |
| JsObjects.AssignAllKeys | src/sw.generator/index.ts:176 | Assigning keys in order adds exactly the written keys other than `__proto__` to the object. |
| JsObjects.AssignAllProto | src/sw.generator/index.ts:176 | Writes to `__proto__` neither create nor change an own `__proto__` property. |
| UrlResolve.Resolve | src/helpers/url.resolve.ts:3-11 | The loop appends each normalised argument's piece, `/` and `//` as they are and anything else wrapped in slashes, then collapses `//` once. No arguments give `""`. |
| UrlResolve.JoinedAppend | src/helpers/url.resolve.ts:5-8 | Arguments contribute left to right. |
| UrlResolve.ResolveSegments | src/helpers/url.resolve.ts:3-11 | Non-empty, slash-free segments resolve to `/s1/s2/.../sn/`. |
| UrlResolve.CollapseThreeSlashes | src/helpers/url.resolve.ts:10 | The single collapsing pass turns `///` into `//`, not `/`. A second pass would give `/`. |
| ParamsFromUrl.PullOutParamsFromUrl | src/helpers/params.from.url.ts:4-8 | There is one parameter per `/`-segment opening with `:`, in order, named by the rest of the segment, with no type or `required`. |
| ParamsFromUrl.IsTokenSegment | src/helpers/params.from.url.ts:6 | `indexOf(':') === 0` holds iff the segment opens with a colon. |
| ParamsFromUrl.PullOutFromSegments | src/helpers/params.from.url.ts:4-8 | On a path joined from slash-free segments, the parameters are exactly those segments' tokens. |
| ParamsFromUrl.PullOutColonFree | src/helpers/params.from.url.ts:4-8 | A path without a colon has no parameters. |
| ParamsFromUrl.PullOutExample | src/helpers/params.from.url.ts:4-8 | `/users/:id/a:b/:` gives `id` and an empty name. A colon inside a segment is no token. |
| ResponseDecorator.Response | src/decorators/response.ts:10-28 | One upsert of the response at class, method and status. Type, array flag and description default to `string`, `false` and `OK`, after the `[]`-suffix rule. |
| ResponseDecorator.NormaliseArraySuffix | src/decorators/response.ts:11-14 | An explicit array flag keeps the type. The type only ever loses a suffix. It is changed only when the array flag is switched on. |
| ResponseDecorator.ArraySuffixRule | src/decorators/response.ts:11-14 | With `isArray` false, the rule fires iff the first `[]` is the type's last two characters, or the type has one character. Stripping then re-appending `[]` gives back the type. A one-character type becomes `("", true)`. Otherwise the type is kept. |
| ResponseDecorator.ArrayFlagKeepsType | src/decorators/response.ts:11 | With `isArray` true the type is never changed. |
| ResponseDecorator.EarlierBracketsBlockRule | src/decorators/response.ts:11-14 | `a[]b[]` stays a non-array `a[]b[]`, because its first `[]` is earlier. |
| ResponseDecorator.EmptyTypeKept | src/decorators/response.ts:11-14 | An empty type stays a non-array empty type. |
| ResponseDecorator.ResponseDefaults | src/decorators/response.ts:10 | With only a status, the response is a non-array `string` described as `OK`. |
| ResponseDecorator.WidgetArrayExample | src/decorators/response.ts:10-28 | `#/Widget[]` records the same response as `#/Widget` with `isArray` true. |
| ResponseDecorator.AddResponseType | src/decorators/response.ts:30-37 | One `createResponseType` call with the name and scheme. The kind is `array` iff `isArray` is true, else `object`. |
| VariativeData.VariativeDataDecorator | src/decorators/variative.data.ts:47-87 | The loop over the entries produces exactly `ParamCommands`. |
| VariativeData.ReferenceNameSetsBodyType | src/decorators/variative.data.ts:57-61 | A reference name sets the body type, whatever the location, and upserts no parameter. |
| VariativeData.PlainNameUpsertsOne | src/decorators/variative.data.ts:74-77 | Any other name upserts one parameter through the location's upsert, with the given type and `required`. |
| VariativeData.MapUpsertsEachEntry | src/decorators/variative.data.ts:78-85 | A map upserts one parameter per entry, in order, typed by the entry's value and sharing `required`. The `type` argument is ignored. |
| VariativeData.ParamCommandsTarget | src/decorators/variative.data.ts:53-86 | Every call addresses the decorated class and method, and a parameter upsert uses the location's upsert. |
| VariativeData.OpForInjective | src/decorators/variative.data.ts:63-72 | Distinct locations select distinct upserts. |
| VariativeData.Param | src/decorators/variative.data.ts:31-33 | `Param` is the decorator at the path location with `required` absent. |
| VariativeData.Query | src/decorators/variative.data.ts:35-37 | `Query` is the decorator at the query location. |
| VariativeData.Body | src/decorators/variative.data.ts:39-41 | `Body` is the decorator at the body location. |
| VariativeData.Header | src/decorators/variative.data.ts:43-45 | `Header` is the decorator at the header location. |
| VariativeData.BodyTypeDecorators | src/decorators/variative.data.ts:5-29 | `BodyIsArray` marks the body as an array. `BodyIsObject`, `BodyIsString` and `BodyIsNumber` set three distinct body types, none of them a reference. |
| BasicUrl.BaseUrl | src/decorators/basic.url.ts:5-38 | It first upserts the node with the normalised path, relation and combiner. With no registered parent it does nothing else. Otherwise it makes one propagation call per parent endpoint, in order. Every call addresses the class and none the parent. |
| BasicUrl.PropagationKinds | src/decorators/basic.url.ts:27-36 | An endpoint the class already has is upserted, any other is added. Either call carries the parent's endpoint and addresses the class. |
| Registry.FindNode | src/decorators/basic.url.ts:21 | The node found has the name asked for. None means no node has that name. |
| Registry.FindEndpoint | src/decorators/basic.url.ts:28 | The endpoint found belongs to the named node and has the name asked for. None means the node is missing or has no endpoint of that name. |

## Left out

- Reading `package.json` from disk (`getPackageJson`) is left out. The parsed package is an input, and its `swapi` settings default to `{}` as in the source.
- `generateSwaggerYaml` and the YAML serialisation are not part of this model.
- The registry (`src/storage`) is not part of this model.
  - Its storage calls are recorded as `Command`s, and their effect is unspecified.
  - `getNodeFullPath` is the node's `fullPath` field.
- `setUrlParamFromFullPath` is not computed. The path parameters an endpoint holds after that call are an input function (`Externals.syncUrlParams`). The model records each call and its order.
- `normalizePath` and lodash's `camelCase` are uninterpreted function parameters.
- The defaulting inside `generateParamMeta` is kept symbolic: a parameter is the `ParamMeta` record of the arguments it receives.
- The HTTP method helpers and the abstract router are not part of this model. Nodes carry their `isAbstract` flag as given.
- Decorator reflection is not modelled: the class name, method name and prototype parent's name are parameters.
- Registry lookups are answered from one fixed view. `BaseUrl` does not see endpoints that its own earlier propagation calls added.
- Object aliasing, shallow copies (`Object.assign({}, endpoint)`) and the persistence of registry mutations between decorator applications are not modelled.
- JavaScript object key order is not modelled. Objects are maps with last-write-wins, and the order of `Object.entries` is the given entry sequence.
- The enumeration values are assumed to be their Swagger spellings, so no HTTP method key is `__proto__`. `HttpMethods` is `get`, `post`, `put`, `patch` and `delete`; `Types` is `array`, `object`, `string` and `number`.
- HTTP statuses are non-negative integers. Numeric keys are spelled in decimal, and negative or fractional statuses are not modelled.
- Lengths and positions count characters (Unicode scalar values), where JavaScript's `length`, `indexOf` and `slice` count UTF-16 code units. The two agree on text with no character above U+FFFF. Only the `[]`-suffix rule of `Response` does length arithmetic, so `ArraySuffixRule`'s "one character" means one code unit. A lone astral character such as an emoji is a non-array type in JavaScript, but the model turns it into `("", true)`.
- The registry is assumed well-formed. Every node has an `endpoints` array, every endpoint has `query`, `body`, `header` and `responses` arrays, and every parameter type, response type and scheme entry type is a string. Every stored parameter also has a string `description` and a boolean `required`; where the source would copy `undefined` into the document, the model has a value. Without these, the compiler throws a TypeError at src/sw.generator/index.ts:34, 107, 131, 141, 171, 185 and 232, which the model does not represent.
- The package's `version`, `name`, `description`, `license` and `author` are modelled as strings that are always present. When a field is missing, the source copies `undefined`.
- NumberToString spells every natural number in full decimal. JavaScript switches to exponent notation from 1e21 and loses precision above 2^53; no HTTP status comes near either.
- The parameter decorators' reference test is the `isReference` of `src/helpers`, which is not part of this model. It is assumed to be the compiler's own test (`indexOf('#/') === 0`, src/sw.generator/index.ts:262-264), and `VariativeData` uses `SwaggerHelpers.IsReference` for it. `ParamCommands`, `VariativeDataDecorator`, `ReferenceNameSetsBodyType` and `PlainNameUpsertsOne` rest on that assumption.
