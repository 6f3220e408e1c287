/**
 * `generateSwaggerJson` and the functions it calls: the registry snapshot
 * compiled into a Swagger 2.0 document. The loops of the source are
 * methods, each proved equal to a specification function; the properties
 * of the document are lemmas about those functions.
 */
module SwaggerGenerator {
  import opened Wrappers
  import opened JsStrings
  import opened JsObjects
  import opened Registry
  import opened SwaggerJson
  import opened SwaggerHelpers
  import opened Seqs
  import UrlResolve

  /**
   * Collaborators outside the model: the path normaliser, lodash
   * `camelCase`, and the registry's `setUrlParamFromFullPath`, given as the
   * path parameters an endpoint of a node holds once that call has
   * re-derived them from the full path.
   */
  datatype Externals = Externals(
    normalizePath: string -> string,
    camelCase: string -> string,
    syncUrlParams: (Node, Endpoint) -> seq<Parameter>)

  /** `generateSwaggerJsonBody`: the header, from package.json, with no paths and no definitions. */
  function DocumentBody(pkg: PackageJson): Document {
    var sw := Settings(pkg);
    Document("2.0", Info(pkg.version, pkg.name, pkg.description, pkg.license, pkg.author),
      sw.host, sw.basePath, sw.schemes, sw.produces, sw.consumes, map[], map[])
  }

  // ----- Schemas of properties and responses -----

  /** How a body field or a scheme property is described: `{ $ref }` for a reference, `{ type }` otherwise. */
  function PropertySchema(ty: string): (s: Schema)
    ensures s.ref.Some? <==> IsReference(ty)
    ensures IsReference(ty) ==> s == RefSchema("#/definitions/" + ty[2..])
    ensures !IsReference(ty) ==> s == TypeSchema(ty)
  {
    if IsReference(ty) then RefSchema(CreateSwaggerReference(ty)) else TypeSchema(ty)
  }

  /**
   * `prepareSwaggerMethodResponse`: the description is copied; the schema
   * is the property schema of the type, wrapped as array items when the
   * response is an array.
   */
  function ResponseObjectOf(res: ResponseRecord): (r: ResponseObject)
    ensures r.description == res.description
    ensures r.schema == if res.isArray then ArraySchema(PropertySchema(res.responseType)) else PropertySchema(res.responseType)
  {
    var schema :=
      if IsReference(res.responseType) then
        var reference := CreateSwaggerReference(res.responseType);
        if res.isArray then ArraySchema(RefSchema(reference)) else RefSchema(reference)
      else
        if res.isArray then ArraySchema(TypeSchema(res.responseType)) else TypeSchema(res.responseType);
    ResponseObject(res.description, schema)
  }

  // ----- Default response -----

  /**
   * The status `getDefaultResponseWithStatus` picks. Its third test ends
   * with the bare constant `HttpMethods.DELETE`, which is truthy, so the
   * last branch (the status left `undefined`) is never taken.
   */
  function DefaultStatus(httpMethod: string): string {
    if httpMethod == GET then "200"
    else if httpMethod == POST then "201"
    else if httpMethod == PUT || httpMethod == PATCH || Truthy(DELETE) then "204"
    else "undefined"
  }

  /**
   * `getDefaultResponseWithStatus`: one entry, `{ description: 'OK', schema:
   * { type: 'string' } }`, under 200 for GET, 201 for POST and 204 for every
   * other method.
   */
  function DefaultResponse(httpMethod: string): (r: map<string, ResponseObject>)
    ensures httpMethod == GET ==> r.Keys == {"200"}
    ensures httpMethod == POST ==> r.Keys == {"201"}
    ensures httpMethod != GET && httpMethod != POST ==> r.Keys == {"204"}
    ensures forall k :: k in r ==> r[k] == ResponseObject("OK", TypeSchema(STRING))
  {
    map[DefaultStatus(httpMethod) := ResponseObject("OK", TypeSchema("string"))]
  }

  // ----- Responses of an operation -----

  /** The writes `method.responses[res.status] = …`, one per declared response, in order. */
  function ResponseWrites(rs: seq<ResponseRecord>): seq<(string, ResponseObject)> {
    seq(|rs|, i requires 0 <= i < |rs| => (NumberToString(rs[i].status), ResponseObjectOf(rs[i])))
  }

  /** The responses map: the default one when nothing is declared, otherwise the declared ones only. */
  function ResponsesOf(e: Endpoint): map<string, ResponseObject> {
    AssignAll(if |e.responses| > 0 then map[] else DefaultResponse(e.httpMethod), ResponseWrites(e.responses))
  }

  /** Without declared responses an operation has exactly the default response. */
  lemma ResponsesDefault(e: Endpoint)
    requires |e.responses| == 0
    ensures ResponsesOf(e) == DefaultResponse(e.httpMethod)
  {
  }

  /** A status key ends in a digit, so it is never `__proto__` and every status write is stored. */
  lemma StatusKeyNotProto(status: nat)
    ensures NumberToString(status) != PROTO
  {
    var s := NumberToString(status);
    assert '0' <= s[|s| - 1] <= '9';
    assert PROTO[|PROTO| - 1] == '_';
  }

  /** With declared responses, the statuses present are exactly the declared ones (no default). */
  lemma ResponsesDeclaredKeys(e: Endpoint)
    requires |e.responses| > 0
    ensures ResponsesOf(e).Keys == set i | 0 <= i < |e.responses| :: NumberToString(e.responses[i].status)
  {
    var ws := ResponseWrites(e.responses);
    AssignAllKeys(map[], ws);
    assert PROTO !in WrittenKeys(ws) by {
      forall i | 0 <= i < |ws| ensures ws[i].0 != PROTO {
        StatusKeyNotProto(e.responses[i].status);
      }
    }
    assert WrittenKeys(ws) == set i | 0 <= i < |e.responses| :: NumberToString(e.responses[i].status) by {
      forall k | k in WrittenKeys(ws) ensures exists i :: 0 <= i < |e.responses| && NumberToString(e.responses[i].status) == k {
        var i :| 0 <= i < |ws| && ws[i].0 == k;
      }
      forall i | 0 <= i < |e.responses| ensures NumberToString(e.responses[i].status) in WrittenKeys(ws) {
        assert ws[i].0 == NumberToString(e.responses[i].status);
      }
    }
  }

  /** A status declared twice holds the later declaration. */
  lemma ResponsesLastWins(e: Endpoint, i: nat)
    requires i < |e.responses|
    requires forall j :: i < j < |e.responses| ==> e.responses[j].status != e.responses[i].status
    ensures NumberToString(e.responses[i].status) in ResponsesOf(e)
    ensures ResponsesOf(e)[NumberToString(e.responses[i].status)] == ResponseObjectOf(e.responses[i])
  {
    var ws := ResponseWrites(e.responses);
    forall j | i < j < |ws| ensures ws[j].0 != ws[i].0 {
      if ws[j].0 == ws[i].0 {
        NumberToStringInjective(e.responses[j].status, e.responses[i].status);
      }
    }
    StatusKeyNotProto(e.responses[i].status);
    AssignAllLastWins(if |e.responses| > 0 then map[] else DefaultResponse(e.httpMethod), ws, i);
  }

  // ----- Parameters -----

  /** The (query or path) parameters as Parameter Objects at `location`, in stored order. */
  function PlainParameters(params: seq<Parameter>, location: Location): seq<ParameterObject> {
    seq(|params|, i requires 0 <= i < |params| =>
      PlainParameter(params[i].name, location, params[i].description, params[i].required, params[i].ty))
  }

  /** `endpoint.body.length > 0 || !!endpoint.bodyType` */
  predicate HasBody(e: Endpoint) {
    |e.body| > 0 || (e.bodyType.Some? && Truthy(e.bodyType.value))
  }

  /** The names of the required body fields, in declaration order. */
  function RequiredNames(body: seq<Parameter>): (names: seq<string>)
    ensures |names| <= |body|
    ensures |names| > 0 <==> exists i :: 0 <= i < |body| && body[i].required
    ensures forall n :: n in names ==> exists i :: 0 <= i < |body| && body[i].required && body[i].name == n
  {
    if body == [] then []
    else (if body[0].required then [body[0].name] else []) + RequiredNames(body[1..])
  }

  /** The required list keeps declaration order: that of `a + b` is that of `a`, then that of `b`. */
  lemma {:induction false} RequiredNamesAppend(a: seq<Parameter>, b: seq<Parameter>)
    ensures RequiredNames(a + b) == RequiredNames(a) + RequiredNames(b)
    decreases |a|
  {
    if a == [] {
      assert a + b == b;
    } else {
      assert (a + b)[0] == a[0] && (a + b)[1..] == a[1..] + b;
      RequiredNamesAppend(a[1..], b);
    }
  }

  /** The writes `bodyParam.schema.properties[param.name] = …`, one per body field, in order. */
  function PropertyWrites(body: seq<Parameter>): seq<(string, Schema)> {
    seq(|body|, i requires 0 <= i < |body| => (body[i].name, PropertySchema(body[i].ty)))
  }

  /** `prepareSwaggerMethodBodyParameter`. */
  function BodyParameterOf(e: Endpoint, operationId: string): ParameterObject {
    var required := RequiredNames(e.body);
    BodyParameter(operationId + "Body",
      Schema(e.bodyType, None, None, Some(AssignAll(map[], PropertyWrites(e.body))),
        if |required| > 0 then Some(required) else None))
  }

  /**
   * The body parameter is named `operationId + 'Body'`, typed by `bodyType`,
   * and lists the required fields, in order, only when some field is required.
   */
  lemma BodyParameterShape(e: Endpoint, operationId: string)
    ensures var p := BodyParameterOf(e, operationId);
      && p.BodyParameter? && p.In() == Body
      && p.name == operationId + "Body"
      && p.schema.ty == e.bodyType && p.schema.ref.None? && p.schema.items.None?
      && (p.schema.required.Some? <==> exists i :: 0 <= i < |e.body| && e.body[i].required)
      && (p.schema.required.Some? ==> p.schema.required.value == RequiredNames(e.body))
  {
  }

  /** Every body field other than `__proto__` is a property; a name declared twice holds the later declaration. */
  lemma BodyPropertiesLastWins(e: Endpoint, operationId: string, i: nat)
    requires i < |e.body| && e.body[i].name != PROTO
    requires forall j :: i < j < |e.body| ==> e.body[j].name != e.body[i].name
    ensures BodyParameterOf(e, operationId).schema.properties.Some?
    ensures var props := BodyParameterOf(e, operationId).schema.properties.value;
      e.body[i].name in props && props[e.body[i].name] == PropertySchema(e.body[i].ty)
  {
    AssignAllLastWins(map[], PropertyWrites(e.body), i);
  }

  /** The body schema has a property for each body field not named `__proto__`, and no other. */
  lemma BodyPropertiesKeys(e: Endpoint, operationId: string)
    ensures BodyParameterOf(e, operationId).schema.properties.value.Keys == (set i | 0 <= i < |e.body| :: e.body[i].name) - {PROTO}
  {
    var ws := PropertyWrites(e.body);
    AssignAllKeys(map[], ws);
    assert WrittenKeys(ws) == set i | 0 <= i < |e.body| :: e.body[i].name by {
      forall k | k in WrittenKeys(ws) ensures exists i :: 0 <= i < |e.body| && e.body[i].name == k {
        var i :| 0 <= i < |ws| && ws[i].0 == k;
      }
      forall i | 0 <= i < |e.body| ensures e.body[i].name in WrittenKeys(ws) {
        assert ws[i].0 == e.body[i].name;
      }
    }
  }

  method PrepareBodyParameter(e: Endpoint, operationId: string) returns (p: ParameterObject)
    ensures p == BodyParameterOf(e, operationId)
  {
    var required := RequiredNames(e.body);
    var properties: map<string, Schema> := map[];
    var i := 0;
    while i < |e.body|
      invariant 0 <= i <= |e.body|
      invariant properties == AssignAll(map[], PropertyWrites(e.body)[..i])
    {
      var param := e.body[i];
      var schema := if IsReference(param.ty) then RefSchema(CreateSwaggerReference(param.ty)) else TypeSchema(param.ty);
      properties := Assign(properties, param.name, schema);
      assert PropertyWrites(e.body)[..i + 1][..i] == PropertyWrites(e.body)[..i];
      i := i + 1;
    }
    assert PropertyWrites(e.body)[..|e.body|] == PropertyWrites(e.body);
    p := BodyParameter(operationId + "Body",
      Schema(e.bodyType, None, None, Some(properties), if |required| > 0 then Some(required) else None));
  }

  /** `prepareSwaggerMethodParams`. */
  function MethodParams(e: Endpoint, operationId: string): seq<ParameterObject> {
    var parameters := PlainParameters(e.query, Query) + PlainParameters(e.urlParams, UrlPath);
    if HasBody(e) then parameters + [BodyParameterOf(e, operationId)] else parameters
  }

  /**
   * The parameters of an operation: all query parameters, then all path
   * parameters, then the body parameter when there is a body. Header
   * parameters never appear, and the body parameter only last.
   */
  lemma MethodParamsOrder(e: Endpoint, operationId: string)
    ensures var ps := MethodParams(e, operationId);
      && |ps| == |e.query| + |e.urlParams| + (if HasBody(e) then 1 else 0)
      && (forall i :: 0 <= i < |e.query| ==>
        ps[i] == PlainParameter(e.query[i].name, Query, e.query[i].description, e.query[i].required, e.query[i].ty))
      && (forall i :: 0 <= i < |e.urlParams| ==>
        ps[|e.query| + i] == PlainParameter(e.urlParams[i].name, UrlPath, e.urlParams[i].description, e.urlParams[i].required, e.urlParams[i].ty))
      && (HasBody(e) ==> ps[|ps| - 1] == BodyParameterOf(e, operationId))
      && (forall i :: 0 <= i < |ps| ==> ps[i].In() != Header)
      && (forall i :: 0 <= i < |ps| ==> (ps[i].In() == Body <==> HasBody(e) && i == |ps| - 1))
  {
  }

  method PrepareMethodParams(e: Endpoint, operationId: string) returns (ps: seq<ParameterObject>)
    ensures ps == MethodParams(e, operationId)
  {
    var urlParams := PlainParameters(e.urlParams, UrlPath);
    var queryParams := PlainParameters(e.query, Query);
    var parameters := queryParams + urlParams;
    if HasBody(e) {
      var bodyParam := PrepareBodyParameter(e, operationId);
      return parameters + [bodyParam];
    }
    return parameters;
  }

  // ----- One operation -----

  /** `generateSwaggerJsonMethod`. */
  function OperationOf(node: Node, e: Endpoint, pkg: PackageJson, ext: Externals): Operation {
    var operationId := ext.camelCase(node.name + " " + e.name);
    Operation(e.description, operationId, Settings(pkg).produces, ResponsesOf(e),
      if |MethodParams(e, e.name)| > 0 then Some(MethodParams(e, operationId)) else None)
  }

  /**
   * The operation of an endpoint: its id is the camel-cased "node endpoint",
   * `produces` comes from the settings, and the `parameters` property is
   * present exactly when the endpoint has a query or path parameter or a
   * body; the body parameter is then named after the operation id.
   */
  lemma OperationShape(node: Node, e: Endpoint, pkg: PackageJson, ext: Externals)
    ensures var op := OperationOf(node, e, pkg, ext);
      && op.description == e.description
      && op.produces == Settings(pkg).produces
      && op.operationId == ext.camelCase(node.name + " " + e.name)
      && op.responses == ResponsesOf(e)
      && (op.parameters.Some? <==> |e.query| + |e.urlParams| > 0 || HasBody(e))
      && (op.parameters.Some? ==> op.parameters.value == MethodParams(e, op.operationId))
  {
    MethodParamsOrder(e, e.name);
  }

  /** Header parameters have no effect on the compiled operation. */
  lemma HeaderParamsIgnored(node: Node, e: Endpoint, headers: seq<Parameter>, pkg: PackageJson, ext: Externals)
    ensures OperationOf(node, e.(header := headers), pkg, ext) == OperationOf(node, e, pkg, ext)
  {
    var e' := e.(header := headers);
    assert MethodParams(e', e.name) == MethodParams(e, e.name);
    assert BodyParameterOf(e', ext.camelCase(node.name + " " + e.name)) == BodyParameterOf(e, ext.camelCase(node.name + " " + e.name));
    assert ResponsesOf(e') == ResponsesOf(e);
  }

  method GenerateSwaggerJsonMethod(node: Node, e: Endpoint, pkg: PackageJson, ext: Externals) returns (op: Operation)
    ensures op == OperationOf(node, e, pkg, ext)
  {
    var operationId := ext.camelCase(node.name + " " + e.name);
    var init := if |e.responses| > 0 then map[] else DefaultResponse(e.httpMethod);
    var responses := init;
    var parameters: Option<seq<ParameterObject>> := None;
    var probe := PrepareMethodParams(e, e.name);
    if |probe| > 0 {
      var ps := PrepareMethodParams(e, operationId);
      parameters := Some(ps);
    }
    var i := 0;
    while i < |e.responses|
      invariant 0 <= i <= |e.responses|
      invariant responses == AssignAll(init, ResponseWrites(e.responses)[..i])
    {
      var res := e.responses[i];
      responses := Assign(responses, NumberToString(res.status), ResponseObjectOf(res));
      assert ResponseWrites(e.responses)[..i + 1][..i] == ResponseWrites(e.responses)[..i];
      i := i + 1;
    }
    assert ResponseWrites(e.responses)[..|e.responses|] == ResponseWrites(e.responses);
    op := Operation(e.description, operationId, Settings(pkg).produces, responses, parameters);
  }

  // ----- Paths -----

  /**
   * One endpoint's contribution to `paths` (its templated path, its method
   * and its operation), with the node and endpoint names passed to
   * `setUrlParamFromFullPath` just before the operation is built.
   */
  datatype PathEntry = PathEntry(nodeName: string, endpointName: string, path: string, verb: string, op: Operation)

  /** The templated path of an endpoint: node path and endpoint path resolved, then templated. */
  function EndpointPath(node: Node, e: Endpoint, ext: Externals): string {
    ConvertToSwaggerUrl(UrlResolve.Resolved([node.fullPath, e.path], ext.normalizePath))
  }

  /**
   * Every templated path begins with `/`, so no key of `paths` is `__proto__`
   * and writing it always stores an own property.
   */
  lemma EndpointPathAbsolute(node: Node, e: Endpoint, ext: Externals)
    ensures |EndpointPath(node, e, ext)| > 0 && EndpointPath(node, e, ext)[0] == '/'
    ensures EndpointPath(node, e, ext) != PROTO
  {
    var joined := UrlResolve.Joined([node.fullPath, e.path], ext.normalizePath);
    var p := UrlResolve.Piece(ext.normalizePath(node.fullPath));
    assert joined == p + UrlResolve.Joined([e.path], ext.normalizePath);
    assert |p| > 0 && p[0] == '/';
    var resolved := UrlResolve.CollapseSlashes(joined);
    assert |resolved| > 0 && resolved[0] == '/';
    var wrapped := WrapTokens(resolved);
    assert wrapped == [resolved[0]] + WrapTokens(resolved[1..]);
    assert RemoveColons(wrapped) == [wrapped[0]] + RemoveColons(wrapped[1..]);
  }

  /** The endpoint as the registry holds it after `setUrlParamFromFullPath`. */
  function Synced(node: Node, e: Endpoint, ext: Externals): Endpoint {
    e.(urlParams := ext.syncUrlParams(node, e))
  }

  /** The entry of one endpoint: its operation is built after its path parameters are re-derived. */
  function EntryOf(node: Node, e: Endpoint, pkg: PackageJson, ext: Externals): PathEntry {
    PathEntry(node.name, e.name, EndpointPath(node, e, ext), e.httpMethod, OperationOf(node, Synced(node, e, ext), pkg, ext))
  }

  /** The entries of one node, in endpoint order. */
  function NodeEntries(node: Node, pkg: PackageJson, ext: Externals): seq<PathEntry> {
    seq(|node.endpoints|, i requires 0 <= i < |node.endpoints| => EntryOf(node, node.endpoints[i], pkg, ext))
  }

  /** What one node contributes: nothing when it is abstract, otherwise its entries. */
  function NodeContribution(node: Node, pkg: PackageJson, ext: Externals): seq<PathEntry> {
    if node.isAbstract then [] else NodeEntries(node, pkg, ext)
  }

  function Contributions(nodes: seq<Node>, pkg: PackageJson, ext: Externals): seq<seq<PathEntry>> {
    seq(|nodes|, i requires 0 <= i < |nodes| => NodeContribution(nodes[i], pkg, ext))
  }

  /** The entries of all nodes, in storage order. */
  function Entries(nodes: seq<Node>, pkg: PackageJson, ext: Externals): seq<PathEntry> {
    Flatten(Contributions(nodes, pkg, ext))
  }

  /** The `setUrlParamFromFullPath` calls of the entries, as (node, endpoint) names, in order. */
  function CallsOf(entries: seq<PathEntry>): seq<(string, string)> {
    seq(|entries|, k requires 0 <= k < |entries| => (entries[k].nodeName, entries[k].endpointName))
  }

  lemma CallsOfSnoc(entries: seq<PathEntry>, j: nat)
    requires j < |entries|
    ensures CallsOf(entries[..j + 1]) == CallsOf(entries[..j]) + [(entries[j].nodeName, entries[j].endpointName)]
  {
  }

  lemma CallsOfAppend(a: seq<PathEntry>, b: seq<PathEntry>)
    ensures CallsOf(a + b) == CallsOf(a) + CallsOf(b)
  {
  }

  /** `paths[path][method] = operation`, creating the path item when the path is new. */
  function AddPath(paths: map<string, map<string, Operation>>, entry: PathEntry): map<string, map<string, Operation>> {
    if entry.path in paths then paths[entry.path := paths[entry.path][entry.verb := entry.op]]
    else paths[entry.path := map[entry.verb := entry.op]]
  }

  function PathsAfter(paths: map<string, map<string, Operation>>, entries: seq<PathEntry>): map<string, map<string, Operation>>
    decreases |entries|
  {
    if entries == [] then paths
    else AddPath(PathsAfter(paths, entries[..|entries| - 1]), entries[|entries| - 1])
  }

  /** The templated paths of the entries. */
  function PathSet(entries: seq<PathEntry>): set<string> {
    set k | 0 <= k < |entries| :: entries[k].path
  }

  /** The methods of the entries on path `p`. */
  function VerbSet(entries: seq<PathEntry>, p: string): set<string> {
    set k | 0 <= k < |entries| && entries[k].path == p :: entries[k].verb
  }

  lemma PathSetStep(entries: seq<PathEntry>)
    requires entries != []
    ensures PathSet(entries) == PathSet(entries[..|entries| - 1]) + {entries[|entries| - 1].path}
  {
    var n := |entries| - 1;
    forall q | q in PathSet(entries) ensures q in PathSet(entries[..n]) + {entries[n].path} {
      var k :| 0 <= k < |entries| && entries[k].path == q;
      if k < n { assert entries[..n][k] == entries[k]; }
    }
    forall q | q in PathSet(entries[..n]) ensures q in PathSet(entries) {
      var k :| 0 <= k < n && entries[..n][k].path == q;
      assert entries[k] == entries[..n][k];
    }
  }

  lemma VerbSetStep(entries: seq<PathEntry>, p: string)
    requires entries != []
    ensures VerbSet(entries, p) ==
      VerbSet(entries[..|entries| - 1], p) + (if entries[|entries| - 1].path == p then {entries[|entries| - 1].verb} else {})
  {
    var n := |entries| - 1;
    forall v | v in VerbSet(entries, p)
      ensures v in VerbSet(entries[..n], p) + (if entries[n].path == p then {entries[n].verb} else {})
    {
      var k :| 0 <= k < |entries| && entries[k].path == p && entries[k].verb == v;
      if k < n { assert entries[..n][k] == entries[k]; }
    }
    forall v | v in VerbSet(entries[..n], p) ensures v in VerbSet(entries, p) {
      var k :| 0 <= k < n && entries[..n][k].path == p && entries[..n][k].verb == v;
      assert entries[k] == entries[..n][k];
    }
  }

  /** The paths are exactly the templated paths of the entries; a path item holds exactly the methods declared on it. */
  lemma {:induction false} PathsKeys(entries: seq<PathEntry>)
    ensures PathsAfter(map[], entries).Keys == PathSet(entries)
    ensures forall p :: p in PathsAfter(map[], entries) ==> PathsAfter(map[], entries)[p].Keys == VerbSet(entries, p)
    decreases |entries|
  {
    if entries != [] {
      var n := |entries| - 1;
      PathsKeys(entries[..n]);
      PathSetStep(entries);
      forall p | p in PathsAfter(map[], entries) ensures PathsAfter(map[], entries)[p].Keys == VerbSet(entries, p) {
        VerbSetStep(entries, p);
        if p != entries[n].path && p !in PathsAfter(map[], entries[..n]) {
          assert false;
        }
      }
    }
  }

  /** For one path and method, the operation is that of the last endpoint with that path and method. */
  lemma {:induction false} PathsLastWins(paths: map<string, map<string, Operation>>, entries: seq<PathEntry>, i: nat)
    requires i < |entries|
    requires forall j :: i < j < |entries| ==> entries[j].path != entries[i].path || entries[j].verb != entries[i].verb
    ensures entries[i].path in PathsAfter(paths, entries)
    ensures entries[i].verb in PathsAfter(paths, entries)[entries[i].path]
    ensures PathsAfter(paths, entries)[entries[i].path][entries[i].verb] == entries[i].op
    decreases |entries|
  {
    var n := |entries| - 1;
    if i < n {
      PathsLastWins(paths, entries[..n], i);
    }
  }

  lemma PathsAfterSnoc(paths: map<string, map<string, Operation>>, entries: seq<PathEntry>, j: nat)
    requires j < |entries|
    ensures PathsAfter(paths, entries[..j + 1]) == AddPath(PathsAfter(paths, entries[..j]), entries[j])
  {
    assert entries[..j + 1][..j] == entries[..j];
  }

  /** Adding entries in two runs is adding them in one. */
  lemma {:induction false} PathsAfterAppend(paths: map<string, map<string, Operation>>, a: seq<PathEntry>, b: seq<PathEntry>)
    ensures PathsAfter(paths, a + b) == PathsAfter(PathsAfter(paths, a), b)
    decreases |b|
  {
    if b == [] {
      assert a + b == a;
    } else {
      var n := |b| - 1;
      assert (a + b)[..|a + b| - 1] == a + b[..n];
      PathsAfterAppend(paths, a, b[..n]);
    }
  }

  /** Entries of consecutive node lists concatenate. */
  lemma EntriesAppend(a: seq<Node>, b: seq<Node>, pkg: PackageJson, ext: Externals)
    ensures Entries(a + b, pkg, ext) == Entries(a, pkg, ext) + Entries(b, pkg, ext)
  {
    assert Contributions(a + b, pkg, ext) == Contributions(a, pkg, ext) + Contributions(b, pkg, ext);
    FlattenAppend(Contributions(a, pkg, ext), Contributions(b, pkg, ext));
  }

  /** The entries of the first `i + 1` nodes are those of the first `i`, then the contribution of node `i`. */
  lemma EntriesStep(nodes: seq<Node>, i: nat, pkg: PackageJson, ext: Externals)
    requires i < |nodes|
    ensures Entries(nodes[..i + 1], pkg, ext) == Entries(nodes[..i], pkg, ext) + NodeContribution(nodes[i], pkg, ext)
  {
    var cs := Contributions(nodes[..i + 1], pkg, ext);
    assert cs[..i] == Contributions(nodes[..i], pkg, ext);
    assert cs[i] == NodeContribution(nodes[i], pkg, ext);
  }

  /** An abstract node, wherever it stands and whatever endpoints it has, contributes nothing to the paths. */
  lemma AbstractNodeIgnored(a: seq<Node>, node: Node, b: seq<Node>, pkg: PackageJson, ext: Externals)
    requires node.isAbstract
    ensures Entries(a + [node] + b, pkg, ext) == Entries(a + b, pkg, ext)
  {
    EntriesAppend(a + [node], b, pkg, ext);
    EntriesAppend(a, [node], pkg, ext);
    EntriesAppend(a, b, pkg, ext);
    var cs := Contributions([node], pkg, ext);
    assert cs == [[]];
    assert cs[..0] == [];
    assert Entries([node], pkg, ext) == Flatten(cs[..0]) + cs[0];
    assert Entries(a, pkg, ext) + [] == Entries(a, pkg, ext);
  }

  // ----- Definitions -----

  /** The writes `props[prop.name] = …` of the `reduce` over a scheme, in order. */
  function SchemeWrites(scheme: seq<SchemeEntry>): seq<(string, Schema)> {
    seq(|scheme|, i requires 0 <= i < |scheme| => (scheme[i].name, PropertySchema(scheme[i].ty)))
  }

  function SchemeProperties(scheme: seq<SchemeEntry>): map<string, Schema> {
    AssignAll(map[], SchemeWrites(scheme))
  }

  /**
   * `generateSwaggerJsonDefinitionType`: typed by the kind; an array kind
   * puts the properties in an `items` object that has nothing else, any
   * other kind puts them at the top level.
   */
  function DefinitionType(rt: ResponseType): (d: Schema)
    ensures d.ty == Some(rt.kind) && d.ref.None? && d.required.None?
    ensures rt.kind == ARRAY ==> d.properties.None? && d.items == Some(Schema(None, None, None, Some(SchemeProperties(rt.scheme)), None))
    ensures rt.kind != ARRAY ==> d.items.None? && d.properties == Some(SchemeProperties(rt.scheme))
  {
    var properties := SchemeProperties(rt.scheme);
    if rt.kind == ARRAY then Schema(Some(rt.kind), None, Some(Schema(None, None, None, Some(properties), None)), None, None)
    else Schema(Some(rt.kind), None, None, Some(properties), None)
  }

  /** Every scheme entry other than `__proto__` is a property; a name listed twice holds the later entry. */
  lemma SchemePropertiesLastWins(scheme: seq<SchemeEntry>, i: nat)
    requires i < |scheme| && scheme[i].name != PROTO
    requires forall j :: i < j < |scheme| ==> scheme[j].name != scheme[i].name
    ensures scheme[i].name in SchemeProperties(scheme)
    ensures SchemeProperties(scheme)[scheme[i].name] == PropertySchema(scheme[i].ty)
  {
    AssignAllLastWins(map[], SchemeWrites(scheme), i);
  }

  /** The properties are keyed by exactly the scheme's entry names, less `__proto__`. */
  lemma SchemePropertiesKeys(scheme: seq<SchemeEntry>)
    ensures SchemeProperties(scheme).Keys == (set i | 0 <= i < |scheme| :: scheme[i].name) - {PROTO}
  {
    var ws := SchemeWrites(scheme);
    AssignAllKeys(map[], ws);
    assert WrittenKeys(ws) == set i | 0 <= i < |scheme| :: scheme[i].name by {
      forall k | k in WrittenKeys(ws) ensures exists i :: 0 <= i < |scheme| && scheme[i].name == k {
        var i :| 0 <= i < |ws| && ws[i].0 == k;
      }
      forall i | 0 <= i < |scheme| ensures scheme[i].name in WrittenKeys(ws) {
        assert ws[i].0 == scheme[i].name;
      }
    }
  }

  /** An array type `[{id: number}]` becomes `{ type: 'array', items: { properties: { id: { type: 'number' } } } }`. */
  lemma DefinitionExample(rt: ResponseType)
    requires rt == ResponseType("Ids", [SchemeEntry("id", NUMBER)], ARRAY)
    ensures DefinitionType(rt) == Schema(Some(ARRAY), None,
      Some(Schema(None, None, None, Some(map["id" := TypeSchema(NUMBER)]), None)), None, None)
  {
    assert NUMBER[0] != '#';
    assert !IsReference(NUMBER);
    var ws := SchemeWrites(rt.scheme);
    assert ws == [("id", TypeSchema(NUMBER))];
    assert ws[..0] == [];
    assert AssignAll(map[], ws) == Assign(AssignAll(map[], ws[..0]), "id", TypeSchema(NUMBER));
  }

  /** The writes `definitions[type.name] = …`, one per response type, in order. */
  function DefinitionWrites(types: seq<ResponseType>): seq<(string, Schema)> {
    seq(|types|, i requires 0 <= i < |types| => (types[i].name, DefinitionType(types[i])))
  }

  // ----- The document -----

  /** The compiled document. */
  function DocumentOf(snapshot: Snapshot, pkg: PackageJson, ext: Externals): Document {
    DocumentBody(pkg).(
      paths := PathsAfter(map[], Entries(snapshot.nodes, pkg, ext)),
      definitions := AssignAll(map[], DefinitionWrites(snapshot.types)))
  }

  /**
   * The header: Swagger 2.0, the info taken from package.json, and host,
   * base path, schemes, produces and consumes from its `swapi` settings,
   * all absent when there are no settings.
   */
  lemma DocumentHeader(snapshot: Snapshot, pkg: PackageJson, ext: Externals)
    ensures var d := DocumentOf(snapshot, pkg, ext);
      && d.swagger == "2.0"
      && d.info == Info(pkg.version, pkg.name, pkg.description, pkg.license, pkg.author)
      && (pkg.swapi.Some? ==>
        d.host == pkg.swapi.value.host && d.basePath == pkg.swapi.value.basePath && d.schemes == pkg.swapi.value.schemes
        && d.produces == pkg.swapi.value.produces && d.consumes == pkg.swapi.value.consumes)
      && (pkg.swapi.None? ==>
        d.host.None? && d.basePath.None? && d.schemes.None? && d.produces.None? && d.consumes.None?)
  {
  }

  /** Each response type not named `__proto__` yields `definitions[type.name]`; a name registered twice holds the later type. */
  lemma DefinitionsLastWins(snapshot: Snapshot, pkg: PackageJson, ext: Externals, i: nat)
    requires i < |snapshot.types| && snapshot.types[i].name != PROTO
    requires forall j :: i < j < |snapshot.types| ==> snapshot.types[j].name != snapshot.types[i].name
    ensures snapshot.types[i].name in DocumentOf(snapshot, pkg, ext).definitions
    ensures DocumentOf(snapshot, pkg, ext).definitions[snapshot.types[i].name] == DefinitionType(snapshot.types[i])
  {
    AssignAllLastWins(map[], DefinitionWrites(snapshot.types), i);
  }

  /** `definitions` is keyed by exactly the names of the registered response types, less `__proto__`. */
  lemma DefinitionsKeys(snapshot: Snapshot, pkg: PackageJson, ext: Externals)
    ensures DocumentOf(snapshot, pkg, ext).definitions.Keys == (set i | 0 <= i < |snapshot.types| :: snapshot.types[i].name) - {PROTO}
  {
    var ws := DefinitionWrites(snapshot.types);
    AssignAllKeys(map[], ws);
    assert WrittenKeys(ws) == set i | 0 <= i < |snapshot.types| :: snapshot.types[i].name by {
      forall k | k in WrittenKeys(ws) ensures exists i :: 0 <= i < |snapshot.types| && snapshot.types[i].name == k {
        var i :| 0 <= i < |ws| && ws[i].0 == k;
      }
      forall i | 0 <= i < |snapshot.types| ensures snapshot.types[i].name in WrittenKeys(ws) {
        assert ws[i].0 == snapshot.types[i].name;
      }
    }
  }

  /** The body of the loop over a node's endpoints: resolve and template the path, build the operation, store it. */
  method AddEndpointPath(node: Node, endpoint: Endpoint, pkg: PackageJson, ext: Externals,
                         paths: map<string, map<string, Operation>>, calls: seq<(string, string)>,
                         ghost entry: PathEntry)
    returns (paths': map<string, map<string, Operation>>, calls': seq<(string, string)>)
    requires entry == EntryOf(node, endpoint, pkg, ext)
    ensures paths' == AddPath(paths, entry)
    ensures calls' == calls + [(entry.nodeName, entry.endpointName)]
  {
    var fullEndpointPath := UrlResolve.Resolve([node.fullPath, endpoint.path], ext.normalizePath);
    var path := ConvertToSwaggerUrl(fullEndpointPath);
    calls' := calls + [(node.name, endpoint.name)];
    var synced := endpoint.(urlParams := ext.syncUrlParams(node, endpoint));
    var operation := GenerateSwaggerJsonMethod(node, synced, pkg, ext);
    if path in paths {
      paths' := paths[path := paths[path][endpoint.httpMethod := operation]];
    } else {
      paths' := paths[path := map[endpoint.httpMethod := operation]];
    }
  }

  /** One turn of the loop over a node's endpoints keeps its invariant. */
  lemma EntriesLoopStep(entries: seq<PathEntry>, j: nat,
                        paths: map<string, map<string, Operation>>, calls: seq<(string, string)>,
                        before: map<string, map<string, Operation>>, calledBefore: seq<(string, string)>,
                        after: map<string, map<string, Operation>>, calledAfter: seq<(string, string)>)
    requires j < |entries|
    requires before == PathsAfter(paths, entries[..j])
    requires calledBefore == calls + CallsOf(entries[..j])
    requires after == AddPath(before, entries[j])
    requires calledAfter == calledBefore + [(entries[j].nodeName, entries[j].endpointName)]
    ensures after == PathsAfter(paths, entries[..j + 1])
    ensures calledAfter == calls + CallsOf(entries[..j + 1])
  {
    PathsAfterSnoc(paths, entries, j);
    CallsOfSnoc(entries, j);
  }

  lemma NodeEntryAt(node: Node, pkg: PackageJson, ext: Externals, j: nat)
    requires j < |node.endpoints|
    ensures j < |NodeEntries(node, pkg, ext)|
    ensures NodeEntries(node, pkg, ext)[j] == EntryOf(node, node.endpoints[j], pkg, ext)
  {
  }

  /** The loop of `generateSwaggerJson` over the endpoints of one (non-abstract) node. */
  method AddNodePaths(node: Node, pkg: PackageJson, ext: Externals,
                      paths: map<string, map<string, Operation>>, calls: seq<(string, string)>)
    returns (paths': map<string, map<string, Operation>>, calls': seq<(string, string)>)
    ensures paths' == PathsAfter(paths, NodeEntries(node, pkg, ext))
    ensures calls' == calls + CallsOf(NodeEntries(node, pkg, ext))
  {
    ghost var entries := NodeEntries(node, pkg, ext);
    paths', calls' := paths, calls;
    var j := 0;
    assert entries[..0] == [];
    while j < |node.endpoints|
      invariant 0 <= j <= |node.endpoints|
      invariant paths' == PathsAfter(paths, entries[..j])
      invariant calls' == calls + CallsOf(entries[..j])
    {
      ghost var before, calledBefore := paths', calls';
      NodeEntryAt(node, pkg, ext, j);
      paths', calls' := AddEndpointPath(node, node.endpoints[j], pkg, ext, paths', calls', entries[j]);
      EntriesLoopStep(entries, j, paths, calls, before, calledBefore, paths', calls');
      j := j + 1;
    }
    assert entries[..|node.endpoints|] == entries;
  }

  /**
   * `generateSwaggerJson`: the header, then the paths of every non-abstract
   * node, then one definition per response type. It also returns, in order,
   * the (node, endpoint) names of its `setUrlParamFromFullPath` calls.
   */
  method GenerateSwaggerJson(snapshot: Snapshot, pkg: PackageJson, ext: Externals)
    returns (doc: Document, urlParamCalls: seq<(string, string)>)
    ensures doc == DocumentOf(snapshot, pkg, ext)
    ensures urlParamCalls == CallsOf(Entries(snapshot.nodes, pkg, ext))
  {
    var nodes := snapshot.nodes;
    var paths: map<string, map<string, Operation>> := map[];
    urlParamCalls := [];
    var i := 0;
    assert Contributions(nodes[..0], pkg, ext) == [];
    while i < |nodes|
      invariant 0 <= i <= |nodes|
      invariant paths == PathsAfter(map[], Entries(nodes[..i], pkg, ext))
      invariant urlParamCalls == CallsOf(Entries(nodes[..i], pkg, ext))
    {
      var node := nodes[i];
      EntriesStep(nodes, i, pkg, ext);
      PathsAfterAppend(map[], Entries(nodes[..i], pkg, ext), NodeContribution(node, pkg, ext));
      CallsOfAppend(Entries(nodes[..i], pkg, ext), NodeContribution(node, pkg, ext));
      if !node.isAbstract {
        paths, urlParamCalls := AddNodePaths(node, pkg, ext, paths, urlParamCalls);
      } else {
        assert NodeContribution(node, pkg, ext) == [];
      }
      i := i + 1;
    }
    assert nodes[..|nodes|] == nodes;
    var types := snapshot.types;
    var definitions: map<string, Schema> := map[];
    var t := 0;
    assert DefinitionWrites(types)[..0] == [];
    while t < |types|
      invariant 0 <= t <= |types|
      invariant definitions == AssignAll(map[], DefinitionWrites(types)[..t])
    {
      definitions := Assign(definitions, types[t].name, DefinitionType(types[t]));
      assert DefinitionWrites(types)[..t + 1][..t] == DefinitionWrites(types)[..t];
      t := t + 1;
    }
    assert DefinitionWrites(types)[..|types|] == DefinitionWrites(types);
    doc := DocumentBody(pkg).(paths := paths, definitions := definitions);
  }
}
