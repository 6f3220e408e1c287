/**
 * The metadata registry as its consumers see it. The registry itself
 * (`src/storage`) is not part of this model: the compiler reads it as a
 * value `Snapshot`, and the decorators talk to it through `Command`s, one
 * per storage call, whose effect on the registry is left unspecified.
 */
module Registry {
  import opened Wrappers

  // Values of the `Types` enumeration (Swagger 2.0 type names).
  const ARRAY: string := "array"
  const OBJECT: string := "object"
  const STRING: string := "string"
  const NUMBER: string := "number"

  // Values of the `HttpMethods` enumeration; they are also the keys of a
  // Swagger path item, so an endpoint's method is kept as that string.
  const GET: string := "get"
  const POST: string := "post"
  const PUT: string := "put"
  const PATCH: string := "patch"
  const DELETE: string := "delete"

  /** `ParameterLocation`: where a parameter is carried. */
  datatype Location = UrlPath | Query | Body | Header

  datatype Parameter = Parameter(name: string, ty: string, required: bool, description: string)

  /** A declared response, `ResponseStore`. */
  datatype ResponseRecord = ResponseRecord(status: nat, responseType: string, isArray: bool, description: string)

  datatype Endpoint = Endpoint(
    name: string,
    path: string,
    httpMethod: string,
    description: string,
    urlParams: seq<Parameter>,
    query: seq<Parameter>,
    body: seq<Parameter>,
    header: seq<Parameter>,
    bodyType: Option<string>,
    responses: seq<ResponseRecord>)

  /**
   * A route class. `fullPath` is what the registry's `getNodeFullPath`
   * answers for it when the document is compiled.
   */
  datatype Node = Node(name: string, fullPath: string, isAbstract: bool, endpoints: seq<Endpoint>)

  datatype SchemeEntry = SchemeEntry(name: string, ty: string)

  /** A named schema fragment; `kind` is `ARRAY` or `OBJECT`. */
  datatype ResponseType = ResponseType(name: string, scheme: seq<SchemeEntry>, kind: string)

  /** The registry's contents, in its own storage order. */
  datatype Snapshot = Snapshot(nodes: seq<Node>, types: seq<ResponseType>)

  /** `findNodeByName`: the node registered under `name`, if any. */
  function FindNode(nodes: seq<Node>, name: string): (r: Option<Node>)
    ensures r.Some? ==> r.value in nodes && r.value.name == name
    ensures r.None? ==> forall k :: 0 <= k < |nodes| ==> nodes[k].name != name
  {
    if nodes == [] then None
    else if nodes[0].name == name then Some(nodes[0])
    else FindNode(nodes[1..], name)
  }

  /** `findEndpointByName`: the endpoint `endpointName` of node `nodeName`, if both exist. */
  function FindEndpoint(nodes: seq<Node>, nodeName: string, endpointName: string): (r: Option<Endpoint>)
    ensures r.Some? ==> FindNode(nodes, nodeName).Some? && r.value in FindNode(nodes, nodeName).value.endpoints
    ensures r.Some? ==> r.value.name == endpointName
    ensures r.None? ==>
      (FindNode(nodes, nodeName).None?
       || forall k :: 0 <= k < |FindNode(nodes, nodeName).value.endpoints| ==> FindNode(nodes, nodeName).value.endpoints[k].name != endpointName)
  {
    match FindNode(nodes, nodeName)
    case None => None
    case Some(node) => FindByName(node.endpoints, endpointName)
  }

  /** The per-node search behind `findEndpointByName`: the first endpoint named `name`, if any. */
  function FindByName(endpoints: seq<Endpoint>, name: string): (r: Option<Endpoint>)
    ensures r.Some? ==> r.value in endpoints && r.value.name == name
    ensures r.None? ==> forall k :: 0 <= k < |endpoints| ==> endpoints[k].name != name
  {
    if endpoints == [] then None
    else if endpoints[0].name == name then Some(endpoints[0])
    else FindByName(endpoints[1..], name)
  }

  /** The facts a class-level decorator hands to `upsertNode`. */
  datatype NodeFacts = NodeFacts(name: string, path: string, relatedTo: Option<string>, combiner: Option<string>, isAbstract: bool)

  /**
   * The arguments given to the registry's `generateParamMeta(name, type,
   * required)`; how it fills in defaults is not part of this model.
   */
  datatype ParamMeta = ParamMeta(name: string, ty: Option<string>, required: Option<bool>)

  /** The four parameter upserts of the registry, one per location. */
  datatype ParamOp = UpsertHeaderParam | UpsertBodyParam | UpsertQueryParam | UpsertUrlParam

  /** One call into the registry, with its arguments. */
  datatype Command =
    | UpsertNode(node: NodeFacts)
    | UpsertEndpoint(nodeName: string, endpointName: string, endpoint: Endpoint)
    | AddEndpoint(nodeName: string, endpoint: Endpoint)
    | SetBodyType(nodeName: string, endpointName: string, bodyType: string)
    | MarkBodyAsArray(nodeName: string, endpointName: string)
    | UpsertParam(op: ParamOp, nodeName: string, endpointName: string, param: ParamMeta)
    | UpsertResponse(nodeName: string, endpointName: string, status: nat, response: ResponseRecord)
    | CreateResponseType(typeName: string, scheme: seq<SchemeEntry>, kind: string)

  /** The command addresses node `name`. */
  predicate Targets(c: Command, name: string) {
    match c
    case UpsertNode(node) => node.name == name
    case CreateResponseType(_, _, _) => false
    case _ => c.nodeName == name
  }
}
