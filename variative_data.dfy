/**
 * The parameter decorators `Param`, `Query`, `Body` and `Header`, the
 * `VariativeDataDecorator` they share, and the `BodyIs*` body-type setters:
 * each application is modelled by the registry calls it makes.
 */
module VariativeData {
  import opened Wrappers
  import opened Registry
  // The decorators' `isReference` comes from `src/helpers`, which is not part
  // of this model; it is taken to be the compiler's `indexOf('#/') === 0`.
  import opened SwaggerHelpers

  /**
   * The first argument of a parameter decorator: one parameter name, or an
   * object mapping parameter names to types, given by its own entries in
   * the order `Object.entries` lists them.
   */
  datatype NameArg = Name(name: string) | NameTypeMap(entries: seq<(string, string)>)

  /** The registry upsert a location selects. */
  function OpFor(location: Location): ParamOp {
    match location
    case Header => UpsertHeaderParam
    case Body => UpsertBodyParam
    case Query => UpsertQueryParam
    case UrlPath => UpsertUrlParam
  }

  /** Each location has its own upsert: no two locations share one. */
  lemma OpForInjective(a: Location, b: Location)
    requires OpFor(a) == OpFor(b)
    ensures a == b
  {
  }

  /**
   * The calls one application of `VariativeDataDecorator(name, location,
   * type, required)` to method `endpointName` of class `nodeName` makes.
   */
  function ParamCommands(name: NameArg, location: Location, ty: Option<string>, required: Option<bool>,
                         nodeName: string, endpointName: string): seq<Command>
  {
    match name
    case Name(n) =>
      if IsReference(n) then [SetBodyType(nodeName, endpointName, n)]
      else [UpsertParam(OpFor(location), nodeName, endpointName, ParamMeta(n, ty, required))]
    case NameTypeMap(entries) =>
      seq(|entries|, k requires 0 <= k < |entries| =>
        UpsertParam(OpFor(location), nodeName, endpointName, ParamMeta(entries[k].0, Some(entries[k].1), required)))
  }

  /**
   * A name that is a reference (`#/Entity`) sets the body type, whatever the
   * location, and upserts no parameter.
   */
  lemma ReferenceNameSetsBodyType(n: string, location: Location, ty: Option<string>, required: Option<bool>,
                                  nodeName: string, endpointName: string)
    requires IsReference(n)
    ensures ParamCommands(Name(n), location, ty, required, nodeName, endpointName)
      == [SetBodyType(nodeName, endpointName, n)]
  {
  }

  /** Any other single name upserts exactly one parameter, at the location's upsert, with the given type and `required`. */
  lemma PlainNameUpsertsOne(n: string, location: Location, ty: Option<string>, required: Option<bool>,
                            nodeName: string, endpointName: string)
    requires !IsReference(n)
    ensures var cmds := ParamCommands(Name(n), location, ty, required, nodeName, endpointName);
      && |cmds| == 1
      && cmds[0].UpsertParam? && cmds[0].op == OpFor(location)
      && cmds[0].param == ParamMeta(n, ty, required)
  {
  }

  /**
   * A map upserts one parameter per entry, in entry order: the entry's value
   * is its type, every entry shares `required`, and the `type` argument is
   * ignored. A key that looks like a reference is still a parameter.
   */
  lemma MapUpsertsEachEntry(entries: seq<(string, string)>, location: Location, ty: Option<string>, ty': Option<string>,
                            required: Option<bool>, nodeName: string, endpointName: string)
    ensures var cmds := ParamCommands(NameTypeMap(entries), location, ty, required, nodeName, endpointName);
      && |cmds| == |entries|
      && (forall k :: 0 <= k < |entries| ==>
        cmds[k] == UpsertParam(OpFor(location), nodeName, endpointName, ParamMeta(entries[k].0, Some(entries[k].1), required)))
      && cmds == ParamCommands(NameTypeMap(entries), location, ty', required, nodeName, endpointName)
  {
  }

  /** Every call addresses the decorated method of the decorated class, and no call goes to a header upsert unless the location is `Header`. */
  lemma ParamCommandsTarget(name: NameArg, location: Location, ty: Option<string>, required: Option<bool>,
                            nodeName: string, endpointName: string)
    ensures var cmds := ParamCommands(name, location, ty, required, nodeName, endpointName);
      forall k :: 0 <= k < |cmds| ==>
        && Targets(cmds[k], nodeName) && cmds[k].endpointName == endpointName
        && (cmds[k].UpsertParam? ==> cmds[k].op == OpFor(location))
  {
  }

  /** `VariativeDataDecorator(name, location, type, required)` applied to method `endpointName` of class `nodeName`. */
  method VariativeDataDecorator(name: NameArg, location: Location, ty: Option<string>, required: Option<bool>,
                                nodeName: string, endpointName: string) returns (cmds: seq<Command>)
    ensures cmds == ParamCommands(name, location, ty, required, nodeName, endpointName)
  {
    if name.Name? && IsReference(name.name) {
      return [SetBodyType(nodeName, endpointName, name.name)];
    }
    var addParam: ParamOp;
    if location == Location.Header {
      addParam := UpsertHeaderParam;
    } else if location == Location.Body {
      addParam := UpsertBodyParam;
    } else if location == Location.Query {
      addParam := UpsertQueryParam;
    } else {
      addParam := UpsertUrlParam;
    }
    if name.Name? {
      var param := ParamMeta(name.name, ty, required);
      cmds := [UpsertParam(addParam, nodeName, endpointName, param)];
    } else {
      var entries := name.entries;
      cmds := [];
      var k := 0;
      while k < |entries|
        invariant 0 <= k <= |entries|
        invariant |cmds| == k
        invariant forall i :: 0 <= i < k ==>
          cmds[i] == UpsertParam(addParam, nodeName, endpointName, ParamMeta(entries[i].0, Some(entries[i].1), required))
      {
        var param := ParamMeta(entries[k].0, Some(entries[k].1), required);
        cmds := cmds + [UpsertParam(addParam, nodeName, endpointName, param)];
        k := k + 1;
      }
    }
  }

  /** `Param(name, type)`: a path parameter; `required` is never forwarded. */
  method Param(name: NameArg, ty: Option<string>, nodeName: string, endpointName: string) returns (cmds: seq<Command>)
    ensures cmds == ParamCommands(name, UrlPath, ty, None, nodeName, endpointName)
  {
    cmds := VariativeDataDecorator(name, UrlPath, ty, None, nodeName, endpointName);
  }

  /** `Query(name, type, required)` */
  method Query(name: NameArg, ty: Option<string>, required: Option<bool>, nodeName: string, endpointName: string)
    returns (cmds: seq<Command>)
    ensures cmds == ParamCommands(name, Location.Query, ty, required, nodeName, endpointName)
  {
    cmds := VariativeDataDecorator(name, Location.Query, ty, required, nodeName, endpointName);
  }

  /** `Body(name, type, required)` */
  method Body(name: NameArg, ty: Option<string>, required: Option<bool>, nodeName: string, endpointName: string)
    returns (cmds: seq<Command>)
    ensures cmds == ParamCommands(name, Location.Body, ty, required, nodeName, endpointName)
  {
    cmds := VariativeDataDecorator(name, Location.Body, ty, required, nodeName, endpointName);
  }

  /** `Header(name, type, required)` */
  method Header(name: NameArg, ty: Option<string>, required: Option<bool>, nodeName: string, endpointName: string)
    returns (cmds: seq<Command>)
    ensures cmds == ParamCommands(name, Location.Header, ty, required, nodeName, endpointName)
  {
    cmds := VariativeDataDecorator(name, Location.Header, ty, required, nodeName, endpointName);
  }

  /** `setBodyType(target, methodName, type)` */
  function SetBodyTypeOf(nodeName: string, methodName: string, ty: string): Command {
    SetBodyType(nodeName, methodName, ty)
  }

  /** `BodyIsArray`: marks the body of the method as an array. */
  function BodyIsArray(nodeName: string, methodName: string): Command {
    MarkBodyAsArray(nodeName, methodName)
  }

  function BodyIsObject(nodeName: string, methodName: string): Command {
    SetBodyTypeOf(nodeName, methodName, OBJECT)
  }

  function BodyIsString(nodeName: string, methodName: string): Command {
    SetBodyTypeOf(nodeName, methodName, STRING)
  }

  function BodyIsNumber(nodeName: string, methodName: string): Command {
    SetBodyTypeOf(nodeName, methodName, NUMBER)
  }

  /**
   * The body-type decorators address the decorated method of the decorated
   * class; the three setters set three distinct scalar types, none of them a
   * reference, and `BodyIsArray` sets no type but marks the body an array.
   */
  lemma BodyTypeDecorators(nodeName: string, methodName: string)
    ensures BodyIsArray(nodeName, methodName) == MarkBodyAsArray(nodeName, methodName)
    ensures BodyIsObject(nodeName, methodName) == SetBodyType(nodeName, methodName, OBJECT)
    ensures BodyIsString(nodeName, methodName) == SetBodyType(nodeName, methodName, STRING)
    ensures BodyIsNumber(nodeName, methodName) == SetBodyType(nodeName, methodName, NUMBER)
    ensures OBJECT != STRING && STRING != NUMBER && OBJECT != NUMBER
    ensures !IsReference(OBJECT) && !IsReference(STRING) && !IsReference(NUMBER)
  {
    NotReference(OBJECT);
    NotReference(STRING);
    NotReference(NUMBER);
  }

  lemma NotReference(ty: string)
    requires |ty| >= 1 && ty[0] != '#'
    ensures !IsReference(ty)
  {
  }
}
