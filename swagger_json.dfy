/**
 * The Swagger 2.0 document the compiler produces (`SwaggerJson` and its
 * parts). An absent JSON property is `None`.
 */
module SwaggerJson {
  import opened Wrappers
  import opened Registry

  /** A Swagger Schema Object, restricted to the properties the compiler sets. */
  datatype Schema = Schema(
    ty: Option<string>,
    ref: Option<string>,
    items: Option<Schema>,
    properties: Option<map<string, Schema>>,
    required: Option<seq<string>>)

  /** `{ type: t }` */
  function TypeSchema(t: string): Schema {
    Schema(Some(t), None, None, None, None)
  }

  /** `{ $ref: r }` */
  function RefSchema(r: string): Schema {
    Schema(None, Some(r), None, None, None)
  }

  /** `{ type: 'array', items: item }` */
  function ArraySchema(item: Schema): Schema {
    Schema(Some(ARRAY), None, Some(item), None, None)
  }

  /** A Swagger Response Object. */
  datatype ResponseObject = ResponseObject(description: string, schema: Schema)

  /** A Swagger Parameter Object: a plain (query or path) parameter, or the body parameter. */
  datatype ParameterObject =
    | PlainParameter(name: string, location: Location, description: string, required: bool, ty: string)
    | BodyParameter(name: string, schema: Schema)
  {
    /** The `in` property. */
    function In(): Location {
      if PlainParameter? then location else Body
    }
  }

  /** A Swagger Operation Object; `responses` is keyed by the status spelled as a string. */
  datatype Operation = Operation(
    description: string,
    operationId: string,
    produces: Option<seq<string>>,
    responses: map<string, ResponseObject>,
    parameters: Option<seq<ParameterObject>>)

  /** The `swapi` section of the project's package.json. */
  datatype SwapiSettings = SwapiSettings(
    host: Option<string>,
    basePath: Option<string>,
    schemes: Option<seq<string>>,
    produces: Option<seq<string>>,
    consumes: Option<seq<string>>)

  /** The project's package.json, an input to the compiler. */
  datatype PackageJson = PackageJson(
    name: string,
    version: string,
    description: string,
    license: string,
    author: string,
    swapi: Option<SwapiSettings>)

  /** `packageJson.swapi || {}` */
  function Settings(pkg: PackageJson): SwapiSettings {
    pkg.swapi.GetOr(SwapiSettings(None, None, None, None, None))
  }

  /** The Info Object; `license` and `contact` stand for `{ name: license }` and `{ name: author }`. */
  datatype Info = Info(version: string, title: string, description: string, license: string, contact: string)

  datatype Document = Document(
    swagger: string,
    info: Info,
    host: Option<string>,
    basePath: Option<string>,
    schemes: Option<seq<string>>,
    produces: Option<seq<string>>,
    consumes: Option<seq<string>>,
    paths: map<string, map<string, Operation>>,
    definitions: map<string, Schema>)
}
