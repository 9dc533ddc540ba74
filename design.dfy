/**
 * The parts of goa's `design` package the JavaScript generator reads: data
 * types, attribute definitions, routes and actions. The package itself is
 * external; only the shape of its values is modelled here.
 */
module Design {
  import opened Wrappers

  /** The primitive kinds the JavaScript renderers know (the File kind is left out). */
  datatype PrimitiveKind =
    | BooleanKind | IntegerKind | NumberKind | StringKind | DateTimeKind | UUIDKind | AnyKind

  /** design.Kind: what DataType.Kind() reports. */
  datatype TypeKind =
    | PrimKind(prim: PrimitiveKind)
    | ArrayKind | ObjectKind | HashKind | UserTypeKind | MediaTypeKind

  /** design.DataType. User and media types wrap the attribute that defines them. */
  datatype DataType =
    | Primitive(kind: PrimitiveKind)
    | Array(elem: Attribute)
    | Hash(key: Attribute, elem: Attribute)
    | Object(fields: map<string, Attribute>)
    | UserType(typeName: string, def: Attribute)
    | MediaType(typeName: string, def: Attribute, view: string, isError: bool)

  /** design.AttributeDefinition: a type with its description and metadata. */
  datatype Attribute = Attribute(typ: DataType, description: string, metadata: map<string, seq<string>>)

  function KindOf(t: DataType): TypeKind {
    match t
    case Primitive(p) => PrimKind(p)
    case Array(_) => ArrayKind
    case Hash(_, _) => HashKind
    case Object(_) => ObjectKind
    case UserType(_, _) => UserTypeKind
    case MediaType(_, _, _, _) => MediaTypeKind
  }

  /** IsObject, IsArray and IsHash look through user and media types. */
  predicate IsObject(t: DataType) {
    match t
    case Object(_) => true
    case UserType(_, d) => IsObject(d.typ)
    case MediaType(_, d, _, _) => IsObject(d.typ)
    case _ => false
  }

  predicate IsArray(t: DataType) {
    match t
    case Array(_) => true
    case UserType(_, d) => IsArray(d.typ)
    case MediaType(_, d, _, _) => IsArray(d.typ)
    case _ => false
  }

  predicate IsHash(t: DataType) {
    match t
    case Hash(_, _) => true
    case UserType(_, d) => IsHash(d.typ)
    case MediaType(_, d, _, _) => IsHash(d.typ)
    case _ => false
  }

  /** ToObject: the fields of an object type, the nil (empty) object otherwise. */
  function ToObject(t: DataType): map<string, Attribute> {
    match t
    case Object(f) => f
    case UserType(_, d) => ToObject(d.typ)
    case MediaType(_, d, _, _) => ToObject(d.typ)
    case _ => map[]
  }

  /** ToArray / ToHash: the container behind a type, None for Go's nil pointer. */
  function ToArray(t: DataType): Option<Attribute> {
    match t
    case Array(e) => Some(e)
    case UserType(_, d) => ToArray(d.typ)
    case MediaType(_, d, _, _) => ToArray(d.typ)
    case _ => None
  }

  function ToHash(t: DataType): Option<(Attribute, Attribute)> {
    match t
    case Hash(k, e) => Some((k, e))
    case UserType(_, d) => ToHash(d.typ)
    case MediaType(_, d, _, _) => ToHash(d.typ)
    case _ => None
  }

  /** A route of an action: its full path and the parameter names Params() reports. */
  datatype Route = Route(fullPath: string, params: seq<string>)

  /** design.ActionDefinition, reduced to what the generator reads. */
  datatype Action = Action(resource: string, name: string, routes: seq<Route>, queryParams: Option<Attribute>)
}
