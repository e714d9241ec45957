/** The resolved type descriptors the generator reads. They are supplied by
    Puppet's type system and never changed here; values that only foreign
    code can compute (a type's hash, its rendered initializer hash, Ruby's
    `inspect` of a number or string) are carried as text. */
module Descriptors {
  import opened Wrappers
  import opened TypeShape

  /** A declared default value, classified as `default_string` does. */
  datatype Value =
    | Nil
    | Bool(b: bool)
    | Number(literal: string)  // `inspect` of a Numeric
    | Str(literal: string)     // `inspect` of a String, quotes included
    | Structured               // anything else (hash, array, object, ...)

  /** A code annotation: an optional parameter list and a body. */
  datatype Annotation = Annotation(parameters: Option<string>, body: string)

  /** An attribute of `attributes(true)`; `container` is the identity of the
      object type that declares it and `containerName` that type's name. */
  datatype Attr = Attr(
    name: string,
    labelText: string,
    kind: AttrKind,
    default: Option<Value>,
    container: nat,
    containerName: string,
    typ: TypeExpr,
    annotation: Option<Annotation>)

  /** An own function of the type (`functions(false)`); `typeText` is the
      rendering of its callable type. */
  datatype Func = Func(name: string, labelText: string, typeText: string, annotation: Option<Annotation>)

  /** The declared parent: none, an object type, or some other type. */
  datatype Parent =
    | NoParent
    | ObjectParent(name: string, includeType: bool)
    | OtherParent(name: string)

  /** A resolved object type. `attributes` are the visible attributes,
      inherited ones first; `hashText` is `hash.to_s` and `initText` the
      rendering of `i12n_hash(false)` the `_ptype` accessor embeds. */
  datatype ObjectType = ObjectType(
    id: nat,
    name: string,
    labelText: string,
    parent: Parent,
    attributes: seq<Attr>,
    functions: seq<Func>,
    equality: Option<seq<string>>,
    equalityIncludeType: bool,
    hashText: string,
    initText: string)

  /** A type alias: its name and the text of its resolved type, as the type
      formatter renders it. */
  datatype AliasType = AliasType(name: string, typeText: string)

  datatype PType = Obj(obj: ObjectType) | Alias(alias: AliasType)

  /** The implementation registry: type name to runtime module name. */
  type Registry = map<string, string>

  /** Generation-time failures. `MissingMapping` is the `Puppet::Error`
      raised when the registry has no module for a type; the other two are
      the Ruby errors the code runs into: `NoObjectTypes` when the batch has
      no object type (`segmented_names[0]` is nil), `EmptyClassName` when an
      implementation name has no segment left after the common namespace is
      removed (`pop` yields nil, which cannot be appended). */
  datatype Error =
    | MissingMapping(typeName: string)
    | NoObjectTypes
    | EmptyClassName(className: string)
}
