/** The declared type of an attribute, reduced to the shapes the generator
    inspects, and the three recursive predicates that classify it. */
module TypeShape {

  /** A closed union of the type classes the generator matches on. */
  datatype TypeExpr =
    | ObjectT                           // PObjectType
    | OptionalT(optionalType: TypeExpr) // POptionalType
    | NotUndefT(inner: TypeExpr)        // PNotUndefType
    | ArrayT(elementType: TypeExpr)     // PArrayType
    | VariantT(types: seq<TypeExpr>)    // PVariantType
    | OtherT                            // any other type

  datatype AttrKind = Regular | Constant | Derived | Reference

  /** `obj_type?`: the type may only hold instances of object types. */
  predicate IsObjType(t: TypeExpr)
    decreases t
  {
    match t
    case ObjectT => true
    case OptionalT(o) => IsObjType(o)
    case NotUndefT(i) => IsObjType(i)
    case ArrayT(e) => IsObjType(e)
    case VariantT(ts) => forall k :: 0 <= k < |ts| ==> IsObjType(ts[k])
    case OtherT => false
  }

  /** `array_type?`: the value must be iterated rather than yielded whole. */
  predicate IsArrayType(t: TypeExpr)
    decreases t
  {
    match t
    case ArrayT(_) => true
    case OptionalT(o) => IsArrayType(o)
    case NotUndefT(i) => IsArrayType(i)
    case VariantT(ts) => forall k :: 0 <= k < |ts| ==> IsArrayType(ts[k])
    case _ => false
  }

  /** `content_participant?`: a non-reference attribute of object-bearing type. */
  predicate IsContentParticipant(kind: AttrKind, t: TypeExpr)
  {
    kind != Reference && IsObjType(t)
  }

  /** `t` with every outer Optional/NotUndef wrapper removed. */
  function Unwrap(t: TypeExpr): (r: TypeExpr)
    ensures !r.OptionalT? && !r.NotUndefT?
  {
    match t
    case OptionalT(o) => Unwrap(o)
    case NotUndefT(i) => Unwrap(i)
    case _ => t
  }

  /** Both predicates see straight through any stack of Optional and NotUndef
      wrappers. */
  lemma {:induction false} WrappersTransparent(t: TypeExpr)
    ensures IsObjType(t) == IsObjType(Unwrap(t))
    ensures IsArrayType(t) == IsArrayType(Unwrap(t))
    decreases t
  {
    match t
    case OptionalT(o) => WrappersTransparent(o);
    case NotUndefT(i) => WrappersTransparent(i);
    case _ =>
  }

  /** With the wrappers gone, only Object (resp. Array) and Variants whose
      members all qualify are accepted; every other type is rejected. An array
      is object-bearing exactly when its element type is. */
  lemma ShapeCases(t: TypeExpr)
    ensures IsObjType(t) <==>
      match Unwrap(t)
      case ObjectT => true
      case ArrayT(e) => IsObjType(e)
      case VariantT(ts) => forall k :: 0 <= k < |ts| ==> IsObjType(ts[k])
      case _ => false
    ensures IsArrayType(t) <==>
      match Unwrap(t)
      case ArrayT(_) => true
      case VariantT(ts) => forall k :: 0 <= k < |ts| ==> IsArrayType(ts[k])
      case _ => false
  {
    WrappersTransparent(t);
  }

  /** A Variant with no members is object-bearing and array-shaped, because
      `all?` holds of an empty list. */
  lemma EmptyVariantIsBoth()
    ensures IsObjType(VariantT([])) && IsArrayType(VariantT([]))
  {
  }

  /** A Variant qualifies exactly when each of its members does, so one
      non-qualifying member is enough to reject it. */
  lemma {:induction false} VariantAppend(ts: seq<TypeExpr>, u: seq<TypeExpr>)
    ensures IsObjType(VariantT(ts + u)) <==> IsObjType(VariantT(ts)) && IsObjType(VariantT(u))
    ensures IsArrayType(VariantT(ts + u)) <==> IsArrayType(VariantT(ts)) && IsArrayType(VariantT(u))
  {
    var all := ts + u;
    assert forall k :: 0 <= k < |ts| ==> all[k] == ts[k];
    assert forall k :: 0 <= k < |u| ==> all[|ts| + k] == u[k];
  }

  /** A reference attribute is never traversed as content, whatever its type;
      any other attribute is traversed exactly when its type is object-bearing. */
  lemma ContentParticipantCases(kind: AttrKind, t: TypeExpr)
    ensures kind == Reference ==> !IsContentParticipant(kind, t)
    ensures kind != Reference ==> (IsContentParticipant(kind, t) <==> IsObjType(Unwrap(t)))
  {
    WrappersTransparent(t);
  }
}
