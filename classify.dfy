/** The attribute classification of `class_body`: which attributes are
    constants, stored, derived, required or optional, owned or inherited,
    and which take part in equality, hashing and content traversal. */
module Classify {
  import opened Wrappers
  import opened TypeShape
  import opened Descriptors

  /** Ruby's `select` over attributes: those satisfying `p`, in their order. */
  function Filter(s: seq<Attr>, p: Attr -> bool): (r: seq<Attr>)
    ensures |r| <= |s|
    ensures forall x :: x in r <==> x in s && p(x)
  {
    if s == [] then []
    else if p(s[|s| - 1]) then Filter(s[..|s| - 1], p) + [s[|s| - 1]]
    else Filter(s[..|s| - 1], p)
  }

  lemma {:induction false} FilterConcat(s: seq<Attr>, u: seq<Attr>, p: Attr -> bool)
    ensures Filter(s + u, p) == Filter(s, p) + Filter(u, p)
    decreases |u|
  {
    if u != [] {
      assert (s + u)[..|s + u| - 1] == s + u[..|u| - 1];
      FilterConcat(s, u[..|u| - 1], p);
    } else {
      assert s + u == s;
    }
  }

  /** Filtering twice is filtering once by the conjunction. */
  lemma {:induction false} FilterFilter(s: seq<Attr>, p: Attr -> bool, q: Attr -> bool, both: Attr -> bool)
    requires forall x :: both(x) == (p(x) && q(x))
    ensures Filter(Filter(s, p), q) == Filter(s, both)
    decreases |s|
  {
    if s != [] {
      FilterFilter(s[..|s| - 1], p, q, both);
      if p(s[|s| - 1]) {
        var fp := Filter(s[..|s| - 1], p);
        assert (fp + [s[|s| - 1]])[..|fp|] == fp;
      }
    }
  }

  /** Filters by predicates that agree on every element coincide. */
  lemma {:induction false} FilterExt(s: seq<Attr>, p: Attr -> bool, q: Attr -> bool)
    requires forall x :: x in s ==> p(x) == q(x)
    ensures Filter(s, p) == Filter(s, q)
    decreases |s|
  {
    if s != [] {
      assert forall x :: x in s[..|s| - 1] ==> x in s;
      FilterExt(s[..|s| - 1], p, q);
    }
  }

  /** `partition` keeps every element exactly once. */
  lemma {:induction false} PartitionPermutes(s: seq<Attr>, p: Attr -> bool, notP: Attr -> bool)
    requires forall x :: notP(x) == !p(x)
    ensures multiset(Filter(s, notP) + Filter(s, p)) == multiset(s)
    decreases |s|
  {
    if s != [] {
      var init := s[..|s| - 1];
      PartitionPermutes(init, p, notP);
      assert s == init + [s[|s| - 1]];
    }
  }

  /** A sequence of elements failing `p` followed by elements satisfying it
      never has one satisfying `p` before one failing it. */
  lemma GroupsOrdered(first: seq<Attr>, second: seq<Attr>, p: Attr -> bool)
    requires forall x :: x in first ==> !p(x)
    requires forall x :: x in second ==> p(x)
    ensures var ps := first + second;
      forall i, j :: 0 <= i < j < |ps| && p(ps[i]) ==> p(ps[j])
  {
    var ps := first + second;
    forall i, j | 0 <= i < j < |ps| && p(ps[i])
      ensures p(ps[j])
    {
      if |first| <= i {
        assert ps[j] == second[j - |first|];
      }
    }
  }

  /** Putting the elements failing `p` before those satisfying it: no element
      satisfying `p` precedes one failing it, and regrouping leaves each
      group as it was. */
  lemma PartitionIsStable(s: seq<Attr>, p: Attr -> bool, notP: Attr -> bool)
    requires forall x :: notP(x) == !p(x)
    ensures var ps := Filter(s, notP) + Filter(s, p);
      && (forall i, j :: 0 <= i < j < |ps| && p(ps[i]) ==> p(ps[j]))
      && Filter(ps, notP) == Filter(s, notP)
      && Filter(ps, p) == Filter(s, p)
  {
    var first, second := Filter(s, notP), Filter(s, p);
    GroupsOrdered(first, second, p);
    FilterConcat(first, second, notP);
    FilterConcat(first, second, p);
    FilterAllOrNone(first, notP);
    FilterAllOrNone(second, notP);
    FilterAllOrNone(first, p);
    FilterAllOrNone(second, p);
  }

  lemma {:induction false} FilterAllOrNone(s: seq<Attr>, p: Attr -> bool)
    ensures (forall x :: x in s ==> p(x)) ==> Filter(s, p) == s
    ensures (forall x :: x in s ==> !p(x)) ==> Filter(s, p) == []
    decreases |s|
  {
    if s != [] {
      assert forall x :: x in s[..|s| - 1] ==> x in s;
      FilterAllOrNone(s[..|s| - 1], p);
      assert s == s[..|s| - 1] + [s[|s| - 1]];
    }
  }

  function Names(attrs: seq<Attr>): (r: seq<string>)
    ensures |r| == |attrs| && forall k :: 0 <= k < |r| ==> r[k] == attrs[k].name
  {
    seq(|attrs|, k requires 0 <= k < |attrs| => attrs[k].name)
  }

  predicate IsConstant(a: Attr) { a.kind == Constant }
  predicate NotConstant(a: Attr) { a.kind != Constant }
  predicate IsDerived(a: Attr) { a.kind == Derived }
  predicate NotDerived(a: Attr) { a.kind != Derived }

  /** Regular and reference attributes: the ones with instance storage. */
  predicate IsStored(a: Attr) { a.kind == Regular || a.kind == Reference }

  /** `value?`: the attribute declares a default (possibly nil). */
  predicate HasDefault(a: Attr) { a.default.Some? }
  predicate NoDefault(a: Attr) { a.default.None? }

  predicate IsContentAttr(a: Attr) { IsContentParticipant(a.kind, a.typ) }

  /** `container.equal?(obj)`: the attribute is declared by `o` itself. */
  predicate IsOwn(o: ObjectType, a: Attr) { a.container == o.id }

  function OwnedBy(o: ObjectType): Attr -> bool { (a: Attr) => IsOwn(o, a) }
  function InheritedBy(o: ObjectType): Attr -> bool { (a: Attr) => !IsOwn(o, a) }
  function NamedIn(names: seq<string>): Attr -> bool { (a: Attr) => a.name in names }

  /** Own constants (lines 150-151). */
  function Constants(o: ObjectType): seq<Attr>
  {
    Filter(Filter(o.attributes, IsConstant), OwnedBy(o))
  }

  /** All visible non-constant attributes, own and inherited (line 150). */
  function Others(o: ObjectType): seq<Attr>
  {
    Filter(o.attributes, NotConstant)
  }

  /** Stored attributes, own and inherited: `init_params` (line 157). */
  function InitParams(o: ObjectType): seq<Attr>
  {
    Filter(Others(o), NotDerived)
  }

  /** Init params with a default: `opt` (line 158). */
  function Opt(o: ObjectType): seq<Attr>
  {
    Filter(InitParams(o), HasDefault)
  }

  /** Init params without a default: `non_opt` (line 158). */
  function NonOpt(o: ObjectType): seq<Attr>
  {
    Filter(InitParams(o), NoDefault)
  }

  /** The positional parameter order of `from_asserted_hash`, `create` and
      `initialize`: required first, then optional. */
  function ParamOrder(o: ObjectType): seq<Attr>
  {
    NonOpt(o) + Opt(o)
  }

  function OwnOthers(o: ObjectType): seq<Attr>
  {
    Filter(Others(o), OwnedBy(o))
  }

  /** Own derived attributes (line 159). */
  function DerivedAttrs(o: ObjectType): seq<Attr>
  {
    Filter(OwnOthers(o), IsDerived)
  }

  /** Own stored attributes: `obj_attrs` (line 159). */
  function ObjAttrs(o: ObjectType): seq<Attr>
  {
    Filter(OwnOthers(o), NotDerived)
  }

  /** `include_type` (line 161). */
  predicate IncludeType(o: ObjectType)
  {
    o.equalityIncludeType && !(o.parent.ObjectParent? && o.parent.includeType)
  }

  /** `eq_names` (lines 162-166). */
  function EqNames(o: ObjectType): seq<string>
  {
    match o.equality
    case None => Names(Filter(ObjAttrs(o), NotConstant))
    case Some(names) => names
  }

  /** `hash_participants` (line 253): init params named in `eq_names`. */
  function HashParticipants(o: ObjectType): seq<Attr>
  {
    Filter(InitParams(o), NamedIn(EqNames(o)))
  }

  /** The participants whose hashes `initialize` XORs in (line 268). */
  function OwnHashParticipants(o: ObjectType): seq<Attr>
  {
    Filter(HashParticipants(o), OwnedBy(o))
  }

  /** `super_args` (line 259). */
  function SuperArgs(o: ObjectType): seq<Attr>
  {
    Filter(ParamOrder(o), InheritedBy(o))
  }

  /** The attributes `initialize` assigns to instance variables (line 272). */
  function OwnStored(o: ObjectType): seq<Attr>
  {
    Filter(InitParams(o), OwnedBy(o))
  }

  /** `content_participants` (line 295), taken from `init_params`. */
  function ContentParticipants(o: ObjectType): seq<Attr>
  {
    Filter(InitParams(o), IsContentAttr)
  }

  /** The skip at line 168: an object-type parent and no own stored attribute. */
  predicate PureInheritance(o: ObjectType)
  {
    o.parent.ObjectParent? && ObjAttrs(o) == []
  }

  /** Own attributes with instance storage. */
  function OwnStoredBy(o: ObjectType): Attr -> bool { (a: Attr) => IsOwn(o, a) && IsStored(a) }

  /** `init_params` are exactly the visible attributes that are neither
      constant nor derived, in their visible order. */
  lemma InitParamsAre(o: ObjectType)
    ensures InitParams(o) == Filter(o.attributes, IsStored)
  {
    FilterFilter(o.attributes, NotConstant, NotDerived, IsStored);
  }

  /** `obj_attrs` are exactly the own visible attributes that are neither
      constant nor derived, in their visible order. */
  lemma ObjAttrsAre(o: ObjectType)
    ensures ObjAttrs(o) == Filter(o.attributes, OwnStoredBy(o))
  {
    var ownOther := (a: Attr) => NotConstant(a) && IsOwn(o, a);
    FilterFilter(o.attributes, NotConstant, OwnedBy(o), ownOther);
    FilterFilter(o.attributes, ownOther, NotDerived, OwnStoredBy(o));
  }

  /** The parameter order is a stable partition of `init_params`: the same
      attributes, every required one before every optional one, and each
      group in attribute order. */
  lemma ParamOrderIsStablePartition(o: ObjectType)
    ensures multiset(ParamOrder(o)) == multiset(InitParams(o))
    ensures forall i, j :: 0 <= i < j < |ParamOrder(o)| && HasDefault(ParamOrder(o)[i]) ==> HasDefault(ParamOrder(o)[j])
    ensures Filter(ParamOrder(o), NoDefault) == Filter(InitParams(o), NoDefault)
    ensures Filter(ParamOrder(o), HasDefault) == Filter(InitParams(o), HasDefault)
  {
    PartitionPermutes(InitParams(o), HasDefault, NoDefault);
    PartitionIsStable(InitParams(o), HasDefault, NoDefault);
  }

  /** With no explicit equality list, equality is over the own attributes
      that are neither derived nor constant, in attribute order. */
  lemma DerivedEqNames(o: ObjectType)
    requires o.equality.None?
    ensures EqNames(o) == Names(Filter(o.attributes, OwnStoredBy(o)))
  {
    ObjAttrsAre(o);
    FilterAllOrNone(ObjAttrs(o), NotConstant);
  }

  /** The type check is included exactly when the type asks for it and the
      parent does not already include it. */
  lemma IncludeTypeCases(o: ObjectType)
    ensures !o.equalityIncludeType ==> !IncludeType(o)
    ensures o.parent.ObjectParent? && o.parent.includeType ==> !IncludeType(o)
    ensures o.equalityIncludeType && !(o.parent.ObjectParent? && o.parent.includeType) ==> IncludeType(o)
  {
  }

  /** The constructor section is skipped exactly for a type whose parent is an
      object type and whose own attributes are all constant or derived. */
  lemma PureInheritanceIff(o: ObjectType)
    ensures PureInheritance(o) <==>
      o.parent.ObjectParent? && forall a :: a in o.attributes && IsOwn(o, a) ==> a.kind == Constant || a.kind == Derived
  {
    ObjAttrsAre(o);
    if forall a :: a in o.attributes && IsOwn(o, a) ==> a.kind == Constant || a.kind == Derived {
      FilterAllOrNone(o.attributes, OwnStoredBy(o));
    }
  }

  /** `super` receives exactly the inherited init params, required ones first
      and then optional ones, each group in attribute order. */
  lemma SuperArgsAreInherited(o: ObjectType)
    ensures SuperArgs(o) == Filter(NonOpt(o), InheritedBy(o)) + Filter(Opt(o), InheritedBy(o))
    ensures forall a :: a in SuperArgs(o) <==> a in InitParams(o) && !IsOwn(o, a)
  {
    FilterConcat(NonOpt(o), Opt(o), InheritedBy(o));
  }

  /** `initialize` assigns the own stored attributes: exactly `obj_attrs`. */
  lemma OwnStoredIsObjAttrs(o: ObjectType)
    ensures OwnStored(o) == ObjAttrs(o)
  {
    InitParamsAre(o);
    ObjAttrsAre(o);
    FilterFilter(o.attributes, IsStored, OwnedBy(o), OwnStoredBy(o));
  }

  /** Only own hash participants are XORed into the hash; they are the own
      stored attributes named in `eq_names`. */
  lemma OwnHashParticipantsAre(o: ObjectType)
    ensures forall a :: a in OwnHashParticipants(o) <==> a in ObjAttrs(o) && a.name in EqNames(o)
  {
    OwnStoredIsObjAttrs(o);
  }

  /** Content participants are stored attributes, own or inherited, of
      object-bearing type and never of reference kind. */
  lemma ContentParticipantsAre(o: ObjectType)
    ensures forall a :: a in ContentParticipants(o) <==>
      a in o.attributes && a.kind == Regular && IsObjType(a.typ)
  {
    InitParamsAre(o);
  }
}
