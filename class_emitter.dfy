/** The class emitter: the text `class_body` appends for one object type.
    Each section is a specification function from the buffer before it to
    the buffer after it (`chomp!` acts on the whole buffer, as in Ruby), and
    a method appends that section to the shared buffer piece by piece. */
module ClassEmitter {
  import opened Wrappers
  import opened Text
  import opened TypeShape
  import opened Descriptors
  import opened Classify
  import opened Defaults
  import opened Namespace

  /** Ruby names of the runtime classes the generated code refers to. */
  const PuppetObjectName: string := "Puppet::Pops::Types::PuppetObject"
  const TypeReferenceName: string := "Puppet::Pops::Types::PTypeReferenceType"
  const TypeAsserterName: string := "Puppet::Pops::Types::TypeAsserter"
  const TypeFormatterName: string := "Puppet::Pops::Types::TypeFormatter"
  const ObjectTypeClassName: string := "Puppet::Pops::Types::PObjectType"

  /** `namespace_relative(segments, name)` as a value. */
  function Rel(segments: seq<string>, name: string): string
  {
    Join(Strip(segments, name))
  }

  function MapAttrs(attrs: seq<Attr>, f: Attr -> string): (r: seq<string>)
    ensures |r| == |attrs| && forall k :: 0 <= k < |r| ==> r[k] == f(attrs[k])
  {
    seq(|attrs|, k requires 0 <= k < |attrs| => f(attrs[k]))
  }

  lemma MapAttrsSnoc(attrs: seq<Attr>, i: nat, f: Attr -> string)
    requires i < |attrs|
    ensures MapAttrs(attrs[..i + 1], f) == MapAttrs(attrs[..i], f) + [f(attrs[i])]
  {
    assert attrs[..i + 1] == attrs[..i] + [attrs[i]];
  }

  lemma MapAttrsAppend(a: seq<Attr>, b: seq<Attr>, f: Attr -> string)
    ensures MapAttrs(a + b, f) == MapAttrs(a, f) + MapAttrs(b, f)
  {
  }

  // ---- per-attribute fragments -------------------------------------------

  function AttrName(a: Attr): string { a.name }

  /** Class-level constant reader (line 153). */
  function ClassConstantDef(a: Attr): string
  {
    "\n  def self." + a.name + "\n    _ptype['" + a.name + "'].value\n  end\n"
  }

  /** Instance-level constant reader (line 154). */
  function InstanceConstantDef(a: Attr): string
  {
    "\n  def " + a.name + "\n    self.class." + a.name + "\n  end\n"
  }

  /** One argument of `from_asserted_hash` (lines 175-183), without its ",\n". */
  function HashArg(a: Attr): string
  {
    if a.default.None? || a.default.value.Nil? then "      i12n['" + a.name + "']"
    else "      i12n.fetch('" + a.name + "') { " + DefaultText(a) + " }"
  }

  /** One parameter of `create` and `initialize` (lines 196-201, 244-249),
      without its ", ". */
  function ParamDecl(a: Attr): string
  {
    if a.default.None? then a.name else a.name + " = " + DefaultText(a)
  }

  /** The type assertion `create` makes per init param (lines 207-208). */
  function AssertLine(a: Attr): string
  {
    "    ta.assert_instance_of('" + a.containerName + "[" + a.name + "]" +
    "', attrs['" + a.name + "'].type, " + a.name + ")\n"
  }

  function ReaderLine(a: Attr): string
  {
    "  attr_reader :" + a.name + "\n"
  }

  /** Accessor of a derived attribute: its annotated body or a placeholder
      that raises (lines 227-235). */
  function DerivedDef(a: Attr): string
  {
    "\n  def " + a.name + "\n" +
    (match a.annotation
     case None => "    raise Puppet::Error, \"no method is implemented for derived " + a.labelText + "\"\n"
     case Some(an) => "    " + an.body + "\n") +
    "  end\n"
  }

  function HashTerm(a: Attr): string { a.name + ".hash" }

  function AssignLine(a: Attr): string
  {
    "    @" + a.name + " = " + a.name + "\n"
  }

  /** One entry of `i12n_hash`, guarded when the attribute has a default
      (lines 285-290). */
  function I12nLine(a: Attr): string
  {
    "    result['" + a.name + "'] = @" + a.name +
    (if a.default.Some? then " unless " + EqualsDefaultText(a) else "") + "\n"
  }

  /** `_pcontents` step for one content participant (lines 304-308). */
  function ShallowVisit(a: Attr): string
  {
    if IsArrayType(a.typ) then "    @" + a.name + ".each { |value| yield(value) }\n"
    else "    yield(@" + a.name + ") unless @" + a.name + ".nil?\n"
  }

  /** `_pall_contents` step for one content participant (lines 312-321). */
  function DeepVisit(a: Attr): string
  {
    (if IsArrayType(a.typ) then
       "    @" + a.name + ".each do |value|\n" +
       "      block.call(value, path)\n" +
       "      value._pall_contents(path, &block)\n"
     else
       "    unless @" + a.name + ".nil?\n" +
       "      block.call(@" + a.name + ", path)\n" +
       "      @" + a.name + "._pall_contents(path, &block)\n") +
    "    end\n"
  }

  /** A function: its annotated parameters and body, or a placeholder that
      raises (lines 334-348). */
  function FunctionDef(f: Func): string
  {
    (match f.annotation
     case Some(an) =>
       "\n  def " + f.name +
       (if an.parameters.None? || an.parameters.value == "" then "" else "(" + an.parameters.value + ")") +
       "\n    " + an.body + "\n"
     case None =>
       "\n  def " + f.name + "(*args)\n" +
       "    # Placeholder for " + f.typeText + "\n" +
       "    raise Puppet::Error, \"no method is implemented for " + f.labelText + "\"\n") +
    "  end\n"
  }

  function FunctionDefs(fs: seq<Func>): (r: seq<string>)
    ensures |r| == |fs| && forall k :: 0 <= k < |r| ==> r[k] == FunctionDef(fs[k])
  {
    seq(|fs|, k requires 0 <= k < |fs| => FunctionDef(fs[k]))
  }

  function EqLines(names: seq<string>): (r: seq<string>)
    ensures |r| == |names| && forall k :: 0 <= k < |r| ==> r[k] == "    @" + names[k] + ".eql?(o." + names[k] + ") &&\n"
  {
    seq(|names|, k requires 0 <= k < |names| => "    @" + names[k] + ".eql?(o." + names[k] + ") &&\n")
  }

  // ---- sections: buffer before -> buffer after ---------------------------

  /** Marker include and `ref` helper of a root type (lines 142-147). */
  function RootOnto(t: string, o: ObjectType, segments: seq<string>): string
  {
    if o.parent.NoParent? then
      t + "\n  include " + Rel(segments, PuppetObjectName) + "\n\n" +
      "  def self.ref(type_string)\n" +
      "    " + Rel(segments, TypeReferenceName) + ".new(type_string)\n" +
      "  end\n"
    else t
  }

  /** Own constants: all class-level readers, then all instance readers
      (lines 150-155). */
  function ConstantsOnto(t: string, o: ObjectType): string
  {
    if Constants(o) == [] then t
    else t + Concat(MapAttrs(Constants(o), ClassConstantDef)) + Concat(MapAttrs(Constants(o), InstanceConstantDef))
  }

  function FromHashHead(t: string, o: ObjectType, segments: seq<string>): string
  {
    t + "\n  def self.from_hash(i12n)\n" +
    "    from_asserted_hash(" + Rel(segments, TypeAsserterName) + ".assert_instance_of(" +
    "'" + o.labelText + " initializer', _ptype.i12n_type, i12n))\n  end\n\n  def self.from_asserted_hash(i12n)\n    new"
  }

  /** `from_hash` and `from_asserted_hash` (lines 170-188). */
  function FromHashOnto(t: string, o: ObjectType, segments: seq<string>): string
  {
    var head := FromHashHead(t, o, segments);
    (if NonOpt(o) == [] && Opt(o) == [] then head
     else Chomp(head + "(\n" +
                Terminated(MapAttrs(NonOpt(o), HashArg), ",\n") +
                Terminated(MapAttrs(Opt(o), HashArg), ",\n"), ",\n") + ").freeze") +
    "\n  end\n"
  }

  /** `create` (lines 191-216). */
  function CreateOnto(t: string, o: ObjectType, segments: seq<string>): string
  {
    (if InitParams(o) == [] then t + "\n  def self.create" + "\n    new"
     else
       Chomp(Chomp(t + "\n  def self.create" + "(" +
                   Terminated(MapAttrs(NonOpt(o), ParamDecl), ", ") +
                   Terminated(MapAttrs(Opt(o), ParamDecl), ", "), ", ") + ")\n" +
             "    ta = " + Rel(segments, TypeAsserterName) + "\n" +
             "    attrs = _ptype.attributes(true)\n" +
             Concat(MapAttrs(InitParams(o), AssertLine)) +
             "    new(" +
             Terminated(MapAttrs(NonOpt(o), AttrName), ", ") +
             Terminated(MapAttrs(Opt(o), AttrName), ", "), ", ") + ")") +
    ".freeze\n  end\n"
  }

  /** Readers of own stored attributes, and of `hash` at the root (lines 219-224). */
  function ReadersOnto(t: string, o: ObjectType): string
  {
    var readers := if ObjAttrs(o) == [] then t else t + "\n" + Concat(MapAttrs(ObjAttrs(o), ReaderLine));
    if o.parent.NoParent? then readers + "  attr_reader :hash\n" else readers
  }

  /** Accessors of own derived attributes (lines 226-236). */
  function DerivedOnto(t: string, o: ObjectType): string
  {
    t + Concat(MapAttrs(DerivedAttrs(o), DerivedDef))
  }

  /** The signature of `initialize`, required parameters first (lines 242-251). */
  function InitSignature(t: string, o: ObjectType): string
  {
    Chomp(t + "\n  def initialize" + "(" +
          Terminated(MapAttrs(NonOpt(o), ParamDecl), ", ") +
          Terminated(MapAttrs(Opt(o), ParamDecl), ", "), ", ") + ")"
  }

  /** What follows the signature up to the hash terms: the root's `@hash = `
      or the call to `super` with the inherited parameters (lines 253-266). */
  function InitMiddle(t: string, o: ObjectType): string
  {
    if o.parent.NoParent? then
      if HashParticipants(o) == [] then t + "\n    @hash = " + o.hashText + "\n" else t + "\n    @hash = "
    else
      var call := (if SuperArgs(o) == [] then t + "\n    super("
                   else Chomp(t + "\n    super(" + Terminated(MapAttrs(SuperArgs(o), AttrName), ", "), ", ")) +
                  ")\n";
      if HashParticipants(o) == [] then call else call + "    @hash = @hash ^ "
  }

  /** The own hash participants' terms XORed into `@hash` (lines 267-271). */
  function HashTermsOnto(t: string, o: ObjectType): string
  {
    if HashParticipants(o) == [] then t
    else Chomp(t + Terminated(MapAttrs(OwnHashParticipants(o), HashTerm), " ^ "), " ^ ") + "\n"
  }

  /** `initialize` (lines 238-274). */
  function InitializerOnto(t: string, o: ObjectType): string
  {
    if InitParams(o) == [] then
      if o.parent.NoParent? then t + "\n  def initialize\n    @hash = " + o.hashText + "\n  end" else t
    else
      HashTermsOnto(InitMiddle(InitSignature(t, o), o), o) + Concat(MapAttrs(OwnStored(o), AssignLine)) + "  end\n"
  }

  /** Everything line 168 skips for a purely inheriting type. */
  function ConstructorsOnto(t: string, o: ObjectType, segments: seq<string>): string
  {
    if PureInheritance(o) then t
    else InitializerOnto(DerivedOnto(ReadersOnto(CreateOnto(FromHashOnto(t, o, segments), o, segments), o), o), o)
  }

  /** `i12n_hash` (lines 277-293). */
  function I12nOnto(t: string, o: ObjectType): string
  {
    if ObjAttrs(o) == [] then
      if o.parent.ObjectParent? then t else t + "\n  def i12n_hash\n    {}\n  end\n"
    else
      t + "\n  def i12n_hash\n" + "    result = " + (if o.parent.NoParent? then "{}" else "super") + "\n" +
      Concat(MapAttrs(ObjAttrs(o), I12nLine)) +
      "    result\n  end\n"
  }

  /** `_pcontents` and `_pall_contents` (lines 295-324). */
  function ContentsOnto(t: string, o: ObjectType): string
  {
    var cps := ContentParticipants(o);
    if cps == [] then
      if o.parent.ObjectParent? then t
      else t + "\n  def _pcontents\n  end\n" + "\n  def _pall_contents(path)\n  end\n"
    else
      t + "\n  def _pcontents\n" + Concat(MapAttrs(cps, ShallowVisit)) +
      "  end\n\n  def _pall_contents(path, &block)\n    path << self\n" +
      Concat(MapAttrs(cps, DeepVisit)) +
      "    path.pop\n  end\n"
  }

  /** `to_s` (lines 326-330). */
  function ToSOnto(t: string, o: ObjectType, segments: seq<string>): string
  {
    if o.parent.ObjectParent? then t
    else t + "\n  def to_s\n" + "    " + Rel(segments, TypeFormatterName) + ".string(self)\n" + "  end\n"
  }

  /** Own functions (lines 333-349). */
  function FunctionsOnto(t: string, o: ObjectType): string
  {
    t + Concat(FunctionDefs(o.functions))
  }

  function EqlBody(t: string, o: ObjectType): string
  {
    var start := t + "\n  def eql?(o)\n";
    var withSuper := if o.parent.NoParent? then start else start + "    super &&\n";
    var withType := if IncludeType(o) then withSuper + "    o.instance_of?(self.class) &&\n" else withSuper;
    withType + Concat(EqLines(EqNames(o)))
  }

  /** `eql?` and its `==` alias (lines 351-358). */
  function EqlOnto(t: string, o: ObjectType): string
  {
    if EqNames(o) == [] && !IncludeType(o) then t
    else Chomp(EqlBody(t, o), " &&\n") + "\n  end\n  alias == eql?\n"
  }

  /** The buffer after `class_body(obj, segments, bld)`. */
  function ClassBodyOnto(t: string, o: ObjectType, segments: seq<string>): string
  {
    var prelude := ConstantsOnto(RootOnto(t, o, segments), o);
    var tail := I12nOnto(ConstructorsOnto(prelude, o, segments), o);
    EqlOnto(FunctionsOnto(ToSOnto(ContentsOnto(tail, o), o, segments), o), o)
  }

  // ---- class_definition --------------------------------------------------

  function ModuleLine(segment: string): string { "module " + segment + "\n" }

  function ModuleLines(segments: seq<string>): (r: seq<string>)
    ensures |r| == |segments| && forall k :: 0 <= k < |r| ==> r[k] == ModuleLine(segments[k])
  {
    seq(|segments|, k requires 0 <= k < |segments| => ModuleLine(segments[k]))
  }

  /** `n` closing lines. */
  function Ends(n: nat): (r: seq<string>)
    ensures |r| == n && forall k :: 0 <= k < n ==> r[k] == "end\n"
  {
    seq(n, k => "end\n")
  }

  /** The declared parent's implementation name, when one is needed: none for
      a root, an error when the registry has no mapping for the parent. */
  function ParentImpl(o: ObjectType, registry: Registry): Result<Option<string>, Error>
  {
    match o.parent
    case NoParent => Ok(None)
    case ObjectParent(name, _) => if name in registry then Ok(Some(registry[name])) else Err(MissingMapping(name))
    case OtherParent(name) => if name in registry then Ok(Some(registry[name])) else Err(MissingMapping(name))
  }

  /** The buffer up to and including the `class` line's name (lines 108-111). */
  function ClassOpenOnto(t: string, relative: seq<string>): string
    requires relative != []
  {
    t + Concat(ModuleLines(relative[..|relative| - 1])) + "class " + relative[|relative| - 1]
  }

  /** The class header after the name: superclass, `_plocation` and `_ptype`
      (lines 114-131). */
  function ClassHeadOnto(t: string, o: ObjectType, segments: seq<string>, parentImpl: Option<string>): string
  {
    var declared := if parentImpl.None? then t else t + " < " + Rel(segments, parentImpl.value);
    declared + "\n" +
    "  def self._plocation\n" +
    "    loc = Puppet::Util.path_to_uri(\"#{__FILE__}\")\n" +
    "    URI(\"#{loc}?line=#{__LINE__.to_i - 3}\")\n" +
    "  end\n" +
    "\n" +
    "  def self._ptype\n" +
    "    @_ptype ||= " + Rel(segments, ObjectTypeClassName) + ".new('" + o.name + "', " +
    o.initText + ")\n" +
    "  end\n"
  }

  /** The buffer after a successful `class_definition` (lines 107-139), for
      the class whose name splits into `segments`. */
  function ClassDefinitionOnto(t: string, o: ObjectType, relative: seq<string>, segments: seq<string>, parentImpl: Option<string>): string
    requires relative != []
  {
    var body := ClassBodyOnto(ClassHeadOnto(ClassOpenOnto(t, relative), o, segments, parentImpl), o, segments);
    body + "end\n" + Concat(Ends(|relative| - 1))
  }

  // ---- what the emitted text says about the classification ---------------

  /** No parameters at all exactly when there are no init params. */
  lemma ParamOrderEmptyIff(o: ObjectType)
    ensures ParamOrder(o) == [] <==> InitParams(o) == []
    ensures ParamOrder(o) == [] <==> NonOpt(o) == [] && Opt(o) == []
  {
    ParamOrderIsStablePartition(o);
    assert |multiset(ParamOrder(o))| == |ParamOrder(o)|;
  }

  /** `initialize` declares its parameters in `ParamOrder`: every required
      one before every optional one, joined by ", ". */
  lemma InitSignatureIsOrdered(t: string, o: ObjectType)
    requires InitParams(o) != []
    ensures InitSignature(t, o) == t + "\n  def initialize" + "(" + JoinWith(MapAttrs(ParamOrder(o), ParamDecl), ", ") + ")"
  {
    ParamOrderEmptyIff(o);
    MapAttrsAppend(NonOpt(o), Opt(o), ParamDecl);
    ChompTwoLists(t + "\n  def initialize" + "(", MapAttrs(NonOpt(o), ParamDecl), MapAttrs(Opt(o), ParamDecl), ", ");
  }

  /** `from_asserted_hash` passes the hash entries to `new` in `ParamOrder`,
      one per line, and with no arguments it calls plain `new`. */
  lemma FromHashArgsAreOrdered(t: string, o: ObjectType, segments: seq<string>)
    ensures InitParams(o) == [] ==> FromHashOnto(t, o, segments) == FromHashHead(t, o, segments) + "\n  end\n"
    ensures InitParams(o) != [] ==>
      FromHashOnto(t, o, segments) ==
        FromHashHead(t, o, segments) + "(\n" + JoinWith(MapAttrs(ParamOrder(o), HashArg), ",\n") + ").freeze" + "\n  end\n"
  {
    var head := FromHashHead(t, o, segments);
    ParamOrderEmptyIff(o);
    if InitParams(o) != [] {
      var a, b := MapAttrs(NonOpt(o), HashArg), MapAttrs(Opt(o), HashArg);
      MapAttrsAppend(NonOpt(o), Opt(o), HashArg);
      ChompTwoLists(head + "(\n", a, b, ",\n");
      assert Chomp(head + "(\n" + Terminated(a, ",\n") + Terminated(b, ",\n"), ",\n") ==
             head + "(\n" + JoinWith(MapAttrs(ParamOrder(o), HashArg), ",\n");
    }
  }

  /** `create` declares its parameters in `ParamOrder` and passes them to
      `new` in the same order, both joined by ", "; with no init params it
      takes no arguments and calls plain `new`. */
  lemma CreateIsOrdered(t: string, o: ObjectType, segments: seq<string>)
    ensures InitParams(o) == [] ==> CreateOnto(t, o, segments) == t + "\n  def self.create" + "\n    new" + ".freeze\n  end\n"
    ensures InitParams(o) != [] ==>
      CreateOnto(t, o, segments) ==
        t + "\n  def self.create" + "(" + JoinWith(MapAttrs(ParamOrder(o), ParamDecl), ", ") + ")\n" +
        "    ta = " + Rel(segments, TypeAsserterName) + "\n" +
        "    attrs = _ptype.attributes(true)\n" +
        Concat(MapAttrs(InitParams(o), AssertLine)) +
        "    new(" + JoinWith(MapAttrs(ParamOrder(o), AttrName), ", ") + ")" + ".freeze\n  end\n"
  {
    ParamOrderEmptyIff(o);
    if InitParams(o) != [] {
      MapAttrsAppend(NonOpt(o), Opt(o), ParamDecl);
      MapAttrsAppend(NonOpt(o), Opt(o), AttrName);
      var open := t + "\n  def self.create" + "(";
      var decls, args := MapAttrs(ParamOrder(o), ParamDecl), MapAttrs(ParamOrder(o), AttrName);
      ChompTwoLists(open, MapAttrs(NonOpt(o), ParamDecl), MapAttrs(Opt(o), ParamDecl), ", ");
      var call := open + JoinWith(decls, ", ") + ")\n" +
                  "    ta = " + Rel(segments, TypeAsserterName) + "\n" +
                  "    attrs = _ptype.attributes(true)\n" +
                  Concat(MapAttrs(InitParams(o), AssertLine)) +
                  "    new(";
      ChompTwoLists(call, MapAttrs(NonOpt(o), AttrName), MapAttrs(Opt(o), AttrName), ", ");
    }
  }

  /** The call to `super` passes exactly `super_args`, joined by ", ". */
  lemma SuperCallPassesSuperArgs(t: string, o: ObjectType)
    requires !o.parent.NoParent?
    ensures var call := t + "\n    super(" + JoinWith(MapAttrs(SuperArgs(o), AttrName), ", ") + ")\n";
      InitMiddle(t, o) == if HashParticipants(o) == [] then call else call + "    @hash = @hash ^ "
  {
    var head, args := t + "\n    super(", MapAttrs(SuperArgs(o), AttrName);
    if args != [] {
      TerminatedLength(args, ", ");
      ChompAppend(head, Terminated(args, ", "), ", ");
      ChompTerminatedIsJoin(args, ", ");
      assert Chomp(head + Terminated(args, ", "), ", ") == head + JoinWith(args, ", ");
    } else {
      assert head + JoinWith(args, ", ") == head;
    }
  }

  /** The XOR terms: nothing without hash participants; otherwise the hashes
      of exactly the own participants joined by " ^ ", and with none of them
      own, the text before with one trailing " ^ " trimmed. */
  lemma HashTermsAreOwn(t: string, o: ObjectType)
    ensures HashParticipants(o) == [] ==> HashTermsOnto(t, o) == t
    ensures OwnHashParticipants(o) != [] ==>
      HashTermsOnto(t, o) == t + JoinWith(MapAttrs(OwnHashParticipants(o), HashTerm), " ^ ") + "\n"
    ensures HashParticipants(o) != [] && OwnHashParticipants(o) == [] ==> HashTermsOnto(t, o) == Chomp(t, " ^ ") + "\n"
  {
    var own := OwnHashParticipants(o);
    var terms := MapAttrs(own, HashTerm);
    if own != [] {
      assert own[0] in HashParticipants(o);
      TerminatedLength(terms, " ^ ");
      ChompAppend(t, Terminated(terms, " ^ "), " ^ ");
      ChompTerminatedIsJoin(terms, " ^ ");
    } else {
      assert t + Terminated(terms, " ^ ") == t;
    }
  }

  /** After the signature and the `@hash`/`super` opener, `initialize` XORs
      in the own hash participants' terms and ends by assigning exactly
      `obj_attrs`. */
  lemma InitializerHashesOwnParticipants(t: string, o: ObjectType)
    requires InitParams(o) != []
    ensures InitializerOnto(t, o) ==
      HashTermsOnto(InitMiddle(InitSignature(t, o), o), o) + Concat(MapAttrs(ObjAttrs(o), AssignLine)) + "  end\n"
  {
    OwnStoredIsObjAttrs(o);
  }

  /** A root type without hash participants sets `@hash` to the type's own
      hash and XORs nothing in. */
  lemma RootHashIsTypeHash(t: string, o: ObjectType)
    requires InitParams(o) != [] && o.parent.NoParent? && HashParticipants(o) == []
    ensures InitializerOnto(t, o) ==
      InitSignature(t, o) + "\n    @hash = " + o.hashText + "\n" + Concat(MapAttrs(ObjAttrs(o), AssignLine)) + "  end\n"
  {
    InitializerHashesOwnParticipants(t, o);
    HashTermsAreOwn(InitMiddle(InitSignature(t, o), o), o);
  }

  /** Trimming " ^ " off the XOR opener leaves the parent's hash alone. */
  lemma XorOpenerTrimmed(call: string)
    ensures Chomp(call + "    @hash = @hash ^ ", " ^ ") == call + "    @hash = @hash"
  {
    var opener := call + "    @hash = @hash ^ ";
    assert opener == (call + "    @hash = @hash") + " ^ ";
  }

  /** A subtype whose hash participants are all inherited keeps the parent's
      hash: the `@hash = @hash ^ ` opener loses its " ^ " and nothing is
      XORed in. */
  lemma InheritedHashIsKept(t: string, o: ObjectType)
    requires InitParams(o) != [] && !o.parent.NoParent?
    requires HashParticipants(o) != [] && OwnHashParticipants(o) == []
    ensures var call := InitSignature(t, o) + "\n    super(" + JoinWith(MapAttrs(SuperArgs(o), AttrName), ", ") + ")\n";
      InitializerOnto(t, o) == call + "    @hash = @hash" + "\n" + Concat(MapAttrs(ObjAttrs(o), AssignLine)) + "  end\n"
  {
    var sig := InitSignature(t, o);
    var call := sig + "\n    super(" + JoinWith(MapAttrs(SuperArgs(o), AttrName), ", ") + ")\n";
    var middle := InitMiddle(sig, o);
    var assigns := Concat(MapAttrs(ObjAttrs(o), AssignLine)) + "  end\n";
    InitializerHashesOwnParticipants(t, o);
    SuperCallPassesSuperArgs(sig, o);
    assert middle == call + "    @hash = @hash ^ ";
    HashTermsAreOwn(middle, o);
    XorOpenerTrimmed(call);
    assert HashTermsOnto(middle, o) == call + "    @hash = @hash" + "\n";
  }

  /** A body opened by `start`, then `super &&` when `chained`, then `rest`
      with its last " &&\n" trimmed: the `super` line is there exactly when
      `chained`, as long as `rest` does not itself start with it. */
  lemma ChainedBody(start: string, rest: string, tail: string, chained: bool)
    requires |rest| >= 9 && rest[4] != 's'
    ensures var out := (if chained then start + "    super &&\n" else start) + Chomp(rest, " &&\n") + tail;
      start <= out && (start + "    super &&\n" <= out <==> chained)
  {
    var kept := Chomp(rest, " &&\n");
    assert |kept| >= 5 && kept[4] == rest[4];
    var probe := start + "    super &&\n";
    if chained {
      var out := probe + kept + tail;
      assert out == start + ("    super &&\n" + kept + tail);
      assert out[..|start|] == start;
      assert out == probe + (kept + tail);
      assert out[..|probe|] == probe;
    } else {
      var out := start + kept + tail;
      assert out == start + (kept + tail);
      assert out[..|start|] == start;
      assert out[|start| + 4] == kept[4];
      assert probe[|start| + 4] == 's';
    }
  }

  /** The comparisons after the optional `super` line start with the type
      check or with the first compared attribute, never with `super`. */
  lemma EqlComparisonsStart(o: ObjectType)
    requires EqNames(o) != [] || IncludeType(o)
    ensures var rest := (if IncludeType(o) then "    o.instance_of?(self.class) &&\n" else "") + Concat(EqLines(EqNames(o)));
      |rest| >= 9 && rest[4] != 's'
  {
    var lines := Concat(EqLines(EqNames(o)));
    if !IncludeType(o) {
      ConcatStartsWithFirst(EqLines(EqNames(o)));
      var first := EqLines(EqNames(o))[0];
      assert first[4] == '@' && |first| >= 9;
      assert ("" + lines)[..|first|] == first;
    }
  }

  /** `eql?` is left out exactly when there is nothing to compare; when it is
      emitted, its first comparison is `super` exactly for a type with a
      parent. */
  lemma EqlChainsSuper(t: string, o: ObjectType)
    ensures EqNames(o) == [] && !IncludeType(o) ==> EqlOnto(t, o) == t
    ensures EqNames(o) != [] || IncludeType(o) ==>
      && t + "\n  def eql?(o)\n" <= EqlOnto(t, o)
      && (t + "\n  def eql?(o)\n" + "    super &&\n" <= EqlOnto(t, o) <==> !o.parent.NoParent?)
  {
    if EqNames(o) != [] || IncludeType(o) {
      var start := t + "\n  def eql?(o)\n";
      var chained := !o.parent.NoParent?;
      var sup := if chained then start + "    super &&\n" else start;
      var typeLine := if IncludeType(o) then "    o.instance_of?(self.class) &&\n" else "";
      var lines := Concat(EqLines(EqNames(o)));
      var rest := typeLine + lines;
      ConcatAssoc(sup, typeLine, lines);
      assert EqlBody(t, o) == sup + rest;
      EqlComparisonsStart(o);
      ChompAppend(sup, rest, " &&\n");
      var tail := "\n  end\n  alias == eql?\n";
      assert EqlOnto(t, o) == sup + Chomp(rest, " &&\n") + tail;
      ChainedBody(start, rest, tail, chained);
    }
  }

  /** An `i12n_hash` entry carries the "unless equals default" guard exactly
      when the attribute has a default. */
  lemma I12nGuardIff(a: Attr)
    ensures I12nLine(a) == "    result['" + a.name + "'] = @" + a.name + "\n" <==> a.default.None?
  {
    var plain := "    result['" + a.name + "'] = @" + a.name;
    if a.default.Some? {
      assert |I12nLine(a)| > |plain + "\n"|;
    }
  }

  // ---- emission -----------------------------------------------------------

  /** One parameter: its name and, when optional, `default_string`. */
  method EmitParamDecl(bld: Builder, a: Attr)
    modifies bld
    ensures bld.text == old(bld.text) + ParamDecl(a)
  {
    bld.Append(a.name);
    if a.default.Some? {
      bld.Append(" = ");
      DefaultString(bld, a);
    }
  }

  /** Parameters of `create` or `initialize`, each followed by ", ". */
  method EmitParamDecls(bld: Builder, attrs: seq<Attr>)
    modifies bld
    ensures bld.text == old(bld.text) + Terminated(MapAttrs(attrs, ParamDecl), ", ")
  {
    var i := 0;
    while i < |attrs|
      invariant i <= |attrs|
      invariant bld.text == old(bld.text) + Terminated(MapAttrs(attrs[..i], ParamDecl), ", ")
    {
      MapAttrsSnoc(attrs, i, ParamDecl);
      EmitParamDecl(bld, attrs[i]);
      bld.Append(", ");
      i := i + 1;
    }
    assert attrs[..i] == attrs;
  }

  /** One argument of `from_asserted_hash`; a default other than nil is
      written by `default_string`. */
  method EmitHashArg(bld: Builder, a: Attr)
    modifies bld
    ensures bld.text == old(bld.text) + HashArg(a)
  {
    if a.default.None? || a.default.value.Nil? {
      bld.Append("      i12n['" + a.name + "']");
    } else {
      bld.Append("      i12n.fetch('" + a.name + "') { ");
      DefaultString(bld, a);
      bld.Append(" }");
    }
  }

  /** Arguments of `from_asserted_hash`, each followed by ",\n". */
  method EmitHashArgs(bld: Builder, attrs: seq<Attr>)
    modifies bld
    ensures bld.text == old(bld.text) + Terminated(MapAttrs(attrs, HashArg), ",\n")
  {
    var i := 0;
    while i < |attrs|
      invariant i <= |attrs|
      invariant bld.text == old(bld.text) + Terminated(MapAttrs(attrs[..i], HashArg), ",\n")
    {
      MapAttrsSnoc(attrs, i, HashArg);
      EmitHashArg(bld, attrs[i]);
      bld.Append(",\n");
      i := i + 1;
    }
    assert attrs[..i] == attrs;
  }

  /** One entry of `i12n_hash`; the guard is written by `equals_default_string`. */
  method EmitI12nLine(bld: Builder, a: Attr)
    modifies bld
    ensures bld.text == old(bld.text) + I12nLine(a)
  {
    bld.Append("    result['" + a.name + "'] = @" + a.name);
    if a.default.Some? {
      bld.Append(" unless ");
      EqualsDefaultString(bld, a);
    }
    bld.Append("\n");
  }

  method EmitI12nLines(bld: Builder, attrs: seq<Attr>)
    modifies bld
    ensures bld.text == old(bld.text) + Concat(MapAttrs(attrs, I12nLine))
  {
    var i := 0;
    while i < |attrs|
      invariant i <= |attrs|
      invariant bld.text == old(bld.text) + Concat(MapAttrs(attrs[..i], I12nLine))
    {
      MapAttrsSnoc(attrs, i, I12nLine);
      EmitI12nLine(bld, attrs[i]);
      i := i + 1;
    }
    assert attrs[..i] == attrs;
  }

  method EmitRoot(bld: Builder, o: ObjectType, segments: seq<string>)
    modifies bld
    ensures bld.text == RootOnto(old(bld.text), o, segments)
  {
    if o.parent.NoParent? {
      var marker := NamespaceRelative(segments, PuppetObjectName);
      bld.Append("\n  include "); bld.Append(marker); bld.Append("\n\n");
      bld.Append("  def self.ref(type_string)\n");
      var reference := NamespaceRelative(segments, TypeReferenceName);
      bld.Append("    "); bld.Append(reference); bld.Append(".new(type_string)\n");
      bld.Append("  end\n");
    }
  }

  method EmitConstants(bld: Builder, o: ObjectType)
    modifies bld
    ensures bld.text == ConstantsOnto(old(bld.text), o)
  {
    var constants := Constants(o);
    if constants != [] {
      bld.AppendAll(MapAttrs(constants, ClassConstantDef));
      bld.AppendAll(MapAttrs(constants, InstanceConstantDef));
    }
  }

  method EmitFromHash(bld: Builder, o: ObjectType, segments: seq<string>)
    modifies bld
    ensures bld.text == FromHashOnto(old(bld.text), o, segments)
  {
    var nonOpt, opt := NonOpt(o), Opt(o);
    bld.Append("\n  def self.from_hash(i12n)\n");
    bld.Append("    from_asserted_hash(");
    var asserter := NamespaceRelative(segments, TypeAsserterName);
    bld.Append(asserter); bld.Append(".assert_instance_of(");
    bld.Append("'"); bld.Append(o.labelText);
    bld.Append(" initializer', _ptype.i12n_type, i12n))\n  end\n\n  def self.from_asserted_hash(i12n)\n    new");
    if !(nonOpt == [] && opt == []) {
      bld.Append("(\n");
      EmitHashArgs(bld, nonOpt);
      EmitHashArgs(bld, opt);
      bld.TrimSuffix(",\n");
      bld.Append(").freeze");
    }
    bld.Append("\n  end\n");
  }

  method EmitCreate(bld: Builder, o: ObjectType, segments: seq<string>)
    modifies bld
    ensures bld.text == CreateOnto(old(bld.text), o, segments)
  {
    var initParams, nonOpt, opt := InitParams(o), NonOpt(o), Opt(o);
    bld.Append("\n  def self.create");
    if initParams == [] {
      bld.Append("\n    new");
    } else {
      bld.Append("(");
      EmitParamDecls(bld, nonOpt);
      EmitParamDecls(bld, opt);
      bld.TrimSuffix(", ");
      bld.Append(")\n");
      var asserter := NamespaceRelative(segments, TypeAsserterName);
      bld.Append("    ta = "); bld.Append(asserter); bld.Append("\n");
      bld.Append("    attrs = _ptype.attributes(true)\n");
      bld.AppendAll(MapAttrs(initParams, AssertLine));
      bld.Append("    new(");
      bld.AppendTerminated(MapAttrs(nonOpt, AttrName), ", ");
      bld.AppendTerminated(MapAttrs(opt, AttrName), ", ");
      bld.TrimSuffix(", ");
      bld.Append(")");
    }
    bld.Append(".freeze\n  end\n");
  }

  method EmitReaders(bld: Builder, o: ObjectType)
    modifies bld
    ensures bld.text == ReadersOnto(old(bld.text), o)
  {
    var objAttrs := ObjAttrs(o);
    if objAttrs != [] {
      bld.Append("\n");
      bld.AppendAll(MapAttrs(objAttrs, ReaderLine));
    }
    if o.parent.NoParent? {
      bld.Append("  attr_reader :hash\n");
    }
  }

  method EmitInitializer(bld: Builder, o: ObjectType)
    modifies bld
    ensures bld.text == InitializerOnto(old(bld.text), o)
  {
    var initParams, nonOpt, opt := InitParams(o), NonOpt(o), Opt(o);
    if initParams == [] {
      if o.parent.NoParent? {
        bld.Append("\n  def initialize\n    @hash = "); bld.Append(o.hashText); bld.Append("\n  end");
      }
      return;
    }
    bld.Append("\n  def initialize");
    bld.Append("(");
    EmitParamDecls(bld, nonOpt);
    EmitParamDecls(bld, opt);
    bld.TrimSuffix(", ");
    bld.Append(")");
    ghost var signature := bld.text;

    var hashParticipants := HashParticipants(o);
    if o.parent.NoParent? {
      bld.Append("\n    @hash = ");
      if hashParticipants == [] {
        bld.Append(o.hashText); bld.Append("\n");
      }
    } else {
      bld.Append("\n    super(");
      var superArgs := SuperArgs(o);
      if superArgs != [] {
        bld.AppendTerminated(MapAttrs(superArgs, AttrName), ", ");
        bld.TrimSuffix(", ");
      }
      bld.Append(")\n");
      if hashParticipants != [] {
        bld.Append("    @hash = @hash ^ ");
      }
    }
    assert bld.text == InitMiddle(signature, o);
    if hashParticipants != [] {
      bld.AppendTerminated(MapAttrs(OwnHashParticipants(o), HashTerm), " ^ ");
      bld.TrimSuffix(" ^ ");
      bld.Append("\n");
    }
    assert bld.text == HashTermsOnto(InitMiddle(signature, o), o);
    bld.AppendAll(MapAttrs(OwnStored(o), AssignLine));
    bld.Append("  end\n");
  }

  method EmitI12nHash(bld: Builder, o: ObjectType)
    modifies bld
    ensures bld.text == I12nOnto(old(bld.text), o)
  {
    var objAttrs := ObjAttrs(o);
    if objAttrs == [] {
      if !o.parent.ObjectParent? {
        bld.Append("\n  def i12n_hash\n    {}\n  end\n");
      }
    } else {
      bld.Append("\n  def i12n_hash\n");
      bld.Append("    result = ");
      bld.Append(if o.parent.NoParent? then "{}" else "super");
      bld.Append("\n");
      EmitI12nLines(bld, objAttrs);
      bld.Append("    result\n  end\n");
    }
  }

  method EmitContents(bld: Builder, o: ObjectType)
    modifies bld
    ensures bld.text == ContentsOnto(old(bld.text), o)
  {
    var cps := ContentParticipants(o);
    if cps == [] {
      if !o.parent.ObjectParent? {
        bld.Append("\n  def _pcontents\n  end\n");
        bld.Append("\n  def _pall_contents(path)\n  end\n");
      }
    } else {
      bld.Append("\n  def _pcontents\n");
      bld.AppendAll(MapAttrs(cps, ShallowVisit));
      bld.Append("  end\n\n  def _pall_contents(path, &block)\n    path << self\n");
      bld.AppendAll(MapAttrs(cps, DeepVisit));
      bld.Append("    path.pop\n  end\n");
    }
  }

  method EmitToS(bld: Builder, o: ObjectType, segments: seq<string>)
    modifies bld
    ensures bld.text == ToSOnto(old(bld.text), o, segments)
  {
    if !o.parent.ObjectParent? {
      bld.Append("\n  def to_s\n");
      var formatter := NamespaceRelative(segments, TypeFormatterName);
      bld.Append("    "); bld.Append(formatter); bld.Append(".string(self)\n");
      bld.Append("  end\n");
    }
  }

  method EmitEql(bld: Builder, o: ObjectType)
    modifies bld
    ensures bld.text == EqlOnto(old(bld.text), o)
  {
    var eqNames := EqNames(o);
    var includeType := IncludeType(o);
    if !(eqNames == [] && !includeType) {
      bld.Append("\n  def eql?(o)\n");
      if !o.parent.NoParent? {
        bld.Append("    super &&\n");
      }
      if includeType {
        bld.Append("    o.instance_of?(self.class) &&\n");
      }
      bld.AppendAll(EqLines(eqNames));
      bld.TrimSuffix(" &&\n");
      bld.Append("\n  end\n  alias == eql?\n");
    }
  }

  /** `class_body(obj, segments, bld)`. */
  method ClassBody(bld: Builder, o: ObjectType, segments: seq<string>)
    modifies bld
    ensures bld.text == ClassBodyOnto(old(bld.text), o, segments)
  {
    EmitRoot(bld, o, segments);
    EmitConstants(bld, o);
    if !(o.parent.ObjectParent? && ObjAttrs(o) == []) {
      EmitFromHash(bld, o, segments);
      EmitCreate(bld, o, segments);
      EmitReaders(bld, o);
      bld.AppendAll(MapAttrs(DerivedAttrs(o), DerivedDef));
      EmitInitializer(bld, o);
    }
    EmitI12nHash(bld, o);
    EmitContents(bld, o);
    EmitToS(bld, o, segments);
    bld.AppendAll(FunctionDefs(o.functions));
    EmitEql(bld, o);
  }

  /** The module openers and the `class` keyword with the leaf name. */
  method EmitClassOpen(bld: Builder, relative: seq<string>)
    requires relative != []
    modifies bld
    ensures bld.text == ClassOpenOnto(old(bld.text), relative)
  {
    bld.AppendAll(ModuleLines(relative[..|relative| - 1]));
    bld.Append("class "); bld.Append(relative[|relative| - 1]);
  }

  /** The superclass clause, `_plocation` and `_ptype`. */
  method EmitClassHead(bld: Builder, o: ObjectType, segments: seq<string>, parentImpl: Option<string>)
    modifies bld
    ensures bld.text == ClassHeadOnto(old(bld.text), o, segments, parentImpl)
  {
    if parentImpl.Some? {
      var parentName := NamespaceRelative(segments, parentImpl.value);
      bld.Append(" < "); bld.Append(parentName);
    }
    bld.Append("\n");
    bld.Append("  def self._plocation\n");
    bld.Append("    loc = Puppet::Util.path_to_uri(\"#{__FILE__}\")\n");
    bld.Append("    URI(\"#{loc}?line=#{__LINE__.to_i - 3}\")\n");
    bld.Append("  end\n");
    bld.Append("\n");
    bld.Append("  def self._ptype\n");
    var typeClass := NamespaceRelative(segments, ObjectTypeClassName);
    bld.Append("    @_ptype ||= "); bld.Append(typeClass); bld.Append(".new('"); bld.Append(o.name); bld.Append("', ");
    bld.Append(o.initText); bld.Append(")\n");
    bld.Append("  end\n");
  }

  /** `class_definition(obj, namespace_segments, bld, class_name)`: opens the
      modules between the namespace and the class, emits the class and closes
      them again; returns the class name relative to the namespace. */
  method ClassDefinition(bld: Builder, o: ObjectType, ns: seq<string>, className: string, registry: Registry)
    returns (r: Result<string, Error>)
    modifies bld
    ensures var relative := Strip(ns, className);
      if relative == [] then
        r == Err(EmptyClassName(className)) && bld.text == old(bld.text) + "class "
      else if ParentImpl(o, registry).Err? then
        r == Err(ParentImpl(o, registry).error) && bld.text == ClassOpenOnto(old(bld.text), relative)
      else
        r == Ok(Join(relative)) &&
        bld.text == ClassDefinitionOnto(old(bld.text), o, relative, Split(className), ParentImpl(o, registry).value)
  {
    var relative := RemoveCommonNamespace(ns, className);
    if relative == [] {
      bld.Append("class ");
      return Err(EmptyClassName(className));
    }
    EmitClassOpen(bld, relative);
    var segments := Split(className);
    var parentImpl := ParentImpl(o, registry);
    if parentImpl.Err? {
      return Err(parentImpl.error);
    }
    EmitClassHead(bld, o, segments, parentImpl.value);
    ClassBody(bld, o, segments);
    bld.Append("end\n");
    bld.AppendAll(Ends(|relative| - 1));
    r := Ok(Join(relative));
  }
}
