# Puppet's Ruby generator for object types, modelled in Dafny

This project models the core of Puppet's `RubyGenerator`
(`lib/puppet/pops/types/ruby_generator.rb`). The generator turns a batch of
resolved Pcore types into the source text of Ruby classes. Each object type
becomes a class with these members:

- a typed-hash constructor and a `create` factory;
- attribute readers and an `initialize` method that chains to `super` and
  builds `@hash`;
- an `i12n_hash` serialiser and content walkers;
- `to_s` and `eql?`.

The classes of one batch are wrapped in the Ruby modules of the
implementation-name prefix they all share. After the classes come the calls
that register the batch's type aliases and implementations with Pcore.

How the model is laid out:

- `Text` holds the Ruby string operations the generator uses (`chomp!`,
  `split("::")`, `join("::")`) and the shared output buffer. The buffer is a
  class `Builder` with a `text` field that its methods append to and trim in
  place.
- `Descriptors` holds the type descriptors the generator reads:
  - `ObjectType`, `Attr`, `Func`, `AliasType` and `Parent`;
  - the implementation registry, as a map from type name to implementation
    name;
  - the `Error` values that stand for the Ruby exceptions.
- `TypeShape` holds `obj_type?`, `array_type?` and `content_participant?` over
  a closed union of the type classes they match on.
- `Classify` holds the attribute classifications of `class_body`:
  - constants, `init_params`, `opt` and `non_opt`;
  - `obj_attrs` and the derived attributes;
  - `eq_names` and `include_type`;
  - the hash participants and `super_args`;
  - the content participants.
- `Defaults` holds `default_string` and `equals_default_string`.
- `Namespace` holds `remove_common_namespace`, `namespace_relative` and the
  loop that infers the common implementation prefix.
- `ClassEmitter` holds `class_definition` and `class_body`. Each section of a
  class is a specification function from the buffer before the section to the
  buffer after it (`chomp!` trims the whole buffer, as in Ruby). A method
  appends the same section to the `Builder` piece by piece and is proved to
  leave exactly that text.
- `ModuleBuilder` holds `module_definition`, `start_module`, `end_module` and
  `implementation_names`.

The Ruby exceptions of the source are `Error` results:

- a type or parent with no registry mapping;
- a batch with no object type, aliases or not: `segmented_names[0]` is then
  nil, and line 52 calls `size` on it;
- a class name that is empty once the namespace is stripped: `pop` at line 109
  then yields nil, and line 111 cannot append it.

The last case is not rare. In a batch with exactly one object type, the
common prefix is that type's whole implementation name, so its class name is
always empty and the batch cannot be generated
(`ModuleBuilder.SingleObjectTypeFails`).

## Model

| member | source | states |
|---|---|---|
| Namespace.MatchLength | lib/puppet/pops/types/ruby_generator.rb:8-11 | the matched run is no longer than either sequence, both agree on it, and they differ at the first position after it |
| Namespace.RemoveCommonNamespace | lib/puppet/pops/types/ruby_generator.rb:6-13 | the loop's result is the split name with its longest leading run matching the namespace removed (`Strip`) |
| Namespace.StripRemovesMatchingRun | lib/puppet/pops/types/ruby_generator.rb:6-13 | the result is a suffix of the split name; the removed part equals the first segments of the namespace, is no longer than the namespace, and cannot be extended; a mismatch on the first segment removes nothing |
| Namespace.NamespaceRelative | lib/puppet/pops/types/ruby_generator.rb:15-17 | the result is the stripped segments joined with "::" |
| Namespace.StripInside | lib/puppet/pops/types/ruby_generator.rb:6-17 | a name made of the namespace's segments followed by more well-formed segments loses exactly the namespace |
| Namespace.CommonPrefix | lib/puppet/pops/types/ruby_generator.rb:49-56 | the inferred prefix is a leading run of every split implementation name, no common prefix is longer, and it equals `LongestCommonPrefix` |
| Namespace.LongestCommonPrefix | lib/puppet/pops/types/ruby_generator.rb:49-56 | the reference definition: a common prefix of all names that no other common prefix is longer than |
| Namespace.SingleNamePrefix | lib/puppet/pops/types/ruby_generator.rb:49-56 | for a single name the common prefix is the whole split name, and stripping it from that name leaves no segment |
| Namespace.LongestIsUnique | lib/puppet/pops/types/ruby_generator.rb:49-56 | two common prefixes of the same length are equal, so the longest common prefix is unique |
| TypeShape.IsObjType | lib/puppet/pops/types/ruby_generator.rb:365-380 | `obj_type?`: Object is accepted, Optional, NotUndef and Array look at their inner type, a Variant needs all members accepted, anything else is rejected |
| TypeShape.IsArrayType | lib/puppet/pops/types/ruby_generator.rb:382-395 | `array_type?`: Array is accepted, Optional and NotUndef look at their inner type, a Variant needs all members accepted, anything else is rejected |
| TypeShape.IsContentParticipant | lib/puppet/pops/types/ruby_generator.rb:361-363 | `content_participant?`: not a reference, and of object-bearing type |
| TypeShape.WrappersTransparent | lib/puppet/pops/types/ruby_generator.rb:365-395 | `obj_type?` and `array_type?` give the same answer for a type and for the type with its Optional/NotUndef wrappers removed |
| TypeShape.ShapeCases | lib/puppet/pops/types/ruby_generator.rb:365-395 | after unwrapping, `obj_type?` accepts Object, an Array of an object-bearing element and a Variant whose members all qualify, and rejects everything else; `array_type?` accepts Array and all-array Variants only |
| TypeShape.EmptyVariantIsBoth | lib/puppet/pops/types/ruby_generator.rb:376-391 | an empty Variant passes both predicates because `all?` holds of an empty list |
| TypeShape.VariantAppend | lib/puppet/pops/types/ruby_generator.rb:365-395 | a Variant qualifies exactly when every part of it qualifies |
| TypeShape.ContentParticipantCases | lib/puppet/pops/types/ruby_generator.rb:361-363 | a reference attribute is never a content participant; any other attribute is one exactly when its unwrapped type is object-bearing |
| Classify.Filter | lib/puppet/pops/types/ruby_generator.rb:150-159 | `select`/`reject`: no longer than the input, and an element is kept exactly when it is in the input and satisfies the predicate |
| Classify.Constants | lib/puppet/pops/types/ruby_generator.rb:150-151 | the own attributes of constant kind, in attribute order |
| Classify.InitParams | lib/puppet/pops/types/ruby_generator.rb:157 | the non-constant attributes that are not derived, own and inherited, in attribute order |
| Classify.Opt | lib/puppet/pops/types/ruby_generator.rb:158 | the init params that have a default |
| Classify.NonOpt | lib/puppet/pops/types/ruby_generator.rb:158 | the init params without a default |
| Classify.DerivedAttrs | lib/puppet/pops/types/ruby_generator.rb:159 | the own non-constant attributes of derived kind |
| Classify.ObjAttrs | lib/puppet/pops/types/ruby_generator.rb:159 | the own non-constant attributes that are not derived |
| Classify.IncludeType | lib/puppet/pops/types/ruby_generator.rb:161 | the type asks for the type check and its parent is not an object type that already asks for it |
| Classify.EqNames | lib/puppet/pops/types/ruby_generator.rb:162-166 | the explicit equality list, or else the names of `obj_attrs` that are not constant |
| Classify.HashParticipants | lib/puppet/pops/types/ruby_generator.rb:253 | the init params whose names are in `eq_names` |
| Classify.SuperArgs | lib/puppet/pops/types/ruby_generator.rb:259 | the parameters in parameter order that the type does not own |
| Classify.ContentParticipants | lib/puppet/pops/types/ruby_generator.rb:295 | the init params that are content participants |
| Classify.PureInheritance | lib/puppet/pops/types/ruby_generator.rb:168 | the parent is an object type and `obj_attrs` is empty |
| Classify.PartitionPermutes | lib/puppet/pops/types/ruby_generator.rb:158 | `partition` loses and adds nothing: the two groups together are a permutation of the input |
| Classify.PartitionIsStable | lib/puppet/pops/types/ruby_generator.rb:158 | the group without the property followed by the group with it has every element without it before every element with it |
| Classify.InitParamsAre | lib/puppet/pops/types/ruby_generator.rb:150-157 | `init_params` are exactly the attributes that are neither constant nor derived, in attribute order |
| Classify.ObjAttrsAre | lib/puppet/pops/types/ruby_generator.rb:159 | `obj_attrs` are exactly the type's own attributes that are neither constant nor derived, in attribute order |
| Classify.ParamOrderIsStablePartition | lib/puppet/pops/types/ruby_generator.rb:158 | the parameter order `non_opt + opt` is a permutation of `init_params`; every required parameter comes before every optional one, and each group keeps attribute order |
| Classify.DerivedEqNames | lib/puppet/pops/types/ruby_generator.rb:162-166 | with no explicit equality list, `eq_names` are the names of the own attributes that are neither constant nor derived |
| Classify.IncludeTypeCases | lib/puppet/pops/types/ruby_generator.rb:161 | the type check is included exactly when the type asks for it and its object-type parent does not already include it |
| Classify.PureInheritanceIff | lib/puppet/pops/types/ruby_generator.rb:168 | the constructor sections are skipped exactly for a type whose parent is an object type and whose own attributes are all constant or derived |
| Classify.SuperArgsAreInherited | lib/puppet/pops/types/ruby_generator.rb:259 | `super_args` are the inherited required parameters followed by the inherited optional ones; an attribute is among them exactly when it is an init param the type does not own |
| Classify.OwnStoredIsObjAttrs | lib/puppet/pops/types/ruby_generator.rb:272 | the attributes `initialize` assigns are exactly `obj_attrs` |
| Classify.OwnHashParticipantsAre | lib/puppet/pops/types/ruby_generator.rb:253-268 | the attributes whose hashes `initialize` XORs in are exactly the members of `obj_attrs` named in `eq_names` |
| Classify.ContentParticipantsAre | lib/puppet/pops/types/ruby_generator.rb:295 | the content participants are exactly the regular attributes of object-bearing type, own or inherited |
| Defaults.DefaultText | lib/puppet/pops/types/ruby_generator.rb:397-404 | the `inspect` text of a nil, boolean, number or string default, else a `_ptype[name].value` lookup |
| Defaults.EqualsDefaultText | lib/puppet/pops/types/ruby_generator.rb:406-413 | `@name == ` and the `inspect` text for a literal default, else a `default_value?` call on `_ptype[name]` |
| Defaults.DefaultRenderingsAgree | lib/puppet/pops/types/ruby_generator.rb:397-413 | both renderings take the `_ptype` lookup branch for exactly the non-literal defaults, and the inline equality test compares `@name` with exactly the text `default_string` writes |
| Defaults.DefaultString | lib/puppet/pops/types/ruby_generator.rb:397-404 | appends the default's rendering: the literal's `inspect` form, or a `_ptype` lookup |
| Defaults.EqualsDefaultString | lib/puppet/pops/types/ruby_generator.rb:406-413 | appends the "equals default" test: `@name == literal`, or a `default_value?` call |
| Text.Chomp | lib/puppet/pops/types/ruby_generator.rb:82 | `chomp(suffix)`: drops the suffix once when the text ends with it and otherwise changes nothing |
| Text.ChompNewline | lib/puppet/pops/types/ruby_generator.rb:93 | `chomp("\n")`: drops one trailing "\r\n", "\n" or "\r", and nothing else |
| Text.ChompTerminatedIsJoin | lib/puppet/pops/types/ruby_generator.rb:87-90 | appending each item followed by a separator and then chomping the separator once yields the items joined by it |
| Text.ChompTwoLists | lib/puppet/pops/types/ruby_generator.rb:244-250 | two lists emitted one after the other behind a head and then chomped give the head followed by both lists joined as one |
| Text.Split | lib/puppet/pops/types/ruby_generator.rb:7 | Ruby's `split("::")`: the fields between separators, with trailing empty fields dropped |
| Text.Join | lib/puppet/pops/types/ruby_generator.rb:16 | Ruby's `join("::")` |
| Text.SplitJoin | lib/puppet/pops/types/ruby_generator.rb:6-17 | splitting a "::"-joined list of well-formed segments gives the segments back |
| Text.Builder.Append | lib/puppet/pops/types/ruby_generator.rb:73 | `bld << s` appends `s` and changes nothing else |
| Text.Builder.AppendAll | lib/puppet/pops/types/ruby_generator.rb:74 | appending each part in turn leaves the parts' concatenation after the old text |
| Text.Builder.AppendTerminated | lib/puppet/pops/types/ruby_generator.rb:88 | appending each part followed by the separator leaves `Terminated(parts, sep)` after the old text |
| Text.Builder.TrimSuffix | lib/puppet/pops/types/ruby_generator.rb:250 | `bld.chomp!(suffix)` leaves `Chomp` of the old text |
| Text.Builder.TrimNewline | lib/puppet/pops/types/ruby_generator.rb:93 | `bld.chomp!("\n")` leaves `ChompNewline` of the old text |
| ClassEmitter.EmitRoot | lib/puppet/pops/types/ruby_generator.rb:142-147 | appends the marker `include` and `self.ref` only for a type without a parent |
| ClassEmitter.EmitConstants | lib/puppet/pops/types/ruby_generator.rb:150-155 | appends all class-level readers of the own constants, then all instance readers |
| ClassEmitter.EmitFromHash | lib/puppet/pops/types/ruby_generator.rb:170-188 | appends `from_hash` and `from_asserted_hash` |
| ClassEmitter.EmitCreate | lib/puppet/pops/types/ruby_generator.rb:191-216 | appends `create` with its parameter list, its type assertions and the call to `new`; the order of both lists is stated by `CreateIsOrdered` |
| ClassEmitter.EmitReaders | lib/puppet/pops/types/ruby_generator.rb:219-224 | appends the readers of `obj_attrs`, and `attr_reader :hash` for a type without a parent |
| ClassEmitter.EmitInitializer | lib/puppet/pops/types/ruby_generator.rb:238-274 | appends `initialize`: the signature, the root `@hash` or the `super` call, the hash terms and the assignments |
| ClassEmitter.EmitI12nHash | lib/puppet/pops/types/ruby_generator.rb:277-293 | appends `i12n_hash`, starting from `{}` or from `super` |
| ClassEmitter.EmitContents | lib/puppet/pops/types/ruby_generator.rb:295-324 | appends `_pcontents` and `_pall_contents` over the content participants |
| ClassEmitter.EmitToS | lib/puppet/pops/types/ruby_generator.rb:326-330 | appends `to_s` unless the parent is an object type |
| ClassEmitter.EmitEql | lib/puppet/pops/types/ruby_generator.rb:351-358 | appends `eql?` and its alias, with the trailing " &&\n" chomped |
| ClassEmitter.ParamOrderEmptyIff | lib/puppet/pops/types/ruby_generator.rb:157-158 | the parameter list is empty exactly when there are no init params, which is exactly when both `non_opt` and `opt` are empty |
| ClassEmitter.FromHashArgsAreOrdered | lib/puppet/pops/types/ruby_generator.rb:170-188 | `from_asserted_hash` calls plain `new` when there are no init params; otherwise it passes one hash lookup per parameter in parameter order, separated by ",\n" |
| ClassEmitter.CreateIsOrdered | lib/puppet/pops/types/ruby_generator.rb:191-216 | `create` with no init params calls plain `new`; otherwise it declares its parameters in parameter order joined by ", ", asserts each init param, and passes the same names to `new` in the same order |
| ClassEmitter.InitSignatureIsOrdered | lib/puppet/pops/types/ruby_generator.rb:242-251 | `initialize` declares its parameters in parameter order (required, then optional with defaults), joined by ", " |
| ClassEmitter.SuperCallPassesSuperArgs | lib/puppet/pops/types/ruby_generator.rb:258-265 | a subtype's `initialize` calls `super` with exactly `super_args`, joined by ", ", and starts the XOR with the parent's hash only when there are hash participants |
| ClassEmitter.InitializerHashesOwnParticipants | lib/puppet/pops/types/ruby_generator.rb:253-273 | whenever there are init params, `initialize` is the signature, the root `@hash` or the `super` opener, the XOR terms, and the assignments of exactly `obj_attrs` |
| ClassEmitter.HashTermsAreOwn | lib/puppet/pops/types/ruby_generator.rb:267-271 | with no hash participants nothing is XORed in; otherwise the hashes of exactly the own participants are joined by " ^ ", and with none of them own the dangling " ^ " is trimmed |
| ClassEmitter.RootHashIsTypeHash | lib/puppet/pops/types/ruby_generator.rb:254-256 | a root type with no hash participants sets `@hash` to the type's hash and XORs nothing in |
| ClassEmitter.InheritedHashIsKept | lib/puppet/pops/types/ruby_generator.rb:258-271 | a subtype whose hash participants are all inherited calls `super` and then leaves `@hash = @hash`, the opener's " ^ " trimmed |
| ClassEmitter.EqlChainsSuper | lib/puppet/pops/types/ruby_generator.rb:351-358 | `eql?` is left out exactly when there is nothing to compare; when it is emitted, its first comparison is `super` exactly for a type with a parent |
| ClassEmitter.I12nGuardIff | lib/puppet/pops/types/ruby_generator.rb:284-291 | an `i12n_hash` entry is unguarded exactly when the attribute has no default |
| ClassEmitter.ParentImpl | lib/puppet/pops/types/ruby_generator.rb:114-117 | no parent needs no implementation; a parent's implementation is its registry entry, and an unmapped parent is a `MissingMapping` error |
| ClassEmitter.ClassBody | lib/puppet/pops/types/ruby_generator.rb:141-359 | appends the sections in source order; the constructor sections are left out for a type that only inherits |
| ClassEmitter.EmitClassOpen | lib/puppet/pops/types/ruby_generator.rb:108-111 | appends one `module` line per stripped segment but the last, then `class` and the leaf name |
| ClassEmitter.EmitClassHead | lib/puppet/pops/types/ruby_generator.rb:114-131 | appends the namespace-relative superclass when there is a parent, then `_plocation` and `_ptype` |
| ClassEmitter.ClassDefinition | lib/puppet/pops/types/ruby_generator.rb:107-139 | fails on an empty stripped name or an unmapped parent, leaving the text emitted so far; otherwise it appends the whole class, closes the opened modules and returns the namespace-relative class name |
| ModuleBuilder.ObjectTypes | lib/puppet/pops/types/ruby_generator.rb:45 | the object types of the batch are exactly its `Obj` entries |
| ModuleBuilder.AliasTypes | lib/puppet/pops/types/ruby_generator.rb:45 | the alias types of the batch are exactly its `Alias` entries |
| ModuleBuilder.PartitionIsComplete | lib/puppet/pops/types/ruby_generator.rb:45 | every type of the batch lands in exactly one of the two groups |
| ModuleBuilder.ImplementationNames | lib/puppet/pops/types/ruby_generator.rb:98-105 | succeeds exactly when every object type has a registry entry, giving each type's entry in order; otherwise it fails on the first unmapped type |
| ModuleBuilder.Store | lib/puppet/pops/types/ruby_generator.rb:67 | `h[k] = v` on an insertion-ordered hash: an existing key keeps its place and takes the new value, and a new key goes last |
| ModuleBuilder.AliasHash | lib/puppet/pops/types/ruby_generator.rb:67 | the keys of the alias hash are distinct |
| ModuleBuilder.AliasHashCoversNames | lib/puppet/pops/types/ruby_generator.rb:67 | every alias name is a key of the alias hash |
| ModuleBuilder.AliasHashLastWins | lib/puppet/pops/types/ruby_generator.rb:67 | each entry of the alias hash holds the text of the last alias of that name |
| ModuleBuilder.StartModule | lib/puppet/pops/types/ruby_generator.rb:72-75 | appends the comment line and one `module` line per prefix segment |
| ModuleBuilder.EndModule | lib/puppet/pops/types/ruby_generator.rb:77-96 | appends the alias and implementation registrations, drops one trailing newline and appends one `end` per prefix segment |
| ModuleBuilder.AliasChompIsNoOp | lib/puppet/pops/types/ruby_generator.rb:79-84 | the alias block's `chomp!(",\n")` removes nothing unless the last rendered type ends in a comma |
| ModuleBuilder.ImplementationsAreListed | lib/puppet/pops/types/ruby_generator.rb:87-92 | the implementations block lists every class name, separated by ",\n", with no comma after the last |
| ModuleBuilder.EndModuleClosesPrefix | lib/puppet/pops/types/ruby_generator.rb:93-95 | the text `end_module` leaves ends in exactly one `end` line per prefix segment |
| ModuleBuilder.PlanFor | lib/puppet/pops/types/ruby_generator.rb:107-119 | one class fails exactly when its stripped name is empty or its parent is unmapped; otherwise it yields its non-empty relative name, its split name and its parent's implementation |
| ModuleBuilder.Plans | lib/puppet/pops/types/ruby_generator.rb:61-65 | a successful batch holds one plan per object type, in order |
| ModuleBuilder.PlansFailAtFirstError | lib/puppet/pops/types/ruby_generator.rb:61-65 | a batch fails exactly when one of its classes fails, and with the error of the first failing class |
| ModuleBuilder.PlansStopAtError | lib/puppet/pops/types/ruby_generator.rb:61-65 | once a leading part of the batch fails, the whole batch fails with the same error |
| ModuleBuilder.ThreadsAreUnique | lib/puppet/pops/types/ruby_generator.rb:59-65 | the buffer states of the class loop are determined by the state before it |
| ModuleBuilder.EmitClass | lib/puppet/pops/types/ruby_generator.rb:62-63 | one iteration: the class definition and a blank line, or the class's error |
| ModuleBuilder.EmitClasses | lib/puppet/pops/types/ruby_generator.rb:61-65 | the class loop fails with the batch's first error; otherwise it returns the relative class names in order, and each class's text follows the buffer left by the one before |
| ModuleBuilder.ModulePlan | lib/puppet/pops/types/ruby_generator.rb:44-65 | the error of the first failing step (unmapped type, no object type, then the first failing class), or the longest common prefix with one plan per object type |
| ModuleBuilder.SingleObjectTypeFails | lib/puppet/pops/types/ruby_generator.rb:49-65 | a batch with exactly one object type whose type is mapped fails with `EmptyClassName` for its implementation name |
| ModuleBuilder.ModuleDefinition | lib/puppet/pops/types/ruby_generator.rb:44-70 | fails with the first error of the batch; otherwise the result is the module openers for the longest common prefix, each class threaded through the buffer, and `end_module` over the alias hash and the relative class names |

## Left out

- `create_class` (lines 19-36) is left out. It evaluates the generated text
  with `class_eval` and caches classes at run time, so it needs a Ruby
  interpreter.
- `module_definition_from_typeset` (lines 38-42) is left out. It only adds a
  comment that holds the current date.
- The runtime behaviour of the generated Ruby code is not modelled. Only its
  text is.
- Text that comes from code outside the generator is an input field:
  - `TypeFormatter` renders the resolved alias types (`AliasType.typeText`)
    and the `_ptype` initialiser hash (`ObjectType.initText`);
  - `obj.hash` gives `hashText`;
  - `RubyMethod.annotate` gives the annotation text;
  - the labels of the type, its attributes and its functions give their
    `labelText` fields;
  - the rendering of a function's callable type (`#{func.type}`, line 345)
    gives `Func.typeText`;
  - `obj.class.name` at line 129 is fixed to `Puppet::Pops::Types::PObjectType`
    (`ClassEmitter.ObjectTypeClassName`);
  - the implementation registry is a map from type name to implementation
    name.
- `NAME_SEGMENT_SEPARATOR` is taken as "::".
- Attribute defaults that are not nil, a boolean, a number or a string are
  one `Structured` value. Only the branch they select is modelled, not their
  contents.
- `ClassEmitter.EmitClassHead` emits the `_plocation` method as fixed text.
  The line arithmetic (`__LINE__.to_i - 3`) is evaluated by Ruby when the
  class loads.
- Ruby exceptions are `Error` results. On an error the model keeps the text
  the source had appended before raising, but the buffer is discarded anyway.
- ModuleBuilder.ModuleDefinition ties the classes' text to the chain relation
  `Threads` over `ClassStep`, not to one closed-form string.
- ClassEmitter.ClassBody states the text of each section but not that each
  section only appends to the buffer: the model does not state growth lemmas
  over the full class text. The skip at line 168 is stated through
  `Classify.PureInheritanceIff` and the definition of `ConstructorsOnto`.
- Namespace.CommonPrefix requires at least one implementation name. On a
  batch with no object type the source calls `size` on nil at line 52, which
  `ModuleBuilder.ModuleDefinition` models as the `NoObjectTypes` error before
  it calls `CommonPrefix`.
- An annotation always has a body. A derived attribute whose annotation has a
  nil body gets the raising placeholder in the source (lines 229-231), and a
  function whose annotation has a nil body makes line 342 raise a TypeError.
  Neither path is modelled.
