/** The module builder: `module_definition` and its helpers, which wrap the
    classes of a batch of types in the modules of their shared namespace and
    register the aliases and implementations with Pcore. */
module ModuleBuilder {
  import opened Wrappers
  import opened Text
  import opened Descriptors
  import opened Namespace
  import opened ClassEmitter

  // ---- partition of the batch -----------------------------------------------

  /** The object types of the batch, in order. */
  function ObjectTypes(types: seq<PType>): (r: seq<ObjectType>)
    ensures |r| <= |types|
    ensures forall o :: o in r <==> Obj(o) in types
  {
    if types == [] then []
    else (if types[0].Obj? then [types[0].obj] else []) + ObjectTypes(types[1..])
  }

  /** The remaining (alias) types of the batch, in order. */
  function AliasTypes(types: seq<PType>): (r: seq<AliasType>)
    ensures |r| <= |types|
    ensures forall a :: a in r <==> Alias(a) in types
  {
    if types == [] then []
    else (if types[0].Alias? then [types[0].alias] else []) + AliasTypes(types[1..])
  }

  /** Every type of the batch lands in exactly one of the two groups. */
  lemma {:induction false} PartitionIsComplete(types: seq<PType>)
    ensures |ObjectTypes(types)| + |AliasTypes(types)| == |types|
  {
    if types != [] {
      PartitionIsComplete(types[1..]);
    }
  }

  // ---- implementation_names -------------------------------------------------

  /** The implementation name of each object type, in order; the first type
      without a registry entry is reported. */
  function ImplementationNames(objs: seq<ObjectType>, registry: Registry): (r: Result<seq<string>, Error>)
    ensures r.Ok? <==> forall i :: 0 <= i < |objs| ==> objs[i].name in registry
    ensures r.Ok? ==> |r.value| == |objs| && forall i :: 0 <= i < |objs| ==> r.value[i] == registry[objs[i].name]
    ensures r.Err? ==> exists i :: 0 <= i < |objs| && objs[i].name !in registry && r.error == MissingMapping(objs[i].name) &&
                                   forall j :: 0 <= j < i ==> objs[j].name in registry
  {
    if objs == [] then Ok([])
    else if objs[0].name !in registry then Err(MissingMapping(objs[0].name))
    else
      match ImplementationNames(objs[1..], registry)
      case Err(e) =>
        assert forall i :: 1 <= i < |objs| ==> objs[i] == objs[1..][i - 1];
        Err(e)
      case Ok(rest) =>
        assert forall i :: 1 <= i < |objs| ==> objs[i] == objs[1..][i - 1];
        Ok([registry[objs[0].name]] + rest)
  }

  // ---- the alias hash -------------------------------------------------------

  /** A Ruby hash with string keys, as its ordered list of entries. */
  type Entries = seq<(string, string)>

  function Keys(h: Entries): (r: seq<string>)
    ensures |r| == |h| && forall i :: 0 <= i < |h| ==> r[i] == h[i].0
  {
    seq(|h|, i requires 0 <= i < |h| => h[i].0)
  }

  predicate Distinct(s: seq<string>)
  {
    forall i, j :: 0 <= i < j < |s| ==> s[i] != s[j]
  }

  /** `h[k] = v`: an existing key keeps its position and takes the new value,
      a new key goes last. */
  function Store(h: Entries, k: string, v: string): (r: Entries)
    requires Distinct(Keys(h))
    ensures Distinct(Keys(r))
    ensures k in Keys(h) ==> |r| == |h| && forall i :: 0 <= i < |h| ==> r[i] == (if h[i].0 == k then (k, v) else h[i])
    ensures k !in Keys(h) ==> r == h + [(k, v)]
  {
    if k in Keys(h) then
      var r := seq(|h|, i requires 0 <= i < |h| => if h[i].0 == k then (k, v) else h[i]);
      assert Keys(r) == Keys(h);
      r
    else
      var r := h + [(k, v)];
      assert Keys(r) == Keys(h) + [k];
      r
  }

  /** `Hash[aliased_types.map { |type| [type.name, type.resolved_type] }]`. */
  function AliasHash(aliases: seq<AliasType>): (r: Entries)
    ensures Distinct(Keys(r))
    decreases |aliases|
  {
    if aliases == [] then []
    else
      var last := aliases[|aliases| - 1];
      Store(AliasHash(aliases[..|aliases| - 1]), last.name, last.typeText)
  }

  /** No later alias has the name of alias `j`. */
  ghost predicate IsLastOfName(aliases: seq<AliasType>, j: int)
  {
    0 <= j < |aliases| && forall m :: j < m < |aliases| ==> aliases[m].name != aliases[j].name
  }

  /** Entry `e` is the name and text of the last alias of that name. */
  ghost predicate FromLastAlias(aliases: seq<AliasType>, e: (string, string))
  {
    exists j :: IsLastOfName(aliases, j) && aliases[j].name == e.0 && aliases[j].typeText == e.1
  }

  /** The alias hash has an entry for every alias name. */
  lemma {:induction false} AliasHashCoversNames(aliases: seq<AliasType>)
    ensures forall a :: a in aliases ==> a.name in Keys(AliasHash(aliases))
    decreases |aliases|
  {
    if aliases != [] {
      var n := |aliases| - 1;
      var init := aliases[..n];
      var last := aliases[n];
      AliasHashCoversNames(init);
      var h := AliasHash(init);
      var r := Store(h, last.name, last.typeText);
      assert AliasHash(aliases) == r;
      forall a | a in aliases
        ensures a.name in Keys(r)
      {
        if a == last {
          if last.name in Keys(h) {
            var p :| 0 <= p < |h| && h[p].0 == last.name;
            assert r[p].0 == a.name;
          } else {
            assert r[|h|].0 == a.name;
          }
        } else {
          assert a in init;
          var p :| 0 <= p < |h| && h[p].0 == a.name;
          assert r[p].0 == a.name;
        }
      }
    }
  }

  /** Each entry of the alias hash holds the text of the last alias of its
      name: a later alias overrides an earlier one. */
  lemma {:induction false} AliasHashLastWins(aliases: seq<AliasType>)
    ensures forall i :: 0 <= i < |AliasHash(aliases)| ==> FromLastAlias(aliases, AliasHash(aliases)[i])
    decreases |aliases|
  {
    if aliases != [] {
      var n := |aliases| - 1;
      AliasHashLastWins(aliases[..n]);
      StoreKeepsLastWins(aliases[..n], aliases[n], AliasHash(aliases[..n]));
      assert aliases[..n] + [aliases[n]] == aliases;
    }
  }

  /** Storing one more alias keeps every entry tied to the last alias of its
      name. */
  lemma StoreKeepsLastWins(init: seq<AliasType>, last: AliasType, h: Entries)
    requires Distinct(Keys(h))
    requires forall k :: 0 <= k < |h| ==> FromLastAlias(init, h[k])
    ensures forall i :: 0 <= i < |Store(h, last.name, last.typeText)| ==>
      FromLastAlias(init + [last], Store(h, last.name, last.typeText)[i])
  {
    var r := Store(h, last.name, last.typeText);
    var aliases := init + [last];
    forall i | 0 <= i < |r|
      ensures FromLastAlias(aliases, r[i])
    {
      if r[i].0 == last.name {
        assert IsLastOfName(aliases, |init|);
        assert aliases[|init|].name == r[i].0 && aliases[|init|].typeText == r[i].1;
      } else {
        assert i < |h| && r[i] == h[i];
        var j :| IsLastOfName(init, j) && init[j].name == h[i].0 && init[j].typeText == h[i].1;
        assert aliases[j] == init[j];
        assert IsLastOfName(aliases, j);
      }
    }
  }

  // ---- start_module / end_module --------------------------------------------

  /** `start_module`: the comment line and one `module` line per prefix
      segment. */
  function StartModuleOnto(t: string, prefix: seq<string>, comment: string): string
  {
    t + "# " + comment + "\n" + Concat(ModuleLines(prefix))
  }

  method StartModule(bld: Builder, prefix: seq<string>, comment: string)
    modifies bld
    ensures bld.text == StartModuleOnto(old(bld.text), prefix, comment)
  {
    bld.Append("# "); bld.Append(comment); bld.Append("\n");
    bld.AppendAll(ModuleLines(prefix));
  }

  const AliasesHead: string := "Puppet::Pops::Pcore.register_aliases({\n"
  const ImplementationsHead: string := "Puppet::Pops::Pcore.register_implementations([\n"

  function AliasLine(e: (string, string)): string
  {
    "  '" + e.0 + "' => " + e.1 + "\n"
  }

  function AliasLines(h: Entries): (r: seq<string>)
    ensures |r| == |h| && forall i :: 0 <= i < |h| ==> r[i] == AliasLine(h[i])
  {
    seq(|h|, i requires 0 <= i < |h| => AliasLine(h[i]))
  }

  function ImplLines(names: seq<string>): (r: seq<string>)
    ensures |r| == |names| && forall i :: 0 <= i < |names| ==> r[i] == "  " + names[i]
  {
    seq(|names|, i requires 0 <= i < |names| => "  " + names[i])
  }

  /** The `register_aliases` block (lines 80-85), including its `chomp!`. */
  function AliasBlockOnto(t: string, h: Entries): string
  {
    if h == [] then t
    else Chomp(t + AliasesHead + Concat(AliasLines(h)), ",\n") + "})\n\n"
  }

  /** The `register_implementations` block (lines 88-93). */
  function ImplBlockOnto(t: string, names: seq<string>): string
  {
    if names == [] then t
    else Chomp(t + ImplementationsHead + Terminated(ImplLines(names), ",\n"), ",\n") + "])\n\n"
  }

  /** `end_module`: the two blocks, the last newline dropped, and one `end`
      per prefix segment. */
  function EndModuleOnto(t: string, prefix: seq<string>, h: Entries, classNames: seq<string>): string
  {
    ChompNewline(ImplBlockOnto(AliasBlockOnto(t, h), classNames)) + Concat(Ends(|prefix|))
  }

  method EndModule(bld: Builder, prefix: seq<string>, h: Entries, classNames: seq<string>)
    modifies bld
    ensures bld.text == EndModuleOnto(old(bld.text), prefix, h, classNames)
  {
    if h != [] {
      bld.Append(AliasesHead);
      bld.AppendAll(AliasLines(h));
      bld.TrimSuffix(",\n");
      bld.Append("})\n\n");
    }
    if classNames != [] {
      bld.Append(ImplementationsHead);
      bld.AppendTerminated(ImplLines(classNames), ",\n");
      bld.TrimSuffix(",\n");
      bld.Append("])\n\n");
    }
    bld.TrimNewline();
    bld.AppendAll(Ends(|prefix|));
  }

  /** The alias lines carry no comma, so the alias block's `chomp!(",\n")`
      removes nothing unless the last rendered type itself ends in one. */
  lemma AliasChompIsNoOp(t: string, h: Entries)
    requires h != [] && !EndsWith(h[|h| - 1].1, ",")
    ensures AliasBlockOnto(t, h) == t + AliasesHead + Concat(AliasLines(h)) + "})\n\n"
  {
    var lines := AliasLines(h);
    var e := h[|h| - 1];
    var s := t + AliasesHead + Concat(lines);
    assert lines[..|lines| - 1] + [lines[|lines| - 1]] == lines;
    assert Concat(lines) == Concat(lines[..|lines| - 1]) + AliasLine(e);
    var w := t + AliasesHead + Concat(lines[..|lines| - 1]) + "  '" + e.0 + "' => ";
    assert s == w + e.1 + "\n";
    assert s[|s| - 1] == '\n';
    if |e.1| == 0 {
      assert s[|s| - 2] == ' ';
    } else {
      assert s[|s| - 2] == e.1[|e.1| - 1];
    }
    assert !EndsWith(s, ",\n");
  }

  /** The implementations block lists every class name on its own line,
      separated by commas, with no comma after the last. */
  lemma ImplementationsAreListed(t: string, names: seq<string>)
    requires names != []
    ensures ImplBlockOnto(t, names) == t + ImplementationsHead + JoinWith(ImplLines(names), ",\n") + "])\n\n"
  {
    var lines := ImplLines(names);
    assert |Terminated(lines, ",\n")| >= 2;
    ChompAppend(t + ImplementationsHead, Terminated(lines, ",\n"), ",\n");
    ChompTerminatedIsJoin(lines, ",\n");
  }

  /** `n` closing lines are `4 * n` characters, four per `end\n`. */
  lemma {:induction false} EndsAreLines(n: nat)
    ensures |Concat(Ends(n))| == 4 * n
    ensures forall k :: 0 <= k < n ==> Concat(Ends(n))[4 * k..4 * k + 4] == "end\n"
  {
    if n > 0 {
      EndsAreLines(n - 1);
      assert Ends(n)[..n - 1] == Ends(n - 1);
      var c := Concat(Ends(n));
      assert c == Concat(Ends(n - 1)) + "end\n";
      forall k | 0 <= k < n
        ensures c[4 * k..4 * k + 4] == "end\n"
      {
        if k < n - 1 {
          assert c[4 * k..4 * k + 4] == Concat(Ends(n - 1))[4 * k..4 * k + 4];
        }
      }
    }
  }

  /** A text followed by `n` closing lines ends in `n` copies of `end\n`. */
  lemma EndsAtTail(u: string, n: nat)
    ensures var r := u + Concat(Ends(n));
      |r| >= 4 * n &&
      forall k :: 0 <= k < n ==> r[|r| - 4 * n + 4 * k..|r| - 4 * n + 4 * k + 4] == "end\n"
  {
    EndsAreLines(n);
    var e := Concat(Ends(n));
    var r := u + e;
    forall k | 0 <= k < n
      ensures r[|r| - 4 * n + 4 * k..|r| - 4 * n + 4 * k + 4] == "end\n"
    {
      assert r[|u| + 4 * k..|u| + 4 * k + 4] == e[4 * k..4 * k + 4];
    }
  }

  /** `end_module` closes exactly one module per prefix segment. */
  lemma EndModuleClosesPrefix(t: string, prefix: seq<string>, h: Entries, classNames: seq<string>)
    ensures var r := EndModuleOnto(t, prefix, h, classNames);
      |r| >= 4 * |prefix| &&
      forall k :: 0 <= k < |prefix| ==> r[|r| - 4 * |prefix| + 4 * k..|r| - 4 * |prefix| + 4 * k + 4] == "end\n"
  {
    EndsAtTail(ChompNewline(ImplBlockOnto(AliasBlockOnto(t, h), classNames)), |prefix|);
  }

  // ---- module_definition ----------------------------------------------------

  /** What `class_definition` needs to know about one object type before it
      emits text: the class name relative to the namespace (never empty), the
      segments of the whole class name, and the parent's implementation name,
      if the type has a parent. */
  datatype Plan = Plan(obj: ObjectType, relative: seq<string>, segments: seq<string>, parentImpl: Option<string>)

  /** The plan for one class, or the error `class_definition` stops with. */
  function PlanFor(o: ObjectType, prefix: seq<string>, className: string, registry: Registry): (r: Result<Plan, Error>)
    ensures r.Ok? ==> r.value.obj == o && r.value.segments == Split(className) && r.value.relative == Strip(prefix, className) &&
                      r.value.relative != [] && ParentImpl(o, registry) == Ok(r.value.parentImpl)
    ensures r.Err? <==> Strip(prefix, className) == [] || ParentImpl(o, registry).Err?
  {
    var relative := Strip(prefix, className);
    if relative == [] then Err(EmptyClassName(className))
    else
      match ParentImpl(o, registry)
      case Err(e) => Err(e)
      case Ok(parentImpl) => Ok(Plan(o, relative, Split(className), parentImpl))
  }

  /** `PlanFor` with the namespace and the registry fixed. */
  function Planner(prefix: seq<string>, registry: Registry): (ObjectType, string) -> Result<Plan, Error>
  {
    (o: ObjectType, className: string) => PlanFor(o, prefix, className, registry)
  }

  /** The plans of a batch, in order; the first failing class ends the batch. */
  function Plans(objs: seq<ObjectType>, names: seq<string>, plan: (ObjectType, string) -> Result<Plan, Error>)
    : (r: Result<seq<Plan>, Error>)
    requires |names| == |objs|
    ensures r.Ok? ==> (|r.value| == |objs| &&
      forall i :: 0 <= i < |objs| ==> plan(objs[i], names[i]) == Ok(r.value[i]))
    decreases |objs|
  {
    if objs == [] then Ok([])
    else
      var n := |objs| - 1;
      match Plans(objs[..n], names[..n], plan)
      case Err(e) => Err(e)
      case Ok(ps) =>
        match plan(objs[n], names[n])
        case Err(e) => Err(e)
        case Ok(p) =>
          assert forall i :: 0 <= i < n ==> objs[..n][i] == objs[i] && names[..n][i] == names[i];
          Ok(ps + [p])
  }

  /** A batch fails exactly when one of its classes does, and with the error
      of the first class that fails. */
  lemma {:induction false} PlansFailAtFirstError(objs: seq<ObjectType>, names: seq<string>,
                                                  plan: (ObjectType, string) -> Result<Plan, Error>)
    requires |names| == |objs|
    ensures Plans(objs, names, plan).Ok? <==> forall i :: 0 <= i < |objs| ==> plan(objs[i], names[i]).Ok?
    ensures Plans(objs, names, plan).Err? ==>
      exists i :: 0 <= i < |objs| && plan(objs[i], names[i]) == Err(Plans(objs, names, plan).error) &&
        forall j :: 0 <= j < i ==> plan(objs[j], names[j]).Ok?
    decreases |objs|
  {
    if objs != [] {
      var n := |objs| - 1;
      PlansFailAtFirstError(objs[..n], names[..n], plan);
      assert forall i :: 0 <= i < n ==> objs[..n][i] == objs[i] && names[..n][i] == names[i];
    }
  }

  /** Once a prefix of the batch fails, the batch fails with the same error. */
  lemma {:induction false} PlansStopAtError(objs: seq<ObjectType>, names: seq<string>,
                                             plan: (ObjectType, string) -> Result<Plan, Error>, k: nat)
    requires |names| == |objs| && k <= |objs|
    requires Plans(objs[..k], names[..k], plan).Err?
    ensures Plans(objs, names, plan) == Plans(objs[..k], names[..k], plan)
    decreases |objs| - k
  {
    if k < |objs| {
      var n := |objs| - 1;
      assert objs[..n][..k] == objs[..k] && names[..n][..k] == names[..k];
      PlansStopAtError(objs[..n], names[..n], plan, k);
    } else {
      assert objs[..k] == objs && names[..k] == names;
    }
  }

  /** One more class: the batch grows by its plan, or stops with its error. */
  lemma PlansStep(objs: seq<ObjectType>, names: seq<string>, plan: (ObjectType, string) -> Result<Plan, Error>,
                  i: nat, ps: seq<Plan>)
    requires |names| == |objs| && i < |objs| && Plans(objs[..i], names[..i], plan) == Ok(ps)
    ensures plan(objs[i], names[i]).Ok? ==>
      Plans(objs[..i + 1], names[..i + 1], plan) == Ok(ps + [plan(objs[i], names[i]).value])
    ensures plan(objs[i], names[i]).Err? ==>
      Plans(objs, names, plan) == Err(plan(objs[i], names[i]).error)
  {
    var objs', names' := objs[..i + 1], names[..i + 1];
    assert |objs'| == i + 1 && objs'[..i] == objs[..i] && names'[..i] == names[..i];
    assert objs'[i] == objs[i] && names'[i] == names[i];
    var r := plan(objs[i], names[i]);
    if r.Ok? {
      assert Plans(objs', names', plan) == Ok(ps + [r.value]);
    } else {
      assert Plans(objs', names', plan) == Err(r.error);
      PlansStopAtError(objs, names, plan, i + 1);
    }
  }

  /** The names the plans register: each class name relative to the prefix. */
  function RelativeNames(plans: seq<Plan>): (r: seq<string>)
    ensures |r| == |plans| && forall i :: 0 <= i < |plans| ==> r[i] == Join(plans[i].relative)
  {
    seq(|plans|, i requires 0 <= i < |plans| => Join(plans[i].relative))
  }

  lemma RelativeNamesSnoc(plans: seq<Plan>, p: Plan)
    ensures RelativeNames(plans + [p]) == RelativeNames(plans) + [Join(p.relative)]
  {
    var l, r := RelativeNames(plans + [p]), RelativeNames(plans) + [Join(p.relative)];
    assert |l| == |r|;
    forall i | 0 <= i < |l| ensures l[i] == r[i] {
      if i < |plans| {
        assert (plans + [p])[i] == plans[i];
      }
    }
  }

  /** One step of the loop: the class definition of `p`, then a blank line. */
  function ClassStep(t: string, p: Plan): string
  {
    if p.relative == [] then t
    else ClassDefinitionOnto(t, p.obj, p.relative, p.segments, p.parentImpl) + "\n"
  }

  /** `bufs` are the successive states of the buffer while `step` runs over
      `plans`. */
  ghost predicate Threads(bufs: seq<string>, plans: seq<Plan>, step: (string, Plan) -> string)
  {
    |bufs| == |plans| + 1 && forall i :: 0 <= i < |plans| ==> StepsAt(bufs, plans, step, i)
  }

  /** The buffer after the `i`-th plan is `step` applied to the one before. */
  ghost predicate StepsAt(bufs: seq<string>, plans: seq<Plan>, step: (string, Plan) -> string, i: nat)
    requires i < |plans| && |bufs| == |plans| + 1
  {
    bufs[i + 1] == step(bufs[i], plans[i])
  }

  /** The buffer states are determined by the first one. */
  lemma ThreadsAreUnique(b1: seq<string>, b2: seq<string>, plans: seq<Plan>, step: (string, Plan) -> string)
    requires Threads(b1, plans, step) && Threads(b2, plans, step) && b1[0] == b2[0]
    ensures b1 == b2
  {
    var k := 0;
    while k < |plans|
      invariant 0 <= k <= |plans| && b1[..k + 1] == b2[..k + 1]
    {
      assert b1[k] == b2[k];
      assert StepsAt(b1, plans, step, k) && StepsAt(b2, plans, step, k);
      assert b1[..k + 2] == b1[..k + 1] + [b1[k + 1]];
      assert b2[..k + 2] == b2[..k + 1] + [b2[k + 1]];
      k := k + 1;
    }
    assert b1 == b1[..k + 1] && b2 == b2[..k + 1];
  }

  lemma ThreadsSnoc(bufs: seq<string>, plans: seq<Plan>, step: (string, Plan) -> string, last: string, p: Plan, b: string)
    requires Threads(bufs, plans, step) && last == bufs[|plans|] && b == step(last, p)
    ensures Threads(bufs + [b], plans + [p], step)
  {
    var bufs', plans' := bufs + [b], plans + [p];
    forall i | 0 <= i < |plans'|
      ensures StepsAt(bufs', plans', step, i)
    {
      if i < |plans| {
        assert StepsAt(bufs, plans, step, i);
        assert plans'[i] == plans[i] && bufs'[i] == bufs[i] && bufs'[i + 1] == bufs[i + 1];
      }
    }
  }

  /** One iteration of `module_definition`'s loop: the class definition and
      the blank line after it. */
  method EmitClass(bld: Builder, o: ObjectType, prefix: seq<string>, className: string, registry: Registry)
    returns (r: Result<string, Error>, ghost p: Plan)
    modifies bld
    ensures PlanFor(o, prefix, className, registry).Err? ==> r == Err(PlanFor(o, prefix, className, registry).error)
    ensures PlanFor(o, prefix, className, registry).Ok? ==>
      PlanFor(o, prefix, className, registry) == Ok(p) && r == Ok(Join(p.relative)) && bld.text == ClassStep(old(bld.text), p)
  {
    r := ClassDefinition(bld, o, prefix, className, registry);
    if r.Err? {
      return r, Plan(o, [], [], None);
    }
    bld.Append("\n");
    p := PlanFor(o, prefix, className, registry).value;
  }

  /** One pass of `module_definition`'s loop, stated over the whole batch:
      the batch's plans and buffer states grow by one, or the batch fails
      with this class's error. */
  method EmitNext(bld: Builder, objs: seq<ObjectType>, prefix: seq<string>, names: seq<string>, registry: Registry,
                  i: nat, ghost plans: seq<Plan>, ghost bufs: seq<string>)
    returns (r: Result<string, Error>, ghost plans': seq<Plan>, ghost bufs': seq<string>)
    requires |names| == |objs| && i < |objs|
    requires Plans(objs[..i], names[..i], Planner(prefix, registry)) == Ok(plans)
    requires Threads(bufs, plans, ClassStep) && bufs[i] == bld.text
    modifies bld
    ensures r.Err? ==> Plans(objs, names, Planner(prefix, registry)) == Err(r.error)
    ensures r.Ok? ==>
      Plans(objs[..i + 1], names[..i + 1], Planner(prefix, registry)) == Ok(plans') &&
      RelativeNames(plans') == RelativeNames(plans) + [r.value] &&
      Threads(bufs', plans', ClassStep) && bufs' == bufs + [bld.text]
  {
    ghost var planner := Planner(prefix, registry);
    PlansStep(objs, names, planner, i, plans);
    assert planner(objs[i], names[i]) == PlanFor(objs[i], prefix, names[i], registry);
    ghost var before := bld.text;
    ghost var p;
    r, p := EmitClass(bld, objs[i], prefix, names[i], registry);
    if r.Err? {
      return r, plans, bufs;
    }
    ThreadsSnoc(bufs, plans, ClassStep, before, p, bld.text);
    RelativeNamesSnoc(plans, p);
    plans', bufs' := plans + [p], bufs + [bld.text];
  }

  /** The loop of `module_definition` over the object types. */
  method EmitClasses(bld: Builder, objs: seq<ObjectType>, prefix: seq<string>, names: seq<string>, registry: Registry)
    returns (r: Result<seq<string>, Error>, ghost bufs: seq<string>)
    requires |names| == |objs|
    modifies bld
    ensures var plans := Plans(objs, names, Planner(prefix, registry));
      if plans.Err? then r == Err(plans.error)
      else r == Ok(RelativeNames(plans.value)) && Threads(bufs, plans.value, ClassStep) &&
           bufs[0] == old(bld.text) && bld.text == bufs[|objs|]
  {
    ghost var plans: seq<Plan> := [];
    bufs := [bld.text];
    var classNames := [];
    var i := 0;
    while i < |objs|
      invariant 0 <= i <= |objs|
      invariant Plans(objs[..i], names[..i], Planner(prefix, registry)) == Ok(plans)
      invariant Threads(bufs, plans, ClassStep) && bufs[0] == old(bld.text) && bufs[i] == bld.text
      invariant classNames == RelativeNames(plans)
    {
      var className;
      className, plans, bufs := EmitNext(bld, objs, prefix, names, registry, i, plans, bufs);
      if className.Err? {
        return Err(className.error), bufs;
      }
      classNames := classNames + [className.value];
      i := i + 1;
    }
    assert objs[..i] == objs && names[..i] == names;
    r := Ok(classNames);
  }

  /** What the batch yields before any text is emitted: the implementation
      names' common prefix and the class plans, or the error generation stops
      with. */
  function ModulePlan(types: seq<PType>, registry: Registry): Result<(seq<string>, seq<Plan>), Error>
  {
    var objs := ObjectTypes(types);
    match ImplementationNames(objs, registry)
    case Err(e) => Err(e)
    case Ok(names) =>
      if names == [] then Err(NoObjectTypes)
      else
        var prefix := LongestCommonPrefix(SplitAll(names));
        match Plans(objs, names, Planner(prefix, registry))
        case Err(e) => Err(e)
        case Ok(plans) => Ok((prefix, plans))
  }

  /** A batch of one class fails exactly with that class's error. */
  lemma PlansOfOne(o: ObjectType, name: string, plan: (ObjectType, string) -> Result<Plan, Error>)
    requires plan(o, name).Err?
    ensures Plans([o], [name], plan) == Err(plan(o, name).error)
  {
    assert [o][..0] == [] && [name][..0] == [];
  }

  /** A batch with a single object type cannot be generated: the common
      prefix is that type's whole implementation name, so no segment is left
      for the class name. */
  lemma SingleObjectTypeFails(types: seq<PType>, o: ObjectType, registry: Registry)
    requires ObjectTypes(types) == [o] && o.name in registry
    ensures ModulePlan(types, registry) == Err(EmptyClassName(registry[o.name]))
  {
    var name := registry[o.name];
    var names := ImplementationNames([o], registry);
    assert names.Ok? && names.value == [name];
    SingleNamePrefix(name);
    var prefix := Split(name);
    assert PlanFor(o, prefix, name, registry) == Err(EmptyClassName(name));
    assert Planner(prefix, registry)(o, name) == PlanFor(o, prefix, name, registry);
    PlansOfOne(o, name, Planner(prefix, registry));
  }

  /** `module_definition(types, comment)`: the comment and module openers,
      one class definition per object type threaded through the buffer, and
      the registrations and module ends. */
  method ModuleDefinition(types: seq<PType>, comment: string, registry: Registry)
    returns (r: Result<string, Error>, ghost bufs: seq<string>)
    ensures var plan := ModulePlan(types, registry);
      if plan.Err? then r == Err(plan.error)
      else
        var (prefix, plans) := plan.value;
        Threads(bufs, plans, ClassStep) && bufs[0] == StartModuleOnto("", prefix, comment) &&
        r == Ok(EndModuleOnto(bufs[|plans|], prefix, AliasHash(AliasTypes(types)), RelativeNames(plans)))
  {
    bufs := [];
    var objs := ObjectTypes(types);
    var implNames := ImplementationNames(objs, registry);
    if implNames.Err? {
      return Err(implNames.error), bufs;
    }
    var names := implNames.value;
    if names == [] {
      return Err(NoObjectTypes), bufs;
    }
    var prefix := CommonPrefix(names);
    var bld := new Builder();
    StartModule(bld, prefix, comment);
    var classNames;
    classNames, bufs := EmitClasses(bld, objs, prefix, names, registry);
    if classNames.Err? {
      return Err(classNames.error), bufs;
    }
    var aliases := AliasHash(AliasTypes(types));
    EndModule(bld, prefix, aliases, classNames.value);
    r := Ok(bld.text);
  }
}
