/** Rendering of attribute defaults: inline literals for nil, booleans,
    numbers and strings; a deferred lookup through `_ptype` otherwise. */
module Defaults {
  import opened Wrappers
  import opened Text
  import opened Descriptors

  /** The values `default_string` writes inline (`nil, true, false,
      Numeric, String`). */
  predicate IsLiteral(v: Value)
  {
    !v.Structured?
  }

  /** What the renderings need of a literal's `inspect` text: a number's text
      does not start with `_`, and a string's text starts with its opening
      quote. */
  predicate WellFormed(v: Value)
  {
    match v
    case Number(l) => l == "" || l[0] != '_'
    case Str(l) => l != "" && l[0] == '"'
    case _ => true
  }

  /** `value.inspect` for a literal. */
  function Inspect(v: Value): string
    requires IsLiteral(v)
  {
    match v
    case Nil => "nil"
    case Bool(b) => if b then "true" else "false"
    case Number(l) => l
    case Str(l) => l
  }

  /** Text that reads the attribute's default back from the type descriptor. */
  predicate IsLookup(t: string)
  {
    |t| >= 7 && t[..7] == "_ptype["
  }

  /** `default_string`: what `create`, `initialize` and `from_asserted_hash`
      put where an omitted argument takes its default. */
  function DefaultText(a: Attr): string
    requires a.default.Some?
  {
    var v := a.default.value;
    if IsLiteral(v) then Inspect(v) else "_ptype['" + a.name + "'].value"
  }

  /** `equals_default_string`: the test under which `i12n_hash` leaves the
      attribute out. */
  function EqualsDefaultText(a: Attr): string
    requires a.default.Some?
  {
    var v := a.default.value;
    if IsLiteral(v) then "@" + a.name + " == " + Inspect(v)
    else "_ptype['" + a.name + "'].default_value?(@" + a.name + ")"
  }

  /** Both renderings take the inline branch for exactly the same defaults,
      and the inline test compares the instance variable with exactly the
      text the default is written as. */
  lemma DefaultRenderingsAgree(a: Attr)
    requires a.default.Some? && WellFormed(a.default.value)
    ensures IsLookup(DefaultText(a)) <==> !IsLiteral(a.default.value)
    ensures IsLookup(EqualsDefaultText(a)) <==> !IsLiteral(a.default.value)
    ensures IsLiteral(a.default.value) ==> EqualsDefaultText(a) == "@" + a.name + " == " + DefaultText(a)
  {
    var v := a.default.value;
    if IsLiteral(v) {
      var t := Inspect(v);
      assert t == "" || t[0] != '_';
      var e := EqualsDefaultText(a);
      assert e[0] == '@';
    } else {
      assert DefaultText(a)[..7] == "_ptype[";
      assert EqualsDefaultText(a)[..7] == "_ptype[";
    }
  }

  /** `default_string(bld, a)` */
  method DefaultString(bld: Builder, a: Attr)
    requires a.default.Some?
    modifies bld
    ensures bld.text == old(bld.text) + DefaultText(a)
  {
    var v := a.default.value;
    if IsLiteral(v) {
      bld.Append(Inspect(v));
    } else {
      bld.Append("_ptype['" + a.name + "'].value");
    }
  }

  /** `equals_default_string(bld, a)` */
  method EqualsDefaultString(bld: Builder, a: Attr)
    requires a.default.Some?
    modifies bld
    ensures bld.text == old(bld.text) + EqualsDefaultText(a)
  {
    var v := a.default.value;
    if IsLiteral(v) {
      bld.Append("@" + a.name + " == " + Inspect(v));
    } else {
      bld.Append("_ptype['" + a.name + "'].default_value?(@" + a.name + ")");
    }
  }
}
