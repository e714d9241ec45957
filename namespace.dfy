/** Namespace handling: stripping the active namespace from a qualified
    name, and inferring the namespace shared by a batch of names. */
module Namespace {
  import opened Text

  /** Number of leading positions on which `ns` and `segments` agree. */
  function MatchLength(ns: seq<string>, segments: seq<string>): (k: nat)
    ensures k <= |ns| && k <= |segments|
    ensures ns[..k] == segments[..k]
    ensures k < |ns| && k < |segments| ==> ns[k] != segments[k]
  {
    if ns == [] || segments == [] || ns[0] != segments[0] then 0
    else 1 + MatchLength(ns[1..], segments[1..])
  }

  /** The segments of `name` left once the longest leading run matching `ns`
      position by position is removed. */
  function Strip(ns: seq<string>, name: string): seq<string>
  {
    var segments := Split(name);
    segments[MatchLength(ns, segments)..]
  }

  /** `remove_common_namespace`: shifts matching leading segments off the
      split name, at most once per namespace segment. */
  method RemoveCommonNamespace(ns: seq<string>, name: string) returns (segments: seq<string>)
    ensures segments == Strip(ns, name)
  {
    segments := Split(name);
    ghost var all := segments;
    ghost var k := MatchLength(ns, all);
    assert forall j :: 0 <= j < k ==> ns[j] == ns[..k][j] && all[j] == all[..k][j];
    var idx := 0;
    while idx < |ns|
      invariant 0 <= idx <= k
      invariant segments == all[idx..]
    {
      if segments == [] || ns[idx] != segments[0] {
        break;
      }
      segments := segments[1..];
      idx := idx + 1;
    }
  }

  /** What `remove_common_namespace` leaves is a suffix of the split name; the
      removed part is a leading run of the namespace, no longer than it, and
      it cannot be extended; a mismatch on the first segment removes nothing. */
  lemma StripRemovesMatchingRun(ns: seq<string>, name: string)
    ensures var all, rest := Split(name), Strip(ns, name);
      var removed := |all| - |rest|;
      && 0 <= removed <= |ns|
      && all == ns[..removed] + rest
      && (removed < |ns| && rest != [] ==> ns[removed] != rest[0])
      && (ns != [] && all != [] && ns[0] != all[0] ==> rest == all)
  {
    var all := Split(name);
    var k := MatchLength(ns, all);
    assert all == all[..k] + all[k..];
  }

  /** `namespace_relative`: the stripped name joined back together. */
  method NamespaceRelative(ns: seq<string>, name: string) returns (r: string)
    ensures r == Join(Strip(ns, name))
  {
    var segments := RemoveCommonNamespace(ns, name);
    r := Join(segments);
  }

  /** A name inside the namespace loses exactly the namespace; a name whose
      first segment differs keeps all of its segments. */
  lemma StripInside(ns: seq<string>, rest: seq<string>)
    requires forall k :: 0 <= k < |ns| ==> IsSegment(ns[k])
    requires forall k :: 0 <= k < |rest| ==> IsSegment(rest[k])
    ensures Strip(ns, Join(ns + rest)) == rest
  {
    var all := ns + rest;
    assert forall k :: 0 <= k < |all| ==> IsSegment(all[k]) by {
      forall k | 0 <= k < |all| ensures IsSegment(all[k]) {
        if k < |ns| { assert all[k] == ns[k]; } else { assert all[k] == rest[k - |ns|]; }
      }
    }
    SplitJoin(all);
    MatchWholeNamespace(ns, all);
  }

  /** With a single name, the common prefix is the whole name, and stripping
      it leaves no segment. */
  lemma SingleNamePrefix(name: string)
    ensures LongestCommonPrefix(SplitAll([name])) == Split(name)
    ensures Strip(Split(name), name) == []
  {
    var segments := Split(name);
    var prefix := LongestCommonPrefix(SplitAll([name]));
    assert SplitAll([name]) == [segments];
    assert IsCommonPrefix(segments, [segments]);
    assert IsPrefix(prefix, segments) && |segments| <= |prefix|;
    MatchWholeNamespace(segments, segments);
  }

  lemma {:induction false} MatchWholeNamespace(ns: seq<string>, segments: seq<string>)
    requires IsPrefix(ns, segments)
    ensures MatchLength(ns, segments) == |ns|
  {
    if ns != [] {
      assert segments[0] == ns[0];
      assert segments[1..][..|ns| - 1] == ns[1..];
      MatchWholeNamespace(ns[1..], segments[1..]);
    }
  }

  predicate IsPrefix(p: seq<string>, s: seq<string>)
  {
    |p| <= |s| && s[..|p|] == p
  }

  /** `p` is a leading run of segments of every name. */
  predicate IsCommonPrefix(p: seq<string>, names: seq<seq<string>>)
  {
    forall k :: 0 <= k < |names| ==> IsPrefix(p, names[k])
  }

  /** Every name has segment `seg` at position `idx` (`all? { |sn| sn[idx] == seg }`,
      where a name too short yields nil and does not match). */
  predicate AllAgreeAt(names: seq<seq<string>>, idx: nat, seg: string)
  {
    forall k :: 0 <= k < |names| ==> idx < |names[k]| && names[k][idx] == seg
  }

  /** The common implementation-module prefix of `module_definition`: grown
      one segment of the first name at a time while all names agree. The
      first name must exist (the source indexes it). */
  method CommonPrefix(implNames: seq<string>) returns (prefix: seq<string>)
    requires |implNames| > 0
    ensures IsCommonPrefix(prefix, SplitAll(implNames))
    ensures forall p :: IsCommonPrefix(p, SplitAll(implNames)) ==> |p| <= |prefix|
    ensures prefix == LongestCommonPrefix(SplitAll(implNames))
  {
    var segmented := SplitAll(implNames);
    var segments := segmented[0];
    prefix := [];
    var idx := 0;
    while idx < |segments|
      invariant idx <= |segments| && prefix == segments[..idx]
      invariant IsCommonPrefix(prefix, segmented)
    {
      var segment := segments[idx];
      if !AllAgreeAt(segmented, idx, segment) {
        forall p | IsCommonPrefix(p, segmented) ensures |p| <= |prefix| {
          LongerPrefixAgrees(p, segmented, idx);
        }
        LongestIsUnique(prefix, LongestCommonPrefix(segmented), segmented);
        return;
      }
      prefix := prefix + [segment];
      idx := idx + 1;
    }
    forall p | IsCommonPrefix(p, segmented) ensures |p| <= |prefix| {
      assert IsPrefix(p, segmented[0]);
    }
    LongestIsUnique(prefix, LongestCommonPrefix(segmented), segmented);
  }

  /** A common prefix longer than `idx` forces every name to agree with the
      first one at position `idx`. */
  lemma LongerPrefixAgrees(p: seq<string>, names: seq<seq<string>>, idx: nat)
    requires |names| > 0 && IsCommonPrefix(p, names)
    ensures idx < |p| ==> idx < |names[0]| && AllAgreeAt(names, idx, names[0][idx])
  {
    if idx < |p| {
      forall k | 0 <= k < |names| ensures idx < |names[k]| && names[k][idx] == p[idx] {
        assert names[k][..|p|][idx] == p[idx];
      }
    }
  }

  /** `impl_names.map { |n| n.split(Sep) }` */
  function SplitAll(implNames: seq<string>): (r: seq<seq<string>>)
    ensures |r| == |implNames|
    ensures forall k :: 0 <= k < |r| ==> r[k] == Split(implNames[k])
  {
    seq(|implNames|, k requires 0 <= k < |implNames| => Split(implNames[k]))
  }

  /** The longest common prefix as a function of the names, for use in
      specifications: it agrees with what CommonPrefix computes. */
  function LongestCommonPrefix(names: seq<seq<string>>): (p: seq<string>)
    requires |names| > 0
    ensures IsCommonPrefix(p, names)
    ensures forall q :: IsCommonPrefix(q, names) ==> |q| <= |p|
  {
    LongestFrom(names, 0)
  }

  function LongestFrom(names: seq<seq<string>>, idx: nat): (p: seq<string>)
    requires |names| > 0 && idx <= |names[0]|
    requires IsCommonPrefix(names[0][..idx], names)
    ensures IsCommonPrefix(p, names)
    ensures forall q :: IsCommonPrefix(q, names) ==> |q| <= |p|
    decreases |names[0]| - idx
  {
    if idx == |names[0]| then
      assert forall q :: IsCommonPrefix(q, names) ==> IsPrefix(q, names[0]);
      names[0][..idx]
    else if AllAgreeAt(names, idx, names[0][idx]) then
      assert names[0][..idx + 1] == names[0][..idx] + [names[0][idx]];
      assert IsCommonPrefix(names[0][..idx + 1], names) by {
        forall k | 0 <= k < |names| ensures IsPrefix(names[0][..idx + 1], names[k]) {
          assert IsPrefix(names[0][..idx], names[k]);
          assert names[k][..idx + 1] == names[k][..idx] + [names[k][idx]];
        }
      }
      LongestFrom(names, idx + 1)
    else
      var pre := names[0][..idx];
      assert forall q :: IsCommonPrefix(q, names) ==> |q| <= |pre| by {
        forall q | IsCommonPrefix(q, names) ensures |q| <= |pre| {
          LongerPrefixAgrees(q, names, idx);
        }
      }
      pre
  }

  /** Two common prefixes of the same length are equal, so the longest one is
      unique: CommonPrefix's result is LongestCommonPrefix. */
  lemma LongestIsUnique(p: seq<string>, q: seq<string>, names: seq<seq<string>>)
    requires |names| > 0
    requires IsCommonPrefix(p, names) && IsCommonPrefix(q, names) && |p| == |q|
    ensures p == q
  {
    assert IsPrefix(p, names[0]) && IsPrefix(q, names[0]);
  }
}
