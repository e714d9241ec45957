/** Ruby string operations the generator relies on: `chomp!`, `split` and
    `join` with the name-segment separator, and the shared output buffer. */
module Text {

  /** The name-segment separator of Puppet's type formatter. */
  const Sep: string := "::"

  predicate EndsWith(s: string, suffix: string)
  {
    |suffix| <= |s| && s[|s| - |suffix|..] == suffix
  }

  /** `s.chomp(suffix)` for a separator other than "\n": drops `suffix`
      once if `s` ends with it. */
  function Chomp(s: string, suffix: string): (r: string)
    ensures EndsWith(s, suffix) ==> s == r + suffix
    ensures !EndsWith(s, suffix) ==> r == s
  {
    if EndsWith(s, suffix) then s[..|s| - |suffix|] else s
  }

  /** `s.chomp("\n")`: Ruby treats the line separator specially and drops a
      trailing "\r\n", "\n" or "\r". */
  function ChompNewline(s: string): (r: string)
    ensures EndsWith(s, "\r\n") ==> s == r + "\r\n"
    ensures !EndsWith(s, "\r\n") && (EndsWith(s, "\n") || EndsWith(s, "\r")) ==> |r| + 1 == |s| && r == s[..|s| - 1]
    ensures !EndsWith(s, "\n") && !EndsWith(s, "\r") ==> r == s
  {
    if EndsWith(s, "\r\n") then s[..|s| - 2]
    else if EndsWith(s, "\n") || EndsWith(s, "\r") then s[..|s| - 1]
    else s
  }

  /** Chomping only looks at the tail: once the appended part is at least as
      long as the suffix, what came before it is untouched. */
  lemma ChompAppend(prefix: string, s: string, suffix: string)
    requires |suffix| <= |s|
    ensures Chomp(prefix + s, suffix) == prefix + Chomp(s, suffix)
  {
    var t := prefix + s;
    assert t[|t| - |suffix|..] == s[|s| - |suffix|..];
    if EndsWith(s, suffix) {
      assert t[..|t| - |suffix|] == prefix + s[..|s| - |suffix|];
    }
  }

  /** Concatenation of `items`, each followed by `sep`; the shape a Ruby
      `each { bld << item << sep }` loop leaves. */
  function Terminated(items: seq<string>, sep: string): (r: string)
    ensures items == [] ==> r == ""
  {
    if items == [] then "" else Terminated(items[..|items| - 1], sep) + items[|items| - 1] + sep
  }

  /** Plain concatenation of `parts`, in order. */
  function Concat(parts: seq<string>): (r: string)
    ensures parts == [] ==> r == ""
  {
    if parts == [] then "" else Concat(parts[..|parts| - 1]) + parts[|parts| - 1]
  }

  lemma {:induction false} ConcatAppend(a: seq<string>, b: seq<string>)
    ensures Concat(a + b) == Concat(a) + Concat(b)
    decreases |b|
  {
    if b == [] {
      assert a + b == a;
    } else {
      assert (a + b)[..|a + b| - 1] == a + b[..|b| - 1];
      ConcatAppend(a, b[..|b| - 1]);
    }
  }

  lemma {:induction false} ConcatStartsWithFirst(parts: seq<string>)
    requires parts != []
    ensures parts[0] <= Concat(parts)
    decreases |parts|
  {
    if |parts| > 1 {
      ConcatStartsWithFirst(parts[..|parts| - 1]);
    }
  }

  lemma {:induction false} TerminatedAppend(a: seq<string>, b: seq<string>, sep: string)
    ensures Terminated(a + b, sep) == Terminated(a, sep) + Terminated(b, sep)
    decreases |b|
  {
    if b == [] {
      assert a + b == a;
    } else {
      assert (a + b)[..|a + b| - 1] == a + b[..|b| - 1];
      TerminatedAppend(a, b[..|b| - 1], sep);
    }
  }

  /** `items.join(sep)`. */
  function JoinWith(items: seq<string>, sep: string): (r: string)
    ensures items == [] ==> r == ""
    ensures |items| == 1 ==> r == items[0]
  {
    if items == [] then ""
    else if |items| == 1 then items[0]
    else JoinWith(items[..|items| - 1], sep) + sep + items[|items| - 1]
  }

  /** Appending `item + sep` per item and then chomping `sep` once yields the
      joined list: the idiom behind every trimmed list the generator emits. */
  lemma {:induction false} ChompTerminatedIsJoin(items: seq<string>, sep: string)
    requires items != []
    ensures Chomp(Terminated(items, sep), sep) == JoinWith(items, sep)
  {
    var t := Terminated(items, sep);
    var last := items[|items| - 1];
    assert t == Terminated(items[..|items| - 1], sep) + last + sep;
    assert EndsWith(t, sep);
    assert Chomp(t, sep) == Terminated(items[..|items| - 1], sep) + last;
    if |items| > 1 {
      var init := items[..|items| - 1];
      ChompTerminatedIsJoin(init, sep);
      var ti := Terminated(init, sep);
      assert ti == Chomp(ti, sep) + sep;
      assert Chomp(t, sep) == JoinWith(init, sep) + sep + last;
    }
  }

  /** Two lists emitted one after the other behind a fixed head, then trimmed
      once: the head followed by both lists joined. */
  lemma ChompTwoLists(head: string, a: seq<string>, b: seq<string>, sep: string)
    requires a + b != [] && |sep| <= |head|
    ensures Chomp(head + Terminated(a, sep) + Terminated(b, sep), sep) == head + JoinWith(a + b, sep)
  {
    var ab, ta, tb := a + b, Terminated(a, sep), Terminated(b, sep);
    ConcatAssoc(head, ta, tb);
    TerminatedAppend(a, b, sep);
    TerminatedLength(ab, sep);
    ChompAppend(head, ta + tb, sep);
    ChompTerminatedIsJoin(ab, sep);
  }

  lemma ConcatAssoc(x: string, y: string, z: string)
    ensures x + y + z == x + (y + z)
  {
  }

  lemma TerminatedLength(items: seq<string>, sep: string)
    requires items != []
    ensures |sep| <= |Terminated(items, sep)|
  {
    assert Terminated(items, sep) == Terminated(items[..|items| - 1], sep) + items[|items| - 1] + sep;
  }

  /** Ruby `String#split` with a string pattern, before trailing empty
      fields are dropped: fields between leftmost non-overlapping matches. */
  function Fields(s: string): (r: seq<string>)
    ensures |r| > 0
    decreases |s|
  {
    if |s| < |Sep| then [s]
    else if s[..|Sep|] == Sep then [""] + Fields(s[|Sep|..])
    else
      var rest := Fields(s[1..]);
      [[s[0]] + rest[0]] + rest[1..]
  }

  function DropTrailingEmpty(fields: seq<string>): (r: seq<string>)
    ensures |r| <= |fields| && r == fields[..|r|]
    ensures r == [] || r[|r| - 1] != ""
  {
    if fields == [] || fields[|fields| - 1] != "" then fields
    else DropTrailingEmpty(fields[..|fields| - 1])
  }

  /** `name.split(Sep)`. */
  function Split(name: string): seq<string>
  {
    DropTrailingEmpty(Fields(name))
  }

  /** `segments.join(Sep)`. */
  function Join(segments: seq<string>): string
  {
    JoinWith(segments, Sep)
  }

  /** A name segment as Ruby module names have it: not empty and free of ':'. */
  predicate IsSegment(w: string)
  {
    w != "" && forall i :: 0 <= i < |w| ==> w[i] != ':'
  }

  lemma {:induction false} FieldsOfSegment(w: string)
    requires forall i :: 0 <= i < |w| ==> w[i] != ':'
    ensures Fields(w) == [w]
    decreases |w|
  {
    if |w| >= |Sep| {
      assert w[0] != ':';
      assert w[..|Sep|] != Sep;
      FieldsOfSegment(w[1..]);
      assert [w[0]] + w[1..] == w;
    }
  }

  lemma {:induction false} FieldsOfSegmentThen(w: string, rest: string)
    requires forall i :: 0 <= i < |w| ==> w[i] != ':'
    ensures Fields(w + Sep + rest) == [w] + Fields(rest)
    decreases |w|
  {
    var s := w + Sep + rest;
    if w == [] {
      assert s[..|Sep|] == Sep;
      assert s[|Sep|..] == rest;
    } else {
      assert s[0] == w[0] && s[0] != ':';
      assert s[..|Sep|] != Sep;
      assert s[1..] == w[1..] + Sep + rest;
      FieldsOfSegmentThen(w[1..], rest);
      assert [w[0]] + w[1..] == w;
    }
  }

  lemma {:induction false} FieldsOfJoin(segments: seq<string>)
    requires segments != []
    requires forall k :: 0 <= k < |segments| ==> IsSegment(segments[k])
    ensures Fields(Join(segments)) == segments
    decreases |segments|
  {
    if |segments| == 1 {
      FieldsOfSegment(segments[0]);
    } else {
      var tail := segments[1..];
      FieldsOfJoin(tail);
      JoinCons(segments);
      FieldsOfSegmentThen(segments[0], Join(tail));
    }
  }

  /** Joining from the front: the head, the separator, the joined rest. */
  lemma {:induction false} JoinCons(segments: seq<string>)
    requires |segments| > 1
    ensures Join(segments) == segments[0] + Sep + Join(segments[1..])
    decreases |segments|
  {
    var n := |segments|;
    if n > 2 {
      JoinCons(segments[..n - 1]);
      assert segments[..n - 1][1..] == segments[1..][..n - 2];
    } else {
      assert segments[1..] == [segments[1]];
    }
  }

  /** Splitting a joined list of well-formed segments gives the segments back. */
  lemma SplitJoin(segments: seq<string>)
    requires forall k :: 0 <= k < |segments| ==> IsSegment(segments[k])
    ensures Split(Join(segments)) == segments
  {
    if segments == [] {
      assert Fields("") == [""];
    } else {
      FieldsOfJoin(segments);
    }
  }

  /** The generator's output buffer: a Ruby string that is appended to and
      trimmed in place. */
  class Builder {
    var text: string

    constructor ()
      ensures text == ""
    {
      text := "";
    }

    /** `bld << s` */
    method Append(s: string)
      modifies this
      ensures text == old(text) + s
    {
      text := text + s;
    }

    /** `parts.each { |p| bld << p }` */
    method AppendAll(parts: seq<string>)
      modifies this
      ensures text == old(text) + Concat(parts)
    {
      var i := 0;
      while i < |parts|
        invariant i <= |parts|
        invariant text == old(text) + Concat(parts[..i])
      {
        assert parts[..i + 1][..i] == parts[..i];
        text := text + parts[i];
        i := i + 1;
      }
      assert parts[..i] == parts;
    }

    /** `parts.each { |p| bld << p << sep }` */
    method AppendTerminated(parts: seq<string>, sep: string)
      modifies this
      ensures text == old(text) + Terminated(parts, sep)
    {
      var i := 0;
      while i < |parts|
        invariant i <= |parts|
        invariant text == old(text) + Terminated(parts[..i], sep)
      {
        assert parts[..i + 1][..i] == parts[..i];
        text := text + parts[i] + sep;
        i := i + 1;
      }
      assert parts[..i] == parts;
    }

    /** `bld.chomp!(suffix)` for a suffix other than "\n" */
    method TrimSuffix(suffix: string)
      requires suffix != "\n"
      modifies this
      ensures text == Chomp(old(text), suffix)
    {
      if EndsWith(text, suffix) {
        text := text[..|text| - |suffix|];
      }
    }

    /** `bld.chomp!("\n")` */
    method TrimNewline()
      modifies this
      ensures text == ChompNewline(old(text))
    {
      if EndsWith(text, "\r\n") {
        text := text[..|text| - 2];
      } else if EndsWith(text, "\n") || EndsWith(text, "\r") {
        text := text[..|text| - 1];
      }
    }
  }
}
