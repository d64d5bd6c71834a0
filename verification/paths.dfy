/** Path strings of the hierarchical store. A reference prints as a URL whose last
    '/'-separated piece is its key; `child(rel)` splits a relative path on '/'
    and drops empty pieces. */
module Paths {

  /** A client id or a push key: a single non-empty path piece. */
  predicate IsKey(k: string) {
    k != "" && '/' !in k
  }

  /** `s.split(sep)`: the pieces between occurrences of `sep`, in order. */
  function Split(s: string, sep: char): (parts: seq<string>)
    ensures |parts| >= 1
    ensures forall i :: 0 <= i < |parts| ==> sep !in parts[i]
    decreases |s|
  {
    if |s| == 0 then [""]
    else
      var rest := Split(s[1..], sep);
      if s[0] == sep then [""] + rest
      else [[s[0]] + rest[0]] + rest[1..]
  }

  /** `parts.join(sep)`, the inverse of `Split`. */
  function Join(parts: seq<string>, sep: char): string
    requires |parts| >= 1
    decreases |parts|
  {
    if |parts| == 1 then parts[0] else parts[0] + [sep] + Join(parts[1..], sep)
  }

  /** `last(s.split('/'))`: the key a reference URL ends with. */
  function LastSegment(s: string): (r: string)
    ensures '/' !in r
  {
    var parts := Split(s, '/');
    parts[|parts| - 1]
  }

  /** The pieces of a relative path as `child(rel)` uses them. */
  function Segments(rel: string): (r: seq<string>)
    ensures forall i :: 0 <= i < |r| ==> r[i] != "" && '/' !in r[i]
  {
    NonEmpty(Split(rel, '/'))
  }

  function NonEmpty(parts: seq<string>): (r: seq<string>)
    ensures forall i :: 0 <= i < |r| ==> r[i] != "" && r[i] in parts
  {
    if parts == [] then []
    else if parts[0] == "" then NonEmpty(parts[1..])
    else [parts[0]] + NonEmpty(parts[1..])
  }

  /** `ref.toString()`: the URL of the reference at `path` below the root URL
      `base`. The real method also percent-encodes each piece; the keys this
      model builds URLs from (push keys) contain only characters that encoding
      leaves alone, so it is left out here. */
  function Url(base: string, path: seq<string>): string
    decreases |path|
  {
    if path == [] then base else Url(base, path[..|path| - 1]) + "/" + path[|path| - 1]
  }

  /** Joining the pieces of a split string gives the string back. */
  lemma {:induction false} JoinSplit(s: string, sep: char)
    ensures Join(Split(s, sep), sep) == s
    decreases |s|
  {
    if |s| > 0 {
      var rest := Split(s[1..], sep);
      JoinSplit(s[1..], sep);
      if s[0] == sep {
        assert Split(s, sep) == [""] + rest;
        assert ([""] + rest)[1..] == rest;
        assert s == [sep] + s[1..];
      } else {
        var parts := [[s[0]] + rest[0]] + rest[1..];
        assert Split(s, sep) == parts;
        if |rest| == 1 {
          assert s == [s[0]] + s[1..];
        } else {
          assert parts[1..] == rest[1..];
          assert Join(rest, sep) == rest[0] + [sep] + Join(rest[1..], sep);
          assert s == [s[0]] + s[1..];
        }
      }
    }
  }

  /** A string free of the separator is a single piece. */
  lemma {:induction false} SplitWhole(s: string, sep: char)
    requires sep !in s
    ensures Split(s, sep) == [s]
    decreases |s|
  {
    if |s| > 0 {
      SplitWhole(s[1..], sep);
      assert s == [s[0]] + s[1..];
    }
  }

  /** A separator-free prefix followed by the separator becomes the first piece. */
  lemma {:induction false} SplitPrefix(a: string, b: string, sep: char)
    requires sep !in a
    ensures Split(a + [sep] + b, sep) == [a] + Split(b, sep)
    decreases |a|
  {
    var s := a + [sep] + b;
    if |a| == 0 {
      assert s[1..] == b;
    } else {
      assert s[1..] == a[1..] + [sep] + b;
      SplitPrefix(a[1..], b, sep);
      assert a == [a[0]] + a[1..];
    }
  }

  /** Splitting a join of separator-free pieces gives the pieces back. */
  lemma {:induction false} SplitJoin(parts: seq<string>, sep: char)
    requires |parts| >= 1
    requires forall i :: 0 <= i < |parts| ==> sep !in parts[i]
    ensures Split(Join(parts, sep), sep) == parts
    decreases |parts|
  {
    if |parts| == 1 {
      SplitWhole(parts[0], sep);
    } else {
      SplitJoin(parts[1..], sep);
      SplitPrefix(parts[0], Join(parts[1..], sep), sep);
      assert parts == [parts[0]] + parts[1..];
    }
  }

  lemma {:induction false} JoinAppend(parts: seq<string>, k: string, sep: char)
    requires |parts| >= 1
    ensures Join(parts + [k], sep) == Join(parts, sep) + [sep] + k
    decreases |parts|
  {
    if |parts| > 1 {
      assert (parts + [k])[1..] == parts[1..] + [k];
      JoinAppend(parts[1..], k, sep);
    }
  }

  /** Appending a separator and a separator-free key adds exactly that key as the
      last piece. */
  lemma SplitAppend(s: string, k: string, sep: char)
    requires sep !in k
    ensures Split(s + [sep] + k, sep) == Split(s, sep) + [k]
  {
    var parts := Split(s, sep);
    JoinSplit(s, sep);
    JoinAppend(parts, k, sep);
    SplitJoin(parts + [k], sep);
  }

  /** The last piece of a child reference's URL is the child's key: this is how a
      push-generated key is read back from the new reference. */
  lemma LastSegmentOfChild(base: string, path: seq<string>, k: string)
    requires '/' !in k
    ensures LastSegment(Url(base, path + [k])) == k
  {
    assert (path + [k])[..|path|] == path;
    SplitAppend(Url(base, path), k, '/');
  }

  /** A two-piece relative path `a/b` names the child `b` of child `a`. */
  lemma SegmentsOfPair(a: string, b: string)
    requires a != "" && '/' !in a && b != "" && '/' !in b
    ensures Segments(a + "/" + b) == [a, b]
  {
    SplitPrefix(a, b, '/');
    SplitWhole(b, '/');
    assert [a] + [b] == [a, b];
    assert NonEmpty([b]) == [b];
  }

  /** A relative path built by joining non-empty, separator-free pieces names
      exactly those pieces. */
  lemma SegmentsJoin(parts: seq<string>)
    requires |parts| >= 1
    requires forall i :: 0 <= i < |parts| ==> parts[i] != "" && '/' !in parts[i]
    ensures Segments(Join(parts, '/')) == parts
  {
    SplitJoin(parts, '/');
    NonEmptyAll(parts);
  }

  lemma {:induction false} NonEmptyAll(parts: seq<string>)
    requires forall i :: 0 <= i < |parts| ==> parts[i] != ""
    ensures NonEmpty(parts) == parts
    decreases |parts|
  {
    if parts != [] {
      NonEmptyAll(parts[1..]);
      assert parts == [parts[0]] + parts[1..];
    }
  }
}
