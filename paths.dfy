/**
 * Topic paths: a string split at every `/` into its segments, and the inverse
 * that joins segments with `/`.
 */
module Paths {

  /** True when `s` can stand as one path segment. */
  predicate SegmentSafe(s: string) {
    '/' !in s
  }

  /** `s` split at every `/`, as `s.split("/", -1)` does: n separators give n + 1 segments. */
  function Segments(s: string): (r: seq<string>)
    ensures |r| >= 1
    ensures forall i :: 0 <= i < |r| ==> SegmentSafe(r[i])
  {
    if s == [] then [[]]
    else
      var rest := Segments(s[1..]);
      if s[0] == '/' then [[]] + rest
      else [[s[0]] + rest[0]] + rest[1..]
  }

  /** The segments `prefix`, each followed by `/`, then `last`. */
  function Path(prefix: seq<string>, last: string): string {
    if prefix == [] then last else prefix[0] + "/" + Path(prefix[1..], last)
  }

  lemma {:induction false} SegmentsOfSafe(s: string)
    requires SegmentSafe(s)
    ensures Segments(s) == [s]
  {
    if s != [] {
      SegmentsOfSafe(s[1..]);
      assert [s[0]] + s[1..] == s;
    }
  }

  lemma {:induction false} SegmentsCons(a: string, b: string)
    requires SegmentSafe(a)
    ensures Segments(a + "/" + b) == [a] + Segments(b)
  {
    var s := a + "/" + b;
    if a == [] {
      assert s[1..] == b;
    } else {
      assert s[1..] == a[1..] + "/" + b;
      SegmentsCons(a[1..], b);
      assert [a[0]] + a[1..] == a;
    }
  }

  lemma ConsAppend<T>(x: T, a: seq<T>, b: seq<T>)
    ensures [x] + (a + b) == [x] + a + b
  {
  }

  /** Splitting undoes `Path` when every prefix segment is safe. */
  lemma {:induction false} SegmentsOfPath(prefix: seq<string>, last: string)
    requires forall i :: 0 <= i < |prefix| ==> SegmentSafe(prefix[i])
    ensures Segments(Path(prefix, last)) == prefix + Segments(last)
  {
    if prefix != [] {
      var head, tail := prefix[0], prefix[1..];
      var rest := Path(tail, last);
      assert forall i :: 0 <= i < |tail| ==> SegmentSafe(tail[i]) by {
        forall i | 0 <= i < |tail| ensures SegmentSafe(tail[i]) {
          assert tail[i] == prefix[i + 1];
        }
      }
      SegmentsOfPath(tail, last);
      SegmentsCons(head, rest);
      calc {
        Segments(Path(prefix, last));
        Segments(head + "/" + rest);
        [head] + Segments(rest);
        [head] + (tail + Segments(last));
        { ConsAppend(head, tail, Segments(last)); }
        [head] + tail + Segments(last);
        { assert [head] + tail == prefix; }
        prefix + Segments(last);
      }
    }
  }

  /** `Path` with the same prefix is injective in its last segment. */
  lemma {:induction false} PathCancel(prefix: seq<string>, a: string, b: string)
    requires Path(prefix, a) == Path(prefix, b)
    ensures a == b
  {
    if prefix != [] {
      var head := prefix[0] + "/";
      assert Path(prefix, a)[|head|..] == Path(prefix[1..], a);
      assert Path(prefix, b)[|head|..] == Path(prefix[1..], b);
      PathCancel(prefix[1..], a, b);
    }
  }

  lemma PathOfThree(a: string, b: string, c: string, last: string)
    ensures Path([a, b, c], last) == a + "/" + b + "/" + c + "/" + last
  {
    var p := [a, b, c];
    assert p[1..][1..][1..] == [];
    assert Path(p[1..][1..], last) == c + "/" + last;
  }
}
