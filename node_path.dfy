/**
 * A model of Node's POSIX `path.extname`, which the script calls but does
 * not define. This is an assumption about the platform library, taken from
 * its documented POSIX behaviour:
 *  - only the last path segment counts, and trailing slashes are ignored;
 *  - the extension runs from that segment's last `.` to its end;
 *  - it is "" when the segment has no `.`, when its only `.` is its first
 *    character (`.bashrc`), and for the segment `..`.
 * The functions only compute; what they mean is stated by the lemmas, which
 * callers invoke where they need it.
 */
module NodePath {
  import opened Text

  predicate IsSuffix(a: string, b: string) { |a| <= |b| && b[|b| - |a|..] == a }

  /** The path without its trailing `/` characters. */
  function TrimTrailingSlashes(p: string): string
  {
    if |p| > 0 && p[|p| - 1] == '/' then TrimTrailingSlashes(p[..|p| - 1]) else p
  }

  /** The last segment of the trimmed path: what follows its last `/`. */
  function LastSegment(p: string): string
  {
    var t := TrimTrailingSlashes(p);
    t[LastIndexOf(t, '/') + 1..]
  }

  /** The segment `..`, whose last dot Node does not read as an extension. */
  predicate IsDotDot(seg: string) { |seg| == 2 && seg[0] == '.' && seg[1] == '.' }

  /** No `.` after the first character. */
  predicate NoLaterDot(seg: string) { forall i | 0 < i < |seg| :: seg[i] != '.' }

  /** The extension of one segment: from its last `.`, unless that dot is its first character or the segment is `..`. */
  function SegmentExt(seg: string): string
  {
    var d := LastIndexOf(seg, '.');
    if d <= 0 || IsDotDot(seg) then "" else seg[d..]
  }

  /** `path.extname(p)` under the POSIX rules. */
  function ExtName(p: string): string
  {
    SegmentExt(LastSegment(p))
  }

  /** Trimming removes slashes only, and only from the end, and leaves none there. */
  lemma {:induction false} TrimTrailingSlashesSpec(p: string)
    ensures var r := TrimTrailingSlashes(p);
      && r <= p
      && (r == [] || r[|r| - 1] != '/')
      && forall i | |r| <= i < |p| :: p[i] == '/'
  {
    if |p| > 0 && p[|p| - 1] == '/' {
      TrimTrailingSlashesSpec(p[..|p| - 1]);
    }
  }

  /** The last segment holds no `/`. */
  lemma LastSegmentNoSlash(p: string)
    ensures forall k | 0 <= k < |LastSegment(p)| :: LastSegment(p)[k] != '/'
  {
  }

  /** The last segment ends the trimmed path, and is preceded there by a `/` unless it is all of it. */
  lemma LastSegmentSpec(p: string)
    ensures var r, t := LastSegment(p), TrimTrailingSlashes(p);
      && IsSuffix(r, t)
      && (|r| < |t| ==> t[|t| - |r| - 1] == '/')
  {
  }

  /** A segment's extension is empty exactly for `..` and for segments with no `.` after their first character; otherwise it is the segment's tail from a `.` that is its only one. */
  lemma SegmentExtSpec(seg: string)
    ensures var r := SegmentExt(seg);
      && (|r| == 0 <==> (IsDotDot(seg) || NoLaterDot(seg)))
      && (|r| > 0 ==> IsSuffix(r, seg) && r[0] == '.')
      && forall k | 0 < k < |r| :: r[k] != '.'
  {
    var d := LastIndexOf(seg, '.');
    if d == 0 {
      assert NoLaterDot(seg);
    } else if d > 0 {
      assert !NoLaterDot(seg) by { assert seg[d] == '.'; }
    }
  }

  /** Node's `path.extname`: empty, or the last segment's tail from its last `.`, holding no other `.` and no `/`. */
  lemma ExtNameSpec(p: string)
    ensures var r, seg := ExtName(p), LastSegment(p);
      && (|r| == 0 <==> (IsDotDot(seg) || NoLaterDot(seg)))
      && (|r| > 0 ==> IsSuffix(r, seg) && r[0] == '.')
      && (forall k | 0 < k < |r| :: r[k] != '.')
      && (forall k | 0 <= k < |r| :: r[k] != '/')
  {
    var seg := LastSegment(p);
    LastSegmentNoSlash(p);
    SegmentExtSpec(seg);
    var r := SegmentExt(seg);
    forall k | 0 <= k < |r| ensures r[k] != '/' {
      assert r[k] == seg[|seg| - |r| + k];
    }
  }

  lemma {:induction false} TrimLower(p: string)
    ensures TrimTrailingSlashes(Lower(p)) == Lower(TrimTrailingSlashes(p))
  {
    if |p| > 0 && p[|p| - 1] == '/' {
      LowerSlice(p, 0, |p| - 1);
      TrimLower(p[..|p| - 1]);
    }
  }

  lemma LastSegmentLower(p: string)
    ensures LastSegment(Lower(p)) == Lower(LastSegment(p))
  {
    var t := TrimTrailingSlashes(p);
    TrimLower(p);
    LastIndexOfLower(t, '/');
    LowerSlice(t, LastIndexOf(t, '/') + 1, |t|);
  }

  lemma SegmentExtLower(seg: string)
    ensures SegmentExt(Lower(seg)) == Lower(SegmentExt(seg))
  {
    LastIndexOfLower(seg, '.');
    assert IsDotDot(Lower(seg)) <==> IsDotDot(seg);
    var d := LastIndexOf(seg, '.');
    if d > 0 {
      LowerSlice(seg, d, |seg|);
    }
  }

  /** Lower-casing a path and taking its extension commute. */
  lemma ExtNameLower(p: string)
    ensures ExtName(Lower(p)) == Lower(ExtName(p))
  {
    LastSegmentLower(p);
    SegmentExtLower(LastSegment(p));
  }
}
