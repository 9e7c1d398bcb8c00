/** crates/core/src/path_id.rs: normalised relative paths. */
module PathId {
  import opened Text

  function ReplaceChar(s: string, from: char, to: char): (r: string)
    ensures |r| == |s|
    ensures forall i :: 0 <= i < |s| ==> r[i] == if s[i] == from then to else s[i]
  {
    seq(|s|, i requires 0 <= i < |s| => if s[i] == from then to else s[i])
  }

  predicate KeepsSegment(segment: string)
  {
    segment != "" && segment != "."
  }

  function FilterSegments(parts: seq<string>): seq<string>
  {
    if parts == [] then []
    else (if KeepsSegment(parts[0]) then [parts[0]] else []) + FilterSegments(parts[1..])
  }

  /** `PathId::from_user_path`. */
  function FromUserPath(path: string): string
  {
    Join(FilterSegments(Split(ReplaceChar(path, '\\', '/'), '/')), '/')
  }

  // ------------------------------------------------- reference: what a user path names

  predicate IsSlash(c: char)
  {
    c == '/' || c == '\\'
  }

  /** The segments of a user path, read off left to right: `current` is the segment
      being collected, either slash ends it, empty and "." segments vanish. */
  function SegmentsFrom(path: string, current: string): seq<string>
    decreases |path|
  {
    if path == "" then Emit(current)
    else if IsSlash(path[0]) then Emit(current) + SegmentsFrom(path[1..], "")
    else SegmentsFrom(path[1..], current + [path[0]])
  }

  function Emit(segment: string): seq<string>
  {
    if KeepsSegment(segment) then [segment] else []
  }

  function Segments(path: string): seq<string>
  {
    SegmentsFrom(path, "")
  }

  predicate IsSegmentList(parts: seq<string>)
  {
    forall i :: 0 <= i < |parts| ==> KeepsSegment(parts[i]) && '/' !in parts[i] && '\\' !in parts[i]
  }

  ghost predicate IsNormalized(path: string)
  {
    exists segments :: IsSegmentList(segments) && path == Join(segments, '/')
  }

  // ---------------------------------------------------------------- lemmas

  lemma {:induction false} FilterConcat(a: seq<string>, b: seq<string>)
    ensures FilterSegments(a + b) == FilterSegments(a) + FilterSegments(b)
  {
    if a == [] {
      assert a + b == b;
    } else {
      var head := if KeepsSegment(a[0]) then [a[0]] else [];
      var x, y := FilterSegments(a[1..]), FilterSegments(b);
      FilterConcat(a[1..], b);
      assert (a + b)[1..] == a[1..] + b;
      assert FilterSegments(a + b) == head + (x + y);
      assert head + (x + y) == (head + x) + y;
    }
  }

  lemma {:induction false} FilterKeepsAll(parts: seq<string>)
    requires forall i :: 0 <= i < |parts| ==> KeepsSegment(parts[i])
    ensures FilterSegments(parts) == parts
  {
    if parts != [] { FilterKeepsAll(parts[1..]); }
  }

  lemma {:induction false} FilteredIsSegmentList(parts: seq<string>)
    requires forall i :: 0 <= i < |parts| ==> '/' !in parts[i] && '\\' !in parts[i]
    ensures IsSegmentList(FilterSegments(parts))
  {
    if parts != [] { FilteredIsSegmentList(parts[1..]); }
  }

  lemma SplitMembers(s: string, separator: char, c: char)
    requires c !in s
    ensures forall i :: 0 <= i < |Split(s, separator)| ==> c !in Split(s, separator)[i]
    decreases |s|
  {
  }

  /** Replacing, splitting and filtering is the left-to-right reading. */
  lemma {:induction false} FilterSplitIsSegments(path: string, current: string)
    requires '/' !in current && '\\' !in current
    ensures FilterSegments(Split(current + ReplaceChar(path, '\\', '/'), '/')) == SegmentsFrom(path, current)
    decreases |path|
  {
    var clean := ReplaceChar(path, '\\', '/');
    if path == "" {
      assert current + clean == current;
      assert Split(current, '/') == [current];
    } else {
      var rest := ReplaceChar(path[1..], '\\', '/');
      assert clean[1..] == rest;
      if IsSlash(path[0]) {
        assert current + clean == current + ['/'] + rest;
        SplitCons(current, '/', rest);
        FilterConcat([current], Split(rest, '/'));
        FilterSplitIsSegments(path[1..], "");
        assert "" + rest == rest;
      } else {
        FilterSplitIsSegments(path[1..], current + [path[0]]);
        assert current + clean == current + [path[0]] + rest;
      }
    }
  }

  lemma FromUserPathJoinsSegments(path: string)
    ensures FromUserPath(path) == Join(Segments(path), '/')
    ensures IsSegmentList(Segments(path))
    ensures IsNormalized(FromUserPath(path))
  {
    var clean := ReplaceChar(path, '\\', '/');
    FilterSplitIsSegments(path, "");
    assert "" + clean == clean;
    SplitMembers(clean, '/', '\\');
    FilteredIsSegmentList(Split(clean, '/'));
  }

  lemma {:induction false} JoinMembers(parts: seq<string>, c: char)
    requires IsSegmentList(parts)
    requires c in Join(parts, '/')
    ensures c == '/' || exists i :: 0 <= i < |parts| && c in parts[i]
  {
    if |parts| > 1 {
      var rest := Join(parts[1..], '/');
      if c !in parts[0] && c != '/' {
        assert c in rest;
        JoinMembers(parts[1..], c);
        var i :| 0 <= i < |parts[1..]| && c in parts[1..][i];
        assert parts[i + 1] == parts[1..][i];
      }
    }
  }

  /** Printing a segment list and reading it back gives the same list. */
  lemma SegmentsOfJoin(segments: seq<string>)
    requires IsSegmentList(segments)
    ensures Segments(Join(segments, '/')) == segments
  {
    var path := Join(segments, '/');
    if '\\' in path { JoinMembers(segments, '\\'); }
    assert ReplaceChar(path, '\\', '/') == path;
    FilterSplitIsSegments(path, "");
    assert "" + path == path;
    if segments == [] {
      assert Split("", '/') == [""];
      assert FilterSegments([""]) == [];
    } else {
      SplitJoin(segments, '/');
      FilterKeepsAll(segments);
    }
  }

  /** Normalising twice is normalising once; a normalised path is a fixed point. */
  lemma NormalizedIsFixed(path: string)
    ensures IsNormalized(path) <==> FromUserPath(path) == path
    ensures FromUserPath(FromUserPath(path)) == FromUserPath(path)
  {
    FromUserPathJoinsSegments(path);
    SegmentsOfJoin(Segments(path));
    FromUserPathJoinsSegments(FromUserPath(path));
    if IsNormalized(path) {
      var segments :| IsSegmentList(segments) && path == Join(segments, '/');
      SegmentsOfJoin(segments);
    }
  }

  /** Two user paths are the same map key exactly when they name the same segments. */
  lemma SameKeyIffSameSegments(p: string, q: string)
    ensures FromUserPath(p) == FromUserPath(q) <==> Segments(p) == Segments(q)
  {
    FromUserPathJoinsSegments(p);
    FromUserPathJoinsSegments(q);
    SegmentsOfJoin(Segments(p));
    SegmentsOfJoin(Segments(q));
  }

  lemma {:induction false} SegmentsFromConcat(a: string, separator: char, b: string, current: string)
    requires separator == '/' || separator == '\\'
    ensures SegmentsFrom(a + [separator] + b, current) == SegmentsFrom(a, current) + Segments(b)
    decreases |a|
  {
    var path := a + [separator] + b;
    if a == "" {
      assert path[1..] == b;
    } else {
      assert path[1..] == a[1..] + [separator] + b;
      if IsSlash(a[0]) {
        SegmentsFromConcat(a[1..], separator, b, "");
        Associate(Emit(current), SegmentsFrom(a[1..], ""), Segments(b));
      } else {
        SegmentsFromConcat(a[1..], separator, b, current + [a[0]]);
      }
    }
  }

  lemma {:induction false} SegmentsFromPlain(path: string, current: string)
    requires '/' !in path && '\\' !in path
    ensures SegmentsFrom(path, current) == if current + path == "" || current + path == "." then [] else [current + path]
    decreases |path|
  {
    if path == "" {
      assert current + path == current;
    } else {
      SegmentsFromPlain(path[1..], current + [path[0]]);
      assert current + [path[0]] + path[1..] == current + path;
    }
  }

  /** What a segment is: either slash separates, a piece without slashes is one segment, and
      the empty piece and "." are none. Together the clauses fix the segments of every path. */
  lemma SegmentsAre(a: string, separator: char, b: string, piece: string)
    ensures separator == '/' || separator == '\\' ==> Segments(a + [separator] + b) == Segments(a) + Segments(b)
    ensures '/' !in piece && '\\' !in piece ==> Segments(piece) == if piece == "" || piece == "." then [] else [piece]
  {
    if separator == '/' || separator == '\\' { SegmentsFromConcat(a, separator, b, ""); }
    if '/' !in piece && '\\' !in piece {
      SegmentsFromPlain(piece, "");
      assert "" + piece == piece;
    }
  }

  // ------------------------------------------------- sizes and characters, for reparsing

  lemma {:induction false} SegmentsFromSize(path: string, current: string)
    ensures SegmentsFrom(path, current) != []
            ==> |Join(SegmentsFrom(path, current), '/')| <= |current| + |path|
    decreases |path|
  {
    if path != "" {
      if IsSlash(path[0]) {
        SegmentsFromSize(path[1..], "");
        var rest := SegmentsFrom(path[1..], "");
        if KeepsSegment(current) {
          assert SegmentsFrom(path, current) == [current] + rest;
          assert ([current] + rest)[1..] == rest;
        } else {
          assert SegmentsFrom(path, current) == rest;
        }
      } else {
        SegmentsFromSize(path[1..], current + [path[0]]);
      }
    }
  }

  lemma FromUserPathSize(path: string)
    ensures |FromUserPath(path)| <= |path|
  {
    FromUserPathJoinsSegments(path);
    SegmentsFromSize(path, "");
  }

  lemma {:induction false} SegmentsFromMembers(path: string, current: string, c: char)
    requires c !in path && c !in current
    ensures forall i :: 0 <= i < |SegmentsFrom(path, current)| ==> c !in SegmentsFrom(path, current)[i]
    decreases |path|
  {
    if path != "" {
      if IsSlash(path[0]) {
        SegmentsFromMembers(path[1..], "", c);
      } else {
        SegmentsFromMembers(path[1..], current + [path[0]], c);
      }
    }
  }

  lemma FromUserPathMembers(path: string, c: char)
    requires c != '/' && c !in path
    ensures c !in FromUserPath(path)
  {
    FromUserPathJoinsSegments(path);
    SegmentsFromMembers(path, "", c);
    if c in FromUserPath(path) { JoinMembers(Segments(path), c); }
  }
}
