/** Strings the way the index code orders, splits and joins them.
    A `char` is a Unicode scalar value; comparing scalar values in sequence is the
    same order as comparing UTF-8 bytes in sequence. */
module Text {

  datatype Option<+T> = None | Some(value: T)

  datatype Result<+T, +E> = Ok(value: T) | Err(error: E)

  lemma Associate<T>(a: seq<T>, b: seq<T>, c: seq<T>)
    ensures a + (b + c) == a + b + c
  {
  }

  // ---------------------------------------------------------------- order

  predicate Leq(a: string, b: string)
  {
    a == [] || (b != [] && (a[0] < b[0] || (a[0] == b[0] && Leq(a[1..], b[1..]))))
  }

  predicate Less(a: string, b: string)
  {
    Leq(a, b) && a != b
  }

  lemma {:induction false} LeqReflexive(a: string)
    ensures Leq(a, a)
  {
    if a != [] { LeqReflexive(a[1..]); }
  }

  lemma {:induction false} LeqAntisymmetric(a: string, b: string)
    requires Leq(a, b) && Leq(b, a)
    ensures a == b
  {
    if a != [] {
      LeqAntisymmetric(a[1..], b[1..]);
      assert a == [a[0]] + a[1..] && b == [b[0]] + b[1..];
    }
  }

  lemma {:induction false} LeqTransitive(a: string, b: string, c: string)
    requires Leq(a, b) && Leq(b, c)
    ensures Leq(a, c)
  {
    if a != [] && a[0] == b[0] && b[0] == c[0] {
      LeqTransitive(a[1..], b[1..], c[1..]);
    }
  }

  lemma {:induction false} LeqTotal(a: string, b: string)
    ensures Leq(a, b) || Leq(b, a)
  {
    if a != [] && b != [] && a[0] == b[0] { LeqTotal(a[1..], b[1..]); }
  }

  lemma LessLeqTransitive(a: string, b: string, c: string)
    requires Leq(a, b) && Leq(b, c) && (a != b || b != c)
    ensures Less(a, c)
  {
  }

  // ------------------------------------------------------- splitting, joining

  /** The first position of `c`. */
  function IndexOf(s: string, c: char): (i: nat)
    requires c in s
    ensures i < |s| && s[i] == c && c !in s[..i]
  {
    if s[0] == c then 0 else
      var i := 1 + IndexOf(s[1..], c);
      assert s[..i] == [s[0]] + s[1..][..i - 1];
      i
  }

  /** `str::split` with a one-character pattern. */
  function Split(s: string, separator: char): (parts: seq<string>)
    ensures |parts| >= 1
    ensures forall i :: 0 <= i < |parts| ==> separator !in parts[i]
    ensures separator !in s ==> parts == [s]
    decreases |s|
  {
    if separator !in s then [s] else
      var i := IndexOf(s, separator);
      [s[..i]] + Split(s[i + 1..], separator)
  }

  function Join(parts: seq<string>, separator: char): string
  {
    if |parts| == 0 then ""
    else if |parts| == 1 then parts[0]
    else parts[0] + [separator] + Join(parts[1..], separator)
  }

  /** `str::splitn`: at most `n` parts, the last one keeps its separators. */
  function SplitN(s: string, separator: char, n: nat): (parts: seq<string>)
    requires n >= 1
    ensures 1 <= |parts| <= n
    decreases n
  {
    if n == 1 || separator !in s then [s] else
      var i := IndexOf(s, separator);
      [s[..i]] + SplitN(s[i + 1..], separator, n - 1)
  }

  lemma IndexOfPrefix(a: string, c: char, b: string)
    requires c !in a
    ensures c in a + [c] + b
    ensures IndexOf(a + [c] + b, c) == |a|
  {
    var s := a + [c] + b;
    assert s[|a|] == c;
    var i := IndexOf(s, c);
    assert forall k :: 0 <= k < |a| ==> s[k] == a[k];
    assert forall k :: 0 <= k < i ==> s[..i][k] != c;
  }

  lemma SplitCons(a: string, separator: char, b: string)
    requires separator !in a
    ensures Split(a + [separator] + b, separator) == [a] + Split(b, separator)
  {
    IndexOfPrefix(a, separator, b);
    var s := a + [separator] + b;
    assert s[..|a|] == a && s[|a| + 1..] == b;
  }

  lemma SplitNCons(a: string, separator: char, b: string, n: nat)
    requires separator !in a && n >= 2
    ensures SplitN(a + [separator] + b, separator, n) == [a] + SplitN(b, separator, n - 1)
  {
    IndexOfPrefix(a, separator, b);
    var s := a + [separator] + b;
    assert s[..|a|] == a && s[|a| + 1..] == b;
  }

  lemma {:induction false} SplitJoin(parts: seq<string>, separator: char)
    requires |parts| >= 1
    requires forall i :: 0 <= i < |parts| ==> separator !in parts[i]
    ensures Split(Join(parts, separator), separator) == parts
  {
    if |parts| > 1 {
      SplitJoin(parts[1..], separator);
      SplitCons(parts[0], separator, Join(parts[1..], separator));
      assert parts == [parts[0]] + parts[1..];
    }
  }

  // ------------------------------------------------------------------- lines

  function StripSuffix(s: string, c: char): string
  {
    if s != "" && s[|s| - 1] == c then s[..|s| - 1] else s
  }

  /** `str::lines`: LF ends a line, one CR before that LF goes with it, the last
      line may be unterminated and then keeps everything. */
  function StrLines(text: string): seq<string>
    decreases |text|
  {
    if text == "" then []
    else if '\n' !in text then [text]
    else
      var i := IndexOf(text, '\n');
      [StripSuffix(text[..i], '\r')] + StrLines(text[i + 1..])
  }

  lemma StrLinesCons(line: string, rest: string)
    requires '\n' !in line
    ensures StrLines(line + "\n" + rest) == [StripSuffix(line, '\r')] + StrLines(rest)
  {
    var text := line + ['\n'] + rest;
    assert text == line + "\n" + rest;
    IndexOfPrefix(line, '\n', rest);
    assert text[..|line|] == line && text[|line| + 1..] == rest;
  }

  lemma StrLinesLast(line: string)
    requires line != "" && '\n' !in line
    ensures StrLines(line) == [line] && StrLines("") == []
  {
  }

  lemma {:induction false} StrLinesHaveNoLf(text: string)
    ensures forall i :: 0 <= i < |StrLines(text)| ==> '\n' !in StrLines(text)[i]
    decreases |text|
  {
    if '\n' in text {
      StrLinesHaveNoLf(text[IndexOf(text, '\n') + 1..]);
    }
  }

  // ------------------------------------------------------- sorted sets of text

  lemma {:induction false} MinimumExists(keys: set<string>) returns (m: string)
    requires keys != {}
    ensures m in keys && forall k :: k in keys ==> Leq(m, k)
    decreases |keys|
  {
    var x :| x in keys;
    if keys == {x} {
      LeqReflexive(x);
      m := x;
    } else {
      var rest := keys - {x};
      assert keys == rest + {x};
      assert rest != {};
      var y := MinimumExists(rest);
      LeqTotal(x, y);
      if Leq(x, y) {
        m := x;
        forall k | k in keys ensures Leq(m, k) {
          LeqReflexive(x);
          if k != x { LeqTransitive(x, y, k); }
        }
      } else {
        m := y;
      }
    }
  }

  /** Least element; what a B-tree iterator yields first. */
  function Minimum(keys: set<string>): (m: string)
    requires keys != {}
    ensures m in keys && forall k :: k in keys ==> Leq(m, k)
  {
    MinimumWitness(keys);
    var m :| m in keys && forall k :: k in keys ==> Leq(m, k);
    m
  }

  lemma MinimumWitness(keys: set<string>)
    requires keys != {}
    ensures exists m :: m in keys && forall k :: k in keys ==> Leq(m, k)
    ensures forall m, n | m in keys && n in keys
              && (forall k :: k in keys ==> Leq(m, k)) && (forall k :: k in keys ==> Leq(n, k))
              :: m == n
  {
    var m := MinimumExists(keys);
    forall m, n | m in keys && n in keys
      && (forall k :: k in keys ==> Leq(m, k)) && (forall k :: k in keys ==> Leq(n, k))
      ensures m == n
    { LeqAntisymmetric(m, n); }
  }

  /** `BTreeSet::iter`: the members in ascending order. */
  function InOrder(keys: set<string>): seq<string>
    decreases |keys|
  {
    if keys == {} then []
    else
      var first := Minimum(keys);
      [first] + InOrder(keys - {first})
  }

  lemma {:induction false} InOrderMembers(keys: set<string>)
    ensures forall k :: k in InOrder(keys) <==> k in keys
    decreases |keys|
  {
    if keys != {} { InOrderMembers(keys - {Minimum(keys)}); }
  }

  lemma {:induction false} InOrderAscends(keys: set<string>)
    ensures forall i, j :: 0 <= i < j < |InOrder(keys)| ==> Less(InOrder(keys)[i], InOrder(keys)[j])
    decreases |keys|
  {
    if keys != {} {
      var first := Minimum(keys);
      var rest := InOrder(keys - {first});
      InOrderAscends(keys - {first});
      InOrderMembers(keys - {first});
      forall j | 0 <= j < |rest| ensures Less(first, rest[j]) { assert rest[j] in rest; }
    }
  }
}
