/** UTF-8 as the frame reader checks it (Unicode, table 3-7) and as a client produces it. */
module Utf8 {
  import opened Text

  type byte = x: int | 0 <= x < 256

  const LF: byte := 10

  predicate IsContinuation(b: byte)
  {
    0x80 <= b <= 0xBF
  }

  /** How many bytes the first well-formed character takes; 0 when there is none. */
  function CharLength(bytes: seq<byte>): (n: nat)
    ensures n <= |bytes|
  {
    if |bytes| >= 1 && bytes[0] <= 0x7F then 1
    else if |bytes| >= 2 && 0xC2 <= bytes[0] <= 0xDF && IsContinuation(bytes[1]) then 2
    else if |bytes| >= 3 && IsContinuation(bytes[1]) && IsContinuation(bytes[2])
         && ((bytes[0] == 0xE0 && 0xA0 <= bytes[1]) || 0xE1 <= bytes[0] <= 0xEC
             || (bytes[0] == 0xED && bytes[1] <= 0x9F) || 0xEE <= bytes[0] <= 0xEF) then 3
    else if |bytes| >= 4 && IsContinuation(bytes[1]) && IsContinuation(bytes[2]) && IsContinuation(bytes[3])
         && ((bytes[0] == 0xF0 && 0x90 <= bytes[1]) || 0xF1 <= bytes[0] <= 0xF3
             || (bytes[0] == 0xF4 && bytes[1] <= 0x8F)) then 4
    else 0
  }

  /** `String::from_utf8` succeeds. */
  predicate IsUtf8(bytes: seq<byte>)
    decreases |bytes|
  {
    bytes == [] || (CharLength(bytes) > 0 && IsUtf8(bytes[CharLength(bytes)..]))
  }

  function Continuation(x: nat): (b: byte)
    ensures IsContinuation(b)
  {
    0x80 + x % 64
  }

  function EncodeChar(c: char): (bytes: seq<byte>)
    ensures bytes != []
  {
    var x := c as int;
    if x <= 0x7F then [x]
    else if x <= 0x7FF then [0xC0 + x / 64, Continuation(x)]
    else if x <= 0xFFFF then [0xE0 + x / 4096, Continuation(x / 64), Continuation(x)]
    else [0xF0 + x / 262144, Continuation(x / 4096), Continuation(x / 64), Continuation(x)]
  }

  lemma ThreeBytes(x: nat, lead: nat, middle: nat, last: nat)
    requires x == 4096 * lead + 64 * middle + last && middle < 64 && last < 64
    requires 0x800 <= x <= 0xFFFF && !(0xD800 <= x <= 0xDFFF)
    ensures CharLength([0xE0 + lead, 0x80 + middle, 0x80 + last]) == 3
  {
  }

  lemma FourBytes(x: nat, lead: nat, high: nat, low: nat, last: nat)
    requires x == 262144 * lead + 4096 * high + 64 * low + last && high < 64 && low < 64 && last < 64
    requires 0x10000 <= x <= 0x10FFFF
    ensures CharLength([0xF0 + lead, 0x80 + high, 0x80 + low, 0x80 + last]) == 4
  {
  }

  lemma Digits(x: nat)
    ensures x == 64 * (x / 64) + x % 64
    ensures x / 64 == 64 * (x / 4096) + x / 64 % 64
    ensures x / 4096 == 64 * (x / 262144) + x / 4096 % 64
  {
  }

  lemma EncodedCharIsOne(c: char)
    ensures CharLength(EncodeChar(c)) == |EncodeChar(c)|
    ensures LF in EncodeChar(c) <==> c == '\n'
  {
    var x := c as int;
    Digits(x);
    if x <= 0x7FF {
    } else {
      hide CharLength;
      if x <= 0xFFFF {
        ThreeBytes(x, x / 4096, x / 64 % 64, x % 64);
      } else {
        FourBytes(x, x / 262144, x / 4096 % 64, x / 64 % 64, x % 64);
      }
    }
  }

  function Encode(s: string): seq<byte>
  {
    if s == "" then [] else EncodeChar(s[0]) + Encode(s[1..])
  }

  lemma CharLengthOfConcat(a: seq<byte>, b: seq<byte>)
    requires CharLength(a) == |a| && a != []
    ensures CharLength(a + b) == |a|
  {
  }

  lemma {:induction false} EncodeIsUtf8(s: string)
    ensures IsUtf8(Encode(s))
  {
    if s != "" {
      EncodeIsUtf8(s[1..]);
      EncodedCharIsOne(s[0]);
      CharLengthOfConcat(EncodeChar(s[0]), Encode(s[1..]));
      hide EncodeChar, CharLength;
      assert Encode(s)[|EncodeChar(s[0])|..] == Encode(s[1..]);
    }
  }

  lemma {:induction false} EncodeConcat(a: string, b: string)
    ensures Encode(a + b) == Encode(a) + Encode(b)
  {
    hide EncodeChar;
    if a == "" {
      assert a + b == b;
    } else {
      EncodeConcat(a[1..], b);
      assert (a + b)[1..] == a[1..] + b;
      Associate(EncodeChar(a[0]), Encode(a[1..]), Encode(b));
    }
  }

  lemma {:induction false} EncodeHasLf(s: string)
    ensures LF in Encode(s) <==> '\n' in s
  {
    if s != "" {
      EncodeHasLf(s[1..]);
      EncodedCharIsOne(s[0]);
      hide EncodeChar, Encode;
      assert s == [s[0]] + s[1..];
      assert Encode(s) == EncodeChar(s[0]) + Encode(s[1..]) by { EncodeUnfold(s); }
    }
  }

  lemma EncodeUnfold(s: string)
    requires s != ""
    ensures Encode(s) == EncodeChar(s[0]) + Encode(s[1..])
  {
  }

  // ---------------------------------------------------------------- exactly the encoded texts

  lemma OneDigit(x: nat, high: nat, low: nat)
    requires x == 64 * high + low && low < 64
    ensures x / 64 == high && x % 64 == low
  {
  }

  lemma Lead3(x: nat, lead: nat, middle: nat, last: nat)
    requires x == 4096 * lead + 64 * middle + last && middle < 64 && last < 64
    ensures x / 4096 == lead && x / 64 % 64 == middle && x % 64 == last
  {
    OneDigit(x, 64 * lead + middle, last);
    OneDigit(64 * lead + middle, lead, middle);
    Digits(x);
  }

  lemma Lead4(x: nat, lead: nat, high: nat, low: nat, last: nat)
    requires x == 262144 * lead + 4096 * high + 64 * low + last && high < 64 && low < 64 && last < 64
    ensures x / 262144 == lead && x / 4096 % 64 == high && x / 64 % 64 == low && x % 64 == last
  {
    OneDigit(x, 4096 * lead + 64 * high + low, last);
    OneDigit(4096 * lead + 64 * high + low, 64 * lead + high, low);
    OneDigit(64 * lead + high, lead, high);
    Digits(x);
  }

  /** Every well-formed sequence is some character's. */
  lemma DecodeChar(bytes: seq<byte>) returns (c: char)
    requires CharLength(bytes) > 0
    ensures EncodeChar(c) == bytes[..CharLength(bytes)]
  {
    var n := CharLength(bytes);
    if n == 1 {
      c := bytes[0] as char;
    } else if n == 2 {
      var lead: nat, last: nat := bytes[0] - 0xC0, bytes[1] - 0x80;
      var x := 64 * lead + last;
      OneDigit(x, lead, last);
      c := x as char;
    } else if n == 3 {
      var lead: nat, middle: nat, last: nat := bytes[0] - 0xE0, bytes[1] - 0x80, bytes[2] - 0x80;
      var x := 4096 * lead + 64 * middle + last;
      Lead3(x, lead, middle, last);
      c := x as char;
    } else {
      var lead: nat, high: nat, low: nat, last: nat := bytes[0] - 0xF0, bytes[1] - 0x80, bytes[2] - 0x80, bytes[3] - 0x80;
      var x := 262144 * lead + 4096 * high + 64 * low + last;
      Lead4(x, lead, high, low, last);
      c := x as char;
    }
  }

  lemma {:induction false} Decode(bytes: seq<byte>) returns (s: string)
    requires IsUtf8(bytes)
    ensures Encode(s) == bytes
    decreases |bytes|
  {
    if bytes == [] {
      s := "";
    } else {
      var n := CharLength(bytes);
      var c := DecodeChar(bytes);
      var rest := Decode(bytes[n..]);
      s := [c] + rest;
      hide EncodeChar, CharLength;
      assert s[1..] == rest;
      assert bytes == bytes[..n] + bytes[n..];
    }
  }

  /** What passes for UTF-8 is exactly what encodes some text. */
  lemma Utf8Iff(bytes: seq<byte>)
    ensures IsUtf8(bytes) <==> exists s :: Encode(s) == bytes
  {
    if IsUtf8(bytes) { var s := Decode(bytes); }
    if s :| Encode(s) == bytes { EncodeIsUtf8(s); }
  }

  // ---------------------------------------------------------------- order

  /** Byte strings in lexicographic order. */
  predicate BytesLeq(a: seq<byte>, b: seq<byte>)
  {
    a == [] || (b != [] && (a[0] < b[0] || (a[0] == b[0] && BytesLeq(a[1..], b[1..]))))
  }

  /** The first difference decides. */
  predicate DiffersBelow(a: seq<byte>, b: seq<byte>, k: nat)
  {
    k < |a| && k < |b| && a[..k] == b[..k] && a[k] < b[k]
  }

  lemma {:induction false} FirstDifference(a: seq<byte>, b: seq<byte>, k: nat)
    requires DiffersBelow(a, b, k)
    ensures BytesLeq(a, b) && !BytesLeq(b, a)
    decreases k
  {
    if k > 0 {
      assert a[..k][0] == b[..k][0];
      assert a[1..][..k - 1] == a[..k][1..] && b[1..][..k - 1] == b[..k][1..];
      FirstDifference(a[1..], b[1..], k - 1);
    }
  }

  lemma {:induction false} SameHead(head: seq<byte>, a: seq<byte>, b: seq<byte>)
    ensures BytesLeq(head + a, head + b) <==> BytesLeq(a, b)
  {
    if head == [] {
      assert head + a == a && head + b == b;
    } else {
      assert (head + a)[1..] == head[1..] + a && (head + b)[1..] == head[1..] + b;
      SameHead(head[1..], a, b);
    }
  }

  lemma Order2(x: nat, y: nat) returns (k: nat)
    requires x < y
    ensures k < 2 && (if k == 0 then x / 64 < y / 64 else x / 64 == y / 64 && x % 64 < y % 64)
  {
    Digits(x);
    Digits(y);
    k := if x / 64 < y / 64 then 0 else 1;
  }

  lemma Order3(x: nat, y: nat) returns (k: nat)
    requires x < y
    ensures k < 3
    ensures if k == 0 then x / 4096 < y / 4096
            else x / 4096 == y / 4096
                 && if k == 1 then x / 64 % 64 < y / 64 % 64 else x / 64 % 64 == y / 64 % 64 && x % 64 < y % 64
  {
    Digits(x);
    Digits(y);
    if x / 64 < y / 64 {
      k := Order2(x / 64, y / 64);
      Quotients(x);
      Quotients(y);
    } else {
      k := 2;
    }
  }

  lemma Quotients(x: nat)
    ensures x / 64 / 64 == x / 4096 && x / 4096 / 64 == x / 262144
  {
  }

  lemma Order4(x: nat, y: nat) returns (k: nat)
    requires x < y
    ensures k < 4
    ensures if k == 0 then x / 262144 < y / 262144
            else x / 262144 == y / 262144
                 && if k == 1 then x / 4096 % 64 < y / 4096 % 64
                    else x / 4096 % 64 == y / 4096 % 64
                         && if k == 2 then x / 64 % 64 < y / 64 % 64 else x / 64 % 64 == y / 64 % 64 && x % 64 < y % 64
  {
    Digits(x);
    Digits(y);
    Quotients(x);
    Quotients(y);
    if x / 4096 < y / 4096 {
      k := Order2(x / 4096, y / 4096);
    } else if x / 64 < y / 64 {
      k := 2;
    } else {
      k := 3;
    }
  }

  /** A smaller character's bytes differ from a larger one's, and are smaller where they do. */
  lemma CharsInOrder(c: char, d: char) returns (k: nat)
    requires c < d
    ensures DiffersBelow(EncodeChar(c), EncodeChar(d), k)
  {
    var x, y := c as int, d as int;
    if y <= 0x7F || (x <= 0x7F && y > 0x7F) || (x <= 0x7FF && y > 0x7FF) || (x <= 0xFFFF && y > 0xFFFF) {
      k := 0;
      ClassesInOrder(c, d);
    } else if y <= 0x7FF {
      k := Order2(x, y);
    } else if y <= 0xFFFF {
      k := Order3(x, y);
    } else {
      k := Order4(x, y);
    }
  }

  lemma ClassesInOrder(c: char, d: char)
    requires c < d
    requires var x, y := c as int, d as int;
             y <= 0x7F || (x <= 0x7F && y > 0x7F) || (x <= 0x7FF && y > 0x7FF) || (x <= 0xFFFF && y > 0xFFFF)
    ensures EncodeChar(c)[0] < EncodeChar(d)[0]
  {
    hide Continuation;
  }

  /** Comparing texts character by character is comparing their bytes. */
  lemma {:induction false} LeqIsByteOrder(a: string, b: string)
    ensures Leq(a, b) <==> BytesLeq(Encode(a), Encode(b))
    decreases |a|
  {
    hide EncodeChar;
    if a != "" && b != "" {
      var x, y := Encode(a[1..]), Encode(b[1..]);
      if a[0] == b[0] {
        LeqIsByteOrder(a[1..], b[1..]);
        SameHead(EncodeChar(a[0]), x, y);
      } else if a[0] < b[0] {
        OtherHeads(a[0], b[0], x, y);
      } else {
        OtherHeads(b[0], a[0], y, x);
      }
    }
  }

  lemma OtherHeads(c: char, d: char, x: seq<byte>, y: seq<byte>)
    requires c < d
    ensures BytesLeq(EncodeChar(c) + x, EncodeChar(d) + y) && !BytesLeq(EncodeChar(d) + y, EncodeChar(c) + x)
  {
    var k := CharsInOrder(c, d);
    hide EncodeChar;
    var a, b := EncodeChar(c) + x, EncodeChar(d) + y;
    assert a[..k] == EncodeChar(c)[..k] && b[..k] == EncodeChar(d)[..k];
    FirstDifference(a, b, k);
  }
}
