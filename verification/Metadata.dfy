/** Field encodings of the index text: escaped metadata values and decimal numbers
    (crates/indexer/src/store.rs, 570-634). */
module Metadata {
  import opened Text
  import opened Records

  // ---------------------------------------------------------------- escaping

  function EscapeChar(c: char): string
  {
    if c == '\\' then "\\\\"
    else if c == '\t' then "\\t"
    else if c == '\n' then "\\n"
    else if c == '\r' then "\\r"
    else [c]
  }

  function Escape(value: string): string
  {
    if value == "" then "" else EscapeChar(value[0]) + Escape(value[1..])
  }

  /** What one backslash and the character after it stand for. */
  function UnescapePair(c: char): string
  {
    if c == '\\' then "\\"
    else if c == 't' then "\t"
    else if c == 'n' then "\n"
    else if c == 'r' then "\r"
    else ['\\', c]
  }

  function Unescape(value: string): string
  {
    if value == "" then ""
    else if value[0] != '\\' then [value[0]] + Unescape(value[1..])
    else if |value| == 1 then "\\"
    else UnescapePair(value[1]) + Unescape(value[2..])
  }

  /** `write_metadata_record`: key, then the value character by character. */
  method WriteMetadataRecord(output: string, key: string, value: string) returns (written: string)
    ensures written == output + "meta\t" + key + "\t" + Escape(value) + "\n"
  {
    written := output + "meta\t" + key + "\t";
    ghost var start := written;
    for i := 0 to |value|
      invariant written + Escape(value[i..]) == start + Escape(value)
    {
      assert value[i..][1..] == value[i + 1..];
      Associate(written, EscapeChar(value[i]), Escape(value[i + 1..]));
      written := written + EscapeChar(value[i]);
    }
    assert written == start + Escape(value);
    written := written + "\n";
  }

  method UnescapeMetadataValue(value: string) returns (unescaped: string)
    ensures unescaped == Unescape(value)
  {
    hide Unescape, UnescapePair;
    unescaped := "";
    var i := 0;
    assert value[0..] == value;
    while i < |value|
      invariant i <= |value|
      invariant unescaped + Unescape(value[i..]) == Unescape(value)
    {
      var character := value[i];
      UnescapeFrom(value, i);
      if character != '\\' {
        Associate(unescaped, [character], Unescape(value[i + 1..]));
        unescaped := unescaped + [character];
        i := i + 1;
      } else if i + 1 == |value| {
        UnescapeFrom(value, i + 1);
        unescaped := unescaped + "\\";
        i := i + 1;
      } else {
        Associate(unescaped, UnescapePair(value[i + 1]), Unescape(value[i + 2..]));
        unescaped := unescaped + UnescapePair(value[i + 1]);
        i := i + 2;
      }
    }
    UnescapeFrom(value, i);
  }

  lemma UnescapeFrom(value: string, i: nat)
    requires i <= |value|
    ensures Unescape(value[i..])
         == if i == |value| then ""
            else if value[i] != '\\' then [value[i]] + Unescape(value[i + 1..])
            else if i + 1 == |value| then "\\"
            else UnescapePair(value[i + 1]) + Unescape(value[i + 2..])
  {
    hide UnescapePair;
    assert i < |value| ==> value[i..][1..] == value[i + 1..];
    assert i + 1 < |value| ==> value[i..][2..] == value[i + 2..];
  }

  lemma UnescapeHead(c: char, rest: string)
    ensures Unescape(EscapeChar(c) + rest) == [c] + Unescape(rest)
  {
  }

  /** Any value survives being written and read back. */
  lemma {:induction false} UnescapeEscape(value: string)
    ensures Unescape(Escape(value)) == value
  {
    if value != "" {
      UnescapeEscape(value[1..]);
      UnescapeHead(value[0], Escape(value[1..]));
      assert [value[0]] + value[1..] == value;
    }
  }

  predicate IsFieldSafe(s: string)
  {
    '\t' !in s && '\n' !in s && '\r' !in s
  }

  lemma {:induction false} EscapeIsFieldSafe(value: string)
    ensures IsFieldSafe(Escape(value))
  {
    if value != "" { EscapeIsFieldSafe(value[1..]); }
  }

  lemma {:induction false} EscapeConcat(a: string, b: string)
    ensures Escape(a + b) == Escape(a) + Escape(b)
  {
    if a == "" {
      assert a + b == b;
    } else {
      assert (a + b)[1..] == a[1..] + b;
      EscapeConcat(a[1..], b);
      Associate(EscapeChar(a[0]), Escape(a[1..]), Escape(b));
    }
  }

  /** The four escapes, character by character; every other character stands for itself. */
  lemma EscapeIs(a: string, c: char, b: string)
    ensures Escape(a + [c] + b)
         == Escape(a) + (if c == '\\' then "\\\\" else if c == '\t' then "\\t" else if c == '\n' then "\\n"
                         else if c == '\r' then "\\r" else [c]) + Escape(b)
    ensures Escape("") == ""
  {
    EscapeConcat(a + [c], b);
    EscapeConcat(a, [c]);
    assert [c][1..] == "" && Escape([c]) == EscapeChar(c);
  }

  /** And how they are read: an escape that is none, or a backslash at the end, is kept. */
  lemma UnescapeIs(c: char, d: char, rest: string)
    ensures c != '\\' ==> Unescape([c] + rest) == [c] + Unescape(rest)
    ensures Unescape(['\\', d] + rest)
         == (if d == '\\' then ['\\'] else if d == 't' then ['\t'] else if d == 'n' then ['\n']
             else if d == 'r' then ['\r'] else ['\\', d]) + Unescape(rest)
    ensures Unescape(['\\']) == ['\\'] && Unescape("") == ""
  {
    assert ([c] + rest)[1..] == rest;
    assert (['\\', d] + rest)[2..] == rest;
  }

  // ---------------------------------------------------------------- numbers

  predicate IsDigit(c: char)
  {
    '0' <= c <= '9'
  }

  predicate AreDigits(s: string)
  {
    forall i :: 0 <= i < |s| ==> IsDigit(s[i])
  }

  function ShowNumber(n: nat): (s: string)
    ensures s != "" && AreDigits(s)
  {
    var last := ['0' + (n % 10) as char];
    if n < 10 then last else ShowNumber(n / 10) + last
  }

  function DigitsValue(s: string): nat
    requires AreDigits(s)
  {
    if s == "" then 0
    else
      assert IsDigit(s[|s| - 1]);
      10 * DigitsValue(s[..|s| - 1]) + (s[|s| - 1] as int - '0' as int)
  }

  /** `str::parse::<u64>`: an optional plus sign, at least one digit, no overflow. */
  function ParseU64(s: string): Option<U64>
  {
    var digits := if |s| >= 2 && s[0] == '+' then s[1..] else s;
    if digits != "" && AreDigits(digits) then
      var value := DigitsValue(digits);
      if value < U64_LIMIT then Some(value) else None
    else None
  }

  function ParseOrDefault(s: string): U64
  {
    match ParseU64(s)
    case Some(value) => value
    case None => 0
  }

  lemma {:induction false} DigitsOfShown(n: nat)
    ensures DigitsValue(ShowNumber(n)) == n
  {
    if n >= 10 {
      DigitsOfShown(n / 10);
      var s := ShowNumber(n);
      assert s[..|s| - 1] == ShowNumber(n / 10);
    } else {
      assert ShowNumber(n)[..0] == "";
    }
  }

  lemma ParseShown(n: U64)
    ensures ParseOrDefault(ShowNumber(n)) == n
    ensures '\t' !in ShowNumber(n) && '\n' !in ShowNumber(n)
    ensures !IsDigit('m') && !IsDigit('\t')
  {
    DigitsOfShown(n);
    assert ShowNumber(n)[0] != '+';
  }

  /** Decimal: the last digit counts for itself, what is before it ten times. */
  lemma DigitsAreDecimal(s: string, d: char)
    requires AreDigits(s) && IsDigit(d)
    ensures DigitsValue(s + [d]) == 10 * DigitsValue(s) + (d as int - 48) && DigitsValue("") == 0
  {
    assert (s + [d])[..|s|] == s;
  }

  /** Shown numbers are decimal without leading zeros. */
  lemma ShownIsDecimal(n: nat)
    ensures DigitsValue(ShowNumber(n)) == n && (n > 0 ==> ShowNumber(n)[0] != '0') && (n == 0 ==> ShowNumber(n) == "0")
  {
    DigitsOfShown(n);
    NoLeadingZero(n);
  }

  /** Parsing takes leading zeros and one plus sign; a number of 64 bits or less is its value,
      a larger one counts as 0. */
  lemma DigitsParse(digits: string)
    requires digits != "" && forall i :: 0 <= i < |digits| ==> '0' <= digits[i] <= '9'
    ensures ParseOrDefault(digits) == if DigitsValue(digits) < 18446744073709551616 then DigitsValue(digits) else 0
    ensures ParseOrDefault("+" + digits) == ParseOrDefault(digits)
  {
    hide DigitsValue;
    assert AreDigits(digits);
    assert ("+" + digits)[1..] == digits;
    assert digits[0] != '+';
  }

  /** Whatever else a field holds counts as 0. */
  lemma OtherTextParsesAsZero(s: string)
    requires s == "" || s == "+" || !('0' <= s[0] <= '9' || s[0] == '+') || exists i :: 1 <= i < |s| && !('0' <= s[i] <= '9')
    ensures ParseOrDefault(s) == 0
  {
    if s != "" { assert !AreDigits(if |s| >= 2 && s[0] == '+' then s[1..] else s) by { NotDigits(s); } }
  }

  lemma NotDigits(s: string)
    requires s != ""
    requires s == "+" || !('0' <= s[0] <= '9' || s[0] == '+') || exists i :: 1 <= i < |s| && !('0' <= s[i] <= '9')
    ensures if |s| >= 2 && s[0] == '+' then !AreDigits(s[1..]) else !AreDigits(s)
  {
    assert !('0' <= s[0] <= '9') ==> !IsDigit(s[0]);
    if i :| 1 <= i < |s| && !('0' <= s[i] <= '9') {
      assert s[1..][i - 1] == s[i] && !IsDigit(s[1..][i - 1]) && !IsDigit(s[i]);
    }
  }

  lemma {:induction false} NoLeadingZero(n: nat)
    ensures (n > 0 ==> ShowNumber(n)[0] != '0') && (n == 0 ==> ShowNumber(n) == "0")
  {
    if n >= 10 { NoLeadingZero(n / 10); }
  }
}
