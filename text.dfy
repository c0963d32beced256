/**
 * Byte and character sequences and the handful of standard-library string
 * operations the invoker relies on: searching, splitting on a separator,
 * joining, ASCII trimming, decimal rendering and parsing, and
 * left-to-right substring replacement.
 */
module Text {
  import opened Wrappers

  type byte = b: int | 0 <= b < 256

  const NL: byte := 10
  const SPACE: byte := 32

  /** The bytes of an ASCII literal (code points are taken modulo 256). */
  function Ascii(s: string): (r: seq<byte>)
    ensures |r| == |s|
  {
    seq(|s|, i requires 0 <= i < |s| => s[i] as int % 256)
  }

  /** Bytes read back as characters, one character per byte (Latin-1). */
  function Chars(b: seq<byte>): (r: string)
    ensures |r| == |b|
  {
    seq(|b|, i requires 0 <= i < |b| => b[i] as char)
  }

  /** The UTF-8 encoding of one Unicode scalar value. */
  function Utf8Char(c: char): (r: seq<byte>)
    ensures 1 <= |r| <= 4
    ensures (c as int < 0x80) == (|r| == 1)
  {
    var n := c as int;
    if n < 0x80 then [n]
    else if n < 0x800 then [0xC0 + n / 64, 0x80 + n % 64]
    else if n < 0x10000 then [0xE0 + n / 4096, 0x80 + n / 64 % 64, 0x80 + n % 64]
    else [0xF0 + n / 262144, 0x80 + n / 4096 % 64, 0x80 + n / 64 % 64, 0x80 + n % 64]
  }

  /** `TextEncoder.encode`: the UTF-8 bytes of a string. */
  function Utf8(s: string): seq<byte>
  {
    if |s| == 0 then [] else Utf8Char(s[0]) + Utf8(s[1..])
  }

  /** An ASCII string encodes to its own code points, one byte each. */
  lemma {:induction false} Utf8OfAscii(s: string)
    requires forall i :: 0 <= i < |s| ==> s[i] as int < 0x80
    ensures Utf8(s) == Ascii(s)
  {
    if |s| > 0 {
      Utf8OfAscii(s[1..]);
      assert Ascii(s) == [s[0] as int] + Ascii(s[1..]);
    }
  }

  lemma AsciiConcat(a: string, b: string)
    ensures Ascii(a + b) == Ascii(a) + Ascii(b)
  {
  }

  lemma SnocAppend<T>(before: seq<T>, m: T, rest: seq<T>)
    ensures (before + [m]) + rest == before + ([m] + rest)
  {
  }

  // ---------------------------------------------------------------- search

  /** Index of the first occurrence of `x`, as `slice::iter().position`. */
  function IndexOf<T(==)>(s: seq<T>, x: T): (r: Option<nat>)
    ensures r.None? <==> x !in s
    ensures r.Some? ==> r.value < |s| && s[r.value] == x && x !in s[..r.value]
  {
    if |s| == 0 then None
    else if s[0] == x then Some(0)
    else match IndexOf(s[1..], x)
      case None => None
      case Some(k) =>
        assert s[..k + 1] == [s[0]] + s[1..][..k];
        Some(k + 1)
  }

  /** The first `x` after a prefix without one. */
  lemma IndexOfAfter<T>(a: seq<T>, x: T, b: seq<T>)
    requires x !in a
    ensures IndexOf(a + [x] + b, x) == Some(|a|)
    ensures (a + [x] + b)[|a| + 1..] == b
  {
    var s := a + [x] + b;
    assert s[|a|] == x;
    assert s[..|a|] == a;
  }

  /** `p` occurs in `s` starting at index `i`. */
  predicate OccursAt<T(==)>(s: seq<T>, p: seq<T>, i: nat)
  {
    i + |p| <= |s| && s[i..i + |p|] == p
  }

  /** Index of the first occurrence of the sub-sequence `p`, as `std::string::find`. */
  function Find<T(==)>(s: seq<T>, p: seq<T>): (r: Option<nat>)
    ensures r.Some? ==> OccursAt(s, p, r.value) && forall j :: 0 <= j < r.value ==> !OccursAt(s, p, j)
    ensures r.None? ==> forall j :: 0 <= j <= |s| ==> !OccursAt(s, p, j)
    decreases |s|
  {
    if p <= s then Some(0)
    else if |s| == 0 then None
    else match Find(s[1..], p)
      case None =>
        assert forall j :: 1 <= j <= |s| ==> (OccursAt(s, p, j) <==> OccursAt(s[1..], p, j - 1));
        None
      case Some(k) =>
        assert forall j :: 1 <= j <= |s| ==> (OccursAt(s, p, j) <==> OccursAt(s[1..], p, j - 1));
        Some(k + 1)
  }

  // ------------------------------------------------------- split and join

  /** Parts separated by `sep`; the inverse of `Split`. */
  function Join<T>(parts: seq<seq<T>>, sep: T): seq<T>
  {
    if |parts| == 0 then []
    else if |parts| == 1 then parts[0]
    else parts[0] + [sep] + Join(parts[1..], sep)
  }

  /** Joining one more part adds a separator and the part at the end. */
  lemma {:induction false} JoinSnoc<T>(parts: seq<seq<T>>, x: seq<T>, sep: T)
    requires |parts| >= 1
    ensures Join(parts + [x], sep) == Join(parts, sep) + [sep] + x
    decreases |parts|
  {
    if |parts| == 1 {
      assert parts + [x] == [parts[0], x];
      assert [parts[0], x][1..] == [x];
    } else {
      assert (parts + [x])[1..] == parts[1..] + [x];
      JoinSnoc(parts[1..], x, sep);
    }
  }

  /**
   * Split on every occurrence of `sep` (JavaScript `String.split` with a
   * one-character separator, Rust `str::split`): n separators give n+1 parts.
   */
  function Split<T(==)>(s: seq<T>, sep: T): (r: seq<seq<T>>)
    ensures |r| >= 1
    ensures forall i :: 0 <= i < |r| ==> sep !in r[i]
    ensures Join(r, sep) == s
    decreases |s|
  {
    match IndexOf(s, sep)
    case None => [s]
    case Some(k) =>
      var rest := Split(s[k + 1..], sep);
      assert s == s[..k] + [sep] + s[k + 1..];
      [s[..k]] + rest
  }

  /** Without a separator, a sequence splits into itself alone. */
  lemma SplitWhole<T>(a: seq<T>, sep: T)
    requires sep !in a
    ensures Split(a, sep) == [a]
  {
    assert IndexOf(a, sep).None?;
  }

  /** The first part ends at the first separator. */
  lemma SplitHead<T>(s: seq<T>, sep: T, k: nat)
    requires k < |s| && s[k] == sep && sep !in s[..k]
    ensures Split(s, sep)[0] == s[..k]
  {
    assert IndexOf(s, sep) == Some(k);
  }

  lemma {:induction false} SplitJoin<T>(parts: seq<seq<T>>, sep: T)
    requires |parts| >= 1
    requires forall i :: 0 <= i < |parts| ==> sep !in parts[i]
    ensures Split(Join(parts, sep), sep) == parts
    decreases |parts|
  {
    if |parts| == 1 {
      assert Join(parts, sep) == parts[0];
    } else {
      var s := Join(parts, sep);
      var tail := Join(parts[1..], sep);
      assert s == parts[0] + [sep] + tail;
      assert s[|parts[0]|] == sep;
      assert s[..|parts[0]|] == parts[0];
      assert IndexOf(s, sep) == Some(|parts[0]|);
      assert s[|parts[0]| + 1..] == tail;
      SplitJoin(parts[1..], sep);
    }
  }

  /** Parts without `x`, joined by a separator other than `x`, hold no `x`. */
  lemma {:induction false} JoinAvoids<T>(parts: seq<seq<T>>, sep: T, x: T)
    requires sep != x && forall i :: 0 <= i < |parts| ==> x !in parts[i]
    ensures x !in Join(parts, sep)
    decreases |parts|
  {
    if |parts| > 1 {
      JoinAvoids(parts[1..], sep, x);
    }
  }

  /** Rust `split_once`: the parts before and after the first `sep`. */
  function SplitOnce<T(==)>(s: seq<T>, sep: T): (r: Option<(seq<T>, seq<T>)>)
    ensures r.None? <==> sep !in s
    ensures r.Some? ==> s == r.value.0 + [sep] + r.value.1 && sep !in r.value.0
  {
    match IndexOf(s, sep)
    case None => None
    case Some(k) =>
      assert s == s[..k] + [sep] + s[k + 1..];
      Some((s[..k], s[k + 1..]))
  }

  /** A separator after a part that does not contain it is the one `split_once` finds. */
  lemma SplitOnceAt<T>(a: seq<T>, b: seq<T>, sep: T)
    requires sep !in a
    ensures SplitOnce(a + [sep] + b, sep) == Some((a, b))
  {
    var s := a + [sep] + b;
    assert s[|a|] == sep;
    var k := IndexOf(s, sep).value;
    assert k == |a|;
    assert s[..k] == a && s[k + 1..] == b;
  }

  // ------------------------------------------------------------- trimming

  /** ASCII white space as `isspace` and Rust `char::is_whitespace` agree on it. */
  predicate IsSpace(b: int)
  {
    b == 32 || 9 <= b <= 13
  }

  predicate IsSpaceChar(c: char)
  {
    IsSpace(c as int)
  }

  /** `s` with no leading or trailing element satisfying `ws`. */
  predicate Trimmed<T>(s: seq<T>, ws: T -> bool)
  {
    |s| == 0 || (!ws(s[0]) && !ws(s[|s| - 1]))
  }

  function TrimStart<T>(s: seq<T>, ws: T -> bool): (r: seq<T>)
    ensures |r| <= |s| && r == s[|s| - |r|..]
    ensures |r| == 0 || !ws(r[0])
    ensures forall i :: 0 <= i < |s| - |r| ==> ws(s[i])
  {
    if |s| > 0 && ws(s[0]) then TrimStart(s[1..], ws) else s
  }

  function TrimEnd<T>(s: seq<T>, ws: T -> bool): (r: seq<T>)
    ensures |r| <= |s| && r == s[..|r|]
    ensures |r| == 0 || !ws(r[|r| - 1])
    ensures forall i :: |r| <= i < |s| ==> ws(s[i])
  {
    if |s| > 0 && ws(s[|s| - 1]) then TrimEnd(s[..|s| - 1], ws) else s
  }

  /** Rust `str::trim` / `<[u8]>::trim_ascii`: white space removed from both ends. */
  function Trim<T>(s: seq<T>, ws: T -> bool): (r: seq<T>)
    ensures Trimmed(r, ws)
  {
    TrimEnd(TrimStart(s, ws), ws)
  }

  /** `str::trim` on text, with ASCII white space. */
  function TrimStr(s: string): (r: string)
    ensures Trimmed(r, IsSpaceChar)
  {
    Trim(s, IsSpaceChar)
  }

  lemma TrimOfTrimmed<T>(s: seq<T>, ws: T -> bool)
    requires Trimmed(s, ws)
    ensures Trim(s, ws) == s
  {
  }

  /** Trimming ignores white space added on either side. */
  lemma {:induction false} TrimPadded<T>(pre: seq<T>, s: seq<T>, post: seq<T>, ws: T -> bool)
    requires Trimmed(s, ws)
    requires forall i :: 0 <= i < |pre| ==> ws(pre[i])
    requires forall i :: 0 <= i < |post| ==> ws(post[i])
    ensures Trim(pre + s + post, ws) == s
  {
    if |s| == 0 {
      var x := pre + post;
      assert forall i :: 0 <= i < |x| ==> ws(x[i]);
      assert TrimStart(x, ws) == [];
      assert pre + s + post == x;
    } else {
      assert pre + s + post == pre + (s + post);
      TrimStartPadded(pre, s + post, ws);
      TrimEndPadded(s, post, ws);
    }
  }

  lemma {:induction false} TrimStartPadded<T>(pre: seq<T>, s: seq<T>, ws: T -> bool)
    requires |s| == 0 || !ws(s[0])
    requires forall i :: 0 <= i < |pre| ==> ws(pre[i])
    ensures TrimStart(pre + s, ws) == s
    decreases |pre|
  {
    if |pre| > 0 {
      assert (pre + s)[1..] == pre[1..] + s;
      TrimStartPadded(pre[1..], s, ws);
    } else {
      assert pre + s == s;
    }
  }

  /** White space appended at the end is trimmed away. */
  lemma TrimEndSnoc<T>(s: seq<T>, c: T, ws: T -> bool)
    requires ws(c)
    ensures TrimEnd(s + [c], ws) == TrimEnd(s, ws)
  {
    assert (s + [c])[..|s|] == s;
  }

  lemma {:induction false} TrimEndPadded<T>(s: seq<T>, post: seq<T>, ws: T -> bool)
    requires |s| == 0 || !ws(s[|s| - 1])
    requires forall i :: 0 <= i < |post| ==> ws(post[i])
    ensures TrimEnd(s + post, ws) == s
    decreases |post|
  {
    if |post| > 0 {
      assert (s + post)[..|s + post| - 1] == s + post[..|post| - 1];
      TrimEndPadded(s, post[..|post| - 1], ws);
    } else {
      assert s + post == s;
    }
  }

  // -------------------------------------------------------------- decimal

  predicate IsDigit(c: char)
  {
    '0' <= c <= '9'
  }

  predicate AllDigits(s: string)
  {
    forall i :: 0 <= i < |s| ==> IsDigit(s[i])
  }

  function DigitChar(d: nat): (c: char)
    requires d < 10
    ensures IsDigit(c) && c as int - '0' as int == d
  {
    ('0' as int + d) as char
  }

  /** The decimal rendering of `n`, as `Display` for unsigned integers and `std::to_string`. */
  function NatToString(n: nat): (r: string)
    ensures |r| >= 1 && AllDigits(r)
    ensures |r| > 1 ==> r[0] != '0'
  {
    if n < 10 then [DigitChar(n)] else NatToString(n / 10) + [DigitChar(n % 10)]
  }

  /** Decimal rendering of a signed integer. */
  function IntToString(i: int): (r: string)
    ensures |r| >= 1
    ensures i >= 0 ==> r == NatToString(i)
    ensures i < 0 ==> r == "-" + NatToString(-i)
  {
    if i < 0 then "-" + NatToString(-i) else NatToString(i)
  }

  /** The value of a string of decimal digits. */
  function DigitsValue(s: string): nat
    requires AllDigits(s)
  {
    if |s| == 0 then 0 else DigitsValue(s[..|s| - 1]) * 10 + (s[|s| - 1] as int - '0' as int)
  }

  /** The leading decimal digits of `s`. */
  function DigitRun(s: string): (r: string)
    ensures r <= s && AllDigits(r)
    ensures |r| < |s| ==> !IsDigit(s[|r|])
  {
    if |s| == 0 || !IsDigit(s[0]) then [] else [s[0]] + DigitRun(s[1..])
  }

  lemma {:induction false} DigitRunOf(d: string, rest: string)
    requires AllDigits(d)
    requires rest == [] || !IsDigit(rest[0])
    ensures DigitRun(d + rest) == d
    decreases |d|
  {
    if |d| > 0 {
      assert (d + rest)[1..] == d[1..] + rest;
      DigitRunOf(d[1..], rest);
      assert d == [d[0]] + d[1..];
    } else {
      assert d + rest == rest;
    }
  }

  /** A non-empty run of decimal digits, read as a number. */
  function ParseDigits(s: string): (r: Option<nat>)
    ensures r.Some? <==> |s| > 0 && AllDigits(s)
  {
    if |s| > 0 && AllDigits(s) then Some(DigitsValue(s)) else None
  }

  lemma {:induction false} DigitsValueOfNat(n: nat)
    ensures DigitsValue(NatToString(n)) == n
  {
    if n >= 10 {
      var s := NatToString(n);
      assert s[..|s| - 1] == NatToString(n / 10);
      DigitsValueOfNat(n / 10);
    }
  }

  lemma ParseNatToString(n: nat)
    ensures ParseDigits(NatToString(n)) == Some(n)
  {
    DigitsValueOfNat(n);
  }

  /** The decimal rendering is injective. */
  lemma NatToStringInjective(m: nat, n: nat)
    requires NatToString(m) == NatToString(n)
    ensures m == n
  {
    DigitsValueOfNat(m);
    DigitsValueOfNat(n);
  }

  /**
   * Rust `u8::from_str` / `u32::from_str` and similar: an optional '+' then
   * one or more decimal digits, whose value must be below `bound`.
   */
  function ParseUnsigned(s: string, bound: nat): (r: Option<nat>)
    ensures r.Some? ==> r.value < bound
  {
    var digits := if |s| > 0 && s[0] == '+' then s[1..] else s;
    match ParseDigits(digits)
    case Some(v) => if v < bound then Some(v) else None
    case None => None
  }

  lemma ParseUnsignedOfNat(n: nat, bound: nat)
    requires n < bound
    ensures ParseUnsigned(NatToString(n), bound) == Some(n)
  {
    ParseNatToString(n);
  }

  // ---------------------------------------------------------- replacement

  /** `p` occurs nowhere in `s`. */
  predicate Absent<T(==)>(s: seq<T>, p: seq<T>)
  {
    forall j :: 0 <= j <= |s| ==> !OccursAt(s, p, j)
  }

  /**
   * Rust `str::replace` for a non-empty pattern: every non-overlapping
   * occurrence of `p`, scanning left to right, is replaced by `r`.
   */
  function Replace<T(==)>(s: seq<T>, p: seq<T>, r: seq<T>): seq<T>
    requires |p| > 0
    decreases |s|
  {
    if |s| < |p| then s
    else if p <= s then r + Replace(s[|p|..], p, r)
    else [s[0]] + Replace(s[1..], p, r)
  }

  /** A sequence whose characters do not include the pattern's first one is left alone. */
  lemma {:induction false} ReplaceAbsent<T>(s: seq<T>, p: seq<T>, r: seq<T>)
    requires |p| > 0 && p[0] !in s
    ensures Replace(s, p, r) == s
    decreases |s|
  {
    if |s| >= |p| {
      assert s[0] != p[0];
      ReplaceAbsent(s[1..], p, r);
    }
  }

  /** An occurrence preceded by nothing that could start the pattern is the first one replaced. */
  lemma {:induction false} ReplaceFirst<T>(a: seq<T>, p: seq<T>, r: seq<T>, b: seq<T>)
    requires |p| > 0 && p[0] !in a
    ensures Replace(a + p + b, p, r) == a + r + Replace(b, p, r)
    decreases |a|
  {
    var s := a + p + b;
    if |a| == 0 {
      assert s == p + b;
      assert p <= s;
      assert s[|p|..] == b;
    } else {
      assert s[0] == a[0] != p[0];
      assert !(p <= s);
      assert s[1..] == a[1..] + p + b;
      ReplaceFirst(a[1..], p, r, b);
    }
  }

  /**
   * A single character that starts the pattern but is not followed by the
   * rest of it, in text that otherwise never contains that character, is
   * left alone.
   */
  lemma {:induction false} ReplaceMiss<T>(a: seq<T>, x: T, c: seq<T>, p: seq<T>, r: seq<T>)
    requires |p| > 0 && p[0] !in a && p[0] !in c && !(p <= [x] + c)
    ensures Replace(a + [x] + c, p, r) == a + [x] + c
    decreases |a|
  {
    var s := a + [x] + c;
    if |a| == 0 {
      assert s == [x] + c;
      assert s[1..] == c;
      ReplaceAbsent(c, p, r);
    } else {
      assert s[0] == a[0] != p[0];
      assert s[1..] == a[1..] + [x] + c;
      ReplaceMiss(a[1..], x, c, p, r);
    }
  }
}
