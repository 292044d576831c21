/** String rules of JavaScript and Python that the source leans on:
    `trim`/`strip`, `split(' ')`/`join(' ')`, `startsWith`, `includes`,
    ASCII case mapping, decimal rendering and `parseInt`. */
module Text {
  import opened Wrappers

  /** JavaScript's WhiteSpace and LineTerminator code points (what `trim` removes). */
  predicate IsJsSpace(c: char)
  {
    c == ' ' || c == '\t' || c == '\n' || c == '\r' || c == '\U{000B}' || c == '\U{000C}'
    || c == '\U{00A0}' || c == '\U{1680}' || ('\U{2000}' <= c <= '\U{200A}')
    || c == '\U{2028}' || c == '\U{2029}' || c == '\U{202F}' || c == '\U{205F}'
    || c == '\U{3000}' || c == '\U{FEFF}'
  }

  /** Python's `str.isspace` (what `strip()` removes). */
  predicate IsPySpace(c: char)
  {
    c == ' ' || ('\t' <= c <= '\r') || ('\U{001C}' <= c <= '\U{001F}') || c == '\U{0085}'
    || c == '\U{00A0}' || c == '\U{1680}' || ('\U{2000}' <= c <= '\U{200A}')
    || c == '\U{2028}' || c == '\U{2029}' || c == '\U{202F}' || c == '\U{205F}'
    || c == '\U{3000}'
  }

  /** Index of the first character that is not white space (|s| if none). */
  function LeadingSpace(s: string, ws: char -> bool): (i: nat)
    ensures i <= |s|
    ensures forall k :: 0 <= k < i ==> ws(s[k])
    ensures i < |s| ==> !ws(s[i])
  {
    if s == [] || !ws(s[0]) then 0 else 1 + LeadingSpace(s[1..], ws)
  }

  /** Length of `s` once trailing white space is dropped. */
  function TrailingEnd(s: string, ws: char -> bool): (j: nat)
    ensures j <= |s|
    ensures forall k :: j <= k < |s| ==> ws(s[k])
    ensures j > 0 ==> !ws(s[j - 1])
  {
    if s == [] || !ws(s[|s| - 1]) then |s| else TrailingEnd(s[..|s| - 1], ws)
  }

  function TrimStart(s: string, ws: char -> bool): string
  {
    s[LeadingSpace(s, ws)..]
  }

  /** `trim()` / `strip()`: the longest infix that neither starts nor ends with
      white space, obtained by dropping white space only. */
  function Trim(s: string, ws: char -> bool): (r: string)
    ensures |r| <= |s|
    ensures r == [] || (!ws(r[0]) && !ws(r[|r| - 1]))
    ensures exists i, j :: 0 <= i <= j <= |s| && r == s[i..j]
                           && (forall k :: 0 <= k < i ==> ws(s[k]))
                           && (forall k :: j <= k < |s| ==> ws(s[k]))
  {
    var i := LeadingSpace(s, ws);
    var t := s[i..];
    var j := TrailingEnd(t, ws);
    assert t[..j] == s[i..i + j];
    t[..j]
  }

  function JsTrim(s: string): string { Trim(s, IsJsSpace) }

  function PyStrip(s: string): string { Trim(s, IsPySpace) }

  /** Trimming is idempotent: an already trimmed string is left alone. */
  lemma {:induction false} TrimIdempotent(s: string, ws: char -> bool)
    ensures Trim(Trim(s, ws), ws) == Trim(s, ws)
  {
    var r := Trim(s, ws);
    if r != [] {
      assert LeadingSpace(r, ws) == 0;
      assert r[0..] == r;
      assert TrailingEnd(r, ws) == |r|;
    }
  }

  /** A string made of white space only trims to the empty string, and nothing
      else does. */
  lemma TrimEmptyIff(s: string, ws: char -> bool)
    ensures Trim(s, ws) == [] <==> forall k :: 0 <= k < |s| ==> ws(s[k])
  {
    var i := LeadingSpace(s, ws);
    if i < |s| {
      var t := s[i..];
      assert t[0] == s[i];
      assert TrailingEnd(t, ws) > 0;
    }
  }

  predicate StartsWith(s: string, prefix: string)
  {
    |prefix| <= |s| && s[..|prefix|] == prefix
  }

  /** `s.includes(p)`. */
  predicate Contains(s: string, p: string)
  {
    StartsWith(s, p) || (s != [] && Contains(s[1..], p))
  }

  /** `includes` finds exactly the occurrences at some index. */
  lemma {:induction false} ContainsIff(s: string, p: string)
    ensures Contains(s, p) <==> exists i :: 0 <= i <= |s| && StartsWith(s[i..], p)
  {
    if s == [] {
      assert forall i :: 0 <= i <= |s| ==> s[i..] == s;
    } else {
      ContainsIff(s[1..], p);
      assert s[0..] == s;
      if Contains(s, p) && !StartsWith(s, p) {
        var i :| 0 <= i <= |s[1..]| && StartsWith(s[1..][i..], p);
        assert s[1..][i..] == s[i + 1..];
      }
      if exists i :: 0 <= i <= |s| && StartsWith(s[i..], p) {
        var i :| 0 <= i <= |s| && StartsWith(s[i..], p);
        if i > 0 {
          assert s[1..][i - 1..] == s[i..];
        }
      }
    }
  }

  /** `s.split(sep)` for a one-character separator: never an empty array. */
  function Split(s: string, sep: char): (r: seq<string>)
    ensures |r| >= 1
    ensures forall k :: 0 <= k < |r| ==> sep !in r[k]
  {
    if s == [] then [""]
    else
      var rest := Split(s[1..], sep);
      if s[0] == sep then [""] + rest
      else [[s[0]] + rest[0]] + rest[1..]
  }

  /** `parts.join(sep)`; the empty array joins to "". */
  function Join(parts: seq<string>, sep: char): string
  {
    if parts == [] then ""
    else if |parts| == 1 then parts[0]
    else parts[0] + [sep] + Join(parts[1..], sep)
  }

  /** `slice(-n)` on an array, for n > 0. */
  function LastN<T>(xs: seq<T>, n: nat): (r: seq<T>)
    ensures |r| == if |xs| <= n then |xs| else n
  {
    if |xs| <= n then xs else xs[|xs| - n..]
  }

  /** Splitting and joining on the same separator give back the string. */
  lemma {:induction false} JoinSplit(s: string, sep: char)
    ensures Join(Split(s, sep), sep) == s
  {
    if s != [] {
      JoinSplit(s[1..], sep);
      var rest := Split(s[1..], sep);
      if s[0] == sep {
        assert Split(s, sep) == [""] + rest;
        assert ([""] + rest)[1..] == rest;
        assert Join(Split(s, sep), sep) == "" + [sep] + Join(rest, sep);
        assert s == [s[0]] + s[1..];
      } else {
        var r := [[s[0]] + rest[0]] + rest[1..];
        assert Split(s, sep) == r;
        if |rest| == 1 {
          assert Join(r, sep) == [s[0]] + rest[0];
          assert Join(rest, sep) == rest[0];
        } else {
          assert r[1..] == rest[1..];
          assert Join(r, sep) == [s[0]] + rest[0] + [sep] + Join(rest[1..], sep);
          assert Join(rest, sep) == rest[0] + [sep] + Join(rest[1..], sep);
        }
        assert s == [s[0]] + s[1..];
      }
    }
  }

  /** Joining pieces that do not contain the separator and splitting again
      gives back the pieces. */
  lemma {:induction false} SplitJoin(parts: seq<string>, sep: char)
    requires |parts| >= 1
    requires forall k :: 0 <= k < |parts| ==> sep !in parts[k]
    ensures Split(Join(parts, sep), sep) == parts
    decreases |parts|, |parts[0]|
  {
    var p := parts[0];
    if p == [] {
      if |parts| == 1 {
      } else {
        var j := Join(parts, sep);
        assert j == [sep] + Join(parts[1..], sep);
        assert j[1..] == Join(parts[1..], sep);
        SplitJoin(parts[1..], sep);
        assert Split(j, sep) == [""] + parts[1..];
        assert parts == [""] + parts[1..];
      }
    } else {
      var parts' := [p[1..]] + parts[1..];
      assert sep !in p[1..] by {
        forall c | c in p[1..] ensures c != sep { assert c in p; }
      }
      assert forall k :: 0 <= k < |parts'| ==> sep !in parts'[k] by {
        forall k | 0 <= k < |parts'| ensures sep !in parts'[k] {
          if k > 0 { assert parts'[k] == parts[k]; }
        }
      }
      SplitJoin(parts', sep);
      var j := Join(parts, sep);
      assert parts'[1..] == parts[1..];
      if |parts| == 1 {
        assert j == p;
        assert Join(parts', sep) == p[1..];
      } else {
        assert j == p + [sep] + Join(parts[1..], sep);
        assert Join(parts', sep) == p[1..] + [sep] + Join(parts[1..], sep);
      }
      assert j == [p[0]] + Join(parts', sep);
      assert j[1..] == Join(parts', sep);
      assert p[0] != sep by { assert p[0] in p; }
      assert Split(j, sep) == [[p[0]] + parts'[0]] + parts'[1..];
      assert [p[0]] + p[1..] == p;
      assert parts == [p] + parts[1..];
    }
  }

  /** Joining a tail of the pieces gives a suffix of the whole join. */
  lemma {:induction false} JoinTailIsSuffix(parts: seq<string>, sep: char, k: nat)
    requires k <= |parts|
    ensures exists pre: string :: pre + Join(parts[k..], sep) == Join(parts, sep)
    decreases k
  {
    if k == 0 {
      assert parts[0..] == parts;
      assert "" + Join(parts, sep) == Join(parts, sep);
    } else if k == |parts| {
      assert parts[k..] == [];
      assert Join(parts, sep) + Join(parts[k..], sep) == Join(parts, sep);
    } else {
      JoinTailIsSuffix(parts[1..], sep, k - 1);
      var pre :| pre + Join(parts[1..][k - 1..], sep) == Join(parts[1..], sep);
      assert parts[1..][k - 1..] == parts[k..];
      assert |parts| >= 2;
      assert (parts[0] + [sep] + pre) + Join(parts[k..], sep) == Join(parts, sep);
    }
  }

  function ToLowerAscii(s: string): (r: string)
    ensures |r| == |s|
    ensures forall k :: 0 <= k < |s| ==> r[k] == if 'A' <= s[k] <= 'Z' then (s[k] as int + 32) as char else s[k]
  {
    if s == [] then [] else
      [if 'A' <= s[0] <= 'Z' then (s[0] as int + 32) as char else s[0]] + ToLowerAscii(s[1..])
  }

  function ToUpperAscii(s: string): (r: string)
    ensures |r| == |s|
    ensures forall k :: 0 <= k < |s| ==> r[k] == if 'a' <= s[k] <= 'z' then (s[k] as int - 32) as char else s[k]
  {
    if s == [] then [] else
      [if 'a' <= s[0] <= 'z' then (s[0] as int - 32) as char else s[0]] + ToUpperAscii(s[1..])
  }

  predicate IsDigit(c: char) { '0' <= c <= '9' }

  /** Decimal rendering of a natural number (`${n}`). */
  function NatToString(n: nat): (r: string)
    ensures |r| >= 1
    ensures forall k :: 0 <= k < |r| ==> IsDigit(r[k])
  {
    if n < 10 then [('0' as int + n) as char]
    else NatToString(n / 10) + [('0' as int + n % 10) as char]
  }

  /** Value of a string of decimal digits. */
  function DigitsValue(s: string): nat
    requires forall k :: 0 <= k < |s| ==> IsDigit(s[k])
  {
    if s == [] then 0
    else
      assert IsDigit(s[|s| - 1]);
      10 * DigitsValue(s[..|s| - 1]) + (s[|s| - 1] as int - '0' as int)
  }

  /** Number of leading decimal digits. */
  function DigitRun(s: string): (k: nat)
    ensures k <= |s|
    ensures forall i :: 0 <= i < k ==> IsDigit(s[i])
    ensures k < |s| ==> !IsDigit(s[k])
  {
    if s == [] || !IsDigit(s[0]) then 0 else 1 + DigitRun(s[1..])
  }

  predicate IsHexDigit(c: char) { IsDigit(c) || 'a' <= c <= 'f' || 'A' <= c <= 'F' }

  function HexDigitValue(c: char): (v: nat)
    requires IsHexDigit(c)
    ensures v < 16
  {
    if IsDigit(c) then c as int - '0' as int
    else if 'a' <= c <= 'f' then c as int - 'a' as int + 10
    else c as int - 'A' as int + 10
  }

  /** Value of a string of hexadecimal digits. */
  function HexValue(s: string): nat
    requires forall k :: 0 <= k < |s| ==> IsHexDigit(s[k])
  {
    if s == [] then 0
    else
      assert IsHexDigit(s[|s| - 1]);
      16 * HexValue(s[..|s| - 1]) + HexDigitValue(s[|s| - 1])
  }

  /** Number of leading hexadecimal digits. */
  function HexRun(s: string): (k: nat)
    ensures k <= |s|
    ensures forall i :: 0 <= i < k ==> IsHexDigit(s[i])
    ensures k < |s| ==> !IsHexDigit(s[k])
  {
    if s == [] || !IsHexDigit(s[0]) then 0 else 1 + HexRun(s[1..])
  }

  /** A `0x` or `0X` prefix, which `parseInt` reads as base 16. */
  predicate HexPrefixed(u: string)
  {
    |u| >= 2 && u[0] == '0' && (u[1] == 'x' || u[1] == 'X')
  }

  /** `parseInt(s)` with no radix: leading white space, an optional sign, then
      either `0x`/`0X` and the longest run of hexadecimal digits, or the
      longest run of decimal digits; `None` stands for `NaN` (no digit at
      all after the prefix). */
  function ParseInt(s: string): (r: Option<int>)
    ensures r.None? <==> (var t := TrimStart(s, IsJsSpace);
                          var u := if t != [] && (t[0] == '+' || t[0] == '-') then t[1..] else t;
                          if HexPrefixed(u) then HexRun(u[2..]) == 0 else DigitRun(u) == 0)
  {
    var t := TrimStart(s, IsJsSpace);
    var negative := t != [] && t[0] == '-';
    var u := if t != [] && (t[0] == '+' || t[0] == '-') then t[1..] else t;
    if HexPrefixed(u) then
      var h := u[2..];
      var k := HexRun(h);
      if k == 0 then None
      else
        var v: int := HexValue(h[..k]);
        Some(if negative then -v else v)
    else
      var k := DigitRun(u);
      if k == 0 then None
      else
        var v: int := DigitsValue(u[..k]);
        Some(if negative then -v else v)
  }

  /** `parseInt` reads a `0x` prefix as hexadecimal: "0x1A" is 26. */
  lemma ParseIntHex()
    ensures ParseInt("0x1A") == Some(26)
  {
    var s := "0x1A";
    assert !IsJsSpace(s[0]);
    assert TrimStart(s, IsJsSpace) == s;
    assert HexPrefixed(s);
    var h := s[2..];
    assert h == "1A";
    assert HexRun(h[1..]) == 1 by { assert h[1..][1..] == ""; }
    assert HexRun(h) == 2;
    assert h[..2] == h && h[..1] == "1";
    assert HexValue("1") == 1 by { assert "1"[..0] == ""; }
    assert HexValue(h) == 16 * HexValue("1") + HexDigitValue('A');
    assert TrimStart(s, IsJsSpace)[0] != '+' && TrimStart(s, IsJsSpace)[0] != '-';
  }

  /** Rendering a number in decimal and reading it back is the identity. */
  lemma {:induction false} DigitsOfNatToString(n: nat)
    ensures DigitsValue(NatToString(n)) == n
  {
    if n >= 10 {
      DigitsOfNatToString(n / 10);
      var r := NatToString(n);
      assert r[..|r| - 1] == NatToString(n / 10);
    }
  }

  /** Different numbers render differently. */
  lemma NatToStringInjective(a: nat, b: nat)
    ensures NatToString(a) == NatToString(b) ==> a == b
  {
    DigitsOfNatToString(a);
    DigitsOfNatToString(b);
  }

  /** `parseInt` reads back the number in front of a unit such as " minutes". */
  lemma ParseIntOfRendered(n: nat, unit: string)
    requires unit == [] || (!IsDigit(unit[0]) && unit[0] != 'x' && unit[0] != 'X')
    ensures ParseInt(NatToString(n) + unit) == Some(n)
  {
    var s := NatToString(n) + unit;
    var d := NatToString(n);
    assert !IsJsSpace(s[0]) by { assert IsDigit(s[0]); }
    assert LeadingSpace(s, IsJsSpace) == 0;
    assert TrimStart(s, IsJsSpace) == s;
    assert s[0] != '+' && s[0] != '-' by { assert s[0] == d[0]; }
    DigitRunOfDigits(d, unit);
    assert s[..|d|] == d;
    DigitsOfNatToString(n);
  }

  lemma {:induction false} DigitRunOfDigits(d: string, rest: string)
    requires forall k :: 0 <= k < |d| ==> IsDigit(d[k])
    requires rest == [] || !IsDigit(rest[0])
    ensures DigitRun(d + rest) == |d|
  {
    if d != [] {
      assert (d + rest)[1..] == d[1..] + rest;
      DigitRunOfDigits(d[1..], rest);
    } else {
      assert d + rest == rest;
    }
  }
}
