// The Python string built-ins the modelled scripts rely on: strip, `in`,
// lower, replace, split, and the `{n:0Wd}` integer format.

module PyText {

  /** The characters for which Python's `str.isspace()` holds; `str.strip()`
    * with no argument and the regular-expression class `\s` use this set. */
  predicate IsSpace(c: char) {
    c == ' ' || ('\t' <= c <= '\r') || ('\U{1C}' <= c <= '\U{1F}')
    || c == '\U{85}' || c == '\U{A0}' || c == '\U{1680}'
    || ('\U{2000}' <= c <= '\U{200A}') || c == '\U{2028}' || c == '\U{2029}'
    || c == '\U{202F}' || c == '\U{205F}' || c == '\U{3000}'
  }

  /** ASCII decimal digit (the regular-expression class `\d` restricted to ASCII). */
  predicate IsDigit(c: char) { '0' <= c <= '9' }

  // ---------------------------------------------------------------------
  // strip

  /** The number of leading characters for which `drop` holds. */
  function LeadCount(s: string, drop: char -> bool): (n: nat)
    ensures n <= |s| && (n == |s| || !drop(s[n]))
  {
    if |s| > 0 && drop(s[0]) then 1 + LeadCount(s[1..], drop) else 0
  }

  /** The number of trailing characters for which `drop` holds. */
  function TrailCount(s: string, drop: char -> bool): (n: nat)
    ensures n <= |s| && (n == |s| || !drop(s[|s| - 1 - n]))
  {
    if |s| > 0 && drop(s[|s| - 1]) then 1 + TrailCount(s[..|s| - 1], drop) else 0
  }

  /** `s.lstrip(chars)`: drops the leading characters for which `drop` holds. */
  function LStrip(s: string, drop: char -> bool): (r: string)
    ensures r == [] || !drop(r[0])
  {
    s[LeadCount(s, drop)..]
  }

  /** `s.rstrip(chars)`: drops the trailing characters for which `drop` holds. */
  function RStrip(s: string, drop: char -> bool): (r: string)
    ensures r == [] || !drop(r[|r| - 1])
  {
    s[..|s| - TrailCount(s, drop)]
  }

  /** `s.strip(chars)`: both ends. */
  function StripBy(s: string, drop: char -> bool): (r: string)
    ensures |r| <= |s|
    ensures r == [] || (!drop(r[0]) && !drop(r[|r| - 1]))
  {
    RStrip(LStrip(s, drop), drop)
  }

  /** `s.strip()` */
  function Strip(s: string): (r: string)
    ensures |r| <= |s|
    ensures r == [] || (!IsSpace(r[0]) && !IsSpace(r[|r| - 1]))
  {
    StripBy(s, IsSpace)
  }

  /** `s.strip(c)` for a one-character argument. */
  function StripChar(s: string, c: char): (r: string)
    ensures |r| <= |s|
    ensures r == [] || (r[0] != c && r[|r| - 1] != c)
  {
    StripBy(s, x => x == c)
  }

  /** The stripped string is a slice of the input, starting where the
    * left strip stopped. */
  lemma StripBySlice(s: string, drop: char -> bool)
    ensures var a := |s| - |LStrip(s, drop)|;
      a + |StripBy(s, drop)| <= |s| && StripBy(s, drop) == s[a..a + |StripBy(s, drop)|]
  {
    var l := LStrip(s, drop);
    var r := RStrip(l, drop);
    var a := |s| - |l|;
    assert StripBy(s, drop) == r;
    assert l == s[a..];
    assert r == l[..|r|];
    assert s[a..][..|r|] == s[a..a + |r|];
  }

  /** Stripping a string whose ends are already kept leaves it unchanged. */
  lemma StripByNoop(s: string, drop: char -> bool)
    requires s == [] || (!drop(s[0]) && !drop(s[|s| - 1]))
    ensures StripBy(s, drop) == s
  {
  }

  lemma StripNoop(s: string)
    requires s == [] || (!IsSpace(s[0]) && !IsSpace(s[|s| - 1]))
    ensures Strip(s) == s
  {
    StripByNoop(s, IsSpace);
  }

  /** Stripping twice is stripping once. */
  lemma StripByIdempotent(s: string, drop: char -> bool)
    ensures StripBy(StripBy(s, drop), drop) == StripBy(s, drop)
  {
    StripByNoop(StripBy(s, drop), drop);
  }

  // ---------------------------------------------------------------------
  // `in`, lower, character removal

  /** Python's `pat in text` for two strings. */
  predicate Contains(text: string, pat: string)
    decreases |text|
  {
    pat <= text || (|text| > 0 && Contains(text[1..], pat))
  }

  /** `Contains` holds exactly when the pattern sits at some index. */
  lemma {:induction false} ContainsAt(text: string, pat: string, i: nat)
    requires i + |pat| <= |text| && text[i..i + |pat|] == pat
    ensures Contains(text, pat)
    decreases i
  {
    if i > 0 {
      assert text[1..][i - 1..i - 1 + |pat|] == text[i..i + |pat|];
      ContainsAt(text[1..], pat, i - 1);
    }
  }

  /** `str.lower()` on ASCII letters; every other character is kept. */
  function LowerChar(c: char): (r: char)
    ensures 'A' <= c <= 'Z' ==> 'a' <= r <= 'z' && r as int == c as int + 32
    ensures !('A' <= c <= 'Z') ==> r == c
  {
    if 'A' <= c <= 'Z' then (c as int + 32) as char else c
  }

  function Lower(s: string): (r: string)
    ensures |r| == |s|
    ensures forall i :: 0 <= i < |s| ==> r[i] == LowerChar(s[i])
  {
    seq(|s|, i requires 0 <= i < |s| => LowerChar(s[i]))
  }

  /** `s.replace(c, "")` for a one-character `c`. */
  function RemoveChar(s: string, c: char): (r: string)
    ensures c !in r
    ensures |r| <= |s|
    ensures c !in s ==> r == s
  {
    if s == [] then []
    else if s[0] == c then RemoveChar(s[1..], c)
    else [s[0]] + RemoveChar(s[1..], c)
  }

  // ---------------------------------------------------------------------
  // replace

  /** `s.replace(pat, rep)`: every non-overlapping occurrence, left to right. */
  function ReplaceAll(s: string, pat: string, rep: string): (r: string)
    requires |pat| > 0
    ensures |rep| >= |pat| ==> |r| >= |s|
    decreases |s|
  {
    if |s| < |pat| then s
    else if s[..|pat|] == pat then rep + ReplaceAll(s[|pat|..], pat, rep)
    else [s[0]] + ReplaceAll(s[1..], pat, rep)
  }

  /** A string with no occurrence of the pattern is left unchanged. */
  lemma {:induction false} ReplaceAllNoMatch(s: string, pat: string, rep: string)
    requires |pat| > 0 && !Contains(s, pat)
    ensures ReplaceAll(s, pat, rep) == s
    decreases |s|
  {
    if |s| >= |pat| {
      assert !(pat <= s);
      ReplaceAllNoMatch(s[1..], pat, rep);
    }
  }

  /** Replacing a pattern that occurs only at the very end of a string
    * rewrites just that occurrence, provided the pattern cannot overlap
    * itself through its first character. */
  lemma {:induction false} ReplaceLastOnly(x: string, pat: string, rep: string)
    requires |pat| > 0 && pat[0] !in pat[1..] && !Contains(x, pat)
    ensures ReplaceAll(x + pat, pat, rep) == x + rep
    decreases |x|
  {
    var s := x + pat;
    if |x| == 0 {
      assert s == pat && s[|pat|..] == [];
    } else {
      if |x| >= |pat| {
        assert !(pat <= x);
        assert s[..|pat|] == x[..|pat|];
      } else {
        assert s[..|pat|][|x|] == pat[0];
        assert pat[|x|] == pat[1..][|x| - 1];
      }
      assert s[..|pat|] != pat;
      assert s[1..] == x[1..] + pat;
      ReplaceLastOnly(x[1..], pat, rep);
      assert [x[0]] + (x[1..] + rep) == x + rep;
    }
  }

  /** `path.replace(".wav", "_hu.npy")` on a path that ends in its only ".wav". */
  lemma ReplaceWavSuffix(x: string)
    requires !Contains(x, ".wav")
    ensures ReplaceAll(x + ".wav", ".wav", "_hu.npy") == x + "_hu.npy"
  {
    assert ".wav"[1..] == "wav";
    ReplaceLastOnly(x, ".wav", "_hu.npy");
  }

  // ---------------------------------------------------------------------
  // find, rfind

  /** `s.find(c)` for a character that occurs. */
  function FirstIndex(s: string, c: char): (i: nat)
    requires c in s
    ensures i < |s| && s[i] == c && c !in s[..i]
  {
    if s[0] == c then 0
    else
      assert c in s[1..] by { var j :| 0 <= j < |s| && s[j] == c; assert s[1..][j - 1] == c; }
      var i := 1 + FirstIndex(s[1..], c);
      assert s[..i] == [s[0]] + s[1..][..i - 1];
      i
  }

  /** The first `c` of `z + [c] + r` is the one after `z` when `z` has
    * none, so cutting there gives back `z` and `r`. */
  lemma FirstIndexAfter(z: string, c: char, r: string)
    requires c !in z
    ensures FirstIndex(z + [c] + r, c) == |z|
    ensures (z + [c] + r)[..|z|] == z && (z + [c] + r)[|z| + 1..] == r
  {
    var s := z + [c] + r;
    assert s[|z|] == c;
    assert forall j :: 0 <= j < |z| ==> s[j] == z[j];
  }

  /** The field between a common prefix and the next `_`, and what follows
    * that `_`, are determined by the whole string. */
  lemma FirstFieldInjective(prefix: string, za: string, ra: string, zb: string, rb: string)
    requires '_' !in za && '_' !in zb
    requires prefix + za + "_" + ra == prefix + zb + "_" + rb
    ensures za == zb && ra == rb
  {
    var rest := (prefix + za + "_" + ra)[|prefix|..];
    assert rest == za + ['_'] + ra;
    assert rest == zb + ['_'] + rb;
    FirstIndexAfter(za, '_', ra);
    FirstIndexAfter(zb, '_', rb);
    assert za == rest[..|za|] && zb == rest[..|zb|];
  }

  /** `s.rfind(c) + 1`: one past the last `c`, or 0 when there is none. */
  function AfterLast(s: string, c: char): (i: nat)
    ensures i <= |s| && (i == 0 || s[i - 1] == c)
    ensures forall j :: i <= j < |s| ==> s[j] != c
    decreases |s|
  {
    if s == [] then 0
    else if s[|s| - 1] == c then |s|
    else AfterLast(s[..|s| - 1], c)
  }

  // ---------------------------------------------------------------------
  // split

  /** Splitting at every character for which `isSep` holds, keeping empty
    * pieces: `s.split(c)` for one separator, `re.split("[...]", s)` for a
    * character class. */
  function SplitWhere(s: string, isSep: char -> bool): (r: seq<string>)
    ensures |r| >= 1
    decreases |s|
  {
    if s == [] then [""]
    else
      var rest := SplitWhere(s[1..], isSep);
      if isSep(s[0]) then [""] + rest else [[s[0]] + rest[0]] + rest[1..]
  }

  /** Splitting `[c] + x`: a separator opens a new empty piece, any other
    * character joins the first piece of `x`. */
  lemma SplitWhereCons(c: char, x: string, isSep: char -> bool)
    ensures var rest := SplitWhere(x, isSep);
      SplitWhere([c] + x, isSep) == if isSep(c) then [""] + rest else [[c] + rest[0]] + rest[1..]
  {
    assert ([c] + x)[0] == c && ([c] + x)[1..] == x;
  }

  /** No piece holds a separator. */
  lemma {:induction false} SplitPieceNoSeparator(s: string, isSep: char -> bool, i: nat)
    requires i < |SplitWhere(s, isSep)|
    ensures var p := SplitWhere(s, isSep)[i];
      forall j :: 0 <= j < |p| ==> !isSep(p[j])
    decreases |s|
  {
    if s != [] {
      var rest := SplitWhere(s[1..], isSep);
      if isSep(s[0]) {
        if i > 0 {
          SplitPieceNoSeparator(s[1..], isSep, i - 1);
        }
      } else {
        SplitPieceNoSeparator(s[1..], isSep, i);
      }
    }
  }

  /** A string without separators is a single piece. */
  lemma {:induction false} NoSeparatorOnePiece(s: string, isSep: char -> bool)
    requires forall j :: 0 <= j < |s| ==> !isSep(s[j])
    ensures SplitWhere(s, isSep) == [s]
    decreases |s|
  {
    if s != [] {
      NoSeparatorOnePiece(s[1..], isSep);
      assert [s[0]] + s[1..] == s;
    }
  }

  function Concat(ps: seq<string>): string {
    if ps == [] then "" else ps[0] + Concat(ps[1..])
  }

  /** `s` without its separator characters. */
  function DropWhere(s: string, isSep: char -> bool): string {
    if s == [] then ""
    else if isSep(s[0]) then DropWhere(s[1..], isSep)
    else [s[0]] + DropWhere(s[1..], isSep)
  }

  function CountWhere(s: string, isSep: char -> bool): nat {
    if s == [] then 0 else (if isSep(s[0]) then 1 else 0) + CountWhere(s[1..], isSep)
  }

  /** Splitting loses only the separators, keeps the order of everything
    * else, and makes one piece more than there are separators. */
  lemma {:induction false} SplitWhereParts(s: string, isSep: char -> bool)
    ensures Concat(SplitWhere(s, isSep)) == DropWhere(s, isSep)
    ensures |SplitWhere(s, isSep)| == CountWhere(s, isSep) + 1
    decreases |s|
  {
    if s != [] {
      SplitWhereParts(s[1..], isSep);
      var rest := SplitWhere(s[1..], isSep);
      if !isSep(s[0]) {
        var r := [[s[0]] + rest[0]] + rest[1..];
        assert r[1..] == rest[1..];
        assert Concat(rest) == rest[0] + Concat(rest[1..]);
      }
    }
  }

  /** Splitting at a `[t]`-separator splits the two sides independently. */
  lemma {:induction false} SplitWhereAt(a: string, t: char, b: string, isSep: char -> bool)
    requires isSep(t)
    ensures SplitWhere(a + [t] + b, isSep) == SplitWhere(a, isSep) + SplitWhere(b, isSep)
    decreases |a|
  {
    if a == [] {
      assert a + [t] + b == [t] + b;
      SplitWhereCons(t, b, isSep);
    } else {
      var tail := a[1..] + [t] + b;
      assert a + [t] + b == [a[0]] + tail;
      assert a == [a[0]] + a[1..];
      SplitWhereAt(a[1..], t, b, isSep);
      SplitWhereCons(a[0], tail, isSep);
      SplitWhereCons(a[0], a[1..], isSep);
      FirstPieceAppend(isSep(a[0]), a[0], SplitWhere(a[1..], isSep), SplitWhere(b, isSep));
    }
  }

  /** The step of `SplitWhereCons` commutes with appending further pieces. */
  lemma FirstPieceAppend(sep: bool, c: char, rest: seq<string>, bs: seq<string>)
    requires |rest| >= 1
    ensures var both := rest + bs;
      (if sep then [""] + both else [[c] + both[0]] + both[1..])
      == (if sep then [""] + rest else [[c] + rest[0]] + rest[1..]) + bs
  {
    if !sep {
      assert (rest + bs)[1..] == rest[1..] + bs;
    }
  }

  /** Joining the pieces of `s.split(c)` with `c` gives `s` back. */
  function Join(ps: seq<string>, sep: char): string
    requires |ps| >= 1
  {
    if |ps| == 1 then ps[0] else ps[0] + [sep] + Join(ps[1..], sep)
  }

  lemma {:induction false} SplitJoin(s: string, sep: char)
    ensures Join(SplitWhere(s, x => x == sep), sep) == s
    decreases |s|
  {
    if s != [] {
      var rest := SplitWhere(s[1..], x => x == sep);
      SplitJoin(s[1..], sep);
      if s[0] != sep {
        var r := [[s[0]] + rest[0]] + rest[1..];
        assert r[1..] == rest[1..];
        if |rest| > 1 {
          assert Join(r, sep) == [s[0]] + rest[0] + [sep] + Join(rest[1..], sep);
        }
      }
    }
  }

  // ---------------------------------------------------------------------
  // integer formatting

  function DigitChar(d: nat): (c: char)
    requires d < 10
    ensures IsDigit(c)
  {
    ('0' as int + d) as char
  }

  /** `str(n)` for a natural number. */
  function Digits(n: nat): (r: string)
    ensures |r| >= 1
    ensures forall i :: 0 <= i < |r| ==> IsDigit(r[i])
  {
    if n < 10 then [DigitChar(n)] else Digits(n / 10) + [DigitChar(n % 10)]
  }

  /** `str(n)` for any integer: a minus sign before the digits of a
    * negative number. */
  function IntText(n: int): (r: string)
    ensures r != [] && (n >= 0 <==> IsDigit(r[0]))
    ensures forall i :: 0 < i < |r| ==> IsDigit(r[i])
  {
    if n < 0 then "-" + Digits(-n) else Digits(n)
  }

  /** `int(s)` for a string of ASCII digits. */
  function ParseDecimal(s: string): nat
    requires forall i :: 0 <= i < |s| ==> IsDigit(s[i])
  {
    if s == [] then 0
    else ParseDecimal(s[..|s| - 1]) * 10 + DigitValue(s[|s| - 1])
  }

  function DigitValue(c: char): (d: nat)
    requires IsDigit(c)
    ensures d < 10 && DigitChar(d) == c
  {
    c as int - '0' as int
  }

  function Zeros(k: nat): (r: string)
    ensures |r| == k && forall i :: 0 <= i < k ==> r[i] == '0'
  {
    seq(k, _ => '0')
  }

  /** `f"{n:0{width}d}"` for a natural number: left-padded with zeros to at
    * least `width` characters, never truncated. */
  function ZeroPad(n: nat, width: nat): (r: string)
    ensures |r| == if |Digits(n)| < width then width else |Digits(n)|
    ensures forall i :: 0 <= i < |r| ==> IsDigit(r[i])
  {
    (if |Digits(n)| < width then Zeros(width - |Digits(n)|) else "") + Digits(n)
  }

  lemma {:induction false} ParseDigits(n: nat)
    ensures ParseDecimal(Digits(n)) == n
  {
    if n >= 10 {
      var d := Digits(n);
      assert d[..|d| - 1] == Digits(n / 10);
      ParseDigits(n / 10);
    }
  }

  lemma {:induction false} ParseLeadingZeros(k: nat, s: string)
    requires forall i :: 0 <= i < |s| ==> IsDigit(s[i])
    ensures ParseDecimal(Zeros(k) + s) == ParseDecimal(s)
    decreases |s|
  {
    var z := Zeros(k) + s;
    if s == [] {
      assert z == Zeros(k);
      ZerosParse(k);
    } else {
      assert z[..|z| - 1] == Zeros(k) + s[..|s| - 1];
      ParseLeadingZeros(k, s[..|s| - 1]);
    }
  }

  lemma {:induction false} ZerosParse(k: nat)
    ensures ParseDecimal(Zeros(k)) == 0
  {
    if k > 0 {
      assert Zeros(k)[..k - 1] == Zeros(k - 1);
      ZerosParse(k - 1);
    }
  }

  /** The padded field reads back as the number it was made from. */
  lemma ZeroPadRoundTrip(n: nat, width: nat)
    ensures ParseDecimal(ZeroPad(n, width)) == n
  {
    ParseDigits(n);
    if |Digits(n)| < width {
      ParseLeadingZeros(width - |Digits(n)|, Digits(n));
    } else {
      assert ZeroPad(n, width) == Digits(n);
    }
  }

  /** Different numbers give different padded fields. */
  lemma ZeroPadInjective(a: nat, b: nat, width: nat)
    requires ZeroPad(a, width) == ZeroPad(b, width)
    ensures a == b
  {
    ZeroPadRoundTrip(a, width);
    ZeroPadRoundTrip(b, width);
  }
}
