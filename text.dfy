/** The string operations of Python and Go that the modelled code relies on,
    written out over `seq<char>`: prefix and substring tests, `str.strip`,
    `str.split`, `str.join`, `str.replace` / `strings.ReplaceAll`, ASCII case
    mapping and decimal rendering of naturals. */
module Text {

  import opened Wrappers

  predicate StartsWith(s: string, p: string) {
    |p| <= |s| && s[..|p|] == p
  }

  predicate EndsWith(s: string, p: string) {
    |p| <= |s| && s[|s| - |p|..] == p
  }

  /** `sub` occurs in `s` starting at index `i`. */
  predicate OccursAt(s: string, sub: string, i: int) {
    0 <= i && i + |sub| <= |s| && s[i..i + |sub|] == sub
  }

  /** A prefix of a prefix is a prefix. */
  lemma StartsWithTrans(s: string, p: string, q: string)
    requires StartsWith(s, p) && StartsWith(p, q)
    ensures StartsWith(s, q)
  {
    assert s[..|q|] == s[..|p|][..|q|];
  }

  /** A string followed by anything starts with that string. */
  lemma StartsWithConcat(s: string, t: string)
    ensures StartsWith(s + t, s)
  {
    assert (s + t)[..|s|] == s;
  }

  /** Python's `sub in s`. */
  predicate Contains(s: string, sub: string) {
    exists i :: 0 <= i <= |s| - |sub| && OccursAt(s, sub, i)
  }

  lemma ContainsWitness(s: string, sub: string, i: int)
    requires OccursAt(s, sub, i)
    ensures Contains(s, sub)
  {
  }

  /** A substring of either part is a substring of the concatenation. */
  lemma ContainsConcat(a: string, b: string, sub: string)
    requires Contains(a, sub) || Contains(b, sub)
    ensures Contains(a + b, sub)
  {
    if Contains(a, sub) {
      var i :| 0 <= i <= |a| - |sub| && OccursAt(a, sub, i);
      assert (a + b)[i..i + |sub|] == a[i..i + |sub|];
      assert OccursAt(a + b, sub, i);
    } else {
      var i :| 0 <= i <= |b| - |sub| && OccursAt(b, sub, i);
      assert (a + b)[|a| + i..|a| + i + |sub|] == b[i..i + |sub|];
      assert OccursAt(a + b, sub, |a| + i);
    }
  }

  /** Every string contains itself. */
  lemma ContainsSelf(s: string)
    ensures Contains(s, s)
  {
    assert OccursAt(s, s, 0);
  }

  /** Python's `str.isspace()` for one character: the ASCII whitespace, the
      separators U+001C..U+001F and the Unicode space characters, among them
      the ideographic space U+3000 of Japanese input. */
  predicate IsSpace(c: char) {
    c == ' ' || ('\t' <= c <= '\r') || ('\U{1c}' <= c <= '\U{1f}')
    || c == '\U{85}' || c == '\U{a0}' || c == '\U{1680}'
    || ('\U{2000}' <= c <= '\U{200a}') || c == '\U{2028}' || c == '\U{2029}'
    || c == '\U{202f}' || c == '\U{205f}' || c == '\U{3000}'
  }

  predicate NoSpace(s: string) {
    forall i :: 0 <= i < |s| ==> !IsSpace(s[i])
  }

  function LowerChar(c: char): char {
    if 'A' <= c <= 'Z' then (c as int + 32) as char else c
  }

  function UpperChar(c: char): char {
    if 'a' <= c <= 'z' then (c as int - 32) as char else c
  }

  /** `str.lower()` restricted to ASCII letters. */
  function Lower(s: string): (r: string)
    ensures |r| == |s|
    ensures forall i :: 0 <= i < |s| ==> r[i] == LowerChar(s[i])
  {
    seq(|s|, i requires 0 <= i < |s| => LowerChar(s[i]))
  }

  /** `str.capitalize()` restricted to ASCII letters: first character upper
      case, all others lower case. */
  function Capitalize(s: string): (r: string)
    ensures |r| == |s|
    ensures |s| > 0 ==> r[0] == UpperChar(s[0]) && r[1..] == Lower(s[1..])
  {
    if |s| == 0 then "" else [UpperChar(s[0])] + Lower(s[1..])
  }

  function StripLeft(s: string): (r: string)
    ensures |r| <= |s| && r == s[|s| - |r|..]
    ensures forall i :: 0 <= i < |s| - |r| ==> IsSpace(s[i])
    ensures |r| > 0 ==> !IsSpace(r[0])
  {
    if |s| > 0 && IsSpace(s[0]) then StripLeft(s[1..]) else s
  }

  function StripRight(s: string): (r: string)
    ensures |r| <= |s| && r == s[..|r|]
    ensures forall i :: |r| <= i < |s| ==> IsSpace(s[i])
    ensures |r| > 0 ==> !IsSpace(r[|r| - 1])
  {
    if |s| > 0 && IsSpace(s[|s| - 1]) then StripRight(s[..|s| - 1]) else s
  }

  /** `r` is the slice of `s` at `a` and everything of `s` outside it is
      whitespace. */
  ghost predicate TrimmedFrom(s: string, r: string, a: int) {
    0 <= a <= |s| - |r| && r == s[a..a + |r|]
    && (forall i :: 0 <= i < a ==> IsSpace(s[i]))
    && (forall i :: a + |r| <= i < |s| ==> IsSpace(s[i]))
  }

  /** Python's `str.strip()`: the longest slice of `s` without leading or
      trailing whitespace, all removed characters being whitespace. */
  function Strip(s: string): (r: string)
    ensures |r| > 0 ==> !IsSpace(r[0]) && !IsSpace(r[|r| - 1])
    ensures exists a :: TrimmedFrom(s, r, a)
  {
    var l := StripLeft(s);
    var r := StripRight(l);
    assert r == s[|s| - |l|..][..|r|] == s[|s| - |l|..|s| - |l| + |r|];
    assert TrimmedFrom(s, r, |s| - |l|);
    r
  }

  /** Stripping a string that already has no whitespace at either end
      changes nothing. */
  lemma StripIdempotent(s: string)
    ensures Strip(Strip(s)) == Strip(s)
  {
    var r := Strip(s);
    if |r| > 0 {
      assert StripLeft(r) == r;
      assert StripRight(r) == r;
    }
  }

  /** A word after one space strips to the word. */
  lemma StripSpaceWord(w: string)
    requires |w| > 0 && NoSpace(w)
    ensures Strip(" " + w) == w
  {
    assert (" " + w)[1..] == w;
    assert StripLeft(w) == w;
    assert StripRight(w) == w;
  }

  /** The first element of Python's `s.split()`, or None when `s` holds only
      whitespace (where `split()[0]` raises IndexError). */
  function FirstToken(s: string): (r: Option<string>)
    ensures r.None? <==> (forall i :: 0 <= i < |s| ==> IsSpace(s[i]))
    ensures r.Some? ==> |r.value| > 0 && NoSpace(r.value)
    ensures |s| > 0 && !IsSpace(s[0]) ==> r == Some(TakeWord(s))
  {
    var t := StripLeft(s);
    if |t| == 0 then None else Some(TakeWord(t))
  }

  /** The longest prefix of `s` without whitespace. */
  function TakeWord(s: string): (r: string)
    ensures |r| <= |s| && r == s[..|r|] && NoSpace(r)
    ensures |r| < |s| ==> IsSpace(s[|r|])
  {
    if |s| == 0 || IsSpace(s[0]) then "" else [s[0]] + TakeWord(s[1..])
  }

  /** `sep.join(parts)`. */
  function Join(sep: string, parts: seq<string>): string {
    if |parts| == 0 then ""
    else if |parts| == 1 then parts[0]
    else parts[0] + sep + Join(sep, parts[1..])
  }

  /** A join of several parts starts with the first part. */
  lemma JoinStartsWith(sep: string, parts: seq<string>)
    requires |parts| > 0
    ensures StartsWith(Join(sep, parts), parts[0])
  {
    if |parts| > 1 {
      assert Join(sep, parts) == parts[0] + (sep + Join(sep, parts[1..]));
    }
  }

  /** Python's `s.split(c)` for a one-character separator: the pieces
      between separators, empty ones included. */
  function SplitOn(s: string, c: char): (r: seq<string>)
    ensures |r| >= 1
    ensures forall k :: 0 <= k < |r| ==> c !in r[k]
  {
    if |s| == 0 then [""]
    else
      var rest := SplitOn(s[1..], c);
      if s[0] == c then [""] + rest else [[s[0]] + rest[0]] + rest[1..]
  }

  /** Joining the pieces of a split with the separator gives back the
      original string. */
  lemma {:induction false} SplitOnJoin(s: string, c: char)
    ensures Join([c], SplitOn(s, c)) == s
  {
    if |s| > 0 {
      SplitOnJoin(s[1..], c);
      var rest := SplitOn(s[1..], c);
      if s[0] != c && |rest| > 1 {
        assert Join([c], [[s[0]] + rest[0]] + rest[1..])
            == [s[0]] + rest[0] + [c] + Join([c], rest[1..]);
      }
    }
  }

  function DigitChar(d: nat): char
    requires d < 10
  {
    "0123456789"[d]
  }

  predicate IsDigit(c: char) {
    '0' <= c <= '9'
  }

  /** Python's `str(n)` for a natural number. */
  function NatToString(n: nat): (r: string)
    ensures |r| > 0
    ensures forall i :: 0 <= i < |r| ==> IsDigit(r[i])
  {
    if n < 10 then [DigitChar(n)] else NatToString(n / 10) + [DigitChar(n % 10)]
  }

  /** Python's `str(n)` for an integer: a minus sign before the digits of
      a negative number. */
  function IntToString(n: int): (r: string)
    ensures |r| > 0
    ensures n >= 0 ==> r == NatToString(n)
  {
    if n < 0 then "-" + NatToString(-n) else NatToString(n)
  }

  /** The value of a non-empty string of decimal digits (Python's `int` on
      such a string). */
  function DigitsValue(s: string): nat
    requires forall i :: 0 <= i < |s| ==> IsDigit(s[i])
  {
    if |s| == 0 then 0
    else
      assert IsDigit(s[|s| - 1]);
      10 * DigitsValue(s[..|s| - 1]) + (s[|s| - 1] as int - '0' as int)
  }

  /** Reading back the decimal rendering of a natural gives the natural. */
  lemma {:induction false} DigitsValueOfNatToString(n: nat)
    ensures DigitsValue(NatToString(n)) == n
  {
    if n >= 10 {
      DigitsValueOfNatToString(n / 10);
      var s := NatToString(n);
      assert s[..|s| - 1] == NatToString(n / 10);
    }
  }

  /** The text of `s` from position `i` with every non-overlapping occurrence
      of `pat`, scanning from the left, replaced by `rep`: Python's
      `str.replace` and Go's `strings.ReplaceAll` for a non-empty pattern. */
  function Replace(s: string, pat: string, rep: string): string
    requires |pat| > 0
    decreases |s|
  {
    if |s| < |pat| then s
    else if s[..|pat|] == pat then rep + Replace(s[|pat|..], pat, rep)
    else [s[0]] + Replace(s[1..], pat, rep)
  }

  /** A replacement no longer than its pattern never lengthens the text. */
  lemma {:induction false} ReplaceShorter(s: string, pat: string, rep: string)
    requires |pat| > 0 && |rep| <= |pat|
    ensures |Replace(s, pat, rep)| <= |s|
    decreases |s|
  {
    if |s| < |pat| {
    } else if s[..|pat|] == pat {
      ReplaceShorter(s[|pat|..], pat, rep);
    } else {
      ReplaceShorter(s[1..], pat, rep);
    }
  }

  /** A character in neither the text nor the replacement is not in the
      result. */
  lemma {:induction false} ReplaceAbsent(s: string, pat: string, rep: string, c: char)
    requires |pat| > 0 && c !in s && c !in rep
    ensures c !in Replace(s, pat, rep)
    decreases |s|
  {
    if |s| < |pat| {
    } else if s[..|pat|] == pat {
      ReplaceAbsent(s[|pat|..], pat, rep, c);
    } else {
      ReplaceAbsent(s[1..], pat, rep, c);
    }
  }

  /** Replacing a single character by text without it removes every
      occurrence of that character. */
  lemma {:induction false} ReplaceCharGone(s: string, c: char, rep: string)
    requires c !in rep
    ensures c !in Replace(s, [c], rep)
    decreases |s|
  {
    if |s| < 1 {
    } else if s[..1] == [c] {
      ReplaceCharGone(s[1..], c, rep);
    } else {
      assert s[0] != c;
      ReplaceCharGone(s[1..], c, rep);
    }
  }

  /** Text without the pattern's first character is left as it is. */
  lemma {:induction false} ReplaceNothing(s: string, pat: string, rep: string)
    requires |pat| > 0 && pat[0] !in s
    ensures Replace(s, pat, rep) == s
    decreases |s|
  {
    if |s| < |pat| {
    } else {
      assert s[..|pat|][0] == s[0];
      ReplaceNothing(s[1..], pat, rep);
      assert [s[0]] + s[1..] == s;
    }
  }

  /** One of `a` and `b` is a prefix of the other. */
  predicate Overlaps(a: string, b: string) {
    var n := if |a| < |b| then |a| else |b|;
    a[..n] == b[..n]
  }

  /** No proper tail of `q` runs into the start of `rep`: an occurrence of
      `q` cannot end inside a copy of `rep`. */
  predicate NoTailMeets(q: string, rep: string) {
    forall m :: 1 <= m < |q| ==> !Overlaps(q[m..], rep)
  }

  /** Where a text does not start with the tail `q[m..]`, its replacement
      does not either. */
  lemma {:induction false} ReplaceNoPrefix(t: string, pat: string, rep: string, q: string, m: nat)
    requires |pat| > 0 && 1 <= m < |q| && NoTailMeets(q, rep)
    requires !StartsWith(t, q[m..])
    ensures !StartsWith(Replace(t, pat, rep), q[m..])
    decreases |t|
  {
    if |t| < |pat| {
    } else if t[..|pat|] == pat {
      NoOverlapNoPrefix(rep, Replace(t[|pat|..], pat, rep), q[m..]);
    } else {
      assert q[m..][1..] == q[m + 1..];
      StartsWithCons(t, q[m..]);
      StartsWithCons([t[0]] + Replace(t[1..], pat, rep), q[m..]);
      if t[0] == q[m] {
        ReplaceNoPrefix(t[1..], pat, rep, q, m + 1);
      }
    }
  }

  /** A text starts with `x` exactly when its first character starts `x`
      and the rest of it starts with the rest of `x`. */
  lemma StartsWithCons(t: string, x: string)
    requires |t| > 0 && |x| > 0
    ensures StartsWith(t, x) <==> t[0] == x[0] && StartsWith(t[1..], x[1..])
  {
    if t[0] == x[0] && StartsWith(t[1..], x[1..]) {
      assert t[..|x|] == [t[0]] + t[1..][..|x| - 1];
    }
    if StartsWith(t, x) {
      assert t[1..][..|x| - 1] == t[..|x|][1..];
    }
  }

  /** Text that begins with `rep` does not start with an `x` that neither
      extends nor is a prefix of `rep`. */
  lemma NoOverlapNoPrefix(rep: string, r: string, x: string)
    requires !Overlaps(x, rep)
    ensures !StartsWith(rep + r, x)
  {
    if |x| <= |rep| {
      assert (rep + r)[..|x|] == rep[..|x|];
    } else if |x| <= |rep + r| {
      assert (rep + r)[..|x|][..|rep|] == rep;
    }
  }

  /** Text that begins with none of `q`'s first character followed by text
      without `q` does not contain `q`. */
  lemma ContainsNotAcross(a: string, b: string, q: string)
    requires |q| > 0 && q[0] !in a && !Contains(b, q)
    ensures !Contains(a + b, q)
  {
    forall i | 0 <= i <= |a + b| - |q|
      ensures !OccursAt(a + b, q, i)
    {
      if i < |a| {
        assert (a + b)[i] == a[i];
      } else {
        assert (a + b)[i..i + |q|] == b[i - |a|..i - |a| + |q|];
        assert !OccursAt(b, q, i - |a|);
      }
    }
  }

  /** A character that cannot start `q`, or whose continuation does not
      finish it, adds no occurrence of `q`. */
  lemma ContainsNotCons(c: char, b: string, q: string)
    requires |q| > 0 && !Contains(b, q)
    requires c == q[0] ==> !StartsWith(b, q[1..])
    ensures !Contains([c] + b, q)
  {
    forall i | 0 <= i <= |[c] + b| - |q|
      ensures !OccursAt([c] + b, q, i)
    {
      if i == 0 {
        if c == q[0] {
          assert ([c] + b)[1..|q|] == b[..|q| - 1];
          assert q[1..] == q[..|q|][1..];
        }
      } else {
        assert ([c] + b)[i..i + |q|] == b[i - 1..i - 1 + |q|];
        assert !OccursAt(b, q, i - 1);
      }
    }
  }

  /** A character outside `q` appended to text without `q` adds no
      occurrence of it. */
  lemma ContainsNotSnoc(a: string, c: char, q: string)
    requires |q| > 0 && c !in q && !Contains(a, q)
    ensures !Contains(a + [c], q)
  {
    forall i | 0 <= i <= |a + [c]| - |q|
      ensures !OccursAt(a + [c], q, i)
    {
      if i + |q| <= |a| {
        assert (a + [c])[i..i + |q|] == a[i..i + |q|];
        assert !OccursAt(a, q, i);
      } else {
        assert (a + [c])[i..i + |q|][|q| - 1] == c;
      }
    }
  }

  /** A suffix of text without `q` is without `q`. */
  lemma ContainsNotSuffix(s: string, k: nat, q: string)
    requires k <= |s| && !Contains(s, q)
    ensures !Contains(s[k..], q)
  {
    forall i | 0 <= i <= |s[k..]| - |q|
      ensures !OccursAt(s[k..], q, i)
    {
      assert s[k..][i..i + |q|] == s[k + i..k + i + |q|];
      assert !OccursAt(s, q, k + i);
    }
  }

  /** Replacing leaves no occurrence of `q` where `q` is the pattern itself
      or was absent, provided the replacement holds no first character of
      `q` and no tail of `q` runs into it. */
  lemma {:induction false} ReplaceAvoids(s: string, pat: string, rep: string, q: string)
    requires |pat| > 0 && |q| > 0 && q[0] !in rep && NoTailMeets(q, rep)
    requires q == pat || !Contains(s, q)
    ensures !Contains(Replace(s, pat, rep), q)
    decreases |s|
  {
    if |s| < |pat| {
    } else if s[..|pat|] == pat {
      if q != pat {
        ContainsNotSuffix(s, |pat|, q);
      }
      ReplaceAvoids(s[|pat|..], pat, rep, q);
      ContainsNotAcross(rep, Replace(s[|pat|..], pat, rep), q);
    } else {
      if q != pat {
        ContainsNotSuffix(s, 1, q);
      }
      ReplaceAvoids(s[1..], pat, rep, q);
      assert !StartsWith(s, q) by {
        if q != pat {
          assert !OccursAt(s, q, 0);
        }
      }
      StartsWithCons(s, q);
      if s[0] == q[0] {
        ReplaceNoPrefix(s[1..], pat, rep, q, 1);
      }
      assert [s[0]] + s[1..] == s;
      ContainsNotCons(s[0], Replace(s[1..], pat, rep), q);
    }
  }

  /** No tail can run into a replacement whose first character does not
      occur in `q` after its first position. */
  lemma NoTailMeetsFirst(q: string, rep: string)
    requires |rep| > 0 && forall m :: 1 <= m < |q| ==> q[m] != rep[0]
    ensures NoTailMeets(q, rep)
  {
    forall m | 1 <= m < |q|
      ensures !Overlaps(q[m..], rep)
    {
      assert q[m..][0] == q[m];
    }
  }

  /** Python's `s.find(sub, start)`: the first position at or after
      `start` where `sub` occurs. */
  function Find(s: string, sub: string, start: nat): (r: Option<nat>)
    ensures r.Some? ==> start <= r.value && OccursAt(s, sub, r.value)
    ensures forall k :: start <= k && (r.None? || k < r.value) ==> !OccursAt(s, sub, k)
    decreases |s| - start
  {
    if start + |sub| > |s| then None
    else if OccursAt(s, sub, start) then Some(start)
    else Find(s, sub, start + 1)
  }

  /** Searching from the start finds `sub` exactly when `s` contains it. */
  lemma FindContains(s: string, sub: string)
    ensures Find(s, sub, 0).Some? <==> Contains(s, sub)
  {
    if Contains(s, sub) {
      var i :| 0 <= i <= |s| - |sub| && OccursAt(s, sub, i);
    }
  }

  /** A piece without the separator runs on into the first piece of what
      follows it. */
  lemma {:induction false} SplitOnPrefix(p: string, c: char, rest: string)
    requires c !in p
    ensures var r := SplitOn(rest, c);
            SplitOn(p + rest, c) == [p + r[0]] + r[1..]
  {
    if |p| > 0 {
      SplitOnPrefix(p[1..], c, rest);
      assert (p + rest)[1..] == p[1..] + rest;
      assert [p[0]] + (p[1..] + SplitOn(rest, c)[0]) == p + SplitOn(rest, c)[0];
    } else {
      var r := SplitOn(rest, c);
      assert p + rest == rest && p + r[0] == r[0];
      assert [r[0]] + r[1..] == r;
    }
  }

  /** Splitting a join of pieces without the separator gives the pieces back. */
  lemma {:induction false} SplitOnOfJoin(parts: seq<string>, c: char)
    requires |parts| > 0 && forall k :: 0 <= k < |parts| ==> c !in parts[k]
    ensures SplitOn(Join([c], parts), c) == parts
  {
    if |parts| == 1 {
      SplitOnPrefix(parts[0], c, "");
      assert parts[0] + "" == parts[0];
    } else {
      var j := Join([c], parts[1..]);
      SplitOnOfJoin(parts[1..], c);
      assert ([c] + j)[1..] == j;
      assert SplitOn([c] + j, c) == [""] + parts[1..];
      assert Join([c], parts) == parts[0] + ([c] + j);
      SplitOnPrefix(parts[0], c, [c] + j);
      assert parts[0] + "" == parts[0];
      assert [parts[0]] + parts[1..] == parts;
    }
  }

  /** A character where the pattern does not start is kept as it is. */
  lemma ReplaceSkip(c: char, b: string, pat: string, rep: string)
    requires |pat| > 0 && !StartsWith([c] + b, pat)
    ensures Replace([c] + b, pat, rep) == [c] + Replace(b, pat, rep)
  {
    assert ([c] + b)[1..] == b;
    if |[c] + b| < |pat| {
      assert Replace(b, pat, rep) == b;
    }
  }

  /** The pattern where it starts is replaced. */
  lemma ReplaceHere(pat: string, b: string, rep: string)
    requires |pat| > 0
    ensures Replace(pat + b, pat, rep) == rep + Replace(b, pat, rep)
  {
    assert (pat + b)[..|pat|] == pat && (pat + b)[|pat|..] == b;
  }

  /** A prefix where the pattern never starts is kept as it is. */
  lemma {:induction false} ReplaceKeepPrefix(a: string, b: string, pat: string, rep: string)
    requires |pat| > 0 && forall k :: 0 <= k < |a| ==> !StartsWith((a + b)[k..], pat)
    ensures Replace(a + b, pat, rep) == a + Replace(b, pat, rep)
    decreases |a|
  {
    if |a| > 0 {
      var t := a[1..];
      assert (a + b)[0..] == [a[0]] + (t + b);
      ReplaceSkip(a[0], t + b, pat, rep);
      forall k | 0 <= k < |t|
        ensures !StartsWith((t + b)[k..], pat)
      {
        assert (t + b)[k..] == (a + b)[k + 1..];
      }
      ReplaceKeepPrefix(t, b, pat, rep);
      assert [a[0]] + t == a;
    } else {
      assert a + b == b;
    }
  }
}
