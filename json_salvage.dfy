/** The salvage steps applied to a language model's reply before it is
    parsed as JSON: `clean_json_string`, which removes code fences and
    control characters, and `extreme_json_clean`, the last resort that
    squeezes out whitespace between tokens and forces the text into braces. */
module JsonSalvage {

  import Text

  const Fence := "```"
  const JsonFence := "```json"

  // ---------------------------------------------------------------------
  // clean_json_string

  /** The reply with one leading "```json" (else "```") and one trailing
      "```" cut off, both looked for before any whitespace is stripped. */
  function Unfence(s: string): (r: string)
    ensures |r| <= |s|
  {
    var t := if Text.StartsWith(s, JsonFence) then s[7..]
             else if Text.StartsWith(s, Fence) then s[3..]
             else s;
    if Text.EndsWith(t, Fence) then t[..|t| - 3] else t
  }

  /** The two-character escapes `\n`, `\r` and `\t` turned into the
      control characters they name. */
  function Unescape(s: string): string {
    Text.Replace(Text.Replace(Text.Replace(s, "\\n", "\n"), "\\r", "\r"), "\\t", "\t")
  }

  /** What the character loop keeps of one character: a space for a
      newline, carriage return or tab, nothing for any other control
      character, the character itself otherwise. */
  function Kept(c: char): string {
    if c == '\n' || c == '\r' || c == '\t' then " "
    else if (c as int) < 32 then ""
    else [c]
  }

  /** No character of `t` is a control character. */
  predicate Printable(t: string) {
    forall i :: 0 <= i < |t| ==> (t[i] as int) >= 32
  }

  /** The character loop over the whole of `t`. */
  function Squash(t: string): (r: string)
    ensures |r| <= |t|
    ensures Printable(r)
    decreases |t|
  {
    if t == [] then [] else Squash(t[..|t| - 1]) + Kept(t[|t| - 1])
  }

  /** `clean_json_string`. Its last step, which replaces the double quote
      by itself, changes nothing and is left out. */
  function CleanJson(s: string): string {
    Squash(Unescape(Text.Strip(Unfence(s))))
  }

  /** A fenced reply loses exactly its fences. */
  lemma UnfenceFenced(body: string)
    ensures Unfence(JsonFence + body + Fence) == body
    ensures !Text.StartsWith(body, "json") ==> Unfence(Fence + body + Fence) == body
  {
    assert (JsonFence + body + Fence)[7..] == body + Fence;
    assert (Fence + body + Fence)[3..] == body + Fence;
    if !Text.StartsWith(body, "json") {
      PlainFence(body);
    }
  }

  /** A body that does not begin with "json" does not make a plain fence
      look like a JSON fence. */
  lemma PlainFence(body: string)
    requires !Text.StartsWith(body, "json")
    ensures !Text.StartsWith(Fence + body + Fence, JsonFence)
  {
    var x := Fence + body + Fence;
    if |body| >= 4 {
      assert x[3..7] == body[..4];
    } else {
      assert x[3 + |body|] == '`';
    }
  }

  /** A reply with no fence at either end is kept whole. */
  lemma UnfenceBare(s: string)
    requires !Text.StartsWith(s, Fence) && !Text.EndsWith(s, Fence)
    ensures Unfence(s) == s
  {
    assert |s| >= 7 ==> s[..3] == s[..7][..3];
  }

  /** The loop works character by character: a split of the text splits
      the result. */
  lemma {:induction false} SquashConcat(a: string, b: string)
    ensures Squash(a + b) == Squash(a) + Squash(b)
    decreases |b|
  {
    if b == [] {
      assert a + b == a;
    } else {
      var b' := b[..|b| - 1];
      assert (a + b)[..|a + b| - 1] == a + b';
      SquashConcat(a, b');
    }
  }

  /** Text free of control characters passes the loop unchanged, so the
      loop is idempotent. */
  lemma {:induction false} SquashPrintable(t: string)
    requires Printable(t)
    ensures Squash(t) == t
    decreases |t|
  {
    if t != [] {
      var init, c := t[..|t| - 1], t[|t| - 1];
      assert t == init + [c];
      SquashPrintable(init);
      assert Kept(c) == [c];
    }
  }

  /** A newline, carriage return or tab becomes exactly one space. */
  lemma SquashSpaces(a: string, c: char, b: string)
    requires c == '\n' || c == '\r' || c == '\t'
    ensures Squash(a + [c] + b) == Squash(a) + " " + Squash(b)
  {
    SquashConcat(a + [c], b);
    SquashConcat(a, [c]);
    assert [c][..0] == [];
  }

  /** The result of `clean_json_string` holds no control character and is
      never longer than the reply. */
  lemma CleanJsonBounds(s: string)
    ensures Printable(CleanJson(s))
    ensures |CleanJson(s)| <= |s|
  {
    var t := Text.Strip(Unfence(s));
    var a :| Text.TrimmedFrom(Unfence(s), t, a);
    var u1 := Text.Replace(t, "\\n", "\n");
    var u2 := Text.Replace(u1, "\\r", "\r");
    Text.ReplaceShorter(t, "\\n", "\n");
    Text.ReplaceShorter(u1, "\\r", "\r");
    Text.ReplaceShorter(u2, "\\t", "\t");
  }

  /** `clean_json_string` as its loop runs. */
  method CleanJsonString(s: string) returns (cleaned: string)
    ensures cleaned == CleanJson(s)
  {
    var t := s;
    if Text.StartsWith(t, JsonFence) {
      t := t[7..];
    } else if Text.StartsWith(t, Fence) {
      t := t[3..];
    }
    if Text.EndsWith(t, Fence) {
      t := t[..|t| - 3];
    }
    assert t == Unfence(s);
    t := Unescape(Text.Strip(t));
    cleaned := SquashLoop(t);
  }

  /** The character loop of `clean_json_string`. */
  method SquashLoop(t: string) returns (result: string)
    ensures result == Squash(t)
  {
    result := "";
    var i := 0;
    while i < |t|
      invariant i <= |t|
      invariant result == Squash(t[..i])
    {
      var c := t[i];
      assert t[..i + 1][..i] == t[..i];
      assert Squash(t[..i + 1]) == result + Kept(c);
      if c == '\n' || c == '\r' || c == '\t' {
        result := result + " ";
      } else if (c as int) < 32 {
      } else {
        result := result + [c];
      }
      i := i + 1;
    }
    assert t[..i] == t;
  }

  // ---------------------------------------------------------------------
  // extreme_json_clean

  /** Escaped and literal newlines, carriage returns and tabs all become
      spaces. */
  function Flatten(t: string): string {
    var a := Text.Replace(Text.Replace(Text.Replace(t, "\\n", " "), "\\r", " "), "\\t", " ");
    Text.Replace(Text.Replace(Text.Replace(a, "\n", " "), "\r", " "), "\t", " ")
  }

  /** The whitespace loop's state: what it kept and whether it is inside a
      double-quoted string. */
  datatype Scan = Scan(kept: string, inString: bool)

  /** One step of the whitespace loop: a double quote not preceded by a
      kept backslash toggles the string flag and is kept; any other
      character is kept inside a string or when it is not whitespace. */
  function Next(sc: Scan, c: char): Scan {
    if c == '"' && (sc.kept == [] || sc.kept[|sc.kept| - 1] != '\\') then
      Scan(sc.kept + [c], !sc.inString)
    else if sc.inString || !Text.IsSpace(c) then
      Scan(sc.kept + [c], sc.inString)
    else sc
  }

  /** The whitespace loop over the whole of `t`. */
  function Compact(t: string): (r: Scan)
    ensures |r.kept| <= |t|
    decreases |t|
  {
    if t == [] then Scan([], false) else Next(Compact(t[..|t| - 1]), t[|t| - 1])
  }

  /** `t` without its whitespace. */
  function NonSpace(t: string): (r: string)
    ensures Text.NoSpace(r)
    decreases |t|
  {
    if t == [] then []
    else NonSpace(t[..|t| - 1]) + (if Text.IsSpace(t[|t| - 1]) then [] else [t[|t| - 1]])
  }

  /** The JSON literals for Python's, and double quotes for single ones. */
  function Literals(t: string): string {
    Text.Replace(Text.Replace(Text.Replace(Text.Replace(t, "'", "\""), "True", "true"), "False", "false"), "None", "null")
  }

  /** The text opened with '{' and closed with '}' unless it already is. */
  function Braced(t: string): (r: string)
    ensures |r| >= 2 && r[0] == '{' && r[|r| - 1] == '}'
    ensures Text.StartsWith(t, "{") && Text.EndsWith(t, "}") && |t| >= 2 ==> r == t
  {
    var a := if Text.StartsWith(t, "{") then t else "{" + t;
    assert a[0] == '{';
    if Text.EndsWith(a, "}") then a else a + "}"
  }

  /** `extreme_json_clean`. */
  function ExtremeJson(text: string): string {
    Braced(Literals(Compact(Flatten(text)).kept))
  }

  /** The loop drops whitespace and nothing else. */
  lemma {:induction false} CompactDropsOnlySpace(t: string)
    ensures NonSpace(Compact(t).kept) == NonSpace(t)
    decreases |t|
  {
    if t != [] {
      var t' := t[..|t| - 1];
      var c := t[|t| - 1];
      CompactDropsOnlySpace(t');
      var k := Compact(t').kept;
      if Compact(t).kept != k {
        assert Compact(t).kept == k + [c];
        assert (k + [c])[..|k + [c]| - 1] == k;
      }
    }
  }

  /** Outside double quotes, whitespace is dropped: without any double
      quote the loop keeps no whitespace at all. */
  lemma {:induction false} CompactUnquoted(t: string)
    requires '"' !in t
    ensures !Compact(t).inString && Compact(t).kept == NonSpace(t)
    decreases |t|
  {
    if t != [] {
      var t' := t[..|t| - 1];
      assert forall i :: 0 <= i < |t'| ==> t'[i] == t[i];
      CompactUnquoted(t');
    }
  }

  /** Inside a double-quoted span, whitespace is kept. */
  lemma CompactKeepsQuoted(sc: Scan, c: char)
    requires sc.inString && c != '"'
    ensures Next(sc, c) == Scan(sc.kept + [c], true)
  {
  }

  /** After flattening no newline, carriage return or tab is left. */
  lemma FlattenNoBreaks(t: string)
    ensures var f := Flatten(t); '\n' !in f && '\r' !in f && '\t' !in f
  {
    var a := Text.Replace(Text.Replace(Text.Replace(t, "\\n", " "), "\\r", " "), "\\t", " ");
    var b := Text.Replace(a, "\n", " ");
    var c := Text.Replace(b, "\r", " ");
    Text.ReplaceCharGone(a, '\n', " ");
    Text.ReplaceAbsent(b, "\r", " ", '\n');
    Text.ReplaceCharGone(b, '\r', " ");
    Text.ReplaceAbsent(c, "\t", " ", '\n');
    Text.ReplaceAbsent(c, "\t", " ", '\r');
    Text.ReplaceCharGone(c, '\t', " ");
  }

  /** The rewritten literals hold no single quote. */
  lemma LiteralsNoSingleQuote(t: string)
    ensures '\'' !in Literals(t)
  {
    var a := Text.Replace(t, "'", "\"");
    var b := Text.Replace(a, "True", "true");
    var c := Text.Replace(b, "False", "false");
    Text.ReplaceCharGone(t, '\'', "\"");
    Text.ReplaceAbsent(a, "True", "true", '\'');
    Text.ReplaceAbsent(b, "False", "false", '\'');
    Text.ReplaceAbsent(c, "None", "null", '\'');
  }

  /** The rewritten literals hold none of Python's `True`, `False` and
      `None`: no replacement brings one back. */
  lemma LiteralsNoPythonWords(t: string)
    ensures var l := Literals(t);
            !Text.Contains(l, "True") && !Text.Contains(l, "False") && !Text.Contains(l, "None")
  {
    var a := Text.Replace(t, "'", "\"");
    var b := Text.Replace(a, "True", "true");
    var c := Text.Replace(b, "False", "false");
    TrueTails();
    FalseTails();
    NoneTails();
    Text.ReplaceAvoids(a, "True", "true", "True");
    Text.ReplaceAvoids(b, "False", "false", "True");
    Text.ReplaceAvoids(b, "False", "false", "False");
    Text.ReplaceAvoids(c, "None", "null", "True");
    Text.ReplaceAvoids(c, "None", "null", "False");
    Text.ReplaceAvoids(c, "None", "null", "None");
  }

  /** No later replacement text can complete a `True`. */
  lemma TrueTails()
    ensures 'T' !in "true" && 'T' !in "false" && 'T' !in "null"
    ensures Text.NoTailMeets("True", "true") && Text.NoTailMeets("True", "false")
    ensures Text.NoTailMeets("True", "null")
  {
    Text.NoTailMeetsFirst("True", "true");
    Text.NoTailMeetsFirst("True", "false");
    Text.NoTailMeetsFirst("True", "null");
  }

  /** No later replacement text can complete a `False`. */
  lemma FalseTails()
    ensures 'F' !in "false" && 'F' !in "null"
    ensures Text.NoTailMeets("False", "false") && Text.NoTailMeets("False", "null")
  {
    Text.NoTailMeetsFirst("False", "false");
    Text.NoTailMeetsFirst("False", "null");
  }

  /** The replacement text cannot complete a `None`: the tail "ne" meets
      "null" in its first letter only. */
  lemma NoneTails()
    ensures 'N' !in "null" && Text.NoTailMeets("None", "null")
  {
    forall m | 1 <= m < 4
      ensures !Text.Overlaps("None"[m..], "null")
    {
      var x := "None"[m..];
      var n := if |x| < 4 then |x| else 4;
      if m == 2 {
        assert x[..n][1] == 'e' && "null"[..n][1] == 'u';
      } else {
        assert x[..n][0] != "null"[..n][0];
      }
    }
  }

  /** Adding the braces creates no occurrence of a word that neither starts
      with '{' nor contains '}'. */
  lemma BracedKeepsAbsent(t: string, q: string)
    requires |q| > 0 && q[0] != '{' && '}' !in q && !Text.Contains(t, q)
    ensures !Text.Contains(Braced(t), q)
  {
    var a := if Text.StartsWith(t, "{") then t else "{" + t;
    if !Text.StartsWith(t, "{") {
      Text.ContainsNotAcross("{", t, q);
    }
    if !Text.EndsWith(a, "}") {
      Text.ContainsNotSnoc(a, '}', q);
    }
  }

  /** `extreme_json_clean` always yields text in braces, at least "{}",
      with no single quote and none of `True`, `False` and `None` left. */
  lemma ExtremeJsonShape(text: string)
    ensures var r := ExtremeJson(text);
            |r| >= 2 && r[0] == '{' && r[|r| - 1] == '}' && '\'' !in r
            && !Text.Contains(r, "True") && !Text.Contains(r, "False") && !Text.Contains(r, "None")
  {
    var l := Literals(Compact(Flatten(text)).kept);
    LiteralsNoSingleQuote(Compact(Flatten(text)).kept);
    var a := if Text.StartsWith(l, "{") then l else "{" + l;
    assert '\'' !in a;
    LiteralsNoPythonWords(Compact(Flatten(text)).kept);
    BracedKeepsAbsent(l, "True");
    BracedKeepsAbsent(l, "False");
    BracedKeepsAbsent(l, "None");
  }

  /** `extreme_json_clean` as its loop runs. */
  method ExtremeJsonClean(text: string) returns (cleaned: string)
    ensures cleaned == ExtremeJson(text)
  {
    var t := Flatten(text);
    var inString := false;
    var result := "";
    for i := 0 to |t|
      invariant Scan(result, inString) == Compact(t[..i])
    {
      var c := t[i];
      assert t[..i + 1][..i] == t[..i];
      if c == '"' && (result == [] || result[|result| - 1] != '\\') {
        inString := !inString;
        result := result + [c];
      } else if inString || !Text.IsSpace(c) {
        result := result + [c];
      }
    }
    assert t[..|t|] == t;
    cleaned := Literals(result);
    if !Text.StartsWith(cleaned, "{") {
      cleaned := "{" + cleaned;
    }
    if !Text.EndsWith(cleaned, "}") {
      cleaned := cleaned + "}";
    }
  }
}
