/** The cleaning and validation half of `OllamaService.GenerateVocabulary`:
    the model's reply is cut down to its JSON array, scrubbed by a chain of
    replacements, decoded, given "japanese" keys in place of "kanji" ones,
    re-encoded and checked item by item.

    Go's `encoding/json` is not part of this model: decoding into
    `[]map[string]string` and encoding back are the parameters `decode` and
    `encode`. */
module VocabCleaner {

  import opened Wrappers
  import Text

  /** One decoded vocabulary item. */
  type Item = map<string, string>

  /** Why the reply was refused; each is one of the returned errors. */
  datatype Failure =
    | NoContent
    | NoArray(content: string)
    | InvalidJson(content: string)
    | EmptyFields(index: nat)
    | InvalidValues(index: nat)

  // ---------------------------------------------------------------------
  // The JSON array

  /** `strings.Index(s, string(c))`. */
  function IndexOf(s: string, c: char): (r: Option<nat>)
    ensures r.Some? ==> r.value < |s| && s[r.value] == c && c !in s[..r.value]
    ensures r.None? ==> c !in s
  {
    if |s| == 0 then None
    else if s[0] == c then Some(0)
    else match IndexOf(s[1..], c)
      case None => None
      case Some(i) => assert s[..i + 1] == [s[0]] + s[1..][..i]; Some(i + 1)
  }

  /** `strings.LastIndex(s, string(c))`. */
  function LastIndexOf(s: string, c: char): (r: Option<nat>)
    ensures r.Some? ==> r.value < |s| && s[r.value] == c && c !in s[r.value + 1..]
    ensures r.None? ==> c !in s
  {
    if |s| == 0 then None
    else if s[|s| - 1] == c then Some(|s| - 1)
    else
      var r := LastIndexOf(s[..|s| - 1], c);
      assert r.Some? ==> s[r.value + 1..] == s[..|s| - 1][r.value + 1..] + [s[|s| - 1]];
      r
  }

  /** The text from the first '[' to the last ']', both included, or
      `NoArray` when there is no ']' after a '['. */
  function ArraySlice(content: string): (r: Result<string, Failure>)
    ensures r.Err? ==> r.error == NoArray(content)
  {
    match (IndexOf(content, '['), LastIndexOf(content, ']'))
    case (Some(i), Some(j)) =>
      if j <= i then Err(NoArray(content)) else Ok(content[i..j + 1])
    case _ => Err(NoArray(content))
  }

  /** The slice is refused exactly when no ']' follows any '['; what it
      keeps starts with '[', ends with ']', and has no '[' before it and no
      ']' after it. */
  lemma ArraySliceShape(content: string)
    ensures ArraySlice(content).Err? <==>
              forall i, j :: 0 <= i < j < |content| && content[i] == '[' ==> content[j] != ']'
    ensures var r := ArraySlice(content);
            r.Ok? ==> |r.value| >= 2 && r.value[0] == '[' && r.value[|r.value| - 1] == ']'
                      && exists i :: Text.OccursAt(content, r.value, i)
                                     && '[' !in content[..i] && ']' !in content[i + |r.value|..]
  {
    var a := IndexOf(content, '[');
    var b := LastIndexOf(content, ']');
    if a.Some? && b.Some? && a.value < b.value {
      var i, j := a.value, b.value;
      assert content[i] == '[' && content[j] == ']';
      assert Text.OccursAt(content, content[i..j + 1], i);
    } else {
      forall i, j | 0 <= i < j < |content| && content[i] == '['
        ensures content[j] != ']'
      {
        assert content[i] in content;
        forall k | 0 <= k < a.value
          ensures content[k] != '['
        {
          assert content[..a.value][k] == content[k];
        }
        if b.Some? {
          forall k | b.value < k < |content|
            ensures content[k] != ']'
          {
            assert content[b.value + 1..][k - b.value - 1] == content[k];
          }
        } else {
          assert content[j] in content;
        }
      }
    }
  }

  /** `strings.TrimSpace` has nothing to trim from the slice. */
  lemma TrimSpaceBracketed(a: string)
    requires |a| >= 2 && a[0] == '[' && a[|a| - 1] == ']'
    ensures Text.Strip(a) == a
  {
  }

  // ---------------------------------------------------------------------
  // The replacement chain

  /** Tabs, newlines and backslashes deleted. */
  function DropControls(c: string): string {
    Text.Replace(Text.Replace(Text.Replace(c, "\t", ""), "\n", ""), "\\", "")
  }

  /** `""` collapsed, `"kanji"` renamed, '/' deleted, two accented letters
      plainly spelt. */
  function FixQuotesAndLetters(c: string): string {
    var c1 := Text.Replace(c, "\"\"", "\"");
    var c2 := Text.Replace(c1, "\"kanji\"", "\"japanese\"");
    var c3 := Text.Replace(c2, "/", "");
    Text.Replace(Text.Replace(c3, "å", "a"), "ù", "u")
  }

  /** Spaces before and after commas and quotes removed, once each. */
  function DropSpaces(c: string): string {
    var c1 := Text.Replace(c, " ,", ",");
    var c2 := Text.Replace(c1, ", ", ",");
    var c3 := Text.Replace(c2, " \"", "\"");
    Text.Replace(c3, "\" ", "\"")
  }

  /** The whole chain, `""` collapsed once more at the end. */
  function Scrub(c: string): string {
    Text.Replace(DropSpaces(FixQuotesAndLetters(DropControls(Text.Strip(c)))), "\"\"", "\"")
  }

  /** None of the later steps brings back a character the chain deletes. */
  lemma LaterStepsKeepOut(c: string, ch: char)
    requires ch in "\t\n\\/" && ch !in c
    ensures ch !in DropSpaces(c)
    ensures ch !in Text.Replace(DropSpaces(c), "\"\"", "\"")
  {
    var c1 := Text.Replace(c, " ,", ",");
    var c2 := Text.Replace(c1, ", ", ",");
    var c3 := Text.Replace(c2, " \"", "\"");
    Text.ReplaceAbsent(c, " ,", ",", ch);
    Text.ReplaceAbsent(c1, ", ", ",", ch);
    Text.ReplaceAbsent(c2, " \"", "\"", ch);
    Text.ReplaceAbsent(c3, "\" ", "\"", ch);
    Text.ReplaceAbsent(DropSpaces(c), "\"\"", "\"", ch);
  }

  /** The quote and letter steps bring back no control character. */
  lemma QuoteStepsKeepOut(c: string, ch: char)
    requires ch in "\t\n\\" && ch !in c
    ensures ch !in FixQuotesAndLetters(c)
  {
    var c1 := Text.Replace(c, "\"\"", "\"");
    var c2 := Text.Replace(c1, "\"kanji\"", "\"japanese\"");
    var c3 := Text.Replace(c2, "/", "");
    Text.ReplaceAbsent(c, "\"\"", "\"", ch);
    Text.ReplaceAbsent(c1, "\"kanji\"", "\"japanese\"", ch);
    Text.ReplaceAbsent(c2, "/", "", ch);
    Text.ReplaceAbsent(c3, "å", "a", ch);
    Text.ReplaceAbsent(Text.Replace(c3, "å", "a"), "ù", "u", ch);
  }

  /** After the chain there is no tab, newline, backslash or '/' left. */
  lemma ScrubDeletes(c: string)
    ensures var r := Scrub(c);
            '\t' !in r && '\n' !in r && '\\' !in r && '/' !in r
  {
    var s := Text.Strip(c);
    var t1 := Text.Replace(s, "\t", "");
    var t2 := Text.Replace(t1, "\n", "");
    var d := DropControls(s);
    Text.ReplaceCharGone(s, '\t', "");
    Text.ReplaceCharGone(t1, '\n', "");
    Text.ReplaceCharGone(t2, '\\', "");
    Text.ReplaceAbsent(t1, "\n", "", '\t');
    Text.ReplaceAbsent(t2, "\\", "", '\t');
    Text.ReplaceAbsent(t2, "\\", "", '\n');
    QuoteStepsKeepOut(d, '\t');
    QuoteStepsKeepOut(d, '\n');
    QuoteStepsKeepOut(d, '\\');
    var f := FixQuotesAndLetters(d);
    SlashGone(d);
    LaterStepsKeepOut(f, '\t');
    LaterStepsKeepOut(f, '\n');
    LaterStepsKeepOut(f, '\\');
    LaterStepsKeepOut(f, '/');
  }

  /** The quote and letter steps leave no '/'. */
  lemma SlashGone(c: string)
    ensures '/' !in FixQuotesAndLetters(c)
  {
    var c1 := Text.Replace(c, "\"\"", "\"");
    var c2 := Text.Replace(c1, "\"kanji\"", "\"japanese\"");
    var c3 := Text.Replace(c2, "/", "");
    Text.ReplaceCharGone(c2, '/', "");
    Text.ReplaceAbsent(c3, "å", "a", '/');
    Text.ReplaceAbsent(Text.Replace(c3, "å", "a"), "ù", "u", '/');
  }

  // ---------------------------------------------------------------------
  // The rune loop

  /** How many quotes `s` holds. */
  function QuoteCount(s: string): nat {
    if |s| == 0 then 0 else QuoteCount(s[..|s| - 1]) + (if s[|s| - 1] == '"' then 1 else 0)
  }

  /** The quote-tracking loop: it writes every rune in both branches, so it
      gives back the text it was given, with the flag telling whether an odd
      number of quotes has gone by. */
  method CopyRunes(content: string) returns (out: string, inQuotes: bool)
    ensures out == content
    ensures inQuotes <==> QuoteCount(content) % 2 == 1
  {
    out := "";
    inQuotes := false;
    for i := 0 to |content|
      invariant out == content[..i]
      invariant inQuotes <==> QuoteCount(content[..i]) % 2 == 1
    {
      assert content[..i + 1][..i] == content[..i];
      var r := content[i];
      if r == '"' {
        if !inQuotes {
          inQuotes := true;
          out := out + [r];
        } else {
          inQuotes := false;
          out := out + [r];
        }
      } else {
        out := out + [r];
      }
    }
    assert content[..|content|] == content;
  }

  // ---------------------------------------------------------------------
  // Decoded items

  /** The item with a "kanji" value moved to "japanese". */
  function Rename(item: Item): (r: Item)
    ensures "kanji" !in r
    ensures "kanji" in item ==> "japanese" in r && r["japanese"] == item["kanji"]
    ensures "kanji" !in item ==> r == item
    ensures forall k :: k in item && k != "kanji" && k != "japanese" ==> k in r && r[k] == item[k]
    ensures forall k :: k in r ==> k == "japanese" || k in item
  {
    if "kanji" in item then (item - {"kanji"})["japanese" := item["kanji"]] else item
  }

  /** Every item renamed. */
  function RenameAll(items: seq<Item>): (r: seq<Item>)
    ensures |r| == |items| && forall i :: 0 <= i < |items| ==> r[i] == Rename(items[i])
  {
    seq(|items|, i requires 0 <= i < |items| => Rename(items[i]))
  }

  /** The rename loop over the decoded items. */
  method RenameLoop(items: seq<Item>) returns (out: seq<Item>)
    ensures out == RenameAll(items)
  {
    out := items;
    for i := 0 to |out|
      invariant |out| == |items|
      invariant forall k :: 0 <= k < i ==> out[k] == Rename(items[k])
      invariant forall k :: i <= k < |out| ==> out[k] == items[k]
    {
      var item := out[i];
      if "kanji" in item {
        item := item["japanese" := item["kanji"]];
        item := item - {"kanji"};
      }
      out := out[i := item];
    }
  }

  /** Renaming a renamed item changes nothing. */
  lemma RenameIdempotent(item: Item)
    ensures Rename(Rename(item)) == Rename(item)
  {
  }

  /** A field as Go reads it from a map: "" when the key is missing. */
  function Field(item: Item, key: string): string {
    if key in item then item[key] else ""
  }

  /** The item's failure, if any: an empty field first, then a "-". */
  function ItemFailure(i: nat, item: Item): Option<Failure> {
    if Field(item, "japanese") == "" || Field(item, "romaji") == "" || Field(item, "english") == "" then Some(EmptyFields(i))
    else if Field(item, "japanese") == "-" || Field(item, "romaji") == "-" || Field(item, "english") == "-" then Some(InvalidValues(i))
    else None
  }

  /** An item that passes: all three fields present, non-empty and not "-". */
  predicate Acceptable(item: Item) {
    Usable(item, "japanese") && Usable(item, "romaji") && Usable(item, "english")
  }

  /** The field is present, non-empty and not "-". */
  predicate Usable(item: Item, key: string) {
    key in item && item[key] != "" && item[key] != "-"
  }

  /** The first failure from position `i` on. */
  function FirstFailure(items: seq<Item>, i: nat): Option<Failure>
    requires i <= |items|
    decreases |items| - i
  {
    if i == |items| then None
    else if ItemFailure(i, items[i]).Some? then ItemFailure(i, items[i])
    else FirstFailure(items, i + 1)
  }

  /** An item fails exactly when it is not acceptable. */
  lemma ItemFailureAcceptable(i: nat, item: Item)
    ensures ItemFailure(i, item).None? <==> Acceptable(item)
  {
  }

  /** Validation passes exactly when every item is acceptable, and
      otherwise reports the first item that is not. */
  lemma {:induction false} FirstFailureSpec(items: seq<Item>, i: nat)
    requires i <= |items|
    ensures FirstFailure(items, i).None? <==> forall k :: i <= k < |items| ==> Acceptable(items[k])
    ensures FirstFailure(items, i).Some? ==>
              exists k :: i <= k < |items| && !Acceptable(items[k])
                          && FirstFailure(items, i) == ItemFailure(k, items[k])
                          && forall m :: i <= m < k ==> Acceptable(items[m])
    decreases |items| - i
  {
    if i < |items| {
      ItemFailureAcceptable(i, items[i]);
      if ItemFailure(i, items[i]).None? {
        FirstFailureSpec(items, i + 1);
      } else {
        assert FirstFailure(items, i) == ItemFailure(i, items[i]);
      }
    }
  }

  /** The validation loop, stopping at the first bad item. */
  method ValidateLoop(items: seq<Item>) returns (r: Option<Failure>)
    ensures r == FirstFailure(items, 0)
  {
    var i := 0;
    while i < |items|
      invariant 0 <= i <= |items|
      invariant FirstFailure(items, 0) == FirstFailure(items, i)
    {
      var item := items[i];
      if Field(item, "japanese") == "" || Field(item, "romaji") == "" || Field(item, "english") == "" {
        return Some(EmptyFields(i));
      }
      if Field(item, "japanese") == "-" || Field(item, "romaji") == "-" || Field(item, "english") == "-" {
        return Some(InvalidValues(i));
      }
      i := i + 1;
    }
    return None;
  }

  // ---------------------------------------------------------------------
  // The whole step

  /** The content after decoding, renaming and re-encoding, or as it was
      when it does not decode. */
  function Renamed(content: string, decode: string -> Option<seq<Item>>, encode: seq<Item> -> string): string {
    match decode(content)
    case Some(items) => encode(RenameAll(items))
    case None => content
  }

  /** The cleaning and validation of the reply's content (`None` when the
      reply had no choices). */
  function Clean(reply: Option<string>, decode: string -> Option<seq<Item>>, encode: seq<Item> -> string): Result<string, Failure> {
    if reply.None? || reply.value == "" then Err(NoContent)
    else match ArraySlice(reply.value)
      case Err(e) => Err(e)
      case Ok(a) => Checked(Renamed(Scrub(a), decode, encode), decode)
  }

  /** The final decoding and the check of every item. */
  function Checked(content: string, decode: string -> Option<seq<Item>>): Result<string, Failure> {
    match decode(content)
    case None => Err(InvalidJson(content))
    case Some(items) =>
      match FirstFailure(items, 0)
      case Some(f) => Err(f)
      case None => Ok(content)
  }

  /** What the check accepts decodes into items that are all acceptable;
      what it refuses either does not decode or has a bad item, the first
      one named. */
  lemma CheckedGood(content: string, decode: string -> Option<seq<Item>>)
    ensures var r := Checked(content, decode);
            (r.Ok? <==> decode(content).Some? && forall k :: 0 <= k < |decode(content).value| ==> Acceptable(decode(content).value[k]))
            && (r.Ok? ==> r.value == content)
            && (r.Err? ==> (r.error == InvalidJson(content) <==> decode(content).None?))
            && (r.Err? && decode(content).Some? ==>
                  var items := decode(content).value;
                  exists k :: 0 <= k < |items| && !Acceptable(items[k]) && r == Err(ItemFailure(k, items[k]).value)
                              && forall m :: 0 <= m < k ==> Acceptable(items[m]))
  {
    if decode(content).Some? {
      FirstFailureSpec(decode(content).value, 0);
    }
  }

  /** Only a missing or empty reply gives `NoContent`, only a reply without
      an array gives `NoArray`, and a reply with an array reaches the check. */
  lemma CleanSteps(reply: Option<string>, decode: string -> Option<seq<Item>>, encode: seq<Item> -> string)
    ensures var r := Clean(reply, decode, encode);
            (reply.None? || reply == Some("") <==> r == Err(NoContent))
            && (reply.Some? && reply.value != "" ==>
                  match ArraySlice(reply.value)
                  case Err(_) => r == Err(NoArray(reply.value))
                  case Ok(a) => r == Checked(Renamed(Scrub(a), decode, encode), decode))
  {
    if reply.Some? && reply.value != "" {
      var r := Clean(reply, decode, encode);
      if ArraySlice(reply.value).Ok? {
        var a := ArraySlice(reply.value).value;
        var c := Renamed(Scrub(a), decode, encode);
        if decode(c).Some? && FirstFailure(decode(c).value, 0).Some? {
          FirstFailureSpec(decode(c).value, 0);
        }
      }
    }
  }

  /** With an encoder the decoder reads back, a reply whose array decodes
      into items acceptable once renamed is accepted, and what comes back is
      the renamed items' encoding. */
  lemma CleanAccepts(reply: string, decode: string -> Option<seq<Item>>, encode: seq<Item> -> string, a: string, items: seq<Item>)
    requires reply != "" && ArraySlice(reply) == Ok(a)
    requires decode(Scrub(a)) == Some(items)
    requires decode(encode(RenameAll(items))) == Some(RenameAll(items))
    requires forall k :: 0 <= k < |items| ==> Acceptable(Rename(items[k]))
    ensures Clean(Some(reply), decode, encode) == Ok(encode(RenameAll(items)))
  {
    FirstFailureSpec(RenameAll(items), 0);
  }

  /** The replacement chain as successive reassignments of the content. */
  method ScrubSteps(a: string) returns (content: string)
    ensures content == Scrub(a)
  {
    content := Text.Strip(a);
    content := Text.Replace(content, "\t", "");
    content := Text.Replace(content, "\n", "");
    content := Text.Replace(content, "\\", "");
    assert content == DropControls(Text.Strip(a));
    var d := content;
    content := Text.Replace(content, "\"\"", "\"");
    content := Text.Replace(content, "\"kanji\"", "\"japanese\"");
    content := Text.Replace(content, "/", "");
    content := Text.Replace(content, "å", "a");
    content := Text.Replace(content, "ù", "u");
    assert content == FixQuotesAndLetters(d);
    var f := content;
    content := Text.Replace(content, " ,", ",");
    content := Text.Replace(content, ", ", ",");
    content := Text.Replace(content, " \"", "\"");
    content := Text.Replace(content, "\" ", "\"");
    assert content == DropSpaces(f);
    content := Text.Replace(content, "\"\"", "\"");
  }

  /** The source's steps after the slice: the replacement chain, the rune
      loop, the rename loop and the validation loop. */
  method CleanArray(a: string, decode: string -> Option<seq<Item>>, encode: seq<Item> -> string)
    returns (r: Result<string, Failure>)
    ensures r == Checked(Renamed(Scrub(a), decode, encode), decode)
  {
    var content := ScrubSteps(a);
    var inQuotes;
    content, inQuotes := CopyRunes(content);
    var temp := decode(content);
    if temp.Some? {
      var renamed := RenameLoop(temp.value);
      content := encode(renamed);
    }
    var test := decode(content);
    if test.None? {
      return Err(InvalidJson(content));
    }
    var failure := ValidateLoop(test.value);
    if failure.Some? {
      return Err(failure.value);
    }
    return Ok(content);
  }

  /** The cleaning as the source runs it. */
  method CleanReply(reply: Option<string>, decode: string -> Option<seq<Item>>, encode: seq<Item> -> string)
    returns (r: Result<string, Failure>)
    ensures r == Clean(reply, decode, encode)
  {
    if reply.None? || reply.value == "" {
      return Err(NoContent);
    }
    var content := reply.value;
    var start := IndexOf(content, '[');
    var end := LastIndexOf(content, ']');
    if start.None? || end.None? || end.value <= start.value {
      assert ArraySlice(content) == Err(NoArray(content));
      return Err(NoArray(content));
    }
    var a := content[start.value..end.value + 1];
    assert ArraySlice(content) == Ok(a);
    r := CleanArray(a, decode, encode);
  }

  /** Collapsing `""` destroys an empty value: in text with no `""` before
      it, a value `:""` loses its closing quote and becomes `:"`, so the
      value runs on into what follows. */
  lemma EmptyValueCollapses(pre: string, post: string)
    requires !Text.Contains(pre, "\"\"")
    ensures Text.Replace(pre + ":\"\"" + post, "\"\"", "\"") == pre + ":\"" + Text.Replace(post, "\"\"", "\"")
  {
    var qq, q := "\"\"", "\"";
    var a, b := pre + ":", qq + post;
    assert pre + ":\"\"" + post == a + b;
    forall k | 0 <= k < |a|
      ensures !Text.StartsWith((a + b)[k..], qq)
    {
      if k + 1 < |pre| {
        assert !Text.OccursAt(pre, qq, k);
        assert (a + b)[k..][..2] == pre[k..k + 2];
      } else if k + 1 == |pre| {
        assert (a + b)[k..][1] == ':';
      } else {
        assert (a + b)[k..][0] == ':';
      }
    }
    Text.ReplaceKeepPrefix(a, b, qq, q);
    Text.ReplaceHere(qq, post, q);
    assert a + (q + Text.Replace(post, qq, q)) == pre + ":\"" + Text.Replace(post, qq, q);
  }
}
