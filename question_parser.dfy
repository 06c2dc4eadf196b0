/** The listening-practice question parser (`InteractivePracticeGenerator`):
    the practice-type lookups, the fallback question, the extraction of a
    question from the model's reply and the padding of its options.

    A regular-expression search `open(.*?)close` with `re.DOTALL` is the
    leftmost-shortest match, written here as `Between`; the searches whose
    patterns need a regular-expression engine (the dialogue parsers') are
    taken as parameters holding what they found. */
module QuestionParser {

  import opened Wrappers
  import Text

  /** A generated practice question. */
  datatype Question = Question(setup: string, question: string, options: seq<string>)

  const DialoguePractice := "Dialogue Practice"
  const VocabularyQuiz := "Vocabulary Quiz"
  const ListeningExercise := "Listening Exercise"

  /** Python's `KeyError` for a practice type the section table lacks. */
  datatype KeyError = KeyError(key: string)

  /** `practice_to_section[practice_type]`. */
  function SectionOf(practice: string): Result<string, KeyError> {
    if practice == DialoguePractice then Ok("問題1")
    else if practice == VocabularyQuiz then Ok("問題2")
    else if practice == ListeningExercise then Ok("問題3")
    else Err(KeyError(practice))
  }

  /** The lookup succeeds exactly for the three practice types, which go to
      three different sections; any other type raises `KeyError` naming it. */
  lemma SectionOfKnown(practice: string)
    ensures SectionOf(practice).Ok? <==> practice in {DialoguePractice, VocabularyQuiz, ListeningExercise}
    ensures SectionOf(practice).Err? ==> SectionOf(practice).error == KeyError(practice)
    ensures SectionOf(DialoguePractice) != SectionOf(VocabularyQuiz)
            && SectionOf(VocabularyQuiz) != SectionOf(ListeningExercise)
            && SectionOf(DialoguePractice) != SectionOf(ListeningExercise)
  {
  }

  /** `_create_query_for_practice_type`. */
  function QueryFor(practice: string): string {
    if practice == DialoguePractice then "男の人と女の人が話しています。レストランでの会話。"
    else if practice == VocabularyQuiz then "レストランでの状況。食べ物を注文する。"
    else "レストランで食事をします。店員に話します。"
  }

  /** Each named type has its own query, and every other type gets the
      listening exercise's. */
  lemma QueryForTypes(practice: string)
    ensures practice != DialoguePractice && practice != VocabularyQuiz ==>
              QueryFor(practice) == QueryFor(ListeningExercise)
    ensures QueryFor(DialoguePractice) != QueryFor(VocabularyQuiz)
            && QueryFor(VocabularyQuiz) != QueryFor(ListeningExercise)
            && QueryFor(DialoguePractice) != QueryFor(ListeningExercise)
  {
    assert QueryFor(DialoguePractice)[0] != QueryFor(VocabularyQuiz)[0];
    assert QueryFor(VocabularyQuiz)[6] != QueryFor(ListeningExercise)[6];
    assert QueryFor(DialoguePractice)[0] != QueryFor(ListeningExercise)[0];
  }

  /** `_create_fallback_question`. */
  function FallbackQuestion(practice: string): (q: Question)
    ensures |q.options| == 4 && q.setup != "" && q.question != ""
  {
    if practice == DialoguePractice then
      Question("男の人と女の人がレストランで話しています。", "男の人は何を注文しますか。",
               ["コーヒー", "紅茶", "ラーメン", "カレー"])
    else if practice == VocabularyQuiz then
      Question("レストランで食事をしています。", "「お会計お願いします」は英語で何ですか。",
               ["Check, please", "Menu, please", "Water, please", "Thank you"])
    else
      Question("レストランで注文します。", "何と言いますか。",
               ["メニューをください", "お勘定をお願いします", "水をください", "ありがとうございます"])
  }

  /** Every type other than the two named falls to the listening question. */
  lemma FallbackOther(practice: string)
    ensures practice != DialoguePractice && practice != VocabularyQuiz ==>
              FallbackQuestion(practice) == FallbackQuestion(ListeningExercise)
  {
  }

  // ---------------------------------------------------------------------
  // Leftmost-shortest matches

  /** `open` at `i` and `close` at `j` after it: a match of `open(.*?)close`. */
  predicate Delimits(s: string, open: string, close: string, i: int, j: int) {
    Text.OccursAt(s, open, i) && Text.OccursAt(s, close, j) && i + |open| <= j
  }

  /** The group of `re.search(open + "(.*?)" + close, s, re.DOTALL)`. */
  function Between(s: string, open: string, close: string): Option<string> {
    match Text.Find(s, open, 0)
    case None => None
    case Some(i) =>
      match Text.Find(s, close, i + |open|)
      case None => None
      case Some(j) => Some(s[i + |open|..j])
  }

  /** `Between` finds the leftmost match and, for it, the shortest; it finds
      none only when there is no match at all. */
  lemma BetweenLeftmost(s: string, open: string, close: string)
    ensures var r := Between(s, open, close);
            (r.None? ==> forall i, j :: !Delimits(s, open, close, i, j))
            && (r.Some? ==> exists i, j :: Delimits(s, open, close, i, j) && r.value == s[i + |open|..j]
                              && forall i', j' :: Delimits(s, open, close, i', j') ==> i < i' || (i == i' && j <= j'))
  {
    match Text.Find(s, open, 0)
    case None =>
    case Some(i) =>
      match Text.Find(s, close, i + |open|)
      case None =>
        forall i', j' | Text.OccursAt(s, open, i') && i' + |open| <= j'
          ensures !Text.OccursAt(s, close, j')
        {
          assert i <= i';
        }
      case Some(j) =>
        assert Delimits(s, open, close, i, j);
    }

  /** The text after the first `open`: the group of
      `re.search(open + "(.*)", s, re.DOTALL)`. */
  function After(s: string, open: string): (r: Option<string>)
    ensures r.Some? <==> Text.Contains(s, open)
    ensures r.Some? ==> Text.EndsWith(s, r.value) && |r.value| <= |s| - |open|
  {
    Text.FindContains(s, open);
    match Text.Find(s, open, 0)
    case None => None
    case Some(i) => Some(s[i + |open|..])
  }

  /** Only the text after the first marker matters. */
  lemma AfterFirst(pre: string, open: string, post: string)
    requires forall k :: 0 <= k < |pre| ==> !Text.OccursAt(pre + open, open, k)
    ensures After(pre + open + post, open) == Some(post)
  {
    var s := pre + open + post;
    assert Text.OccursAt(s, open, |pre|);
    forall k | 0 <= k < |pre|
      ensures !Text.OccursAt(s, open, k)
    {
      assert !Text.OccursAt(pre + open, open, k);
      assert s[..|pre| + |open|] == pre + open;
      assert s[k..k + |open|] == s[..|pre| + |open|][k..k + |open|];
    }
    assert s[|pre| + |open|..] == post;
  }

  // ---------------------------------------------------------------------
  // Option lines and padding

  /** A digit for `\d`: ASCII and full-width digits. */
  predicate IsDecimal(c: char) {
    '0' <= c <= '9' || '０' <= c <= '９'
  }

  /** The end of the run of digits starting at `i`. */
  function DigitRun(line: string, i: nat): (k: nat)
    requires i <= |line|
    ensures i <= k <= |line|
    ensures forall m :: i <= m < k ==> IsDecimal(line[m])
    ensures k < |line| ==> !IsDecimal(line[k])
    decreases |line| - i
  {
    if i < |line| && IsDecimal(line[i]) then DigitRun(line, i + 1) else i
  }

  /** `re.match(r'(\d+)\.\s+(.*)', line)`, giving `group(2).strip()`. */
  function OptionLine(line: string): Option<string> {
    var k := DigitRun(line, 0);
    if 0 < k && k + 1 < |line| && line[k] == '.' && Text.IsSpace(line[k + 1])
    then Some(Text.Strip(line[k + 1..]))
    else None
  }

  /** An option line is digits, a full stop and whitespace; what follows,
      stripped, is the option. */
  lemma OptionLineShape(line: string, k: nat)
    requires 0 < k && k + 1 < |line| && line[k] == '.' && Text.IsSpace(line[k + 1])
    requires forall m :: 0 <= m < k ==> IsDecimal(line[m])
    ensures OptionLine(line) == Some(Text.Strip(line[k + 1..]))
  {
    assert DigitRun(line, 0) == k by {
      DigitRunFrom(line, 0, k);
    }
  }

  /** Every line the pattern takes has that shape. */
  lemma OptionLineMatched(line: string)
    requires OptionLine(line).Some?
    ensures exists k :: 0 < k && k + 1 < |line| && line[k] == '.' && Text.IsSpace(line[k + 1])
                        && (forall m :: 0 <= m < k ==> IsDecimal(line[m]))
                        && OptionLine(line) == Some(Text.Strip(line[k + 1..]))
  {
    var k := DigitRun(line, 0);
    assert 0 < k && k + 1 < |line| && line[k] == '.' && Text.IsSpace(line[k + 1]);
  }

  lemma {:induction false} DigitRunFrom(line: string, i: nat, k: nat)
    requires i <= k < |line| && !IsDecimal(line[k])
    requires forall m :: i <= m < k ==> IsDecimal(line[m])
    ensures DigitRun(line, i) == k
    decreases k - i
  {
    if i < k {
      DigitRunFrom(line, i + 1, k);
    }
  }

  /** The options of the lines that match, in order. */
  function Collect(lines: seq<string>): (r: seq<string>)
    ensures |r| <= |lines|
  {
    if |lines| == 0 then []
    else
      var rest := Collect(lines[..|lines| - 1]);
      match OptionLine(lines[|lines| - 1])
      case Some(o) => rest + [o]
      case None => rest
  }

  /** Collecting keeps the order of the lines: collecting two runs of lines
      gives their options one after the other. */
  lemma {:induction false} CollectConcat(a: seq<string>, b: seq<string>)
    ensures Collect(a + b) == Collect(a) + Collect(b)
    decreases |b|
  {
    if |b| > 0 {
      assert (a + b)[..|a + b| - 1] == a + b[..|b| - 1];
      CollectConcat(a, b[..|b| - 1]);
    } else {
      assert a + b == a;
    }
  }

  /** Every collected option comes from a matching line. */
  lemma {:induction false} CollectFrom(lines: seq<string>)
    ensures forall o :: o in Collect(lines) ==>
              exists k :: 0 <= k < |lines| && OptionLine(lines[k]) == Some(o)
  {
    if |lines| > 0 {
      var init := lines[..|lines| - 1];
      CollectFrom(init);
      forall o | o in Collect(lines)
        ensures exists k :: 0 <= k < |lines| && OptionLine(lines[k]) == Some(o)
      {
        if o in Collect(init) {
          var k :| 0 <= k < |init| && OptionLine(init[k]) == Some(o);
          assert lines[k] == init[k];
        } else {
          assert OptionLine(lines[|lines| - 1]) == Some(o);
        }
      }
    }
  }

  /** When every line matches, every line gives an option. */
  lemma {:induction false} CollectAll(lines: seq<string>)
    requires forall k :: 0 <= k < |lines| ==> OptionLine(lines[k]).Some?
    ensures |Collect(lines)| == |lines|
    ensures forall k :: 0 <= k < |lines| ==> Collect(lines)[k] == OptionLine(lines[k]).value
  {
    if |lines| > 0 {
      var init, line := lines[..|lines| - 1], lines[|lines| - 1];
      assert lines == init + [line];
      assert forall k :: 0 <= k < |init| ==> init[k] == lines[k];
      CollectAll(init);
      var c := Collect(init);
      var last := OptionLine(line);
      assert Collect(lines) == c + [last.value];
      forall k | 0 <= k < |lines|
        ensures Collect(lines)[k] == OptionLine(lines[k]).value
      {
        if k < |init| {
          assert lines[k] == init[k];
        }
      }
    }
  }

  /** The loop over the lines that collects the options. */
  method CollectLoop(lines: seq<string>) returns (options: seq<string>)
    ensures options == Collect(lines)
  {
    options := [];
    for i := 0 to |lines|
      invariant options == Collect(lines[..i])
    {
      assert lines[..i + 1][..i] == lines[..i];
      var m := OptionLine(lines[i]);
      if m.Some? {
        options := options + [m.value];
      }
    }
    assert lines[..|lines|] == lines;
  }

  /** The placeholder for the option at 1-based position `k`. */
  function Placeholder(k: nat): string {
    "Option " + Text.NatToString(k)
  }

  /** The options padded to at least four. */
  function Pad(options: seq<string>): seq<string>
    decreases 4 - |options|
  {
    if |options| >= 4 then options else Pad(options + [Placeholder(|options| + 1)])
  }

  /** Padding keeps the options found, never truncates, and fills up to
      four with "Option k" at the 1-based position k. */
  lemma {:induction false} PadGood(options: seq<string>)
    ensures var r := Pad(options);
            |r| == (if |options| >= 4 then |options| else 4)
            && options <= r
            && forall k :: |options| <= k < |r| ==> r[k] == Placeholder(k + 1)
    decreases 4 - |options|
  {
    if |options| < 4 {
      var next := options + [Placeholder(|options| + 1)];
      PadGood(next);
      assert options <= next;
    }
  }

  /** The `while len(options) < 4` loop. */
  method PadLoop(found: seq<string>) returns (options: seq<string>)
    ensures options == Pad(found)
  {
    options := found;
    while |options| < 4
      invariant Pad(options) == Pad(found)
      decreases 4 - |options|
    {
      options := options + [Placeholder(|options| + 1)];
    }
  }

  // ---------------------------------------------------------------------
  // The parsers

  /** The options of a question: the lines after the first "Options:",
      stripped as a block and split at newlines, that match. */
  function OptionsOf(text: string): seq<string> {
    match After(text, "Options:")
    case None => []
    case Some(rest) => Collect(Text.SplitOn(Text.Strip(rest), '\n'))
  }

  /** A question without an "Options:" marker gets four placeholders. */
  lemma NoOptionsMarker(text: string)
    requires !Text.Contains(text, "Options:")
    ensures Pad(OptionsOf(text)) == [Placeholder(1), Placeholder(2), Placeholder(3), Placeholder(4)]
  {
    PadGood([]);
  }

  /** A marker's stripped group, or the default when it has none. */
  function Group(m: Option<string>, default: string): string {
    if m.Some? then Text.Strip(m.value) else default
  }

  /** The vocabulary and listening parsers, which differ in the setup
      marker and the defaults. */
  function ParseMarked(text: string, marker: string, setup: string, question: string): (q: Question)
    ensures |q.options| >= 4
  {
    PadGood(OptionsOf(text));
    Question(Group(Between(text, marker, "Question:"), setup),
             Group(Between(text, "Question:", "Options:"), question),
             Pad(OptionsOf(text)))
  }

  /** `_parse_vocabulary_question`. */
  function ParseVocabulary(text: string): Question {
    ParseMarked(text, "Situation:", "状況の説明です。", "質問に答えてください。")
  }

  /** `_parse_listening_question`. */
  function ParseListening(text: string): Question {
    ParseMarked(text, "Action:", "行動の説明です。", "何と言いますか。")
  }

  /** The vocabulary and listening parsers as their loops run. */
  method ParseMarkedLoop(text: string, marker: string, setup: string, question: string) returns (q: Question)
    ensures q == ParseMarked(text, marker, setup, question)
  {
    var found: seq<string> := [];
    var rest := After(text, "Options:");
    if rest.Some? {
      found := CollectLoop(Text.SplitOn(Text.Strip(rest.value), '\n'));
    }
    var options := PadLoop(found);
    q := Question(Group(Between(text, marker, "Question:"), setup),
                  Group(Between(text, "Question:", "Options:"), question), options);
  }

  /** The options of a question whose numbered lines follow the first
      "Options:" marker are the options of those lines. */
  lemma OptionsOfLines(pre: string, lines: seq<string>)
    requires forall k :: 0 <= k < |pre| ==> !Text.OccursAt(pre + "Options:", "Options:", k)
    requires Text.Strip(Text.Join(['\n'], lines)) == Text.Join(['\n'], lines)
    requires |lines| > 0 && forall k :: 0 <= k < |lines| ==> '\n' !in lines[k]
    ensures OptionsOf(pre + "Options:" + Text.Join(['\n'], lines)) == Collect(lines)
  {
    AfterFirst(pre, "Options:", Text.Join(['\n'], lines));
    Text.SplitOnOfJoin(lines, '\n');
  }

  /** A question with its markers and at least four numbered options is read
      back: the setup and question between the markers, and the options in
      order, none added. */
  lemma ParseMarkedReads(text: string, marker: string, setup: string, question: string,
                         pre: string, lines: seq<string>)
    requires forall k :: 0 <= k < |pre| ==> !Text.OccursAt(pre + "Options:", "Options:", k)
    requires text == pre + "Options:" + Text.Join(['\n'], lines)
    requires Text.Strip(Text.Join(['\n'], lines)) == Text.Join(['\n'], lines)
    requires forall k :: 0 <= k < |lines| ==> '\n' !in lines[k] && OptionLine(lines[k]).Some?
    requires |lines| >= 4
    ensures var q := ParseMarked(text, marker, setup, question);
            |q.options| == |lines|
            && forall k :: 0 <= k < |lines| ==> q.options[k] == OptionLine(lines[k]).value
  {
    OptionsOfLines(pre, lines);
    CollectAll(lines);
  }

  /** What the regular expressions of the dialogue parsers found: the setup
      and question groups and the option groups. */
  datatype DialogueMatches = DialogueMatches(setup: Option<string>, question: Option<string>, options: seq<string>)

  /** The option groups, each stripped. */
  function StripAll(found: seq<string>): (r: seq<string>)
    ensures |r| == |found| && forall k :: 0 <= k < |found| ==> r[k] == Text.Strip(found[k])
  {
    seq(|found|, k requires 0 <= k < |found| => Text.Strip(found[k]))
  }

  /** `_parse_dialogue_question`, and `_parse_direct` for a dialogue. */
  function ParseDialogue(m: DialogueMatches, question: string): (q: Question)
    ensures |q.options| >= 4
  {
    PadGood(StripAll(m.options));
    Question(Group(m.setup, "会話の場面です。"), Group(m.question, question), Pad(StripAll(m.options)))
  }

  /** `_parse_direct`: only a dialogue is parsed without tags. */
  function ParseDirect(practice: string, m: DialogueMatches): Question {
    if practice == DialoguePractice then ParseDialogue(m, "質問に答えてください。")
    else FallbackQuestion(practice)
  }

  /** The reply with the closing tag added when only the opening one is there. */
  function Closed(response: string): string {
    if Text.Contains(response, "<question>") && !Text.Contains(response, "</question>")
    then response + "</question>"
    else response
  }

  /** `_parse_question_response`, given what the dialogue expressions find
      inside the tags and in the whole reply. */
  function ParseResponse(response: string, practice: string, tagged: DialogueMatches, direct: DialogueMatches): Question {
    var r := Closed(response);
    match Between(r, "<question>", "</question>")
    case None => ParseDirect(practice, direct)
    case Some(t) =>
      var text := Text.Strip(t);
      if practice == DialoguePractice then ParseDialogue(tagged, "質問に答えてください。")
      else if practice == VocabularyQuiz then ParseVocabulary(text)
      else ParseListening(text)
  }

  /** Whatever the reply, the question has at least four options. */
  lemma ParseResponseOptions(response: string, practice: string, tagged: DialogueMatches, direct: DialogueMatches)
    ensures |ParseResponse(response, practice, tagged, direct).options| >= 4
  {
  }

  /** A reply with an opening tag but no closing one is read from inside
      the tags: the missing closing tag is supplied. */
  lemma ClosedExtracts(response: string)
    requires Text.Contains(response, "<question>") && !Text.Contains(response, "</question>")
    ensures Between(Closed(response), "<question>", "</question>").Some?
  {
    var r := Closed(response);
    Text.FindContains(response, "<question>");
    var i := Text.Find(response, "<question>", 0).value;
    assert r[..|response|] == response;
    assert Text.OccursAt(r, "<question>", i) by {
      assert r[i..i + 10] == response[i..i + 10];
    }
    assert Text.OccursAt(r, "</question>", |response|);
    assert Delimits(r, "<question>", "</question>", i, |response|);
    BetweenLeftmost(r, "<question>", "</question>");
  }

  /** A reply without an opening tag is parsed directly. */
  lemma UntaggedDirect(response: string, practice: string, tagged: DialogueMatches, direct: DialogueMatches)
    requires !Text.Contains(response, "<question>")
    ensures ParseResponse(response, practice, tagged, direct) == ParseDirect(practice, direct)
  {
    Text.FindContains(response, "<question>");
  }
}
