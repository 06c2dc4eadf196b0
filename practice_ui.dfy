/** The interactive-practice page of the listening app: counting the
    Japanese characters of a text, keeping the last ten questions, and
    reading the chosen answer back from its radio-button label. */
module PracticeUi {

  import opened Wrappers
  import Text

  // ---------------------------------------------------------------------
  // count_characters

  /** A kanji (U+4E00..U+9FFF), hiragana (U+3040..U+309F) or katakana
      (U+30A0..U+30FF) character. */
  predicate IsJapanese(c: char) {
    '一' <= c <= '鿿' || '぀' <= c <= 'ゟ' || '゠' <= c <= 'ヿ'
  }

  /** How many characters of `s` are Japanese. */
  function JapaneseCount(s: string): (n: nat)
    ensures n <= |s|
  {
    if |s| == 0 then 0 else JapaneseCount(s[..|s| - 1]) + (if IsJapanese(s[|s| - 1]) then 1 else 0)
  }

  /** `count_characters`: the Japanese characters and all characters of the
      text, (0, 0) for a missing or empty one. */
  function CountCharacters(text: Option<string>): (r: (nat, nat))
    ensures r.0 <= r.1
    ensures text.None? || text.value == "" ==> r == (0, 0)
    ensures text.Some? ==> r.1 == |text.value|
  {
    if text.None? || text.value == "" then (0, 0)
    else (JapaneseCount(text.value), |text.value|)
  }

  /** The count of two texts together is the sum of their counts. */
  lemma {:induction false} JapaneseCountConcat(a: string, b: string)
    ensures JapaneseCount(a + b) == JapaneseCount(a) + JapaneseCount(b)
    decreases |b|
  {
    if |b| > 0 {
      assert (a + b)[..|a + b| - 1] == a + b[..|b| - 1];
      JapaneseCountConcat(a, b[..|b| - 1]);
    } else {
      assert a + b == a;
    }
  }

  /** One character counts exactly when it is kana or kanji: the
      ideographic full stop U+3002 and the full-width letters do not. */
  lemma JapaneseCountOne(c: char)
    ensures JapaneseCount([c]) == (if IsJapanese(c) then 1 else 0)
    ensures !IsJapanese('。') && !IsJapanese('Ａ') && IsJapanese('あ') && IsJapanese('ア') && IsJapanese('日')
  {
    assert [c][..0] == [];
  }

  /** All characters count exactly when all are Japanese. */
  lemma {:induction false} JapaneseCountAll(s: string)
    ensures JapaneseCount(s) == |s| <==> forall i :: 0 <= i < |s| ==> IsJapanese(s[i])
  {
    if |s| > 0 {
      var init := s[..|s| - 1];
      JapaneseCountAll(init);
      assert forall i :: 0 <= i < |init| ==> init[i] == s[i];
    }
  }

  // ---------------------------------------------------------------------
  // The question history

  /** The history after appending `q`: the oldest entry dropped once there
      are more than ten. */
  function Push<T>(history: seq<T>, q: T): seq<T> {
    var h := history + [q];
    if |h| > 10 then h[1..] else h
  }

  /** A history of at most ten stays at most ten, with the new question
      last and the rest the most recent of the old ones in order. */
  lemma PushCapped<T>(history: seq<T>, q: T)
    requires |history| <= 10
    ensures var r := Push(history, q);
            |r| == (if |history| == 10 then 10 else |history| + 1)
            && r[|r| - 1] == q
            && r[..|r| - 1] == history[|history| + 1 - |r|..]
  {
  }

  /** A longer history loaded from elsewhere is never cut down to ten:
      each question still pushes out only the oldest one. */
  lemma PushLong<T>(history: seq<T>, q: T)
    requires |history| > 10
    ensures Push(history, q) == history[1..] + [q]
  {
  }

  /** The questions pushed one after the other. */
  function PushAll<T>(history: seq<T>, qs: seq<T>): seq<T>
    decreases |qs|
  {
    if |qs| == 0 then history else PushAll(Push(history, qs[0]), qs[1..])
  }

  /** Pushing questions one after the other into a history of at most ten
      keeps the last ten of them all. */
  lemma {:induction false} PushAllLastTen<T>(history: seq<T>, qs: seq<T>)
    requires |history| <= 10
    ensures var all := history + qs;
            PushAll(history, qs) == all[(if |all| > 10 then |all| - 10 else 0)..]
    decreases |qs|
  {
    if |qs| > 0 {
      var h := Push(history, qs[0]);
      PushAllLastTen(h, qs[1..]);
      var all := history + qs;
      var all' := h + qs[1..];
      if |history| == 10 {
        assert all' == all[1..];
      } else {
        assert all' == all;
      }
    }
  }

  /** `st.session_state.question_history`, appended to and capped in place. */
  class History<T> {
    var entries: seq<T>

    constructor (loaded: seq<T>)
      ensures entries == loaded
    {
      entries := loaded;
    }

    /** Append the new question, then pop index 0 if there are more than ten. */
    method Add(q: T)
      modifies this
      ensures entries == Push(old(entries), q)
      ensures old(|entries|) <= 10 ==> |entries| <= 10 && entries[|entries| - 1] == q
    {
      entries := entries + [q];
      if |entries| > 10 {
        entries := entries[1..];
      }
    }
  }

  // ---------------------------------------------------------------------
  // Answer labels

  /** The radio label of the option at 0-based position `i`. */
  function Label(i: nat, option: string): string {
    Text.NatToString(i + 1) + ". " + option
  }

  /** The labels of all the options, in order. */
  function Labels(options: seq<string>): (r: seq<string>)
    ensures |r| == |options| && forall i :: 0 <= i < |options| ==> r[i] == Label(i, options[i])
  {
    seq(|options|, i requires 0 <= i < |options| => Label(i, options[i]))
  }

  /** `int(label.split('.')[0]) - 1` for a label whose first piece is a
      decimal number; `None` stands for the `ValueError` of any other. */
  function SelectedIndex(chosen: string): Option<int> {
    var head := Text.SplitOn(chosen, '.')[0];
    if |head| > 0 && forall k :: 0 <= k < |head| ==> Text.IsDigit(head[k])
    then Some(Text.DigitsValue(head) - 1)
    else None
  }

  /** Parsing a label gives back its position, whatever the option says,
      full stops included. */
  lemma LabelRoundTrip(i: nat, option: string)
    ensures SelectedIndex(Label(i, option)) == Some(i)
  {
    var n := Text.NatToString(i + 1);
    assert '.' !in n by {
      forall k | 0 <= k < |n| ensures n[k] != '.' {
        assert Text.IsDigit(n[k]);
      }
    }
    assert Label(i, option) == n + (". " + option);
    Text.SplitOnPrefix(n, '.', ". " + option);
    assert (". " + option)[0] == '.';
    assert Text.SplitOn(". " + option, '.')[0] == "";
    assert n + "" == n;
    Text.DigitsValueOfNatToString(i + 1);
  }

  /** The answer chosen by its label is right exactly when its option is
      the correct one. */
  lemma AnswerCorrect(options: seq<string>, k: nat, correct: int)
    requires k < |options|
    ensures SelectedIndex(Labels(options)[k]) == Some(correct) <==> k == correct
  {
    LabelRoundTrip(k, options[k]);
  }
}
