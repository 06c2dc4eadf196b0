/** Learning the vocabulary attached to a location or a character: every
    word with a Japanese form is recorded under the next free id
    "vocab_<number of known entries>", both in the world's vocabulary and in
    the player's learned vocabulary, counted, and listed. */
module Vocabulary {

  import opened Wrappers
  import Dicts
  import Text
  import opened GameModels
  import opened EngineState
  import WorldInit

  /** The world's vocabulary, the player, the listing and the count of new
      words while a list of words is worked through. */
  datatype Learning = Learning(vocabulary: map<string, VocabularyEntry>, player: Player, text: string, newWords: nat)

  const Heading := "\n\n[Vocabulary]"

  /** The id of the entry that follows `n` known ones. */
  function NextId(n: nat): string {
    "vocab_" + Text.NatToString(n)
  }

  /** The world entry for a word, its optional fields read as "". */
  function EntryFrom(w: Dicts.StrDict): VocabularyEntry {
    VocabularyEntry(Dicts.GetStr(w, "japanese", ""), Dicts.GetStr(w, "english", ""),
                    Some(Dicts.GetStr(w, "reading", "")), Some(Dicts.GetStr(w, "part_of_speech", "")),
                    Some(Dicts.GetStr(w, "example_sentence", "")), Some(Dicts.GetStr(w, "notes", "")),
                    None, 0, 0)
  }

  /** The line listing a new word: its Japanese, the reading in
      parentheses when there is one, and its English. */
  function WordLine(w: Dicts.StrDict): string {
    var reading := Dicts.GetStr(w, "reading", "");
    "\n- " + Dicts.GetStr(w, "japanese", "") + (if reading != "" then " (" + reading + ")" else "")
    + ": " + Dicts.GetStr(w, "english", "")
  }

  /** One word. A word without Japanese is skipped; so is one whose id the
      player already knows. Otherwise the player learns it at their current
      location at time `now`, the world gains the entry unless the id is
      taken, the counter goes up and the word is listed. */
  function LearnWord(l: Learning, w: Dicts.StrDict, source: string, now: string): Learning {
    var id := NextId(|l.vocabulary|);
    if Dicts.GetStr(w, "japanese", "") == "" || id in l.player.learnedVocabulary then l
    else
      var learned := LearnedVocabulary(id, Some(l.player.currentLocation), Some(now), 1, None, None, 0,
                                       Some("From " + source));
      var stats := l.player.stats.(vocabularyLearned := l.player.stats.vocabularyLearned + 1);
      Learning(if id in l.vocabulary then l.vocabulary else l.vocabulary[id := EntryFrom(w)],
               l.player.(learnedVocabulary := l.player.learnedVocabulary[id := learned], stats := stats),
               l.text + WordLine(w), l.newWords + 1)
  }

  /** The first `n` words, in order. */
  function LearnAll(l: Learning, words: seq<Dicts.StrDict>, source: string, now: string, n: int): Learning
    requires 0 <= n <= |words|
  {
    if n == 0 then l else LearnWord(LearnAll(l, words, source, now, n - 1), words[n - 1], source, now)
  }

  /** `process_vocabulary`: the new state and the listing of the new words
      under a heading, or "" when there is none. */
  function ProcessVocabulary(s: State, words: seq<Dicts.StrDict>, source: string, now: string): (State, string) {
    if words == [] then (s, "")
    else
      var l := LearnAll(Learning(s.world.vocabulary, s.player, Heading, 0), words, source, now, |words|);
      (s.(world := s.world.(vocabulary := l.vocabulary), player := l.player), if l.newWords > 0 then l.text else "")
  }

  /** The number of words with a Japanese form among the first `n`. */
  function Spoken(words: seq<Dicts.StrDict>, n: int): (r: nat)
    requires 0 <= n <= |words|
    ensures r <= n
  {
    if n == 0 then 0 else Spoken(words, n - 1) + (if Dicts.GetStr(words[n - 1], "japanese", "") != "" then 1 else 0)
  }

  /** A word never removes or changes an entry or a learned id, and it
      changes nothing of the player but the learned words and the
      counter. */
  lemma LearnWordKeeps(l: Learning, w: Dicts.StrDict, source: string, now: string)
    ensures var r := LearnWord(l, w, source, now);
            (forall id :: id in l.vocabulary ==> id in r.vocabulary && r.vocabulary[id] == l.vocabulary[id])
            && l.player.learnedVocabulary.Keys <= r.player.learnedVocabulary.Keys
            && r.player == l.player.(learnedVocabulary := r.player.learnedVocabulary, stats := r.player.stats)
            && r.player.stats == l.player.stats.(vocabularyLearned := r.player.stats.vocabularyLearned)
  {
  }

  /** With numbered ids, a word with Japanese always gets a fresh id, so it
      is learned: one more entry, one more learned word, the counter up by
      one. A word without Japanese changes nothing. */
  lemma LearnWordNumbered(l: Learning, w: Dicts.StrDict, source: string, now: string)
    requires Numbered(l.vocabulary, l.player.learnedVocabulary)
    ensures var r := LearnWord(l, w, source, now);
            Numbered(r.vocabulary, r.player.learnedVocabulary)
            && (Dicts.GetStr(w, "japanese", "") == "" ==> r == l)
            && (Dicts.GetStr(w, "japanese", "") != "" ==>
                  var id := NextId(|l.vocabulary|);
                  id !in l.vocabulary
                  && r.vocabulary == l.vocabulary[id := EntryFrom(w)]
                  && |r.vocabulary| == |l.vocabulary| + 1
                  && r.player.learnedVocabulary.Keys == l.player.learnedVocabulary.Keys + {id}
                  && r.player.learnedVocabulary[id].context == Some("From " + source)
                  && r.player.stats.vocabularyLearned == l.player.stats.vocabularyLearned + 1
                  && r.newWords == l.newWords + 1 && r.text == l.text + WordLine(w))
  {
    if Dicts.GetStr(w, "japanese", "") != "" {
      var id := NextId(|l.vocabulary|);
      var learned := LearnedVocabulary(id, Some(l.player.currentLocation), Some(now), 1, None, None, 0,
                                       Some("From " + source));
      NumberedAdd(l.vocabulary, l.player.learnedVocabulary, EntryFrom(w), learned);
      var r := LearnWord(l, w, source, now);
      assert r.vocabulary == l.vocabulary[id := EntryFrom(w)];
      assert r.player.learnedVocabulary == l.player.learnedVocabulary[id := learned];
    }
  }

  /** The next numbered id is fresh, and filing an entry and a learned word
      under it keeps the numbering. */
  lemma NumberedAdd(vocabulary: map<string, VocabularyEntry>, learned: map<string, LearnedVocabulary>,
                    e: VocabularyEntry, lv: LearnedVocabulary)
    requires Numbered(vocabulary, learned)
    ensures var id := NextId(|vocabulary|);
            id !in vocabulary && id !in learned
            && Numbered(vocabulary[id := e], learned[id := lv])
            && |vocabulary[id := e]| == |vocabulary| + 1
            && learned[id := lv].Keys == learned.Keys + {id}
  {
    var n := |vocabulary|;
    WorldInit.VocabIdFresh(n);
    var id := NextId(n);
    WorldInit.AddFresh(vocabulary, id, e);
  }

  /** `b` is `a` after `k` more words were learned: `k` more entries, new
      words and counted words, every entry and learned id of `a` kept, and
      nothing else of the player changed. */
  predicate Grown(a: Learning, b: Learning, k: int) {
    |b.vocabulary| == |a.vocabulary| + k
    && b.newWords == a.newWords + k
    && b.player.stats.vocabularyLearned == a.player.stats.vocabularyLearned + k
    && a.vocabulary.Keys <= b.vocabulary.Keys
    && (forall id :: id in a.vocabulary ==> b.vocabulary[id] == a.vocabulary[id])
    && a.player.learnedVocabulary.Keys <= b.player.learnedVocabulary.Keys
    && b.player == a.player.(learnedVocabulary := b.player.learnedVocabulary, stats := b.player.stats)
    && b.player.stats == a.player.stats.(vocabularyLearned := b.player.stats.vocabularyLearned)
  }

  lemma GrownTrans(a: Learning, b: Learning, c: Learning, j: int, k: int)
    requires Grown(a, b, j) && Grown(b, c, k)
    ensures Grown(a, c, j + k)
  {
  }

  /** One word, with numbered ids: the learning grows by one exactly when
      the word has Japanese. */
  lemma LearnWordGrown(l: Learning, w: Dicts.StrDict, source: string, now: string)
    requires Numbered(l.vocabulary, l.player.learnedVocabulary)
    ensures var r := LearnWord(l, w, source, now);
            Numbered(r.vocabulary, r.player.learnedVocabulary)
            && Grown(l, r, if Dicts.GetStr(w, "japanese", "") != "" then 1 else 0)
  {
    LearnWordNumbered(l, w, source, now);
    LearnWordKeeps(l, w, source, now);
  }

  /** With numbered ids, the first `n` words add exactly one entry and one
      learned word for each of them that has Japanese. */
  lemma {:induction false} LearnAllNumbered(l: Learning, words: seq<Dicts.StrDict>, source: string, now: string, n: int)
    requires 0 <= n <= |words|
    requires Numbered(l.vocabulary, l.player.learnedVocabulary)
    ensures var r := LearnAll(l, words, source, now, n);
            Numbered(r.vocabulary, r.player.learnedVocabulary) && Grown(l, r, Spoken(words, n))
  {
    if n > 0 {
      LearnAllNumbered(l, words, source, now, n - 1);
      LearnAllStep(l, words, source, now, n);
    }
  }

  lemma LearnAllStep(l: Learning, words: seq<Dicts.StrDict>, source: string, now: string, n: int)
    requires 0 < n <= |words|
    requires var before := LearnAll(l, words, source, now, n - 1);
             Numbered(before.vocabulary, before.player.learnedVocabulary) && Grown(l, before, Spoken(words, n - 1))
    ensures var r := LearnAll(l, words, source, now, n);
            Numbered(r.vocabulary, r.player.learnedVocabulary) && Grown(l, r, Spoken(words, n))
  {
    var before := LearnAll(l, words, source, now, n - 1);
    var d := if Dicts.GetStr(words[n - 1], "japanese", "") != "" then 1 else 0;
    LearnWordGrown(before, words[n - 1], source, now);
    GrownTrans(l, before, LearnWord(before, words[n - 1], source, now), Spoken(words, n - 1), d);
  }

  /** The word learnt from position `n - 1`, when it has Japanese, is the
      world entry built from it, under the id numbered after the entries
      known before it. */
  lemma LearnAllRecords(l: Learning, words: seq<Dicts.StrDict>, source: string, now: string, n: int)
    requires 0 < n <= |words| && Dicts.GetStr(words[n - 1], "japanese", "") != ""
    requires Numbered(l.vocabulary, l.player.learnedVocabulary)
    ensures var before := LearnAll(l, words, source, now, n - 1);
            var id := NextId(|before.vocabulary|);
            var r := LearnAll(l, words, source, now, |words|);
            id in r.vocabulary && r.vocabulary[id] == EntryFrom(words[n - 1])
            && id in r.player.learnedVocabulary
  {
    LearnAllNumbered(l, words, source, now, n - 1);
    var before := LearnAll(l, words, source, now, n - 1);
    LearnWordNumbered(before, words[n - 1], source, now);
    LearnAllNumbered(LearnAll(l, words, source, now, n), words, source, now, 0);
    LaterKeepsEntries(l, words, source, now, n, |words|);
  }

  /** Entries present after `m` words are still there, unchanged, after
      `n >= m`. */
  lemma {:induction false} LaterKeepsEntries(l: Learning, words: seq<Dicts.StrDict>, source: string, now: string,
                                             m: int, n: int)
    requires 0 <= m <= n <= |words|
    ensures var a := LearnAll(l, words, source, now, m);
            var b := LearnAll(l, words, source, now, n);
            (forall id :: id in a.vocabulary ==> id in b.vocabulary && b.vocabulary[id] == a.vocabulary[id])
            && a.player.learnedVocabulary.Keys <= b.player.learnedVocabulary.Keys
  {
    if m < n {
      LaterKeepsEntries(l, words, source, now, m, n - 1);
      LearnWordKeeps(LearnAll(l, words, source, now, n - 1), words[n - 1], source, now);
    }
  }

  /** `process_vocabulary` on numbered ids: each word with Japanese is
      learned once more under a new id (a word heard again is learned
      again), the counter and the number of entries grow by the number of
      such words, and nothing but the vocabulary and the player's learned
      words and counter changes. */
  lemma ProcessVocabularyFacts(s: State, words: seq<Dicts.StrDict>, source: string, now: string)
    requires Numbered(s.world.vocabulary, s.player.learnedVocabulary)
    ensures var r := ProcessVocabulary(s, words, source, now).0;
            Numbered(r.world.vocabulary, r.player.learnedVocabulary)
            && |r.world.vocabulary| == |s.world.vocabulary| + Spoken(words, |words|)
            && r.player.stats.vocabularyLearned == s.player.stats.vocabularyLearned + Spoken(words, |words|)
            && r == s.(world := s.world.(vocabulary := r.world.vocabulary), player := r.player)
            && r.player == s.player.(learnedVocabulary := r.player.learnedVocabulary,
                                     stats := s.player.stats.(vocabularyLearned := r.player.stats.vocabularyLearned))
  {
    if words != [] {
      var l0 := Learning(s.world.vocabulary, s.player, Heading, 0);
      LearnAllNumbered(l0, words, source, now, |words|);
      var l := LearnAll(l0, words, source, now, |words|);
      assert ProcessVocabulary(s, words, source, now).0
          == s.(world := s.world.(vocabulary := l.vocabulary), player := l.player);
    }
  }

  /** The listing of `process_vocabulary` on numbered ids is empty exactly
      when no word has Japanese; otherwise it starts with the heading. */
  lemma ProcessVocabularyText(s: State, words: seq<Dicts.StrDict>, source: string, now: string)
    requires Numbered(s.world.vocabulary, s.player.learnedVocabulary)
    ensures var text := ProcessVocabulary(s, words, source, now).1;
            (text == "" <==> Spoken(words, |words|) == 0)
            && (text != "" ==> Text.StartsWith(text, Heading))
  {
    if words != [] {
      var l0 := Learning(s.world.vocabulary, s.player, Heading, 0);
      var l := LearnAll(l0, words, source, now, |words|);
      LearnAllNumbered(l0, words, source, now, |words|);
      HeadingKept(l0, words, source, now, |words|);
      assert l.newWords == Spoken(words, |words|) && Heading <= l.text;
      assert ProcessVocabulary(s, words, source, now).1 == if l.newWords > 0 then l.text else "";
    }
  }

  /** Learning vocabulary makes the state evolve. */
  lemma ProcessVocabularyEvolves(s: State, words: seq<Dicts.StrDict>, source: string, now: string)
    requires Numbered(s.world.vocabulary, s.player.learnedVocabulary)
    ensures Evolves(s, ProcessVocabulary(s, words, source, now).0)
  {
    ProcessVocabularyFacts(s, words, source, now);
    var r := ProcessVocabulary(s, words, source, now).0;
    assert r.world.locations == s.world.locations && r.world.quests == s.world.quests && r.log == s.log;
  }

  /** When the next id is already among the player's learned words (the
      world's ids are not numbered from zero), no word of the list is
      learned: the id does not move on, so every later word hits it too. */
  lemma {:induction false} LearnAllStuck(l: Learning, words: seq<Dicts.StrDict>, source: string, now: string, n: int)
    requires 0 <= n <= |words|
    requires NextId(|l.vocabulary|) in l.player.learnedVocabulary
    ensures LearnAll(l, words, source, now, n) == l
  {
    if n > 0 {
      LearnAllStuck(l, words, source, now, n - 1);
    }
  }

  /** The listing only grows. */
  lemma {:induction false} HeadingKept(l: Learning, words: seq<Dicts.StrDict>, source: string, now: string, n: int)
    requires 0 <= n <= |words|
    ensures l.text <= LearnAll(l, words, source, now, n).text
  {
    if n > 0 {
      HeadingKept(l, words, source, now, n - 1);
    }
  }

  /** `process_vocabulary` on the game state. */
  method LearnVocabulary(gs: GameState, words: seq<Dicts.StrDict>, source: string, now: string) returns (text: string)
    modifies gs
    ensures var (r, t) := ProcessVocabulary(old(Snapshot(gs)), words, source, now);
            Snapshot(gs) == r && text == t
    ensures gs.flags == old(gs.flags) && gs.version == old(gs.version) && gs.creationTime == old(gs.creationTime)
  {
    if words == [] {
      return "";
    }
    ghost var l0 := Learning(gs.world.vocabulary, gs.player, Heading, 0);
    text := Heading;
    var newWords := 0;
    for i := 0 to |words|
      invariant Learning(gs.world.vocabulary, gs.player, text, newWords) == LearnAll(l0, words, source, now, i)
      invariant gs.world == old(gs.world).(vocabulary := gs.world.vocabulary)
      invariant gs.visitedLocations == old(gs.visitedLocations) && gs.questLog == old(gs.questLog)
      invariant gs.activeGrammarChallenge == old(gs.activeGrammarChallenge)
      invariant gs.flags == old(gs.flags) && gs.version == old(gs.version) && gs.creationTime == old(gs.creationTime)
    {
      var w := words[i];
      var japanese := Dicts.GetStr(w, "japanese", "");
      if japanese == "" {
        continue;
      }
      var id := NextId(|gs.world.vocabulary|);
      if id !in gs.player.learnedVocabulary {
        var learned := LearnedVocabulary(id, Some(gs.player.currentLocation), Some(now), 1, None, None, 0,
                                         Some("From " + source));
        gs.player := gs.player.(learnedVocabulary := gs.player.learnedVocabulary[id := learned]);
        if id !in gs.world.vocabulary {
          gs.world := gs.world.(vocabulary := gs.world.vocabulary[id := EntryFrom(w)]);
        }
        gs.player := gs.player.(stats := gs.player.stats.(vocabularyLearned := gs.player.stats.vocabularyLearned + 1));
        newWords := newWords + 1;
        text := text + WordLine(w);
      }
    }
    if newWords == 0 {
      text := "";
    }
  }
}
