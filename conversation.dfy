/** Talking to a character: the quests hear of it first, then the character
    answers with the dialogue for the state of one of its active quests, or
    with its default line, and teaches its vocabulary. */
module Conversation {

  import opened Wrappers
  import Dicts
  import Text
  import opened QuestModels
  import opened GameModels
  import QuestHandler
  import opened EngineState
  import Vocabulary
  import ItemCommands

  /** The character `id` is present in the world and `arg` matches its
      name. */
  predicate Answers(chars: map<string, Character>, id: string, arg: string) {
    id in chars && ItemCommands.NameMatches(chars[id].name, chars[id].japaneseName, arg)
  }

  /** The character's line for the quest `qid`, when the quest is active
      and the character has a line for its current state. */
  function QuestDialogue(ch: Character, log: QuestLog, qid: string): Option<string> {
    if qid in log.active.vals && qid in ch.questDialogues && log.active.vals[qid].state.Value() in ch.questDialogues[qid] then
      var d := ch.questDialogues[qid][log.active.vals[qid].state.Value()];
      Some(ch.name + ": " + Dicts.GetStr(d, "response", "")
           + (if "japanese_response" in d then "\n\n" + d["japanese_response"] else ""))
    else None
  }

  /** The line of the LAST of the first `n` quest ids of the character that
      has one: a later quest's line replaces an earlier one. */
  function QuestLine(ch: Character, log: QuestLog, n: int): Option<string>
    requires 0 <= n <= |ch.questIds|
  {
    if n == 0 then None
    else
      var d := QuestDialogue(ch, log, ch.questIds[n - 1]);
      if d.Some? then d else QuestLine(ch, log, n - 1)
  }

  /** There is a quest line exactly when one of the quests has a line, and
      it is the line of the last such quest. */
  lemma {:induction false} QuestLineLast(ch: Character, log: QuestLog, n: int)
    requires 0 <= n <= |ch.questIds|
    ensures var r := QuestLine(ch, log, n);
            (r.None? <==> forall k :: 0 <= k < n ==> QuestDialogue(ch, log, ch.questIds[k]).None?)
            && (r.Some? ==> exists k :: 0 <= k < n && QuestDialogue(ch, log, ch.questIds[k]) == r
                                        && forall j :: k < j < n ==> QuestDialogue(ch, log, ch.questIds[j]).None?)
  {
    if n > 0 {
      QuestLineLast(ch, log, n - 1);
      if QuestDialogue(ch, log, ch.questIds[n - 1]).None? && QuestLine(ch, log, n - 1).Some? {
        var k :| 0 <= k < n - 1 && QuestDialogue(ch, log, ch.questIds[k]) == QuestLine(ch, log, n - 1)
                 && forall j :: k < j < n - 1 ==> QuestDialogue(ch, log, ch.questIds[j]).None?;
        assert forall j :: k < j < n ==> QuestDialogue(ch, log, ch.questIds[j]).None?;
      }
    }
  }

  /** The character's default line, its Japanese form and the other topics
      it can talk about; a character without one only looks at the
      player. */
  function DefaultLine(ch: Character): string {
    if "default" in ch.dialogues.vals then
      var d := ch.dialogues.vals["default"];
      var japanese := Dicts.GetStr(d, "japanese_response", "");
      ch.name + ": " + Dicts.GetStr(d, "response", "")
      + (if japanese != "" then "\n\n" + japanese else "")
      + (if |ch.dialogues.keys| > 1 then "\n\nYou can ask about: " + Text.Join(", ", Dicts.Without(ch.dialogues.keys, "default")) else "")
    else ch.name + " looks at you but doesn't say anything."
  }

  /** What the character says given the quest log. */
  function Dialogue(ch: Character, log: QuestLog): string {
    match QuestLine(ch, log, |ch.questIds|)
    case Some(line) => line
    case None => DefaultLine(ch)
  }

  /** `talk_command`: the first character present whose name matches hears
      the player. */
  function Talk(s: State, arg: string, search: QuestHandler.Search, now: string): Answer {
    if arg == "" then Answer("Who do you want to talk to?", s)
    else
      match s.world.locations.Get(s.player.currentLocation)
      case None => Answer("Error: Current location not found.", s)
      case Some(loc) =>
        match FirstMatch(loc.characters, id => Answers(s.world.characters, id, arg))
        case None => Answer("You don't see " + arg + " here.", s)
        case Some(i) =>
          var id := loc.characters[i];
          var ch := s.world.characters[id];
          var t := Triggers(s, QuestHandler.TalkAction, id);
          var p := Progresses(t.state, QuestHandler.TalkAction, id, None, search);
          var v := if ch.vocabulary != [] then Vocabulary.ProcessVocabulary(p.state, ch.vocabulary, id, now) else (p.state, "");
          Answer(WithMessages(WithMessages(Dialogue(ch, p.state.log) + v.1, t.messages), p.messages), v.0)
  }

  /** The character `talk` would address, if any. */
  function Listener(s: State, arg: string): (r: Option<string>)
    requires s.player.currentLocation in s.world.locations.vals
    ensures r.Some? ==> r.value in s.world.locations.vals[s.player.currentLocation].characters
                        && Answers(s.world.characters, r.value, arg)
    ensures r.None? <==> forall i :: 0 <= i < |s.world.locations.vals[s.player.currentLocation].characters| ==>
                           !Answers(s.world.characters, s.world.locations.vals[s.player.currentLocation].characters[i], arg)
  {
    var loc := s.world.locations.vals[s.player.currentLocation];
    match FirstMatch(loc.characters, id => Answers(s.world.characters, id, arg))
    case None => None
    case Some(i) => Some(loc.characters[i])
  }

  /** Unless a character present is addressed, talking changes nothing. */
  lemma TalkToNobody(s: State, arg: string, search: QuestHandler.Search, now: string)
    requires arg == "" || s.player.currentLocation !in s.world.locations.vals || Listener(s, arg).None?
    ensures Talk(s, arg, search, now).state == s
    ensures s.player.currentLocation !in s.world.locations.vals && arg != "" ==>
              Talk(s, arg, search, now).text == "Error: Current location not found."
  {
  }

  /** Talking to a character starts each of its quests that was offered
      and not yet active: afterwards each is active, or already completed
      by the talk itself. No other quest starts, and the state evolves. */
  lemma TalkQuests(s: State, arg: string, search: QuestHandler.Search, now: string)
    requires Good(s) && arg != "" && s.player.currentLocation in s.world.locations.vals && Listener(s, arg).Some?
    ensures var r := Talk(s, arg, search, now).state;
            var ch := s.world.characters[Listener(s, arg).value];
            Evolves(s, r) && KeepsCommand(s, r)
            && (forall q :: q in ch.questIds && q in s.world.quests && q in s.log.available.vals && q !in s.log.active.vals
                  ==> q in r.log.active.vals || q in r.log.completed)
            && (forall q :: q in r.log.active.vals && q !in s.log.active.vals ==> q in ch.questIds)
  {
    var id := Listener(s, arg).value;
    var ch := s.world.characters[id];
    var t := Triggers(s, QuestHandler.TalkAction, id);
    TriggersEvolve(s, QuestHandler.TalkAction, id);
    QuestHandler.TalkStarts(s.log, s.world, id);
    ProgressesEvolve(t.state, QuestHandler.TalkAction, id, None, search);
    QuestHandler.QuestProgressFacts(t.state.log, t.state.world, t.state.player, QuestHandler.TalkAction, id, None, search);
    var p := Progresses(t.state, QuestHandler.TalkAction, id, None, search);
    EvolvesTrans(s, t.state, p.state);
    if ch.vocabulary != [] {
      Vocabulary.ProcessVocabularyEvolves(p.state, ch.vocabulary, id, now);
      Vocabulary.ProcessVocabularyFacts(p.state, ch.vocabulary, id, now);
      EvolvesTrans(s, p.state, Vocabulary.ProcessVocabulary(p.state, ch.vocabulary, id, now).0);
    }
  }

  /** The answer opens with what the character says, chosen after the
      quests heard of the talk. */
  lemma TalkAnswer(s: State, arg: string, search: QuestHandler.Search, now: string)
    requires arg != "" && s.player.currentLocation in s.world.locations.vals && Listener(s, arg).Some?
    ensures var id := Listener(s, arg).value;
            var t := Triggers(s, QuestHandler.TalkAction, id);
            var p := Progresses(t.state, QuestHandler.TalkAction, id, None, search);
            Text.StartsWith(Talk(s, arg, search, now).text, Dialogue(s.world.characters[id], p.state.log))
  {
    var id := Listener(s, arg).value;
    var ch := s.world.characters[id];
    var t := Triggers(s, QuestHandler.TalkAction, id);
    var p := Progresses(t.state, QuestHandler.TalkAction, id, None, search);
    var v := if ch.vocabulary != [] then Vocabulary.ProcessVocabulary(p.state, ch.vocabulary, id, now) else (p.state, "");
    var head := Dialogue(ch, p.state.log) + v.1;
    Text.StartsWithConcat(Dialogue(ch, p.state.log), v.1);
    WithMessagesStarts(head, t.messages);
    WithMessagesStarts(WithMessages(head, t.messages), p.messages);
    Text.StartsWithTrans(WithMessages(WithMessages(head, t.messages), p.messages), WithMessages(head, t.messages), head);
    Text.StartsWithTrans(Talk(s, arg, search, now).text, head, Dialogue(ch, p.state.log));
  }

  /** A quest line wins over the default line; the default line names the
      character, and lists the other topics when there are some. */
  lemma DialogueFacts(ch: Character, log: QuestLog)
    ensures QuestLine(ch, log, |ch.questIds|).Some? ==> Dialogue(ch, log) == QuestLine(ch, log, |ch.questIds|).value
    ensures QuestLine(ch, log, |ch.questIds|).None? ==> Dialogue(ch, log) == DefaultLine(ch)
    ensures Text.StartsWith(DefaultLine(ch), ch.name)
    ensures "default" in ch.dialogues.vals && ch.dialogues.Valid() ==>
              (Text.Contains(DefaultLine(ch), "\n\nYou can ask about: ") <== exists k :: k in ch.dialogues.vals && k != "default")
  {
    var line := DefaultLine(ch);
    assert line[..|ch.name|] == ch.name;
    if "default" in ch.dialogues.vals && ch.dialogues.Valid() && exists k :: k in ch.dialogues.vals && k != "default" {
      var k :| k in ch.dialogues.vals && k != "default";
      var d := ch.dialogues.vals["default"];
      var japanese := Dicts.GetStr(d, "japanese_response", "");
      var head := ch.name + ": " + Dicts.GetStr(d, "response", "") + (if japanese != "" then "\n\n" + japanese else "");
      var topics := "\n\nYou can ask about: ";
      assert |ch.dialogues.keys| > 1 by {
        assert "default" in ch.dialogues.keys && k in ch.dialogues.keys;
        var i :| 0 <= i < |ch.dialogues.keys| && ch.dialogues.keys[i] == "default";
        var j :| 0 <= j < |ch.dialogues.keys| && ch.dialogues.keys[j] == k;
        assert i != j;
      }
      var rest := Text.Join(", ", Dicts.Without(ch.dialogues.keys, "default"));
      assert line == head + (topics + rest);
      Text.ContainsSelf(topics);
      Text.ContainsConcat(topics, rest, topics);
      Text.ContainsConcat(head, topics + rest, topics);
    }
  }

  // ---------------------------------------------------------------------
  // On the game state

  /** The dialogue scan of `talk_command`: every active quest of the
      character with a line for its state overwrites the answer. */
  method FindDialogue(ch: Character, log: QuestLog) returns (line: string)
    ensures line == Dialogue(ch, log)
  {
    var found: Option<string> := None;
    for i := 0 to |ch.questIds|
      invariant found == QuestLine(ch, log, i)
    {
      var q := ch.questIds[i];
      if q in log.active.vals {
        var quest := log.active.vals[q];
        if q in ch.questDialogues && quest.state.Value() in ch.questDialogues[q] {
          var d := ch.questDialogues[q][quest.state.Value()];
          var japanese := if "japanese_response" in d then "\n\n" + d["japanese_response"] else "";
          found := Some(ch.name + ": " + Dicts.GetStr(d, "response", "") + japanese);
        }
      }
    }
    line := if found.Some? then found.value else DefaultLine(ch);
  }

  /** `talk_command` on the game state. */
  method TalkCommand(gs: GameState, arg: string, search: QuestHandler.Search, now: string) returns (text: string)
    modifies gs
    ensures var r := Talk(old(Snapshot(gs)), arg, search, now);
            Snapshot(gs) == r.state && text == r.text
    ensures KeepsMeta(gs)
  {
    if arg == "" {
      return "Who do you want to talk to?";
    }
    var found := gs.world.locations.Get(gs.player.currentLocation);
    if found.None? {
      return "Error: Current location not found.";
    }
    var chars := gs.world.characters;
    var i := Find(found.value.characters, id => Answers(chars, id, arg));
    if i.None? {
      return "You don't see " + arg + " here.";
    }
    var id := found.value.characters[i.value];
    var ch := chars[id];
    var questMessages := RunTriggers(gs, QuestHandler.TalkAction, id);
    var progressMessages := RunProgress(gs, QuestHandler.TalkAction, id, None, search);
    text := FindDialogue(ch, gs.questLog);
    if ch.vocabulary != [] {
      var learnt := Vocabulary.LearnVocabulary(gs, ch.vocabulary, id, now);
      text := text + learnt;
    } else {
      text := text + "";
    }
    text := WithMessages(WithMessages(text, questMessages), progressMessages);
  }
}
