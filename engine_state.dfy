/** The engine's view of one game: the parts of the game state its commands
    read and write, what a command answers, and the steps several commands
    share — repairing a missing location, the quest triggers and the quest
    progress that follow an action — with the invariant every command
    keeps. */
module EngineState {

  import opened Wrappers
  import Dicts
  import Text
  import opened QuestModels
  import opened GameModels
  import QuestHandler
  import WorldInit

  /** The fields of a game state that commands use. */
  datatype State = State(
    world: World,
    player: Player,
    visited: set<string>,
    log: QuestLog,
    challenge: Option<GrammarChallengeRef>)

  /** The command-relevant fields of the game state `gs`. */
  function Snapshot(gs: GameState): State
    reads gs
  {
    State(gs.world, gs.player, gs.visitedLocations, gs.questLog, gs.activeGrammarChallenge)
  }

  /** The exceptions a command can end in. */
  datatype PyError = IndexError | NameError | AttributeError

  /** A command's answer: a text, or an exception that escapes it. */
  datatype Reply = Said(text: string) | Raised(error: PyError)

  datatype Response = Response(reply: Reply, state: State)

  /** The text and new state of a command that cannot fail. */
  datatype Answer = Answer(text: string, state: State)

  /** A state after a quest step, with the step's messages. */
  datatype Step = Step(state: State, messages: seq<string>)

  // ---------------------------------------------------------------------
  // The invariant

  /** What a command reads from outside the game: the time it runs at and
      the regular-expression search used on grammar answers. */
  datatype Env = Env(now: string, search: QuestHandler.Search)

  /** The quest log agrees with the quest definitions, the location table
      and every connection table are well-formed, and vocabulary ids are
      numbered from zero. */
  ghost predicate Good(s: State) {
    QuestHandler.Consistent(s.log, s.world.quests) && LocationsValid(s.world.locations)
    && Numbered(s.world.vocabulary, s.player.learnedVocabulary)
  }

  /** The vocabulary ids in use are exactly "vocab_0" up to the number of
      entries, and every learned word has an entry. */
  ghost predicate Numbered(vocabulary: map<string, VocabularyEntry>, learned: map<string, LearnedVocabulary>) {
    vocabulary.Keys == WorldInit.VocabIds(|vocabulary|) && learned.Keys <= vocabulary.Keys
  }

  /** The base case of the invariant: the state `init_game_state` starts a
      game in — the validated world, a new player at start, nothing visited,
      an empty quest log and no challenge — is good when the world data's
      vocabulary entries carry no ids of their own. */
  lemma InitGood(raws: seq<WorldInit.RawVocabulary>, w: World, now: string)
    requires LocationsValid(w.locations)
    requires w.vocabulary == WorldInit.AddVocabulary(map[], raws, |raws|)
    requires forall i :: 0 <= i < |raws| ==> raws[i].id.None?
    ensures Good(State(w, NewPlayer("start", now), {}, NewQuestLog(), None))
  {
    QuestHandler.NewQuestLogConsistent(w.quests);
    WorldInit.VocabularyIdsContiguous(raws, |raws|);
  }

  /** The bookkeeping of the command itself — the move counter and the last
      command with its time — is left to the dispatcher. */
  predicate KeepsCommand(s: State, r: State) {
    r.player.stats.moves == s.player.stats.moves
    && r.player.lastCommand == s.player.lastCommand && r.player.lastCommandTime == s.player.lastCommandTime
  }

  /** What no command undoes: the item and character tables stay as they
      are, locations are only added (at the end of the order), visits,
      completed quests and the statistics counters only grow, failed quests
      stay failed, and a good state stays good. */
  ghost predicate Evolves(s: State, r: State) {
    r.world.items == s.world.items && r.world.characters == s.world.characters
    && s.world.locations.keys <= r.world.locations.keys
    && s.visited <= r.visited
    && QuestHandler.CompletedGrows(s.log.completed, r.log.completed)
    && r.log.failed == s.log.failed
    && Grows(s.player.stats, r.player.stats)
    && (Good(s) ==> Good(r))
  }

  /** No counter of the statistics goes down and no visit is forgotten. */
  predicate Grows(a: PlayerStats, b: PlayerStats) {
    a.moves <= b.moves && a.itemsCollected <= b.itemsCollected
    && a.vocabularyLearned <= b.vocabularyLearned && a.questsCompleted <= b.questsCompleted
    && a.grammarPointsMastered == b.grammarPointsMastered
    && a.locationsVisited.Contents() <= b.locationsVisited.Contents()
  }

  lemma EvolvesRefl(s: State)
    ensures Evolves(s, s)
  {
  }

  lemma EvolvesTrans(a: State, b: State, c: State)
    requires Evolves(a, b) && Evolves(b, c)
    ensures Evolves(a, c)
  {
  }

  /** Replacing a location by one with the same connections keeps the table
      well-formed and its order. */
  lemma ReplaceLocationValid(locs: Dicts.Dict<string, Location>, id: string, loc: Location)
    requires LocationsValid(locs) && id in locs.vals && loc.connections == locs.vals[id].connections
    ensures LocationsValid(locs.Put(id, loc)) && locs.Put(id, loc).keys == locs.keys
  {
  }

  /** Moving the state to `r` by replacing one location with a version of
      the same connections, leaving everything else but the player alone,
      is an evolution when the player keeps the statistics counters and the
      learned words. */
  lemma ReplaceLocationEvolves(s: State, id: string, loc: Location, p: Player)
    requires id in s.world.locations.vals && loc.connections == s.world.locations.vals[id].connections
    requires Grows(s.player.stats, p.stats) && p.learnedVocabulary == s.player.learnedVocabulary
    ensures Evolves(s, s.(world := s.world.(locations := s.world.locations.Put(id, loc)), player := p))
  {
    if Good(s) {
      ReplaceLocationValid(s.world.locations, id, loc);
    }
  }

  // ---------------------------------------------------------------------
  // Missing locations

  /** The location made up for an id that names none: the starting point
      for "start", a mysterious area otherwise; no exits, nobody and nothing
      in it. */
  function Fallback(id: string): (r: Location)
    ensures r.id == id && r.connections == Dicts.Empty()
    ensures r.items == [] && r.characters == [] && r.vocabulary == []
    ensures !r.visited && !r.hidden && r.requiresKey.None?
    ensures id == "start" <==> r.name == "Starting Point"
  {
    if id == "start" then
      NewLocation(id, "Starting Point", "開始地点",
                  "You find yourself at the starting point of your adventure.", "あなたは冒険の出発点にいます。")
    else
      assert ("Area " + id)[0] == 'A';
      NewLocation(id, "Area " + id, "エリア " + id,
                  "A mysterious area that seems to have appeared out of nowhere.", "どこからともなく現れた不思議なエリア。")
  }

  /** `ensure_valid_location`: a missing location is added at the end of
      the table as its fallback, which counts as visited when the player
      stands there. A present location is left alone. */
  function EnsureLocation(s: State, id: string): (r: State)
    ensures id in r.world.locations.vals
    ensures id in s.world.locations.vals ==> r == s
    ensures r.player == s.player && r.log == s.log && r.challenge == s.challenge
  {
    if id in s.world.locations.vals then s
    else if s.player.currentLocation == id then
      s.(world := s.world.(locations := s.world.locations.Put(id, Fallback(id).(visited := true))),
         visited := s.visited + {id})
    else
      s.(world := s.world.(locations := s.world.locations.Put(id, Fallback(id))))
  }

  /** Adding a location with a well-formed connection table keeps the
      table well-formed. */
  lemma AddLocationValid(locs: Dicts.Dict<string, Location>, id: string, loc: Location)
    requires LocationsValid(locs) && id !in locs.vals && loc.connections.Valid()
    ensures LocationsValid(locs.Put(id, loc))
  {
    var r := locs.Put(id, loc);
    forall k | k in r.vals
      ensures r.vals[k].connections.Valid()
    {
      if k != id {
        assert r.vals[k] == locs.vals[k];
      }
    }
  }

  /** Repairing a location makes the state evolve. */
  lemma EnsureLocationEvolves(s: State, id: string)
    ensures Evolves(s, EnsureLocation(s, id))
  {
    var r := EnsureLocation(s, id);
    if id !in s.world.locations.vals {
      var loc := r.world.locations.vals[id];
      assert r.world == s.world.(locations := s.world.locations.Put(id, loc));
      assert loc.connections == Dicts.Empty();
      if Good(s) {
        AddLocationValid(s.world.locations, id, loc);
      }
    }
  }

  /** A missing location is repaired: its fallback is appended, marked
      visited exactly when the player stands there, nothing else in the
      world changes, and the id counts as visited exactly then. */
  lemma EnsureLocationRepairs(s: State, id: string)
    requires id !in s.world.locations.vals
    ensures var r := EnsureLocation(s, id);
            r.world.locations.keys == s.world.locations.keys + [id]
            && r.world.locations.vals == s.world.locations.vals[id := r.world.locations.vals[id]]
            && r.world.locations.vals[id] == Fallback(id).(visited := r.world.locations.vals[id].visited)
            && (r.world.locations.vals[id].visited <==> s.player.currentLocation == id)
            && (s.player.currentLocation == id ==> r.visited == s.visited + {id})
            && (s.player.currentLocation != id ==> r.visited == s.visited)
            && r.world == s.world.(locations := r.world.locations)
  {
    var f := Fallback(id);
    if s.player.currentLocation == id {
      assert EnsureLocation(s, id).world.locations == s.world.locations.Put(id, f.(visited := true));
    } else {
      assert EnsureLocation(s, id).world.locations == s.world.locations.Put(id, f);
    }
  }

  // ---------------------------------------------------------------------
  // Quest steps

  /** A map that keeps every entry of `a` has at least as many entries. */
  lemma {:induction false} GrowsCard(a: map<string, Quest>, b: map<string, Quest>)
    requires QuestHandler.CompletedGrows(a, b)
    ensures |a| <= |b|
  {
    if a != map[] {
      var k :| k in a;
      var a' := a - {k};
      var b' := b - {k};
      assert QuestHandler.CompletedGrows(a', b');
      GrowsCard(a', b');
    }
  }

  /** `check_quest_triggers` for an action on an entity. */
  function Triggers(s: State, a: QuestHandler.QuestAction, entity: string): (r: Step)
    ensures r.state == s.(log := r.state.log, world := s.world.(quests := r.state.world.quests))
  {
    var t := QuestHandler.Trigger(s.log, s.world, a, entity);
    Step(s.(log := t.log, world := s.world.(quests := t.quests)), t.messages)
  }

  /** `update_quest_progress` for an action on an entity with an optional
      answer. */
  function Progresses(s: State, a: QuestHandler.QuestAction, entity: string, input: Option<string>,
                      search: QuestHandler.Search): (r: Step)
    ensures r.state.visited == s.visited && r.state.challenge == s.challenge
  {
    var p := QuestHandler.QuestProgress(s.log, s.world, s.player, a, entity, input, search);
    Step(s.(log := p.log, world := p.world, player := p.player), p.messages)
  }

  /** Triggers only move quests between the available and active buckets:
      the completed and failed buckets stay, and the state evolves. */
  lemma TriggersEvolve(s: State, a: QuestHandler.QuestAction, entity: string)
    ensures Evolves(s, Triggers(s, a, entity).state)
    ensures Triggers(s, a, entity).state.log.completed == s.log.completed
  {
    if Good(s) {
      QuestHandler.TriggerConsistent(s.log, s.world, a, entity);
    }
  }

  /** Quest progress keeps the player where they are, the location table's
      order and connections, and makes the state evolve. */
  lemma ProgressesEvolve(s: State, a: QuestHandler.QuestAction, entity: string, input: Option<string>,
                         search: QuestHandler.Search)
    requires Good(s)
    ensures var r := Progresses(s, a, entity, input, search).state;
            Evolves(s, r)
            && r.player.currentLocation == s.player.currentLocation
            && r.world.locations.keys == s.world.locations.keys
            && r.world.vocabulary == s.world.vocabulary
            && QuestHandler.GainsItems(s.player.inventory, r.player.inventory, s.world.items)
            && QuestHandler.OnlyUnhides(s.world.locations, r.world.locations)
  {
    QuestHandler.QuestProgressFacts(s.log, s.world, s.player, a, entity, input, search);
    var p := QuestHandler.QuestProgress(s.log, s.world, s.player, a, entity, input, search);
    GrowsCard(s.log.completed, p.log.completed);
    QuestHandler.OnlyUnhidesValid(s.world.locations, p.world.locations);
  }

  /** A reply with quest messages appended: a blank line, then the messages
      one per line; the reply alone when there are none. */
  function WithMessages(text: string, messages: seq<string>): (r: string)
    ensures messages == [] ==> r == text
    ensures messages != [] ==> Text.StartsWith(r, text + "\n\n")
  {
    if messages == [] then text else text + "\n\n" + Text.Join("\n", messages)
  }

  /** Text followed by messages still opens with the text. */
  lemma WithMessagesStarts(text: string, messages: seq<string>)
    ensures Text.StartsWith(WithMessages(text, messages), text)
  {
    assert WithMessages(text, messages)[..|text|] == text;
  }

  /** A name followed by its Japanese form in parentheses when there is
      one. */
  function WithJapanese(name: string, japanese: string): (r: string)
    ensures Text.StartsWith(r, name)
    ensures japanese == "" <==> r == name
  {
    if japanese == "" then name else name + " (" + japanese + ")"
  }

  // ---------------------------------------------------------------------
  // Searching a list of ids

  /** The first position at or after `from` whose id `accept` takes. */
  function FirstFrom(ids: seq<string>, accept: string -> bool, from: nat): (r: Option<nat>)
    requires from <= |ids|
    ensures r.Some? ==> from <= r.value < |ids| && accept(ids[r.value])
    ensures r.Some? ==> forall j :: from <= j < r.value ==> !accept(ids[j])
    ensures r.None? ==> forall j :: from <= j < |ids| ==> !accept(ids[j])
    decreases |ids| - from
  {
    if from == |ids| then None
    else if accept(ids[from]) then Some(from)
    else FirstFrom(ids, accept, from + 1)
  }

  /** The first position whose id `accept` takes. */
  function FirstMatch(ids: seq<string>, accept: string -> bool): (r: Option<nat>)
    ensures r.Some? ==> r.value < |ids| && accept(ids[r.value])
    ensures r.Some? ==> forall j :: 0 <= j < r.value ==> !accept(ids[j])
    ensures r.None? ==> forall j :: 0 <= j < |ids| ==> !accept(ids[j])
  {
    FirstFrom(ids, accept, 0)
  }

  /** Python's `list.remove(x)`: the first occurrence of `x` taken out. */
  function RemoveFirst(s: seq<string>, x: string): (r: seq<string>)
    requires x in s
    ensures |r| == |s| - 1
    ensures multiset(r) == multiset(s) - multiset{x}
  {
    assert s == [s[0]] + s[1..];
    if s[0] == x then s[1..] else [s[0]] + RemoveFirst(s[1..], x)
  }

  /** The remainder of `s` once the first occurrence of `x`, at position
      `i`, is taken out. */
  lemma RemoveFirstAt(s: seq<string>, x: string, i: nat)
    requires i < |s| && s[i] == x && x !in s[..i]
    ensures RemoveFirst(s, x) == s[..i] + s[i + 1..]
  {
    if i > 0 {
      assert s[0] != x by { assert s[0] in s[..i]; }
      assert s[1..][..i - 1] == s[1..i];
      RemoveFirstAt(s[1..], x, i - 1);
      assert s[..i] == [s[0]] + s[1..i];
    }
  }

  // ---------------------------------------------------------------------
  // The same operations on the game state

  /** The session fields no command touches stay as they were. */
  twostate predicate KeepsMeta(gs: GameState)
    reads gs
  {
    gs.flags == old(gs.flags) && gs.version == old(gs.version) && gs.creationTime == old(gs.creationTime)
  }

  /** `ensure_valid_location` on the game state. */
  method EnsureValidLocation(gs: GameState, id: string)
    modifies gs
    ensures Snapshot(gs) == EnsureLocation(old(Snapshot(gs)), id)
    ensures KeepsMeta(gs)
  {
    if id in gs.world.locations.vals {
      return;
    }
    var here := gs.player.currentLocation == id;
    var loc := if here then Fallback(id).(visited := true) else Fallback(id);
    gs.world, gs.visitedLocations := gs.world.(locations := gs.world.locations.Put(id, loc)),
                                     if here then gs.visitedLocations + {id} else gs.visitedLocations;
  }

  /** `check_quest_triggers` on the game state. */
  method RunTriggers(gs: GameState, a: QuestHandler.QuestAction, entity: string) returns (messages: seq<string>)
    modifies gs
    ensures Step(Snapshot(gs), messages) == Triggers(old(Snapshot(gs)), a, entity)
    ensures KeepsMeta(gs)
  {
    messages := QuestHandler.CheckQuestTriggers(gs, a, entity);
  }

  /** `update_quest_progress` on the game state. */
  method RunProgress(gs: GameState, a: QuestHandler.QuestAction, entity: string, input: Option<string>,
                     search: QuestHandler.Search) returns (messages: seq<string>)
    modifies gs
    ensures Step(Snapshot(gs), messages) == Progresses(old(Snapshot(gs)), a, entity, input, search)
    ensures KeepsMeta(gs)
  {
    messages := QuestHandler.UpdateQuestProgress(gs, a, entity, input, search);
  }

  /** A `for` loop over `ids` that stops at the first one accepted. */
  method Find(ids: seq<string>, accept: string -> bool) returns (r: Option<nat>)
    ensures r == FirstMatch(ids, accept)
  {
    var i := 0;
    while i < |ids|
      invariant i <= |ids|
      invariant FirstMatch(ids, accept) == FirstFrom(ids, accept, i)
    {
      if accept(ids[i]) {
        return Some(i);
      }
      i := i + 1;
    }
    return None;
  }
}
