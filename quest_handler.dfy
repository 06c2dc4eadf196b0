/** The quest engine: trigger rules that move quests between the available,
    active and completed buckets of the quest log, objective progress with
    quest completion and rewards applied in order, and the quest overview.

    Every bucket entry is the same object as the world's quest definition
    under that id, so the engine writes a quest it changes both into its
    bucket and into `world.quests`. */
module QuestHandler {

  import opened Wrappers
  import Dicts
  import Text
  import opened QuestModels
  import opened GameModels

  /** The action names the engine reports to the quest handler. */
  datatype QuestAction = VisitAction | CollectAction | TalkAction | UseAction | GrammarAction | DropAction
  {
    function Value(): string {
      match this
      case VisitAction => "visit_location"
      case CollectAction => "collect_item"
      case TalkAction => "talk_to_npc"
      case UseAction => "use_item"
      case GrammarAction => "grammar_challenge"
      case DropAction => "drop_item"
    }
  }

  /** `re.search(pattern, text)` finds a match. */
  type Search = (string, string) -> bool

  // ---------------------------------------------------------------------
  // The quest log's invariant

  /** Every prerequisite of `q` is a completed quest. */
  predicate PrerequisitesMet(q: Quest, completed: map<string, Quest>) {
    forall i :: 0 <= i < |q.prerequisites| ==> q.prerequisites[i] in completed
  }

  /** The buckets are pairwise disjoint; every entry is the world's
      definition under its id; every available or active quest has all its
      prerequisites completed. */
  ghost predicate Consistent(log: QuestLog, quests: map<string, Quest>) {
    log.Valid()
    && (forall id :: id in log.available.vals ==> id !in log.active.vals && id !in log.completed)
    && (forall id :: id in log.active.vals ==> id !in log.completed)
    && Matches(log.available.vals, quests, log.completed)
    && Matches(log.active.vals, quests, log.completed)
    && (forall id :: id in log.completed ==> id in quests && quests[id] == log.completed[id])
  }

  /** The quests of `bucket` are the definitions in `quests`, with their
      prerequisites among `completed`. */
  ghost predicate Matches(bucket: map<string, Quest>, quests: map<string, Quest>, completed: map<string, Quest>) {
    forall id :: id in bucket ==> id in quests && quests[id] == bucket[id] && PrerequisitesMet(quests[id], completed)
  }

  /** A fresh quest log is consistent with any quest definitions. */
  lemma NewQuestLogConsistent(quests: map<string, Quest>)
    ensures Consistent(NewQuestLog(), quests)
  {
  }

  /** `old` completed quests are all still completed, unchanged. */
  ghost predicate CompletedGrows(old_: map<string, Quest>, new_: map<string, Quest>) {
    forall id :: id in old_ ==> id in new_ && new_[id] == old_[id]
  }

  // ---------------------------------------------------------------------
  // Triggers

  /** The quest log, the quest definitions and the messages after (part of)
      a trigger check. */
  datatype Triggered = Triggered(log: QuestLog, quests: map<string, Quest>, messages: seq<string>)

  /** Whether quest `id` may be offered: it is defined, neither active nor
      completed, and every prerequisite is completed. */
  predicate Offerable(log: QuestLog, quests: map<string, Quest>, id: string) {
    id in quests && id !in log.active.vals && id !in log.completed
    && PrerequisitesMet(quests[id], log.completed)
  }

  /** Visiting a location offers the first `n` of its trigger ids, in
      order, each one that is offerable and not hidden. */
  function OfferOnVisit(t: Triggered, triggers: seq<string>, n: int): (r: Triggered)
    requires 0 <= n <= |triggers|
    ensures r.quests == t.quests
    ensures r.log == t.log.(available := r.log.available)
    ensures t.log.available.Valid() ==> r.log.available.Valid()
    ensures forall id :: id in r.log.available.vals <==>
              id in t.log.available.vals
              || (id in triggers[..n] && Offerable(t.log, t.quests, id) && !t.quests[id].hidden)
    ensures forall id :: id in r.log.available.vals ==>
              (id in t.log.available.vals && r.log.available.vals[id] == t.log.available.vals[id])
              || (id in t.quests && r.log.available.vals[id] == t.quests[id])
  {
    if n == 0 then t
    else
      var p := OfferOnVisit(t, triggers, n - 1);
      var id := triggers[n - 1];
      assert triggers[..n] == triggers[..n - 1] + [id];
      OfferOne(p, id)
  }

  /** One trigger id of a visit: offered, with its message, when it is
      offerable and not hidden. */
  function OfferOne(p: Triggered, id: string): Triggered {
    if Offerable(p.log, p.quests, id) && !p.quests[id].hidden then
      var q := p.quests[id];
      Triggered(p.log.(available := p.log.available.Put(id, q)), p.quests,
                p.messages + ["New quest available: " + q.title + " - " + q.japaneseTitle])
    else p
  }

  /** The ids among the first `n` of `ids` that talking starts: defined,
      available and not active before the talk. */
  ghost function Started(t: Triggered, ids: seq<string>, n: int): set<string>
    requires 0 <= n <= |ids|
  {
    if n == 0 then {}
    else
      var id := ids[n - 1];
      Started(t, ids, n - 1)
      + (if id in t.quests && id in t.log.available.vals && id !in t.log.active.vals then {id} else {})
  }

  /** The message that announces a started quest. */
  function StartMessage(q: Quest): string {
    "Quest started: " + q.title + " - " + q.japaneseTitle + "\n\n"
    + q.description + "\n\n" + q.japaneseDescription
    + (if |q.objectives| > 0 then "\n\nObjectives:" + ObjectiveList(q.objectives, |q.objectives|) else "")
  }

  /** One "\n- <description>" line per objective among the first `n`. */
  function ObjectiveList(objs: seq<QuestObjective>, n: int): string
    requires 0 <= n <= |objs|
  {
    if n == 0 then "" else ObjectiveList(objs, n - 1) + "\n- " + objs[n - 1].description
  }

  /** Talking starts quest `id` when it is defined, available and not
      active: the world's definition, set in progress, enters the active
      bucket and leaves the available one. */
  function StartOne(p: Triggered, id: string): (r: Triggered)
    ensures p.log.Valid() ==> r.log.Valid()
    ensures r.log.completed == p.log.completed && r.log.failed == p.log.failed
    ensures r.quests.Keys == p.quests.Keys
  {
    if id in p.quests && id in p.log.available.vals && id !in p.log.active.vals then
      var q := p.quests[id].(state := InProgress);
      Triggered(p.log.(active := p.log.active.Put(id, q), available := p.log.available.Pop(id)),
                p.quests[id := q], p.messages + [StartMessage(q)])
    else p
  }

  /** What one start changes: only the entries under `id`. */
  lemma StartOneFacts(p: Triggered, id: string)
    ensures var r := StartOne(p, id);
            var starts := id in p.quests && id in p.log.available.vals && id !in p.log.active.vals;
            (starts ==> id in r.log.active.vals && id !in r.log.available.vals
                        && r.log.active.vals[id] == r.quests[id] == p.quests[id].(state := InProgress))
            && (!starts ==> r == p)
            && (forall k :: k != id ==>
                  (k in r.log.active.vals <==> k in p.log.active.vals)
                  && (k in r.log.available.vals <==> k in p.log.available.vals)
                  && (k in r.log.active.vals ==> r.log.active.vals[k] == p.log.active.vals[k])
                  && (k in r.log.available.vals ==> r.log.available.vals[k] == p.log.available.vals[k])
                  && (k in r.quests ==> r.quests[k] == p.quests[k]))
  {
  }

  /** Talking to a character starts the first `n` of its quest ids, in
      order. */
  function StartOnTalk(t: Triggered, ids: seq<string>, n: int): (r: Triggered)
    requires 0 <= n <= |ids|
    ensures t.log.Valid() ==> r.log.Valid()
    ensures r.log.completed == t.log.completed && r.log.failed == t.log.failed
    ensures r.quests.Keys == t.quests.Keys
  {
    if n == 0 then t else StartOne(StartOnTalk(t, ids, n - 1), ids[n - 1])
  }

  /** Talking moves exactly the started ids from the available bucket to
      the active one. */
  lemma {:induction false} StartOnTalkBuckets(t: Triggered, ids: seq<string>, n: int)
    requires 0 <= n <= |ids|
    ensures var r := StartOnTalk(t, ids, n);
            (forall id :: id in r.log.active.vals <==> id in t.log.active.vals || id in Started(t, ids, n))
            && (forall id :: id in r.log.available.vals <==> id in t.log.available.vals && id !in Started(t, ids, n))
  {
    if n > 0 {
      StartOnTalkBuckets(t, ids, n - 1);
      StartOneFacts(StartOnTalk(t, ids, n - 1), ids[n - 1]);
    }
  }

  /** A newly active quest is the world's definition set in progress, in
      both its bucket and the definitions. */
  lemma {:induction false} StartOnTalkStarted(t: Triggered, ids: seq<string>, n: int)
    requires 0 <= n <= |ids|
    ensures var r := StartOnTalk(t, ids, n);
            forall id :: id in r.log.active.vals && id !in t.log.active.vals ==>
              id in r.quests && id in t.quests
              && r.log.active.vals[id] == r.quests[id] == t.quests[id].(state := InProgress)
  {
    if n > 0 {
      StartOnTalkStarted(t, ids, n - 1);
      StartOnTalkUnchanged(t, ids, n - 1);
      StartOneFacts(StartOnTalk(t, ids, n - 1), ids[n - 1]);
    }
  }

  /** Talking changes no other quest. */
  lemma {:induction false} StartOnTalkUnchanged(t: Triggered, ids: seq<string>, n: int)
    requires 0 <= n <= |ids|
    ensures var r := StartOnTalk(t, ids, n);
            (forall id :: id in t.log.active.vals ==> id in r.log.active.vals && r.log.active.vals[id] == t.log.active.vals[id])
            && (forall id :: id in r.log.available.vals ==> id in t.log.available.vals && r.log.available.vals[id] == t.log.available.vals[id])
            && (forall id :: id in t.quests && (id in r.log.active.vals ==> id in t.log.active.vals) ==> r.quests[id] == t.quests[id])
  {
    if n > 0 {
      StartOnTalkUnchanged(t, ids, n - 1);
      StartOneFacts(StartOnTalk(t, ids, n - 1), ids[n - 1]);
    }
  }

  /** Collecting an item offers its related quest when it is offerable,
      hidden or not. */
  function OfferOnCollect(t: Triggered, item: Item): (r: Triggered)
    ensures r.quests == t.quests
    ensures r.log == t.log.(available := r.log.available)
    ensures t.log.available.Valid() ==> r.log.available.Valid()
  {
    match item.relatedQuestId
    case Some(id) =>
      if id != "" && Offerable(t.log, t.quests, id) then
        var q := t.quests[id];
        Triggered(t.log.(available := t.log.available.Put(id, q)), t.quests,
                  t.messages + ["You found " + item.name + ". New quest available: " + q.title])
      else t
    case None => t
  }

  /** `check_quest_triggers`: the quest log, the quest definitions and the
      messages after the player's action on `entity`. */
  function Trigger(log: QuestLog, world: World, action: QuestAction, entity: string): (r: Triggered)
  {
    var t := Triggered(log, world.quests, []);
    match action
    case VisitAction =>
      (match world.locations.Get(entity)
       case Some(loc) => OfferOnVisit(t, loc.questTriggers, |loc.questTriggers|)
       case None => t)
    case TalkAction =>
      if entity in world.characters then
        var ids := world.characters[entity].questIds;
        StartOnTalk(t, ids, |ids|)
      else t
    case CollectAction =>
      if entity in world.items then OfferOnCollect(t, world.items[entity]) else t
    case _ => t
  }

  /** Offering on a visit keeps the log consistent. */
  lemma VisitConsistent(t: Triggered, triggers: seq<string>)
    requires Consistent(t.log, t.quests)
    ensures var r := OfferOnVisit(t, triggers, |triggers|);
            Consistent(r.log, r.quests)
  {
  }

  /** Starting quests on a talk keeps the log consistent. */
  lemma TalkConsistent(t: Triggered, ids: seq<string>)
    requires Consistent(t.log, t.quests)
    ensures var r := StartOnTalk(t, ids, |ids|);
            Consistent(r.log, r.quests)
  {
    var r := StartOnTalk(t, ids, |ids|);
    var started := Started(t, ids, |ids|);
    StartOnTalkBuckets(t, ids, |ids|);
    StartOnTalkStarted(t, ids, |ids|);
    StartOnTalkUnchanged(t, ids, |ids|);
    forall id | id in started
      ensures id in t.quests && id in t.log.available.vals && id !in t.log.active.vals
    {
      StartedWasAvailable(t, ids, |ids|, id);
    }
    forall id | id in r.log.active.vals
      ensures id !in r.log.completed
      ensures id in r.quests && r.quests[id] == r.log.active.vals[id]
      ensures PrerequisitesMet(r.quests[id], r.log.completed)
    {
      if id !in t.log.active.vals {
        assert r.quests[id].prerequisites == t.quests[id].prerequisites;
      }
    }
    forall id | id in r.log.available.vals
      ensures id !in r.log.active.vals && id !in r.log.completed
      ensures id in r.quests && r.quests[id] == r.log.available.vals[id]
      ensures PrerequisitesMet(r.quests[id], r.log.completed)
    {
    }
    forall id | id in r.log.completed
      ensures id in r.quests && r.quests[id] == r.log.completed[id]
    {
      assert id !in r.log.active.vals;
    }
  }

  /** A started id was available before the talk. */
  lemma {:induction false} StartedWasAvailable(t: Triggered, ids: seq<string>, n: int, id: string)
    requires 0 <= n <= |ids| && id in Started(t, ids, n)
    ensures id in t.quests && id in t.log.available.vals && id !in t.log.active.vals
  {
    if id !in Started(t, ids, n - 1) {
    } else {
      StartedWasAvailable(t, ids, n - 1, id);
    }
  }

  /** Offering on a collect keeps the log consistent. */
  lemma CollectConsistent(t: Triggered, item: Item)
    requires Consistent(t.log, t.quests)
    ensures var r := OfferOnCollect(t, item);
            Consistent(r.log, r.quests)
  {
  }

  /** No trigger touches the completed or failed buckets, and every trigger
      keeps the log consistent. */
  lemma TriggerConsistent(log: QuestLog, world: World, action: QuestAction, entity: string)
    requires Consistent(log, world.quests)
    ensures var r := Trigger(log, world, action, entity);
            Consistent(r.log, r.quests) && r.log.completed == log.completed && r.log.failed == log.failed
  {
    var t := Triggered(log, world.quests, []);
    match action
    case VisitAction =>
      if world.locations.Get(entity).Some? {
        VisitConsistent(t, world.locations.Get(entity).value.questTriggers);
      }
    case TalkAction =>
      if entity in world.characters {
        TalkConsistent(t, world.characters[entity].questIds);
      }
    case CollectAction =>
      if entity in world.items {
        CollectConsistent(t, world.items[entity]);
      }
    case _ =>
  }

  /** Visiting a location makes available exactly its trigger ids that are
      offerable and not hidden; nothing else changes. */
  lemma VisitOffers(log: QuestLog, world: World, entity: string, loc: Location)
    requires world.locations.Get(entity) == Some(loc)
    ensures var r := Trigger(log, world, VisitAction, entity);
            r.quests == world.quests && r.log == log.(available := r.log.available)
            && forall id :: id in r.log.available.vals <==>
                 id in log.available.vals
                 || (id in loc.questTriggers && Offerable(log, world.quests, id) && !world.quests[id].hidden)
  {
    assert loc.questTriggers[..|loc.questTriggers|] == loc.questTriggers;
  }

  /** Collecting an item makes its related quest available when it is
      offerable, whether hidden or not. */
  lemma CollectOffers(log: QuestLog, world: World, entity: string)
    requires entity in world.items
    ensures var r := Trigger(log, world, CollectAction, entity);
            var related := world.items[entity].relatedQuestId;
            r.quests == world.quests && r.log == log.(available := r.log.available)
            && forall id :: id in r.log.available.vals <==>
                 id in log.available.vals
                 || (related == Some(id) && id != "" && Offerable(log, world.quests, id))
  {
  }

  /** Talking to a character starts exactly its quest ids that are defined,
      available and not active: they leave the available bucket for the
      active one, in progress. */
  lemma TalkStarts(log: QuestLog, world: World, entity: string)
    requires entity in world.characters
    ensures var r := Trigger(log, world, TalkAction, entity);
            var ids := world.characters[entity].questIds;
            forall id :: (id in r.log.active.vals && id !in log.active.vals) <==>
                         (id in ids && id in world.quests && id in log.available.vals && id !in log.active.vals)
  {
    var ids := world.characters[entity].questIds;
    var t := Triggered(log, world.quests, []);
    StartOnTalkBuckets(t, ids, |ids|);
    forall id
      ensures id in Started(t, ids, |ids|) <==>
              (id in ids && id in world.quests && id in log.available.vals && id !in log.active.vals)
    {
      StartedIn(t, ids, |ids|, id);
    }
  }

  /** Membership of the started set. */
  lemma {:induction false} StartedIn(t: Triggered, ids: seq<string>, n: int, id: string)
    requires 0 <= n <= |ids|
    ensures id in Started(t, ids, n) <==>
            (id in ids[..n] && id in t.quests && id in t.log.available.vals && id !in t.log.active.vals)
  {
    if n > 0 {
      StartedIn(t, ids, n - 1, id);
      assert ids[..n] == ids[..n - 1] + [ids[n - 1]];
    }
  }

  // ---------------------------------------------------------------------
  // The trigger check on the game state

  /** `all(p in completed for p in q.prerequisite_quests)`, by the loop that
      stops at the first prerequisite not completed. */
  method CheckPrerequisites(q: Quest, completed: map<string, Quest>) returns (met: bool)
    ensures met <==> PrerequisitesMet(q, completed)
  {
    met := true;
    var i := 0;
    while i < |q.prerequisites|
      invariant 0 <= i <= |q.prerequisites|
      invariant forall j :: 0 <= j < i ==> q.prerequisites[j] in completed
    {
      if q.prerequisites[i] !in completed {
        met := false;
        break;
      }
      i := i + 1;
    }
  }

  /** The start message, built line by line. */
  method BuildStartMessage(q: Quest) returns (s: string)
    ensures s == StartMessage(q)
  {
    s := "Quest started: " + q.title + " - " + q.japaneseTitle + "\n\n"
         + q.description + "\n\n" + q.japaneseDescription;
    if |q.objectives| > 0 {
      var head := s + "\n\nObjectives:";
      s := head;
      for i := 0 to |q.objectives|
        invariant s == head + ObjectiveList(q.objectives, i)
      {
        s := s + "\n- " + q.objectives[i].description;
      }
    }
  }

  /** Only the quest log and the quest definitions differ from the state
      on entry. */
  twostate predicate OnlyQuestsChanged(gs: GameState)
    reads gs
  {
    gs.world == old(gs.world).(quests := gs.world.quests)
    && gs.player == old(gs.player) && gs.visitedLocations == old(gs.visitedLocations)
    && gs.flags == old(gs.flags) && gs.version == old(gs.version)
    && gs.creationTime == old(gs.creationTime)
    && gs.activeGrammarChallenge == old(gs.activeGrammarChallenge)
  }

  /** The visit rule on the game state. */
  method OfferVisitTriggers(gs: GameState, triggers: seq<string>) returns (messages: seq<string>)
    modifies gs
    ensures var r := OfferOnVisit(Triggered(old(gs.questLog), old(gs.world.quests), []), triggers, |triggers|);
            gs.questLog == r.log && gs.world.quests == r.quests && messages == r.messages
    ensures OnlyQuestsChanged(gs)
  {
    messages := [];
    var t0 := Triggered(gs.questLog, gs.world.quests, []);
    for i := 0 to |triggers|
      invariant Triggered(gs.questLog, gs.world.quests, messages) == OfferOnVisit(t0, triggers, i)
      invariant OnlyQuestsChanged(gs) && gs.world == old(gs.world)
    {
      var id := triggers[i];
      ghost var before := Triggered(gs.questLog, gs.world.quests, messages);
      if id in gs.world.quests && id !in gs.questLog.active.vals && id !in gs.questLog.completed {
        var q := gs.world.quests[id];
        var met := CheckPrerequisites(q, gs.questLog.completed);
        if met && !q.hidden {
          gs.questLog := gs.questLog.(available := gs.questLog.available.Put(id, q));
          messages := messages + ["New quest available: " + q.title + " - " + q.japaneseTitle];
        }
      }
      assert Triggered(gs.questLog, gs.world.quests, messages) == OfferOne(before, id);
    }
  }

  /** The talk rule on the game state. */
  method StartTalkQuests(gs: GameState, ids: seq<string>) returns (messages: seq<string>)
    modifies gs
    ensures var r := StartOnTalk(Triggered(old(gs.questLog), old(gs.world.quests), []), ids, |ids|);
            gs.questLog == r.log && gs.world.quests == r.quests && messages == r.messages
    ensures OnlyQuestsChanged(gs)
  {
    messages := [];
    var t0 := Triggered(gs.questLog, gs.world.quests, []);
    for i := 0 to |ids|
      invariant Triggered(gs.questLog, gs.world.quests, messages) == StartOnTalk(t0, ids, i)
      invariant OnlyQuestsChanged(gs)
    {
      var id := ids[i];
      if id in gs.world.quests && id in gs.questLog.available.vals && id !in gs.questLog.active.vals {
        var q := gs.world.quests[id].(state := InProgress);
        gs.world := gs.world.(quests := gs.world.quests[id := q]);
        gs.questLog := gs.questLog.(active := gs.questLog.active.Put(id, q),
                                    available := gs.questLog.available.Pop(id));
        var m := BuildStartMessage(q);
        messages := messages + [m];
      }
    }
  }

  /** `check_quest_triggers`: the trigger rules applied to the game state in
      place; the player, the map and everything else stay as they were. */
  method CheckQuestTriggers(gs: GameState, action: QuestAction, entity: string) returns (messages: seq<string>)
    modifies gs
    ensures var r := Trigger(old(gs.questLog), old(gs.world), action, entity);
            gs.questLog == r.log && gs.world.quests == r.quests && messages == r.messages
    ensures OnlyQuestsChanged(gs)
  {
    messages := [];
    match action {
      case VisitAction =>
        var loc := gs.world.locations.Get(entity);
        if loc.Some? {
          messages := OfferVisitTriggers(gs, loc.value.questTriggers);
        }
      case TalkAction =>
        if entity in gs.world.characters {
          messages := StartTalkQuests(gs, gs.world.characters[entity].questIds);
        }
      case CollectAction =>
        if entity in gs.world.items {
          var item := gs.world.items[entity];
          if item.relatedQuestId.Some? && item.relatedQuestId.value != "" {
            var id := item.relatedQuestId.value;
            if id in gs.world.quests && id !in gs.questLog.active.vals && id !in gs.questLog.completed {
              var q := gs.world.quests[id];
              var met := CheckPrerequisites(q, gs.questLog.completed);
              if met {
                gs.questLog := gs.questLog.(available := gs.questLog.available.Put(id, q));
                messages := ["You found " + item.name + ". New quest available: " + q.title];
              }
            }
          }
        }
      case _ =>
    }
  }

  // ---------------------------------------------------------------------
  // Objective progress

  /** Whether an objective of type `t` reacts to action `a`: the five kinds
      the engine reports; learn_vocabulary and custom objectives never
      react. */
  predicate Handles(t: ObjectiveType, a: QuestAction) {
    (t == VisitLocation && a == VisitAction) || (t == CollectItem && a == CollectAction)
    || (t == TalkToNpc && a == TalkAction) || (t == UseItem && a == UseAction)
    || (t == GrammarChallenge && a == GrammarAction)
  }

  /** A grammar answer is right when the expected answer is not empty and
      either equals the stripped answer or, for a pattern, is found in the
      answer. */
  predicate AnswerCorrect(p: ObjectiveProperties, answer: string, search: Search) {
    p.correctPattern != ""
    && (Text.Strip(answer) == p.correctPattern || (p.usePattern && search(p.correctPattern, answer)))
  }

  const DefaultHint := "Try again with a different structure."

  /** One objective after an action, whether it changed, the messages and
      the grammar points learnt. */
  datatype Advance = Advance(objective: QuestObjective, updated: bool, messages: seq<string>, learned: seq<GrammarPoint>)

  /** One objective checked against the action on `entity`, with the
      player's answer `input` for a grammar challenge. */
  function AdvanceObjective(o: QuestObjective, a: QuestAction, entity: string, input: Option<string>,
                            search: Search): Advance
  {
    var same := Advance(o, false, [], []);
    if o.completed || !Handles(o.objType, a) || o.targetId != entity then same
    else if o.objType == CollectItem then
      var p := o.progress + 1;
      if p >= o.count then
        Advance(o.(progress := p, completed := true), true, ["Quest objective completed: " + o.description], [])
      else
        Advance(o.(progress := p), true,
                ["Quest progress: " + Text.IntToString(p) + "/" + Text.IntToString(o.count) + " " + o.description], [])
    else if o.objType == GrammarChallenge then
      if input.None? || input.value == "" then same
      else if AnswerCorrect(o.properties, input.value, search) then
        var gp := o.properties.grammarPoint;
        Advance(o.(completed := true), true,
                ["Grammar challenge completed: " + o.description]
                + (if gp.Some? then ["Grammar point learned: " + gp.value.name] else []),
                if gp.Some? then [gp.value] else [])
      else Advance(o, false, ["That's not quite right. " + o.properties.hint.GetOr(DefaultHint)], [])
    else Advance(o.(completed := true), true, ["Quest objective completed: " + o.description], [])
  }

  /** When an objective changes: it is incomplete, of the action's kind,
      aimed at `entity` and, for a grammar challenge, answered rightly with
      a non-empty answer. Only `completed` and `progress` ever change; a
      completed objective stays completed; progress never goes down; an
      unchanged objective teaches nothing. A collect objective completes
      when its progress reaches its count; the others complete at once. */
  lemma AdvanceObjectiveRules(o: QuestObjective, a: QuestAction, entity: string, input: Option<string>,
                              search: Search)
    ensures var r := AdvanceObjective(o, a, entity, input, search);
            (r.updated <==>
               !o.completed && Handles(o.objType, a) && o.targetId == entity
               && (o.objType == GrammarChallenge ==>
                     input.Some? && input.value != "" && AnswerCorrect(o.properties, input.value, search)))
            && (!r.updated ==> r.objective == o && r.learned == [])
            && r.objective == o.(completed := r.objective.completed, progress := r.objective.progress)
            && (o.completed ==> r.objective.completed)
            && r.objective.progress >= o.progress
            && (r.updated ==>
                  (r.objective.completed <==> o.objType != CollectItem || o.progress + 1 >= o.count))
  {
  }

  /** A wrong non-empty answer to a pending grammar objective changes
      nothing and yields only the hint. */
  lemma WrongAnswerOnlyHints(o: QuestObjective, entity: string, answer: string, search: Search)
    requires !o.completed && o.objType == GrammarChallenge && o.targetId == entity && answer != ""
    requires !AnswerCorrect(o.properties, answer, search)
    ensures AdvanceObjective(o, GrammarAction, entity, Some(answer), search)
            == Advance(o, false, ["That's not quite right. " + o.properties.hint.GetOr(DefaultHint)], [])
  {
  }

  /** The objectives of one quest after the action, in order. */
  datatype Advanced = Advanced(objectives: seq<QuestObjective>, updated: bool, messages: seq<string>, learned: seq<GrammarPoint>)

  /** The first `n` objectives checked in order. */
  function AdvanceAll(objs: seq<QuestObjective>, a: QuestAction, entity: string, input: Option<string>,
                      search: Search, n: int): (r: Advanced)
    requires 0 <= n <= |objs|
    ensures |r.objectives| == n
  {
    if n == 0 then Advanced([], false, [], [])
    else
      var p := AdvanceAll(objs, a, entity, input, search, n - 1);
      var s := AdvanceObjective(objs[n - 1], a, entity, input, search);
      Advanced(p.objectives + [s.objective], p.updated || s.updated, p.messages + s.messages, p.learned + s.learned)
  }

  /** Each objective is checked on its own: the result is the objectives
      one by one. */
  lemma {:induction false} AdvanceAllPointwise(objs: seq<QuestObjective>, a: QuestAction, entity: string,
                                               input: Option<string>, search: Search, n: int)
    requires 0 <= n <= |objs|
    ensures var r := AdvanceAll(objs, a, entity, input, search, n);
            forall i :: 0 <= i < n ==> r.objectives[i] == AdvanceObjective(objs[i], a, entity, input, search).objective
  {
    if n > 0 {
      AdvanceAllPointwise(objs, a, entity, input, search, n - 1);
      var p := AdvanceAll(objs, a, entity, input, search, n - 1);
      var s := AdvanceObjective(objs[n - 1], a, entity, input, search);
      var r := AdvanceAll(objs, a, entity, input, search, n);
      assert r.objectives == p.objectives + [s.objective];
      forall i | 0 <= i < n
        ensures r.objectives[i] == AdvanceObjective(objs[i], a, entity, input, search).objective
      {
        if i < n - 1 {
          assert r.objectives[i] == p.objectives[i];
        }
      }
    }
  }

  /** The quest changed exactly when one of its objectives did. */
  lemma {:induction false} AdvanceAllUpdated(objs: seq<QuestObjective>, a: QuestAction, entity: string,
                                             input: Option<string>, search: Search, n: int)
    requires 0 <= n <= |objs|
    ensures AdvanceAll(objs, a, entity, input, search, n).updated
            <==> exists i :: 0 <= i < n && AdvanceObjective(objs[i], a, entity, input, search).updated
  {
    if n > 0 {
      AdvanceAllUpdated(objs, a, entity, input, search, n - 1);
      if AdvanceObjective(objs[n - 1], a, entity, input, search).updated {
      } else if !AdvanceAll(objs, a, entity, input, search, n - 1).updated {
        forall i | 0 <= i < n
          ensures !AdvanceObjective(objs[i], a, entity, input, search).updated
        {
        }
      }
    }
  }

  /** When no objective changed, the objectives are as they were and
      nothing is learnt. */
  lemma {:induction false} AdvanceAllUnchanged(objs: seq<QuestObjective>, a: QuestAction, entity: string,
                                               input: Option<string>, search: Search, n: int)
    requires 0 <= n <= |objs|
    requires !AdvanceAll(objs, a, entity, input, search, n).updated
    ensures AdvanceAll(objs, a, entity, input, search, n).objectives == objs[..n]
    ensures AdvanceAll(objs, a, entity, input, search, n).learned == []
  {
    if n > 0 {
      AdvanceAllUnchanged(objs, a, entity, input, search, n - 1);
      AdvanceObjectiveRules(objs[n - 1], a, entity, input, search);
      assert objs[..n] == objs[..n - 1] + [objs[n - 1]];
    }
  }

  /** Every objective is completed. */
  predicate AllCompleted(objs: seq<QuestObjective>) {
    forall i :: 0 <= i < |objs| ==> objs[i].completed
  }

  // ---------------------------------------------------------------------
  // Rewards

  /** The line for each word of a vocabulary boost, its Japanese and
      English read with an empty default. */
  function WordLines(words: seq<Dicts.StrDict>, n: int): (r: string)
    requires 0 <= n <= |words|
  {
    if n == 0 then ""
    else
      var w := words[n - 1];
      WordLines(words, n - 1)
      + "  Learned new word: " + Dicts.GetStr(w, "japanese", "") + " (" + Dicts.GetStr(w, "english", "") + ").\n"
  }

  /** What granting rewards has produced so far. */
  datatype Granted = Granted(rewards: seq<QuestReward>, inventory: seq<string>, locations: Dicts.Dict<string, Location>, text: string)

  /** Grants one reward. An item reward naming a known item puts it in the
      inventory; an unlock reward naming a known location makes it visible;
      both are then claimed. A vocabulary boost only lists its words and is
      not claimed. Every reward contributes its description line. */
  function GrantOne(g: Granted, rw: QuestReward, items: map<string, Item>): Granted {
    var text := g.text + "- " + rw.description + "\n";
    var target := rw.targetId.GetOr("");
    if rw.rewardType == ItemReward && target != "" then
      if target in items then
        Granted(g.rewards + [rw.(claimed := true)], g.inventory + [target], g.locations,
                text + "  Added " + items[target].name + " to your inventory.\n")
      else Granted(g.rewards + [rw], g.inventory, g.locations, text)
    else if rw.rewardType == UnlockLocation && target != "" then
      if target in g.locations.vals then
        var loc := g.locations.vals[target];
        Granted(g.rewards + [rw.(claimed := true)], g.inventory, g.locations.Put(target, loc.(hidden := false)),
                text + "  Unlocked new location: " + loc.name + ".\n")
      else Granted(g.rewards + [rw], g.inventory, g.locations, text)
    else if rw.rewardType == VocabularyBoost && |rw.vocabulary| > 0 then
      Granted(g.rewards + [rw], g.inventory, g.locations, text + WordLines(rw.vocabulary, |rw.vocabulary|))
    else Granted(g.rewards + [rw], g.inventory, g.locations, text)
  }

  /** The first `n` rewards granted in order. */
  function GrantAll(g: Granted, rewards: seq<QuestReward>, items: map<string, Item>, n: int): Granted
    requires 0 <= n <= |rewards|
  {
    if n == 0 then g else GrantOne(GrantAll(g, rewards, items, n - 1), rewards[n - 1], items)
  }

  /** `b` is `a` with some items appended, each a known item. */
  predicate GainsItems(a: seq<string>, b: seq<string>, items: map<string, Item>) {
    a <= b && forall i :: |a| <= i < |b| ==> b[i] in items
  }

  /** `b` is the location table `a` with some locations made visible and
      nothing else changed. */
  ghost predicate OnlyUnhides(a: Dicts.Dict<string, Location>, b: Dicts.Dict<string, Location>) {
    b.keys == a.keys && b.vals.Keys == a.vals.Keys
    && forall k :: k in b.vals ==>
         b.vals[k] == a.vals[k].(hidden := b.vals[k].hidden) && (a.vals[k].hidden || !b.vals[k].hidden)
  }

  lemma GainsItemsTrans(a: seq<string>, b: seq<string>, c: seq<string>, items: map<string, Item>)
    requires GainsItems(a, b, items) && GainsItems(b, c, items)
    ensures GainsItems(a, c, items)
  {
    forall i | |a| <= i < |c|
      ensures c[i] in items
    {
      if i < |b| {
        assert c[i] == b[i];
      }
    }
  }

  lemma OnlyUnhidesTrans(a: Dicts.Dict<string, Location>, b: Dicts.Dict<string, Location>, c: Dicts.Dict<string, Location>)
    requires OnlyUnhides(a, b) && OnlyUnhides(b, c)
    ensures OnlyUnhides(a, c)
  {
  }

  /** Unhiding locations keeps the location table well-formed. */
  lemma OnlyUnhidesValid(a: Dicts.Dict<string, Location>, b: Dicts.Dict<string, Location>)
    requires OnlyUnhides(a, b) && LocationsValid(a)
    ensures LocationsValid(b)
  {
    forall k | k in b.vals
      ensures b.vals[k].connections.Valid()
    {
      assert b.vals[k].connections == a.vals[k].connections;
    }
  }

  /** A reward with its `claimed` flag cleared: two rewards differ at most
      in that flag exactly when these agree. */
  function Unclaimed(rw: QuestReward): QuestReward {
    rw.(claimed := false)
  }

  /** Every reward of the list with its `claimed` flag cleared. */
  function UnclaimedAll(rs: seq<QuestReward>): (r: seq<QuestReward>)
    ensures |r| == |rs|
  {
    if rs == [] then [] else UnclaimedAll(rs[..|rs| - 1]) + [Unclaimed(rs[|rs| - 1])]
  }

  /** Clearing the flags of a list with one more reward. */
  lemma UnclaimedAllSnoc(rs: seq<QuestReward>, rw: QuestReward)
    ensures UnclaimedAll(rs + [rw]) == UnclaimedAll(rs) + [Unclaimed(rw)]
  {
    assert (rs + [rw])[..|rs|] == rs;
  }

  /** Granting a reward appends it, changed at most in `claimed`. */
  lemma GrantOneRewards(g: Granted, rw: QuestReward, items: map<string, Item>)
    ensures UnclaimedAll(GrantOne(g, rw, items).rewards) == UnclaimedAll(g.rewards) + [Unclaimed(rw)]
  {
    var x := GrantOne(g, rw, items).rewards[|g.rewards|];
    assert GrantOne(g, rw, items).rewards == g.rewards + [x] && Unclaimed(x) == Unclaimed(rw);
    UnclaimedAllSnoc(g.rewards, x);
  }

  /** Granting a reward appends it, changed at most in `claimed`; the
      inventory only gains known items and locations are only unhidden. */
  lemma GrantOneFacts(g: Granted, rw: QuestReward, items: map<string, Item>)
    ensures var r := GrantOne(g, rw, items);
            |r.rewards| == |g.rewards| + 1 && r.rewards[..|g.rewards|] == g.rewards
            && r.rewards[|g.rewards|] == rw.(claimed := r.rewards[|g.rewards|].claimed)
    ensures GainsItems(g.inventory, GrantOne(g, rw, items).inventory, items)
    ensures OnlyUnhides(g.locations, GrantOne(g, rw, items).locations)
  {
    var t := rw.targetId.GetOr("");
    if rw.rewardType == UnlockLocation && t != "" && t in g.locations.vals {
      var r := GrantOne(g, rw, items);
      assert r.locations.vals == g.locations.vals[t := g.locations.vals[t].(hidden := false)];
    }
  }

  /** Claiming: an item reward is claimed exactly when it names a known
      item, and then the item is the one appended to the inventory; an
      unlock reward is claimed exactly when it names a known location, which
      is then visible; no other reward is ever claimed by granting. */
  lemma GrantOneClaims(g: Granted, rw: QuestReward, items: map<string, Item>)
    requires !rw.claimed
    ensures var r := GrantOne(g, rw, items);
            var t := rw.targetId.GetOr("");
            var claimed := r.rewards[|g.rewards|].claimed;
            (rw.rewardType == ItemReward ==>
               (claimed <==> t != "" && t in items) && r.inventory == g.inventory + (if claimed then [t] else []))
            && (rw.rewardType != ItemReward ==> r.inventory == g.inventory)
            && (rw.rewardType == UnlockLocation ==>
                  (claimed <==> t != "" && t in g.locations.vals) && (claimed ==> !r.locations.vals[t].hidden))
            && (rw.rewardType != UnlockLocation ==> r.locations == g.locations)
            && (rw.rewardType != ItemReward && rw.rewardType != UnlockLocation ==> !claimed)
  {
  }

  /** Granting a run of rewards keeps the rewards in order, each changed at
      most in `claimed`. */
  lemma {:induction false} GrantAllRewards(g: Granted, rewards: seq<QuestReward>, items: map<string, Item>, n: int)
    requires 0 <= n <= |rewards|
    ensures UnclaimedAll(GrantAll(g, rewards, items, n).rewards) == UnclaimedAll(g.rewards) + UnclaimedAll(rewards[..n])
  {
    if n > 0 {
      GrantAllRewards(g, rewards, items, n - 1);
      GrantAllStep(g, rewards, items, n);
      var a, b, u := UnclaimedAll(g.rewards), UnclaimedAll(rewards[..n - 1]), [Unclaimed(rewards[n - 1])];
      assert (a + b) + u == a + (b + u);
    }
  }

  /** One more reward granted: its flag-cleared copy is appended. */
  lemma GrantAllStep(g: Granted, rewards: seq<QuestReward>, items: map<string, Item>, n: int)
    requires 0 < n <= |rewards|
    ensures UnclaimedAll(GrantAll(g, rewards, items, n).rewards)
            == UnclaimedAll(GrantAll(g, rewards, items, n - 1).rewards) + [Unclaimed(rewards[n - 1])]
    ensures UnclaimedAll(rewards[..n]) == UnclaimedAll(rewards[..n - 1]) + [Unclaimed(rewards[n - 1])]
  {
    GrantOneRewards(GrantAll(g, rewards, items, n - 1), rewards[n - 1], items);
    assert rewards[..n] == rewards[..n - 1] + [rewards[n - 1]];
    UnclaimedAllSnoc(rewards[..n - 1], rewards[n - 1]);
  }

  /** Granting a run of rewards only gains known items and only unhides
      locations. */
  lemma {:induction false} GrantAllEffects(g: Granted, rewards: seq<QuestReward>, items: map<string, Item>, n: int)
    requires 0 <= n <= |rewards|
    ensures GainsItems(g.inventory, GrantAll(g, rewards, items, n).inventory, items)
    ensures OnlyUnhides(g.locations, GrantAll(g, rewards, items, n).locations)
  {
    if n > 0 {
      var p := GrantAll(g, rewards, items, n - 1);
      GrantAllEffects(g, rewards, items, n - 1);
      GrantOneFacts(p, rewards[n - 1], items);
      GainsItemsTrans(g.inventory, p.inventory, GrantAll(g, rewards, items, n).inventory, items);
      OnlyUnhidesTrans(g.locations, p.locations, GrantAll(g, rewards, items, n).locations);
    }
  }

  // ---------------------------------------------------------------------
  // Quest progress

  /** What `update_quest_progress` threads through the active quests. */
  datatype Progress = Progress(log: QuestLog, world: World, player: Player, messages: seq<string>, updated: bool)

  /** The completion message: the titles, then, when the quest has rewards,
      the text the rewards produced. */
  function CompletionText(q: Quest, granted: string): string {
    "Quest completed: " + q.title + " - " + q.japaneseTitle + "\n" + (if |q.rewards| > 0 then "Rewards:\n" + granted else "")
  }

  /** A changed quest `q` that is not finished: its new version replaces
      the old in the active bucket and among the definitions, being the same
      object. */
  function KeepActive(p: Progress, id: string, q: Quest): Progress {
    Progress(p.log.(active := p.log.active.Put(id, q)), p.world.(quests := p.world.quests[id := q]),
             p.player, p.messages, true)
  }

  /** A changed quest `q` whose objectives are all completed: marked
      completed, moved from the active to the completed bucket, counted, and
      its rewards granted in order. */
  function Finish(p: Progress, id: string, q: Quest): Progress {
    var g := GrantAll(Granted([], p.player.inventory, p.world.locations, ""), q.rewards, p.world.items, |q.rewards|);
    var done := q.(state := Completed, rewards := g.rewards);
    var stats := p.player.stats.(questsCompleted := p.player.stats.questsCompleted + 1);
    Progress(p.log.(active := p.log.active.Pop(id), completed := p.log.completed[id := done]),
             p.world.(locations := g.locations, quests := p.world.quests[id := done]),
             p.player.(inventory := g.inventory, stats := stats),
             p.messages + [CompletionText(q, g.text)], true)
  }

  /** One active quest `quest`, held under `id`, after the action. Its
      objectives are checked in order; grammar points learnt join the
      player's; a changed quest is kept active or, once all its objectives
      are completed, finished. */
  function ProgressQuest(p: Progress, id: string, quest: Quest, a: QuestAction, entity: string,
                         input: Option<string>, search: Search): Progress
  {
    var adv := AdvanceAll(quest.objectives, a, entity, input, search, |quest.objectives|);
    var p' := p.(player := p.player.(grammarPoints := p.player.grammarPoints + adv.learned),
                 messages := p.messages + adv.messages);
    if !adv.updated then p'
    else if !AllCompleted(adv.objectives) then KeepActive(p', id, quest.(objectives := adv.objectives))
    else Finish(p', id, quest.(objectives := adv.objectives))
  }

  /** The first `n` quests of the snapshot `snap` of the active bucket, in
      order. */
  function ProgressAll(p: Progress, snap: Dicts.Dict<string, Quest>, a: QuestAction, entity: string,
                       input: Option<string>, search: Search, n: int): Progress
    requires 0 <= n <= |snap.keys|
  {
    if n == 0 then p
    else
      var prev := ProgressAll(p, snap, a, entity, input, search, n - 1);
      var id := snap.keys[n - 1];
      if id in snap.vals then ProgressQuest(prev, id, snap.vals[id], a, entity, input, search) else prev
  }

  /** `update_quest_progress`: every quest active when it is called, in
      order; the messages are returned only when some quest changed. */
  function QuestProgress(log: QuestLog, world: World, player: Player, a: QuestAction, entity: string,
                         input: Option<string>, search: Search): Progress
  {
    var r := ProgressAll(Progress(log, world, player, [], false), log.active, a, entity, input, search, |log.active.keys|);
    r.(messages := if r.updated then r.messages else [])
  }

  /** Replacing an active quest by a version with the same prerequisites,
      in its bucket and in the definitions, keeps the log consistent. */
  lemma ReplaceActiveConsistent(log: QuestLog, quests: map<string, Quest>, id: string, q: Quest)
    requires Consistent(log, quests)
    requires id in log.active.vals && q.prerequisites == log.active.vals[id].prerequisites
    ensures Consistent(log.(active := log.active.Put(id, q)), quests[id := q])
  {
    assert Matches(log.active.vals, quests, log.completed);
    var log' := log.(active := log.active.Put(id, q));
    var quests' := quests[id := q];
    forall k | k in log'.active.vals
      ensures k in quests' && quests'[k] == log'.active.vals[k] && PrerequisitesMet(quests'[k], log'.completed)
    {
      if k != id {
        assert quests'[k] == quests[k];
      } else {
        assert PrerequisitesMet(quests[id], log.completed);
      }
    }
  }

  /** A bucket without `id` still matches after the definition of `id`
      changes and `id` is completed. */
  lemma MatchesAfterComplete(bucket: map<string, Quest>, quests: map<string, Quest>, completed: map<string, Quest>,
                             id: string, q: Quest)
    requires Matches(bucket, quests, completed) && id !in bucket
    ensures Matches(bucket, quests[id := q], completed[id := q])
  {
    forall k | k in bucket
      ensures k in quests[id := q] && quests[id := q][k] == bucket[k]
              && PrerequisitesMet(quests[id := q][k], completed[id := q])
    {
      assert PrerequisitesMet(quests[k], completed);
    }
  }

  /** Moving an active quest, as `q`, to the completed bucket and the
      definitions keeps the log consistent. */
  lemma CompleteActiveConsistent(log: QuestLog, quests: map<string, Quest>, id: string, q: Quest)
    requires Consistent(log, quests)
    requires id in log.active.vals
    ensures Consistent(log.(active := log.active.Pop(id), completed := log.completed[id := q]), quests[id := q])
  {
    var log' := log.(active := log.active.Pop(id), completed := log.completed[id := q]);
    assert Matches(log.active.vals, quests, log.completed);
    assert Matches(log.available.vals, quests, log.completed);
    MatchesAfterComplete(log'.active.vals, quests, log.completed, id, q);
    MatchesAfterComplete(log.available.vals, quests, log.completed, id, q);
  }

  /** One quest's step keeps the buckets consistent with the definitions,
      keeps every completed quest, and leaves the failed and available
      buckets alone. */
  lemma ProgressQuestConsistent(p: Progress, id: string, quest: Quest, a: QuestAction, entity: string,
                                input: Option<string>, search: Search)
    requires Consistent(p.log, p.world.quests)
    requires id in p.log.active.vals && p.log.active.vals[id] == quest
    ensures var r := ProgressQuest(p, id, quest, a, entity, input, search);
            Consistent(r.log, r.world.quests)
            && CompletedGrows(p.log.completed, r.log.completed)
            && r.log.failed == p.log.failed && r.log.available == p.log.available
  {
    var adv := AdvanceAll(quest.objectives, a, entity, input, search, |quest.objectives|);
    var p' := p.(player := p.player.(grammarPoints := p.player.grammarPoints + adv.learned),
                 messages := p.messages + adv.messages);
    var q := quest.(objectives := adv.objectives);
    var r := ProgressQuest(p, id, quest, a, entity, input, search);
    if !adv.updated {
      assert r.log == p.log && r.world.quests == p.world.quests;
    } else if !AllCompleted(q.objectives) {
      assert r.log == p.log.(active := p.log.active.Put(id, q)) && r.world.quests == p.world.quests[id := q];
      ReplaceActiveConsistent(p.log, p.world.quests, id, q);
    } else {
      var done := Finish(p', id, q).log.completed[id];
      assert r.log == p.log.(active := p.log.active.Pop(id), completed := p.log.completed[id := done]);
      assert r.world.quests == p.world.quests[id := done];
      CompleteActiveConsistent(p.log, p.world.quests, id, done);
    }
  }

  /** One quest's step leaves the other active quests where and as they
      were. */
  lemma ProgressQuestOthers(p: Progress, id: string, quest: Quest, a: QuestAction, entity: string,
                            input: Option<string>, search: Search)
    ensures var r := ProgressQuest(p, id, quest, a, entity, input, search);
            forall k :: k != id ==>
              (k in r.log.active.vals <==> k in p.log.active.vals)
              && (k in r.log.active.vals ==> r.log.active.vals[k] == p.log.active.vals[k])
  {
    var adv := AdvanceAll(quest.objectives, a, entity, input, search, |quest.objectives|);
    var r := ProgressQuest(p, id, quest, a, entity, input, search);
    if !adv.updated {
      assert r.log == p.log;
    } else if !AllCompleted(adv.objectives) {
      assert r.log.active.vals == p.log.active.vals[id := quest.(objectives := adv.objectives)];
    } else {
      assert r.log.active.vals == p.log.active.vals - {id};
    }
  }

  /** One quest's step touches the player only in inventory, grammar points
      and the completed-quests counter, the world only in locations and quest
      definitions; grammar points and messages only grow, the inventory only
      gains known items and locations are only unhidden. */
  lemma ProgressQuestEffects(p: Progress, id: string, quest: Quest, a: QuestAction, entity: string,
                             input: Option<string>, search: Search)
    ensures var r := ProgressQuest(p, id, quest, a, entity, input, search);
            r.player == p.player.(inventory := r.player.inventory, grammarPoints := r.player.grammarPoints,
                                  stats := r.player.stats)
            && r.player.stats == p.player.stats.(questsCompleted := r.player.stats.questsCompleted)
            && p.player.grammarPoints <= r.player.grammarPoints
            && GainsItems(p.player.inventory, r.player.inventory, p.world.items)
            && r.world == p.world.(locations := r.world.locations, quests := r.world.quests)
            && OnlyUnhides(p.world.locations, r.world.locations)
            && p.messages <= r.messages
  {
    var adv := AdvanceAll(quest.objectives, a, entity, input, search, |quest.objectives|);
    var p' := p.(player := p.player.(grammarPoints := p.player.grammarPoints + adv.learned),
                 messages := p.messages + adv.messages);
    var q := quest.(objectives := adv.objectives);
    if adv.updated && AllCompleted(q.objectives) {
      GrantAllEffects(Granted([], p'.player.inventory, p'.world.locations, ""), q.rewards, p'.world.items, |q.rewards|);
    }
  }

  /** Completion: a quest is completed by this step exactly when one of its
      objectives changed and all of them are now completed; it then leaves
      the active bucket as a completed quest and the counter goes up by one,
      as the completed bucket grows by one. Otherwise it stays active, with
      its objectives as checked, and the counter stays. */
  lemma ProgressQuestCompletion(p: Progress, id: string, quest: Quest, a: QuestAction, entity: string,
                                input: Option<string>, search: Search)
    requires id in p.log.active.vals && p.log.active.vals[id] == quest && id !in p.log.completed
    ensures var adv := AdvanceAll(quest.objectives, a, entity, input, search, |quest.objectives|);
            var r := ProgressQuest(p, id, quest, a, entity, input, search);
            (id in r.log.completed <==> adv.updated && AllCompleted(adv.objectives))
            && (id in r.log.completed ==>
                  r.log.completed[id] == quest.(objectives := adv.objectives, state := Completed,
                                                rewards := r.log.completed[id].rewards)
                  && id !in r.log.active.vals
                  && r.log.completed.Keys == p.log.completed.Keys + {id}
                  && r.player.stats.questsCompleted == p.player.stats.questsCompleted + 1)
            && (id !in r.log.completed ==>
                  r.log.completed == p.log.completed
                  && r.log.active.vals == p.log.active.vals[id := quest.(objectives := adv.objectives)]
                  && r.player.stats.questsCompleted == p.player.stats.questsCompleted)
  {
    var adv := AdvanceAll(quest.objectives, a, entity, input, search, |quest.objectives|);
    var p' := p.(player := p.player.(grammarPoints := p.player.grammarPoints + adv.learned),
                 messages := p.messages + adv.messages);
    var q := quest.(objectives := adv.objectives);
    var r := ProgressQuest(p, id, quest, a, entity, input, search);
    if !adv.updated {
      AdvanceAllUnchanged(quest.objectives, a, entity, input, search, |quest.objectives|);
      assert quest.objectives[..|quest.objectives|] == quest.objectives;
      assert q == quest;
      assert r == p';
    } else if !AllCompleted(adv.objectives) {
      assert r == KeepActive(p', id, q);
    } else {
      assert r == Finish(p', id, q);
      assert r.log.completed == p.log.completed[id := r.log.completed[id]];
    }
  }

  /** The step reports a change exactly when an objective changed. */
  lemma ProgressQuestUpdated(p: Progress, id: string, quest: Quest, a: QuestAction, entity: string,
                             input: Option<string>, search: Search)
    ensures ProgressQuest(p, id, quest, a, entity, input, search).updated
            <==> p.updated || AdvanceAll(quest.objectives, a, entity, input, search, |quest.objectives|).updated
  {
  }

  /** Over the snapshot of the active bucket: the log stays consistent,
      completed quests stay, the failed and available buckets are untouched,
      the quests not yet reached are still active as they were, and the
      completed-quests counter rises by exactly as many quests as were
      completed. */
  lemma {:induction false} ProgressAllConsistent(p0: Progress, a: QuestAction, entity: string,
                                                 input: Option<string>, search: Search, n: int)
    requires Consistent(p0.log, p0.world.quests)
    requires 0 <= n <= |p0.log.active.keys|
    ensures var snap := p0.log.active;
            var r := ProgressAll(p0, snap, a, entity, input, search, n);
            Consistent(r.log, r.world.quests)
            && CompletedGrows(p0.log.completed, r.log.completed)
            && r.log.failed == p0.log.failed && r.log.available == p0.log.available
            && (forall j :: n <= j < |snap.keys| ==>
                  snap.keys[j] in r.log.active.vals && r.log.active.vals[snap.keys[j]] == snap.vals[snap.keys[j]])
            && r.player.stats.questsCompleted - p0.player.stats.questsCompleted == |r.log.completed| - |p0.log.completed|
  {
    var snap := p0.log.active;
    if n == 0 {
      forall j | 0 <= j < |snap.keys|
        ensures snap.keys[j] in snap.vals
      {
        assert snap.Valid();
      }
    } else {
      ProgressAllConsistent(p0, a, entity, input, search, n - 1);
      var prev := ProgressAll(p0, snap, a, entity, input, search, n - 1);
      var id := snap.keys[n - 1];
      var quest := snap.vals[id];
      var r := ProgressQuest(prev, id, quest, a, entity, input, search);
      assert r == ProgressAll(p0, snap, a, entity, input, search, n);
      ProgressQuestConsistent(prev, id, quest, a, entity, input, search);
      ProgressQuestOthers(prev, id, quest, a, entity, input, search);
      ProgressQuestCompletion(prev, id, quest, a, entity, input, search);
      forall j | n <= j < |snap.keys|
        ensures snap.keys[j] in r.log.active.vals && r.log.active.vals[snap.keys[j]] == snap.vals[snap.keys[j]]
      {
        assert snap.Valid();
        assert snap.keys[j] != id;
      }
    }
  }

  /** Over the snapshot: each quest not yet reached is still active, as it
      was, and not completed. */
  lemma ProgressAllPending(p0: Progress, a: QuestAction, entity: string,
                           input: Option<string>, search: Search, n: int)
    requires Consistent(p0.log, p0.world.quests)
    requires 0 <= n <= |p0.log.active.keys|
    ensures var snap := p0.log.active;
            var r := ProgressAll(p0, snap, a, entity, input, search, n);
            forall j :: n <= j < |snap.keys| ==>
              snap.keys[j] in r.log.active.vals && r.log.active.vals[snap.keys[j]] == snap.vals[snap.keys[j]]
              && snap.keys[j] !in r.log.completed
  {
    ProgressAllConsistent(p0, a, entity, input, search, n);
  }

  /** One quest's step keeps the quest active or completes it, and loses
      no completed quest. */
  lemma ProgressQuestKeeps(p: Progress, id: string, quest: Quest, a: QuestAction, entity: string,
                           input: Option<string>, search: Search)
    requires id in p.log.active.vals && p.log.active.vals[id] == quest && id !in p.log.completed
    ensures var r := ProgressQuest(p, id, quest, a, entity, input, search);
            (id in r.log.active.vals || id in r.log.completed)
            && forall k :: k in p.log.completed ==> k in r.log.completed
  {
    ProgressQuestCompletion(p, id, quest, a, entity, input, search);
  }

  /** Over the snapshot: no quest becomes active. */
  lemma {:induction false} ProgressAllNoNewActive(p0: Progress, a: QuestAction, entity: string,
                                                  input: Option<string>, search: Search, n: int)
    requires 0 <= n <= |p0.log.active.keys|
    ensures var r := ProgressAll(p0, p0.log.active, a, entity, input, search, n);
            forall k :: k in r.log.active.vals ==> k in p0.log.active.vals
  {
    var snap := p0.log.active;
    if n > 0 {
      ProgressAllNoNewActive(p0, a, entity, input, search, n - 1);
      var prev := ProgressAll(p0, snap, a, entity, input, search, n - 1);
      var id := snap.keys[n - 1];
      if id in snap.vals {
        ProgressQuestOthers(prev, id, snap.vals[id], a, entity, input, search);
      }
    }
  }

  /** Over the snapshot: every quest reached is still active or now
      completed. */
  lemma {:induction false} ProgressAllReached(p0: Progress, a: QuestAction, entity: string,
                                              input: Option<string>, search: Search, n: int)
    requires Consistent(p0.log, p0.world.quests)
    requires 0 <= n <= |p0.log.active.keys|
    ensures var snap := p0.log.active;
            var r := ProgressAll(p0, snap, a, entity, input, search, n);
            forall j :: 0 <= j < n ==> snap.keys[j] in r.log.active.vals || snap.keys[j] in r.log.completed
  {
    var snap := p0.log.active;
    if n > 0 {
      ProgressAllReached(p0, a, entity, input, search, n - 1);
      ProgressAllPending(p0, a, entity, input, search, n - 1);
      var prev := ProgressAll(p0, snap, a, entity, input, search, n - 1);
      var id := snap.keys[n - 1];
      var quest := snap.vals[id];
      var r := ProgressQuest(prev, id, quest, a, entity, input, search);
      assert r == ProgressAll(p0, snap, a, entity, input, search, n);
      ProgressQuestOthers(prev, id, quest, a, entity, input, search);
      ProgressQuestKeeps(prev, id, quest, a, entity, input, search);
      ReachedKept(prev, r, id, snap.keys, n);
    }
  }

  /** One step of the walk over the snapshot keeps every quest already
      walked active or completed, and adds the one just walked. */
  lemma ReachedKept(prev: Progress, r: Progress, id: string, keys: seq<string>, n: int)
    requires 0 < n <= |keys| && keys[n - 1] == id
    requires forall j :: 0 <= j < n - 1 ==> keys[j] in prev.log.active.vals || keys[j] in prev.log.completed
    requires forall k :: k != id ==> (k in r.log.active.vals <==> k in prev.log.active.vals)
    requires forall k :: k in prev.log.completed ==> k in r.log.completed
    requires id in r.log.active.vals || id in r.log.completed
    ensures forall j :: 0 <= j < n ==> keys[j] in r.log.active.vals || keys[j] in r.log.completed
  {
  }

  /** Over the snapshot, the player changes only in inventory, grammar
      points and the completed-quests counter, the world only in locations
      and quest definitions; grammar points and messages only grow, the
      inventory only gains known items and locations are only unhidden. */
  lemma {:induction false} ProgressAllEffects(p0: Progress, snap: Dicts.Dict<string, Quest>, a: QuestAction,
                                              entity: string, input: Option<string>, search: Search, n: int)
    requires 0 <= n <= |snap.keys|
    ensures var r := ProgressAll(p0, snap, a, entity, input, search, n);
            r.player == p0.player.(inventory := r.player.inventory, grammarPoints := r.player.grammarPoints,
                                   stats := r.player.stats)
            && r.player.stats == p0.player.stats.(questsCompleted := r.player.stats.questsCompleted)
            && p0.player.grammarPoints <= r.player.grammarPoints
            && GainsItems(p0.player.inventory, r.player.inventory, p0.world.items)
            && r.world == p0.world.(locations := r.world.locations, quests := r.world.quests)
            && OnlyUnhides(p0.world.locations, r.world.locations)
            && p0.messages <= r.messages
  {
    if n > 0 {
      ProgressAllEffects(p0, snap, a, entity, input, search, n - 1);
      var prev := ProgressAll(p0, snap, a, entity, input, search, n - 1);
      var id := snap.keys[n - 1];
      if id in snap.vals {
        var r := ProgressQuest(prev, id, snap.vals[id], a, entity, input, search);
        ProgressQuestEffects(prev, id, snap.vals[id], a, entity, input, search);
        GainsItemsTrans(p0.player.inventory, prev.player.inventory, r.player.inventory, p0.world.items);
        OnlyUnhidesTrans(p0.world.locations, prev.world.locations, r.world.locations);
      }
    }
  }

  /** Over the snapshot, a change is reported exactly when some objective
      of some quest changed. */
  lemma {:induction false} ProgressAllUpdated(p0: Progress, snap: Dicts.Dict<string, Quest>, a: QuestAction,
                                              entity: string, input: Option<string>, search: Search, n: int)
    requires 0 <= n <= |snap.keys|
    ensures ProgressAll(p0, snap, a, entity, input, search, n).updated
            <==> p0.updated
                 || exists j :: 0 <= j < n && snap.keys[j] in snap.vals
                               && QuestChanged(snap.vals[snap.keys[j]], a, entity, input, search)
  {
    if n > 0 {
      ProgressAllUpdated(p0, snap, a, entity, input, search, n - 1);
      var prev := ProgressAll(p0, snap, a, entity, input, search, n - 1);
      var id := snap.keys[n - 1];
      if id in snap.vals {
        ProgressQuestUpdated(prev, id, snap.vals[id], a, entity, input, search);
      }
    }
  }

  /** Whether some objective of `quest` changes on the action. */
  predicate QuestChanged(quest: Quest, a: QuestAction, entity: string, input: Option<string>, search: Search) {
    AdvanceAll(quest.objectives, a, entity, input, search, |quest.objectives|).updated
  }

  /** `update_quest_progress` keeps the quest log consistent with the
      definitions; never loses a completed quest; leaves failed and
      available quests alone; starts no quest; leaves every active quest
      active or completed; counts exactly the quests it completes; changes
      the player only in inventory (by known items), grammar points (which
      grow) and that counter, and the world only by unhiding locations and
      updating quest definitions. It answers with messages exactly when some
      objective of an active quest changed; otherwise with none, so that the
      hint for a wrong grammar answer is not returned. */
  lemma QuestProgressFacts(log: QuestLog, world: World, player: Player, a: QuestAction, entity: string,
                           input: Option<string>, search: Search)
    requires Consistent(log, world.quests)
    ensures var r := QuestProgress(log, world, player, a, entity, input, search);
            Consistent(r.log, r.world.quests)
            && CompletedGrows(log.completed, r.log.completed)
            && r.log.failed == log.failed && r.log.available == log.available
            && (forall id :: id in r.log.active.vals ==> id in log.active.vals)
            && (forall id :: id in log.active.vals ==> id in r.log.active.vals || id in r.log.completed)
            && r.player.stats.questsCompleted - player.stats.questsCompleted == |r.log.completed| - |log.completed|
            && r.player == player.(inventory := r.player.inventory, grammarPoints := r.player.grammarPoints,
                                   stats := player.stats.(questsCompleted := r.player.stats.questsCompleted))
            && player.grammarPoints <= r.player.grammarPoints
            && GainsItems(player.inventory, r.player.inventory, world.items)
            && r.world == world.(locations := r.world.locations, quests := r.world.quests)
            && OnlyUnhides(world.locations, r.world.locations)
            && (r.messages != [] ==> exists id :: id in log.active.vals && QuestChanged(log.active.vals[id], a, entity, input, search))
            && (!r.updated ==> r.messages == [])
  {
    var p0 := Progress(log, world, player, [], false);
    var n := |log.active.keys|;
    ProgressAllConsistent(p0, a, entity, input, search, n);
    ProgressAllNoNewActive(p0, a, entity, input, search, n);
    ProgressAllReached(p0, a, entity, input, search, n);
    ProgressAllEffects(p0, log.active, a, entity, input, search, n);
    ProgressAllUpdated(p0, log.active, a, entity, input, search, n);
    forall id | id in log.active.vals
      ensures id in log.active.keys
    {
      assert log.Valid();
    }
  }

  /** When no quest of the snapshot changes, the pass leaves the log, the
      world and the player as they were (a wrong answer's hint is the only
      trace, in the messages). */
  lemma {:induction false} ProgressAllIdle(p0: Progress, snap: Dicts.Dict<string, Quest>, a: QuestAction,
                                           entity: string, input: Option<string>, search: Search, n: int)
    requires 0 <= n <= |snap.keys|
    requires forall id :: id in snap.vals ==> !QuestChanged(snap.vals[id], a, entity, input, search)
    ensures var r := ProgressAll(p0, snap, a, entity, input, search, n);
            r.log == p0.log && r.world == p0.world && r.player == p0.player && r.updated == p0.updated
  {
    if n > 0 {
      ProgressAllIdle(p0, snap, a, entity, input, search, n - 1);
      var id := snap.keys[n - 1];
      if id in snap.vals {
        var q := snap.vals[id];
        AdvanceAllUnchanged(q.objectives, a, entity, input, search, |q.objectives|);
      }
    }
  }

  /** When no active quest changes, `update_quest_progress` changes nothing
      and says nothing. */
  lemma QuestProgressIdle(log: QuestLog, world: World, player: Player, a: QuestAction, entity: string,
                          input: Option<string>, search: Search)
    requires forall id :: id in log.active.vals ==> !QuestChanged(log.active.vals[id], a, entity, input, search)
    ensures QuestProgress(log, world, player, a, entity, input, search) == Progress(log, world, player, [], false)
  {
    ProgressAllIdle(Progress(log, world, player, [], false), log.active, a, entity, input, search, |log.active.keys|);
  }

  /** No objective reacts to dropping an item. */
  lemma DropChangesNoQuest(quest: Quest, entity: string, input: Option<string>, search: Search)
    ensures !QuestChanged(quest, DropAction, entity, input, search)
  {
    var objs := quest.objectives;
    AdvanceAllUpdated(objs, DropAction, entity, input, search, |objs|);
    forall i | 0 <= i < |objs|
      ensures !AdvanceObjective(objs[i], DropAction, entity, input, search).updated
    {
      AdvanceObjectiveRules(objs[i], DropAction, entity, input, search);
    }
  }

  // ---------------------------------------------------------------------
  // update_quest_progress on the game state

  /** Checks the objectives of one quest in order. */
  method AdvanceObjectives(objs: seq<QuestObjective>, a: QuestAction, entity: string, input: Option<string>,
                           search: Search) returns (r: Advanced)
    ensures r == AdvanceAll(objs, a, entity, input, search, |objs|)
  {
    r := Advanced([], false, [], []);
    for i := 0 to |objs|
      invariant r == AdvanceAll(objs, a, entity, input, search, i)
    {
      var s := AdvanceObjective(objs[i], a, entity, input, search);
      r := Advanced(r.objectives + [s.objective], r.updated || s.updated, r.messages + s.messages,
                    r.learned + s.learned);
    }
  }

  /** Whether every objective is completed, stopping at the first that is
      not. */
  method CheckAllCompleted(objs: seq<QuestObjective>) returns (all: bool)
    ensures all == AllCompleted(objs)
  {
    all := true;
    var i := 0;
    while i < |objs|
      invariant 0 <= i <= |objs|
      invariant all && forall j :: 0 <= j < i ==> objs[j].completed
    {
      if !objs[i].completed {
        all := false;
        return;
      }
      i := i + 1;
    }
  }

  /** The lines listing the words of a vocabulary boost. */
  method ListWords(words: seq<Dicts.StrDict>) returns (text: string)
    ensures text == WordLines(words, |words|)
  {
    text := "";
    for i := 0 to |words|
      invariant text == WordLines(words, i)
    {
      var w := words[i];
      text := text + "  Learned new word: " + Dicts.GetStr(w, "japanese", "") + " ("
              + Dicts.GetStr(w, "english", "") + ").\n";
    }
  }

  /** Grants the rewards of a finished quest in order, to the inventory and
      the locations given. */
  method GrantRewards(inventory: seq<string>, locations: Dicts.Dict<string, Location>, rewards: seq<QuestReward>,
                      items: map<string, Item>) returns (g: Granted)
    ensures g == GrantAll(Granted([], inventory, locations, ""), rewards, items, |rewards|)
  {
    g := Granted([], inventory, locations, "");
    for i := 0 to |rewards|
      invariant g == GrantAll(Granted([], inventory, locations, ""), rewards, items, i)
    {
      var rw := rewards[i];
      var text := g.text + "- " + rw.description + "\n";
      var target := rw.targetId.GetOr("");
      if rw.rewardType == ItemReward && target != "" {
        if target in items {
          g := Granted(g.rewards + [rw.(claimed := true)], g.inventory + [target], g.locations,
                       text + "  Added " + items[target].name + " to your inventory.\n");
        } else {
          g := g.(rewards := g.rewards + [rw], text := text);
        }
      } else if rw.rewardType == UnlockLocation && target != "" {
        if target in g.locations.vals {
          var loc := g.locations.vals[target];
          g := Granted(g.rewards + [rw.(claimed := true)], g.inventory, g.locations.Put(target, loc.(hidden := false)),
                       text + "  Unlocked new location: " + loc.name + ".\n");
        } else {
          g := g.(rewards := g.rewards + [rw], text := text);
        }
      } else if rw.rewardType == VocabularyBoost && |rw.vocabulary| > 0 {
        var words := ListWords(rw.vocabulary);
        g := g.(rewards := g.rewards + [rw], text := text + words);
      } else {
        g := g.(rewards := g.rewards + [rw], text := text);
      }
    }
  }

  /** The game state outside the quest log, the world and the player is
      left alone. */
  twostate predicate KeepsSession(gs: GameState)
    reads gs
  {
    gs.visitedLocations == old(gs.visitedLocations) && gs.flags == old(gs.flags)
    && gs.version == old(gs.version) && gs.creationTime == old(gs.creationTime)
    && gs.activeGrammarChallenge == old(gs.activeGrammarChallenge)
  }

  /** A finished quest: completed, counted and rewarded in place. */
  method FinishQuest(gs: GameState, id: string, q: Quest, messages: seq<string>) returns (messages': seq<string>)
    modifies gs
    ensures Progress(gs.questLog, gs.world, gs.player, messages', true)
            == Finish(Progress(old(gs.questLog), old(gs.world), old(gs.player), messages, true), id, q)
    ensures KeepsSession(gs)
  {
    var g := GrantRewards(gs.player.inventory, gs.world.locations, q.rewards, gs.world.items);
    var done := q.(state := Completed, rewards := g.rewards);
    gs.questLog := gs.questLog.(active := gs.questLog.active.Pop(id),
                                completed := gs.questLog.completed[id := done]);
    gs.world := gs.world.(locations := g.locations, quests := gs.world.quests[id := done]);
    gs.player := gs.player.(inventory := g.inventory,
                            stats := gs.player.stats.(questsCompleted := gs.player.stats.questsCompleted + 1));
    messages' := messages + [CompletionText(q, g.text)];
  }

  /** One active quest after the action, updated in place in the game
      state. */
  method AdvanceQuest(gs: GameState, id: string, quest: Quest, a: QuestAction, entity: string,
                      input: Option<string>, search: Search, messages: seq<string>, updated: bool)
    returns (messages': seq<string>, updated': bool)
    modifies gs
    ensures Progress(gs.questLog, gs.world, gs.player, messages', updated')
            == ProgressQuest(Progress(old(gs.questLog), old(gs.world), old(gs.player), messages, updated),
                             id, quest, a, entity, input, search)
    ensures KeepsSession(gs)
  {
    var adv := AdvanceObjectives(quest.objectives, a, entity, input, search);
    gs.player := gs.player.(grammarPoints := gs.player.grammarPoints + adv.learned);
    messages' := messages + adv.messages;
    updated' := updated;
    if adv.updated {
      updated' := true;
      var q := quest.(objectives := adv.objectives);
      var all := CheckAllCompleted(q.objectives);
      if !all {
        gs.questLog := gs.questLog.(active := gs.questLog.active.Put(id, q));
        gs.world := gs.world.(quests := gs.world.quests[id := q]);
      } else {
        messages' := FinishQuest(gs, id, q, messages');
      }
    }
  }

  /** `update_quest_progress`: every quest active at the call, in order,
      updated in place; the messages are returned only when some quest
      changed. */
  method UpdateQuestProgress(gs: GameState, a: QuestAction, entity: string, input: Option<string>, search: Search)
    returns (messages: seq<string>)
    modifies gs
    ensures var r := QuestProgress(old(gs.questLog), old(gs.world), old(gs.player), a, entity, input, search);
            gs.questLog == r.log && gs.world == r.world && gs.player == r.player && messages == r.messages
    ensures KeepsSession(gs)
  {
    var snap := gs.questLog.active;
    ghost var p0 := Progress(gs.questLog, gs.world, gs.player, [], false);
    var all: seq<string> := [];
    var updated := false;
    for i := 0 to |snap.keys|
      invariant Progress(gs.questLog, gs.world, gs.player, all, updated)
                == ProgressAll(p0, snap, a, entity, input, search, i)
      invariant KeepsSession(gs)
    {
      var id := snap.keys[i];
      if id in snap.vals {
        all, updated := AdvanceQuest(gs, id, snap.vals[id], a, entity, input, search, all, updated);
      }
    }
    messages := if updated then all else [];
  }

  // ---------------------------------------------------------------------
  // get_quest_info

  /** An objective's line in a quest's checklist: a tick when completed, an
      empty box otherwise, and the progress when more than one is needed. */
  function ChecklistLine(o: QuestObjective): string {
    (if o.completed then "✓" else "□") + " " + o.description
    + (if o.count > 1 then " (" + Text.IntToString(o.progress) + "/" + Text.IntToString(o.count) + ")" else "")
    + "\n"
  }

  /** The lines of the first `n` objectives. */
  function Checklist(objs: seq<QuestObjective>, n: int): string
    requires 0 <= n <= |objs|
  {
    if n == 0 then "" else Checklist(objs, n - 1) + ChecklistLine(objs[n - 1])
  }

  /** How many of the first `n` objectives are completed. */
  function DoneCount(objs: seq<QuestObjective>, n: int): (r: nat)
    requires 0 <= n <= |objs|
  {
    if n == 0 then 0 else DoneCount(objs, n - 1) + (if objs[n - 1].completed then 1 else 0)
  }

  /** The completed count never exceeds the number of objectives, and
      reaches it exactly when every objective is completed. */
  lemma {:induction false} DoneCountBounds(objs: seq<QuestObjective>, n: int)
    requires 0 <= n <= |objs|
    ensures DoneCount(objs, n) <= n
    ensures DoneCount(objs, n) == n <==> forall i :: 0 <= i < n ==> objs[i].completed
  {
    if n > 0 {
      DoneCountBounds(objs, n - 1);
    }
  }

  /** The details of one active quest. */
  function QuestDetails(q: Quest): string {
    "Quest: " + q.title + " - " + q.japaneseTitle + "\n" + q.description + "\n\n" + q.japaneseDescription + "\n\n"
    + "Objectives:\n" + Checklist(q.objectives, |q.objectives|)
  }

  /** The overview lines of the first `n` active quests, in bucket order,
      each with its completed and total objective counts. */
  function ActiveLines(active: Dicts.Dict<string, Quest>, n: int): string
    requires 0 <= n <= |active.keys|
  {
    if n == 0 then ""
    else
      var k := active.keys[n - 1];
      ActiveLines(active, n - 1)
      + (if k in active.vals then
           var q := active.vals[k];
           "- " + q.title + " (" + Text.NatToString(DoneCount(q.objectives, |q.objectives|)) + "/"
           + Text.NatToString(|q.objectives|) + ")\n"
         else "")
  }

  /** The overview lines of the first `n` available quests, in bucket order. */
  function AvailableLines(available: Dicts.Dict<string, Quest>, n: int): string
    requires 0 <= n <= |available.keys|
  {
    if n == 0 then ""
    else
      var k := available.keys[n - 1];
      AvailableLines(available, n - 1) + (if k in available.vals then "- " + available.vals[k].title + "\n" else "")
  }

  const NoActiveQuests := "You don't have any active quests."

  /** The overview of all quests: the active ones, the available ones and
      how many are completed. */
  function Overview(log: QuestLog): string {
    if log.active.vals == map[] then NoActiveQuests
    else
      "Active Quests:\n" + ActiveLines(log.active, |log.active.keys|)
      + "\nAvailable Quests:\n"
      + (if log.available.vals != map[] then AvailableLines(log.available, |log.available.keys|)
         else "No available quests.\n")
      + "\nCompleted Quests: " + Text.NatToString(|log.completed|)
  }

  /** `get_quest_info`: the details of the active quest named, a not-found
      message for any other name, or the overview when no name (or an empty
      one) is given. */
  function QuestInfo(log: QuestLog, questId: Option<string>): string {
    if questId.Some? && questId.value != "" then
      if questId.value in log.active.vals then QuestDetails(log.active.vals[questId.value])
      else "Quest " + questId.value + " not found in active quests."
    else Overview(log)
  }

  /** The answers of `get_quest_info` by case: details exactly for an
      active quest named; the not-found message exactly for another name;
      with no name, the no-quests message exactly when nothing is active,
      and otherwise an overview that starts with the active list and ends
      with the number of completed quests. */
  lemma QuestInfoCases(log: QuestLog, questId: Option<string>)
    ensures var r := QuestInfo(log, questId);
            var named := questId.Some? && questId.value != "";
            (named && questId.value in log.active.vals ==> r == QuestDetails(log.active.vals[questId.value]))
            && (named && questId.value !in log.active.vals ==>
                  r == "Quest " + questId.value + " not found in active quests.")
            && (!named ==> (r == NoActiveQuests <==> log.active.vals == map[]))
            && (!named && log.active.vals != map[] ==>
                  Text.StartsWith(r, "Active Quests:\n") && Text.EndsWith(r, Text.NatToString(|log.completed|)))
  {
    if !(questId.Some? && questId.value != "") && log.active.vals != map[] {
      var r := QuestInfo(log, questId);
      assert r[..|"Active Quests:\n"|] == "Active Quests:\n";
      assert r[..|NoActiveQuests|] != NoActiveQuests by {
        assert r[0] == 'A' && NoActiveQuests[0] == 'Y';
      }
    }
  }

  /** A checklist line shows a tick exactly for a completed objective. */
  lemma ChecklistLineTick(o: QuestObjective)
    ensures ChecklistLine(o)[0] == '✓' <==> o.completed
  {
  }

  /** Builds the checklist of a quest's objectives. */
  method BuildChecklist(objs: seq<QuestObjective>) returns (text: string)
    ensures text == Checklist(objs, |objs|)
  {
    text := "";
    for i := 0 to |objs|
      invariant text == Checklist(objs, i)
    {
      var o := objs[i];
      var mark := if o.completed then "✓" else "□";
      var count := "";
      if o.count > 1 {
        count := " (" + Text.IntToString(o.progress) + "/" + Text.IntToString(o.count) + ")";
      }
      text := text + (mark + " " + o.description + count + "\n");
    }
  }

  /** Counts the completed objectives. */
  method CountDone(objs: seq<QuestObjective>) returns (count: nat)
    ensures count == DoneCount(objs, |objs|)
    ensures count <= |objs|
  {
    count := 0;
    for i := 0 to |objs|
      invariant count == DoneCount(objs, i)
    {
      if objs[i].completed {
        count := count + 1;
      }
    }
    DoneCountBounds(objs, |objs|);
  }

  /** `get_quest_info` on the quest log. */
  method GetQuestInfo(log: QuestLog, questId: Option<string>) returns (info: string)
    ensures info == QuestInfo(log, questId)
  {
    if questId.Some? && questId.value != "" {
      var id := questId.value;
      if id in log.active.vals {
        var q := log.active.vals[id];
        info := "Quest: " + q.title + " - " + q.japaneseTitle + "\n";
        info := info + q.description + "\n\n" + q.japaneseDescription + "\n\n";
        info := info + "Objectives:\n";
        var lines := BuildChecklist(q.objectives);
        info := info + lines;
      } else {
        info := "Quest " + id + " not found in active quests.";
      }
      return;
    }
    if log.active.vals == map[] {
      return NoActiveQuests;
    }
    info := "Active Quests:\n";
    var active := "";
    for i := 0 to |log.active.keys|
      invariant active == ActiveLines(log.active, i)
    {
      var k := log.active.keys[i];
      if k in log.active.vals {
        var q := log.active.vals[k];
        var done := CountDone(q.objectives);
        active := active + "- " + q.title + " (" + Text.NatToString(done) + "/" + Text.NatToString(|q.objectives|) + ")\n";
      }
    }
    info := info + active + "\nAvailable Quests:\n";
    if log.available.vals != map[] {
      var available := "";
      for i := 0 to |log.available.keys|
        invariant available == AvailableLines(log.available, i)
      {
        var k := log.available.keys[i];
        if k in log.available.vals {
          available := available + "- " + log.available.vals[k].title + "\n";
        }
      }
      info := info + available;
    } else {
      info := info + "No available quests.\n";
    }
    info := info + "\nCompleted Quests: " + Text.NatToString(|log.completed|);
  }
}
