/** Moving the player: through an exit of the current location to a
    location that is neither hidden nor locked with a key the player lacks.
    A first visit is recorded and the quests hear of it; the answer is the
    description of where the player ends up. */
module Movement {

  import opened Wrappers
  import Text
  import opened QuestModels
  import opened GameModels
  import QuestHandler
  import opened EngineState
  import opened LocationView

  /** The location needs a key, named by a non-empty id, that is not among
      `inventory`. */
  predicate Locked(loc: Location, inventory: seq<string>) {
    loc.requiresKey.Some? && loc.requiresKey.value != "" && loc.requiresKey.value !in inventory
  }

  /** The name of the key `id`, or "a key" for an unknown item. */
  function KeyName(items: map<string, Item>, id: string): string {
    if id in items then items[id].name else "a key"
  }

  /** The location `id` is visited for the first time: it is marked, added
      to the visited set and to the player's statistics. */
  function Visit(s: State, id: string): State
    requires id in s.world.locations.vals
  {
    s.(world := s.world.(locations := s.world.locations.Put(id, s.world.locations.vals[id].(visited := true))),
       visited := s.visited + {id},
       player := s.player.(stats := s.player.stats.(locationsVisited := s.player.stats.locationsVisited.Record(id))))
  }

  /** `move_player`. The current location and then the exit's target are
      repaired first when missing. */
  function Move(s: State, d: Direction, search: QuestHandler.Search): Answer {
    var cur := s.player.currentLocation;
    var s1 := EnsureLocation(s, cur);
    var here := s1.world.locations.vals[cur];
    if d.Value() !in here.connections.vals then Answer("You can't go " + d.Value() + " from here.", s1)
    else
      var target := here.connections.vals[d.Value()];
      var s2 := EnsureLocation(s1, target);
      var there := s2.world.locations.vals[target];
      if there.hidden then Answer("That path seems to be blocked. You can't go " + d.Value() + " from here.", s2)
      else if Locked(there, s2.player.inventory) then
        Answer("You need " + KeyName(s2.world.items, there.requiresKey.value) + " to enter this area.", s2)
      else Arrive(s2, target, search)
  }

  /** The player steps into the location `target`; a first visit is
      recorded and the quests hear of it. */
  function Arrive(s: State, target: string, search: QuestHandler.Search): Answer
    requires target in s.world.locations.vals
  {
    var s3 := s.(player := s.player.(currentLocation := target));
    if s.world.locations.vals[target].visited then Answer(Describe(s3.world, s3.player), s3)
    else
      var t := Triggers(Visit(s3, target), QuestHandler.VisitAction, target);
      var p := Progresses(t.state, QuestHandler.VisitAction, target, None, search);
      Answer(WithMessages(WithMessages(Describe(p.state.world, p.state.player), t.messages), p.messages), p.state)
  }

  /** Where a move in direction `d` leads, when it is allowed. */
  function Destination(s: State, d: Direction): Option<string> {
    var cur := s.player.currentLocation;
    var s1 := EnsureLocation(s, cur);
    var here := s1.world.locations.vals[cur];
    if d.Value() !in here.connections.vals then None
    else
      var target := here.connections.vals[d.Value()];
      var s2 := EnsureLocation(s1, target);
      var there := s2.world.locations.vals[target];
      if there.hidden || Locked(there, s2.player.inventory) then None else Some(target)
  }

  /** The player ends up at the destination when there is one and stays
      put otherwise; the state evolves. */
  lemma MoveArrives(s: State, d: Direction, search: QuestHandler.Search)
    requires Good(s)
    ensures var r := Move(s, d, search).state;
            r.player.currentLocation == (if Destination(s, d).Some? then Destination(s, d).value else s.player.currentLocation)
            && Evolves(s, r) && KeepsCommand(s, r) && s.player.inventory <= r.player.inventory
            && r.player.currentLocation in r.world.locations.vals
  {
    var cur := s.player.currentLocation;
    var s1 := EnsureLocation(s, cur);
    EnsureLocationEvolves(s, cur);
    var here := s1.world.locations.vals[cur];
    if d.Value() in here.connections.vals {
      var target := here.connections.vals[d.Value()];
      var s2 := EnsureLocation(s1, target);
      EnsureLocationEvolves(s1, target);
      EvolvesTrans(s, s1, s2);
      var there := s2.world.locations.vals[target];
      if !there.hidden && !Locked(there, s2.player.inventory) {
        ArriveSteps(s2, target, search);
        EvolvesTrans(s, s2, Arrive(s2, target, search).state);
      }
    }
  }

  /** Stepping into a location: the player is there afterwards, a first
      visit is marked and recorded, the state evolves, and the inventory
      only grows by quest rewards. */
  lemma ArriveSteps(s: State, target: string, search: QuestHandler.Search)
    requires Good(s) && target in s.world.locations.vals
    ensures var r := Arrive(s, target, search).state;
            Evolves(s, r) && KeepsCommand(s, r) && r.player.currentLocation == target
            && s.player.inventory <= r.player.inventory
            && target in r.world.locations.vals
            && (!s.world.locations.vals[target].visited ==>
                  target in r.visited && r.world.locations.vals[target].visited
                  && target in r.player.stats.locationsVisited.Contents())
  {
    var s3 := s.(player := s.player.(currentLocation := target));
    assert Evolves(s, s3);
    if !s.world.locations.vals[target].visited {
      VisitSteps(s3, target, search);
      var t := Triggers(Visit(s3, target), QuestHandler.VisitAction, target);
      EvolvesTrans(s, s3, Progresses(t.state, QuestHandler.VisitAction, target, None, search).state);
    }
  }

  /** The steps of a first visit: the location is marked and recorded, the
      quests hear of it, and the state evolves without moving the player;
      the inventory only grows by quest rewards. */
  lemma VisitSteps(s3: State, target: string, search: QuestHandler.Search)
    requires Good(s3) && target in s3.world.locations.vals && s3.player.currentLocation == target
    ensures var t := Triggers(Visit(s3, target), QuestHandler.VisitAction, target);
            var r := Progresses(t.state, QuestHandler.VisitAction, target, None, search).state;
            Evolves(s3, r) && KeepsCommand(s3, r) && r.player.currentLocation == target
            && s3.player.inventory <= r.player.inventory
            && target in r.visited && target in r.world.locations.vals && r.world.locations.vals[target].visited
            && target in r.player.stats.locationsVisited.Contents()
  {
    var v := Visit(s3, target);
    var loc := s3.world.locations.vals[target].(visited := true);
    ReplaceLocationEvolves(s3, target, loc, v.player);
    TriggersEvolve(v, QuestHandler.VisitAction, target);
    var t := Triggers(v, QuestHandler.VisitAction, target);
    EvolvesTrans(s3, v, t.state);
    ProgressesEvolve(t.state, QuestHandler.VisitAction, target, None, search);
    QuestHandler.QuestProgressFacts(t.state.log, t.state.world, t.state.player, QuestHandler.VisitAction, target, None, search);
    EvolvesTrans(s3, t.state, Progresses(t.state, QuestHandler.VisitAction, target, None, search).state);
  }

  /** A move that is refused names the reason: no exit, a hidden target
      or a missing key; the player stays put. */
  lemma MoveRefused(s: State, d: Direction, search: QuestHandler.Search)
    requires Destination(s, d).None?
    ensures var r := Move(s, d, search);
            var cur := s.player.currentLocation;
            var here := EnsureLocation(s, cur).world.locations.vals[cur];
            r.state.player == s.player && r.state.log == s.log
            && (d.Value() !in here.connections.vals ==> r.text == "You can't go " + d.Value() + " from here.")
            && (d.Value() in here.connections.vals ==>
                  var target := here.connections.vals[d.Value()];
                  var there := EnsureLocation(EnsureLocation(s, cur), target).world.locations.vals[target];
                  (there.hidden ==> r.text == "That path seems to be blocked. You can't go " + d.Value() + " from here.")
                  && (!there.hidden ==> r.text == "You need " + KeyName(s.world.items, there.requiresKey.value) + " to enter this area."))
  {
  }

  /** The answer to a move that is allowed opens with the description of
      where the player ends up. */
  lemma MoveDescribes(s: State, d: Direction, search: QuestHandler.Search)
    requires Destination(s, d).Some?
    ensures var r := Move(s, d, search);
            Text.StartsWith(r.text, Describe(r.state.world, r.state.player))
  {
    var cur := s.player.currentLocation;
    var s1 := EnsureLocation(s, cur);
    var target := s1.world.locations.vals[cur].connections.vals[d.Value()];
    ArriveDescribes(EnsureLocation(s1, target), target, search);
  }

  /** Stepping into a location answers with its description first. */
  lemma ArriveDescribes(s: State, target: string, search: QuestHandler.Search)
    requires target in s.world.locations.vals
    ensures var r := Arrive(s, target, search);
            Text.StartsWith(r.text, Describe(r.state.world, r.state.player))
  {
    var s3 := s.(player := s.player.(currentLocation := target));
    if !s.world.locations.vals[target].visited {
      var t := Triggers(Visit(s3, target), QuestHandler.VisitAction, target);
      var p := Progresses(t.state, QuestHandler.VisitAction, target, None, search);
      var head := Describe(p.state.world, p.state.player);
      WithMessagesStarts(head, t.messages);
      WithMessagesStarts(WithMessages(head, t.messages), p.messages);
      Text.StartsWithTrans(Arrive(s, target, search).text, WithMessages(head, t.messages), head);
    } else {
      Text.StartsWithConcat(Describe(s3.world, s3.player), "");
      assert Describe(s3.world, s3.player) + "" == Describe(s3.world, s3.player);
    }
  }

  // ---------------------------------------------------------------------
  // On the game state

  /** `move_player` on the game state. */
  method MovePlayer(gs: GameState, d: Direction, search: QuestHandler.Search) returns (text: string)
    modifies gs
    ensures var r := Move(old(Snapshot(gs)), d, search);
            Snapshot(gs) == r.state && text == r.text
    ensures KeepsMeta(gs)
  {
    var cur := gs.player.currentLocation;
    EnsureValidLocation(gs, cur);
    var conns := gs.world.locations.vals[cur].connections;
    if d.Value() !in conns.vals {
      return "You can't go " + d.Value() + " from here.";
    }
    var target := conns.vals[d.Value()];
    EnsureValidLocation(gs, target);
    var there := gs.world.locations.vals[target];
    if there.hidden {
      return "That path seems to be blocked. You can't go " + d.Value() + " from here.";
    }
    if there.requiresKey.Some? && there.requiresKey.value != "" {
      var key := there.requiresKey.value;
      if key !in gs.player.inventory {
        return "You need " + KeyName(gs.world.items, key) + " to enter this area.";
      }
    }
    text := ArriveAt(gs, target, search);
  }

  /** The player steps into `target` on the game state. */
  method ArriveAt(gs: GameState, target: string, search: QuestHandler.Search) returns (text: string)
    requires target in gs.world.locations.vals
    modifies gs
    ensures var r := Arrive(old(Snapshot(gs)), target, search);
            Snapshot(gs) == r.state && text == r.text
    ensures KeepsMeta(gs)
  {
    gs.player := gs.player.(currentLocation := target);
    var questMessages, progressMessages := [], [];
    if !gs.world.locations.vals[target].visited {
      questMessages, progressMessages := VisitFirst(gs, target, search);
    }
    text := GetLocationDescription(gs);
    text := WithMessages(WithMessages(text, questMessages), progressMessages);
  }

  /** A first visit on the game state: the location is marked and
      recorded, then the quests hear of it. */
  method VisitFirst(gs: GameState, target: string, search: QuestHandler.Search)
    returns (questMessages: seq<string>, progressMessages: seq<string>)
    requires target in gs.world.locations.vals
    modifies gs
    ensures var t := Triggers(Visit(old(Snapshot(gs)), target), QuestHandler.VisitAction, target);
            var p := Progresses(t.state, QuestHandler.VisitAction, target, None, search);
            Snapshot(gs) == p.state && questMessages == t.messages && progressMessages == p.messages
    ensures KeepsMeta(gs)
  {
    var there := gs.world.locations.vals[target];
    gs.world := gs.world.(locations := gs.world.locations.Put(target, there.(visited := true)));
    gs.visitedLocations := gs.visitedLocations + {target};
    gs.player := gs.player.(stats := gs.player.stats.(locationsVisited := gs.player.stats.locationsVisited.Record(target)));
    questMessages := RunTriggers(gs, QuestHandler.VisitAction, target);
    progressMessages := RunProgress(gs, QuestHandler.VisitAction, target, None, search);
  }
}
