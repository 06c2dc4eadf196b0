/** The commands about things: looking at the location or at something in
    it, taking, dropping and using items, and listing the inventory. Items
    move between a location's list and the inventory; none is created or
    destroyed except rewards that quests hand out. */
module ItemCommands {

  import opened Wrappers
  import Dicts
  import Text
  import opened QuestModels
  import opened GameModels
  import QuestHandler
  import opened EngineState
  import opened LocationView
  import opened Vocabulary

  // ---------------------------------------------------------------------
  // Names

  /** The typed name `arg` is part of the lower-cased name, or of the
      lower-cased Japanese name when there is one. */
  predicate NameMatches(name: string, japanese: string, arg: string) {
    Text.Contains(Text.Lower(name), arg) || (japanese != "" && Text.Contains(Text.Lower(japanese), arg))
  }

  /** `id` is a known item matched by `arg`. */
  predicate Carries(items: map<string, Item>, id: string, arg: string) {
    id in items && NameMatches(items[id].name, items[id].japaneseName, arg)
  }

  /** `id` is a known visible item matched by `arg`. */
  predicate CanSee(items: map<string, Item>, id: string, arg: string) {
    Carries(items, id, arg) && !items[id].hidden
  }

  /** The item `id` is named exactly `t`, by its lower-cased name or own
      id. */
  predicate NamesItem(items: map<string, Item>, id: string, t: string) {
    id in items && (Text.Lower(items[id].name) == t || Text.Lower(items[id].id) == t)
  }

  /** The character `id` is named exactly `t`, by its lower-cased name or
      own id. */
  predicate NamesCharacter(chars: map<string, Character>, id: string, t: string) {
    id in chars && (Text.Lower(chars[id].name) == t || Text.Lower(chars[id].id) == t)
  }

  /** A description followed by its Japanese form in parentheses when there
      is one. */
  function Described(description: string, japanese: string): string {
    description + (if japanese != "" then " (" + japanese + ")" else "")
  }

  // ---------------------------------------------------------------------
  // look

  /** What the lower-cased name `t` shows: the first item of the location
      so named, hidden or not, else the first such item carried, else the
      first such character present; nothing when none is so named. */
  function LookAt(world: World, loc: Location, inventory: seq<string>, t: string): (r: Option<string>)
    ensures r.None? <==>
              (forall i :: 0 <= i < |loc.items| ==> !NamesItem(world.items, loc.items[i], t))
              && (forall i :: 0 <= i < |inventory| ==> !NamesItem(world.items, inventory[i], t))
              && (forall i :: 0 <= i < |loc.characters| ==> !NamesCharacter(world.characters, loc.characters[i], t))
  {
    match FirstMatch(loc.items, id => NamesItem(world.items, id, t))
    case Some(i) =>
      var it := world.items[loc.items[i]];
      Some(Described(it.description, it.japaneseDescription))
    case None =>
      match FirstMatch(inventory, id => NamesItem(world.items, id, t))
      case Some(i) =>
        var it := world.items[inventory[i]];
        Some(Described(it.description, it.japaneseDescription))
      case None =>
        match FirstMatch(loc.characters, id => NamesCharacter(world.characters, id, t))
        case Some(i) =>
          var c := world.characters[loc.characters[i]];
          Some(Described(c.description, c.japaneseDescription))
        case None => None
  }

  /** `look_command`: with a target, the description of what it names;
      without, the location's description followed by the vocabulary the
      location teaches. */
  function Look(s: State, target: string, now: string): Answer {
    match s.world.locations.Get(s.player.currentLocation)
    case None => Answer(Void, s)
    case Some(loc) =>
      if target != "" then
        match LookAt(s.world, loc, s.player.inventory, Text.Lower(target))
        case Some(d) => Answer(d, s)
        case None => Answer("You don't see '" + target + "' here.", s)
      else if loc.vocabulary != [] then
        var v := ProcessVocabulary(s, loc.vocabulary, loc.id, now);
        Answer(Describe(s.world, s.player) + v.1, v.0)
      else Answer(Describe(s.world, s.player), s)
  }

  /** Looking changes nothing but, when looking around, the vocabulary
      learnt from the location; a missing location gives the void message;
      a target is described when something present is so named and is
      reported unseen otherwise; looking around opens with the location's
      description. */
  lemma LookFacts(s: State, target: string, now: string)
    requires Good(s)
    ensures var r := Look(s, target, now);
            Evolves(s, r.state) && KeepsCommand(s, r.state)
            && (target != "" || s.player.currentLocation !in s.world.locations.vals ==> r.state == s)
            && (s.player.currentLocation !in s.world.locations.vals ==> r.text == Void)
            && (s.player.currentLocation in s.world.locations.vals && target != "" ==>
                  var found := LookAt(s.world, s.world.locations.vals[s.player.currentLocation],
                                      s.player.inventory, Text.Lower(target));
                  (found.None? ==> r.text == "You don't see '" + target + "' here.")
                  && (found.Some? ==> r.text == found.value))
            && (s.player.currentLocation in s.world.locations.vals && target == "" ==>
                  Text.StartsWith(r.text, Describe(s.world, s.player))
                  && r.state == ProcessVocabulary(s, s.world.locations.vals[s.player.currentLocation].vocabulary,
                                                  s.world.locations.vals[s.player.currentLocation].id, now).0)
  {
    var cur := s.player.currentLocation;
    if cur in s.world.locations.vals && target == "" {
      var loc := s.world.locations.vals[cur];
      ProcessVocabularyFacts(s, loc.vocabulary, loc.id, now);
      ProcessVocabularyEvolves(s, loc.vocabulary, loc.id, now);
      var r := Look(s, target, now);
      var d := Describe(s.world, s.player);
      assert r.text[..|d|] == d;
    }
  }

  // ---------------------------------------------------------------------
  // Where the items are

  /** The items lying in the location `k`, none when it is missing. */
  function Slot(locs: Dicts.Dict<string, Location>, k: string): multiset<string> {
    if k in locs.vals then multiset(locs.vals[k].items) else multiset{}
  }

  /** The items lying in the first `n` locations of the table. */
  function LocationItems(locs: Dicts.Dict<string, Location>, n: int): multiset<string>
    requires 0 <= n <= |locs.keys|
  {
    if n == 0 then multiset{} else LocationItems(locs, n - 1) + Slot(locs, locs.keys[n - 1])
  }

  /** Every item lying in some location, counted with repetition. */
  function Around(s: State): multiset<string> {
    LocationItems(s.world.locations, |s.world.locations.keys|)
  }

  /** Every item lying somewhere or carried, counted with repetition. */
  function Holdings(s: State): multiset<string> {
    multiset(s.player.inventory) + Around(s)
  }

  /** `k` sits at position `at` of the table and nowhere else. */
  predicate OnlyAt(locs: Dicts.Dict<string, Location>, k: string, at: nat) {
    at < |locs.keys| && locs.keys[at] == k && forall i :: 0 <= i < |locs.keys| && i != at ==> locs.keys[i] != k
  }

  /** Replacing the location `k` changes nothing among the locations
      before it. */
  lemma {:induction false} LocationItemsBefore(a: Dicts.Dict<string, Location>, b: Dicts.Dict<string, Location>,
                                               k: string, at: nat, n: int)
    requires OnlyAt(a, k, at) && b.keys == a.keys && k in b.vals && b.vals == a.vals[k := b.vals[k]] && 0 <= n <= at
    ensures LocationItems(b, n) == LocationItems(a, n)
  {
    if n > 0 {
      LocationItemsBefore(a, b, k, at, n - 1);
      var x := a.keys[n - 1];
      assert x != k;
      assert Slot(b, x) == Slot(a, x);
    }
  }

  /** Replacing the location `k` changes the locations up to and past it
      by the difference between its new and old lists. */
  lemma {:induction false} LocationItemsReplace(a: Dicts.Dict<string, Location>, b: Dicts.Dict<string, Location>,
                                                k: string, at: nat, n: int)
    requires OnlyAt(a, k, at) && b.keys == a.keys && k in b.vals && b.vals == a.vals[k := b.vals[k]] && at < n <= |a.keys|
    ensures LocationItems(b, n) + Slot(a, k) == LocationItems(a, n) + Slot(b, k)
  {
    var x := a.keys[n - 1];
    if n - 1 == at {
      LocationItemsBefore(a, b, k, at, n - 1);
    } else {
      LocationItemsReplace(a, b, k, at, n - 1);
      assert x != k;
      assert Slot(b, x) == Slot(a, x);
      Shift(LocationItems(b, n - 1), Slot(a, k), LocationItems(a, n - 1), Slot(b, k), Slot(b, x));
    }
  }

  /** Replacing a location of a well-formed table by one with the list
      `items` changes what lies around by the difference between the two
      lists. */
  lemma LocationItemsPut(locs: Dicts.Dict<string, Location>, k: string, loc: Location)
    requires locs.Valid() && k in locs.vals
    ensures LocationItems(locs.Put(k, loc), |locs.keys|) + multiset(locs.vals[k].items)
            == LocationItems(locs, |locs.keys|) + multiset(loc.items)
  {
    assert k in locs.keys;
    var at :| 0 <= at < |locs.keys| && locs.keys[at] == k;
    assert OnlyAt(locs, k, at);
    var b := locs.Put(k, loc);
    LocationItemsReplace(locs, b, k, at, |locs.keys|);
  }

  lemma Shift(a: multiset<string>, b: multiset<string>, c: multiset<string>, d: multiset<string>, e: multiset<string>)
    requires a + b == c + d
    ensures (a + e) + b == (c + e) + d
  {
    assert (a + e) + b == (a + b) + e;
  }

  lemma Cancel(a: multiset<string>, b: multiset<string>, m: multiset<string>)
    requires a + m == b + m
    ensures a == b
  {
    assert forall x :: a[x] == (a + m)[x] - m[x];
  }

  /** Replacing one location by one holding the same items keeps what lies
      around. */
  lemma LocationItemsSame(locs: Dicts.Dict<string, Location>, k: string, loc: Location)
    requires locs.Valid() && k in locs.vals && loc.items == locs.vals[k].items
    ensures LocationItems(locs.Put(k, loc), |locs.keys|) == LocationItems(locs, |locs.keys|)
  {
    LocationItemsPut(locs, k, loc);
    Cancel(LocationItems(locs.Put(k, loc), |locs.keys|), LocationItems(locs, |locs.keys|), multiset(loc.items));
  }

  /** Adding a new empty location leaves the first `n` locations' items
      as they were. */
  lemma {:induction false} LocationItemsAppendPrefix(locs: Dicts.Dict<string, Location>, k: string, loc: Location, n: int)
    requires k !in locs.vals && loc.items == [] && 0 <= n <= |locs.keys|
    ensures LocationItems(locs.Put(k, loc), n) == LocationItems(locs, n)
  {
    if n > 0 {
      LocationItemsAppendPrefix(locs, k, loc, n - 1);
      assert Slot(locs.Put(k, loc), locs.keys[n - 1]) == Slot(locs, locs.keys[n - 1]);
    }
  }

  /** Adding a new empty location keeps what lies around. */
  lemma LocationItemsAppend(locs: Dicts.Dict<string, Location>, k: string, loc: Location)
    requires k !in locs.vals && loc.items == []
    ensures LocationItems(locs.Put(k, loc), |locs.keys| + 1) == LocationItems(locs, |locs.keys|)
  {
    LocationItemsAppendPrefix(locs, k, loc, |locs.keys|);
    assert locs.Put(k, loc).keys[|locs.keys|] == k;
  }

  /** Unhiding locations keeps what lies around. */
  lemma {:induction false} LocationItemsUnhide(a: Dicts.Dict<string, Location>, b: Dicts.Dict<string, Location>, n: int)
    requires QuestHandler.OnlyUnhides(a, b) && 0 <= n <= |a.keys|
    ensures LocationItems(b, n) == LocationItems(a, n)
  {
    if n > 0 {
      LocationItemsUnhide(a, b, n - 1);
      assert Slot(b, a.keys[n - 1]) == Slot(a, a.keys[n - 1]);
    }
  }

  /** Repairing a location creates no item. */
  lemma EnsureLocationAround(s: State, id: string)
    requires Good(s)
    ensures Around(EnsureLocation(s, id)) == Around(s)
  {
    if id !in s.world.locations.vals {
      EnsureLocationRepairs(s, id);
      var r := EnsureLocation(s, id);
      assert r.world.locations == s.world.locations.Put(id, r.world.locations.vals[id]);
      LocationItemsAppend(s.world.locations, id, r.world.locations.vals[id]);
    }
  }

  /** Quest progress moves no item lying around and only adds reward items
      to the end of the inventory. */
  lemma ProgressAround(s: State, a: QuestHandler.QuestAction, entity: string, input: Option<string>,
                       search: QuestHandler.Search)
    requires Good(s)
    ensures var p := Progresses(s, a, entity, input, search).state;
            Around(p) == Around(s) && s.player.inventory <= p.player.inventory
  {
    ProgressesEvolve(s, a, entity, input, search);
    var p := Progresses(s, a, entity, input, search).state;
    LocationItemsUnhide(s.world.locations, p.world.locations, |s.world.locations.keys|);
  }

  // ---------------------------------------------------------------------
  // take

  /** The item `id` leaves the location `at` (its first occurrence) for
      the end of the inventory, and is counted as collected. */
  function Pick(s: State, at: string, id: string): State
    requires at in s.world.locations.vals && id in s.world.locations.vals[at].items
  {
    var loc := s.world.locations.vals[at];
    s.(world := s.world.(locations := s.world.locations.Put(at, loc.(items := RemoveFirst(loc.items, id)))),
       player := s.player.(inventory := s.player.inventory + [id],
                           stats := s.player.stats.(itemsCollected := s.player.stats.itemsCollected + 1)))
  }

  /** Picking an item up moves it from the location to the inventory. */
  lemma PickHoldings(s: State, at: string, id: string)
    requires Good(s) && at in s.world.locations.vals && id in s.world.locations.vals[at].items
    ensures Around(Pick(s, at, id)) + multiset{id} == Around(s)
    ensures Evolves(s, Pick(s, at, id)) && KeepsCommand(s, Pick(s, at, id))
  {
    var locs := s.world.locations;
    var loc := locs.vals[at];
    var loc' := loc.(items := RemoveFirst(loc.items, id));
    LocationItemsPut(locs, at, loc');
    var before := LocationItems(locs, |locs.keys|);
    var after := LocationItems(locs.Put(at, loc'), |locs.keys|);
    assert multiset(loc.items) == multiset(loc'.items) + multiset{id};
    assert (after + multiset{id}) + multiset(loc'.items) == before + multiset(loc'.items);
    Cancel(after + multiset{id}, before, multiset(loc'.items));
    ReplaceLocationEvolves(s, at, loc', Pick(s, at, id).player);
  }

  /** `take_command`: the first visible item of the location whose name
      matches is taken when it can be, and then the quests hear of it. */
  function Take(s: State, arg: string, search: QuestHandler.Search): Answer {
    if arg == "" then Answer("What do you want to take?", s)
    else
      var cur := s.player.currentLocation;
      var s1 := EnsureLocation(s, cur);
      var loc := s1.world.locations.vals[cur];
      match FirstMatch(loc.items, id => CanSee(s1.world.items, id, arg))
      case None => Answer("You don't see " + arg + " here.", s1)
      case Some(i) =>
        var id := loc.items[i];
        var item := s1.world.items[id];
        if !item.canBeTaken then Answer("You can't take " + item.name + ".", s1)
        else
          var t := Triggers(Pick(s1, cur, id), QuestHandler.CollectAction, id);
          var p := Progresses(t.state, QuestHandler.CollectAction, id, None, search);
          Answer(WithMessages(WithMessages("You take " + item.name + ".", t.messages), p.messages), p.state)
  }

  /** The item `take` would pick up, if any. */
  function TakeTarget(s: State, arg: string): (r: Option<string>)
    ensures r.Some? ==> r.value in s.world.items && !s.world.items[r.value].hidden
                        && s.world.items[r.value].canBeTaken
  {
    var cur := s.player.currentLocation;
    var s1 := EnsureLocation(s, cur);
    var loc := s1.world.locations.vals[cur];
    match FirstMatch(loc.items, id => CanSee(s1.world.items, id, arg))
    case None => None
    case Some(i) => if s1.world.items[loc.items[i]].canBeTaken then Some(loc.items[i]) else None
  }

  /** Without something to take, taking repairs the current location at
      most: the player, the quests and the items stay as they were. */
  lemma TakeNothing(s: State, arg: string, search: QuestHandler.Search)
    requires Good(s) && (arg == "" || TakeTarget(s, arg).None?)
    ensures var r := Take(s, arg, search);
            r.state.player == s.player && r.state.log == s.log && Around(r.state) == Around(s)
            && Evolves(s, r.state)
  {
    EnsureLocationAround(s, s.player.currentLocation);
    EnsureLocationEvolves(s, s.player.currentLocation);
  }

  /** Taking something moves it from the current location to the end of
      the inventory and counts it once; the quests then only add reward
      items after it and move nothing else. */
  lemma TakeSomething(s: State, arg: string, search: QuestHandler.Search)
    requires Good(s) && arg != "" && TakeTarget(s, arg).Some?
    ensures var r := Take(s, arg, search);
            var id := TakeTarget(s, arg).value;
            s.player.inventory + [id] <= r.state.player.inventory
            && Around(r.state) + multiset{id} == Around(s)
            && r.state.player.stats.itemsCollected == s.player.stats.itemsCollected + 1
            && Evolves(s, r.state) && KeepsCommand(s, r.state)
  {
    var cur := s.player.currentLocation;
    var s1 := EnsureLocation(s, cur);
    EnsureLocationEvolves(s, cur);
    EnsureLocationAround(s, cur);
    var loc := s1.world.locations.vals[cur];
    var i := FirstMatch(loc.items, id => CanSee(s1.world.items, id, arg)).value;
    var id := loc.items[i];
    var s2 := Pick(s1, cur, id);
    PickHoldings(s1, cur, id);
    EvolvesTrans(s, s1, s2);
    TakeQuestSteps(s2, id, search);
    var t := Triggers(s2, QuestHandler.CollectAction, id);
    EvolvesTrans(s, s2, Progresses(t.state, QuestHandler.CollectAction, id, None, search).state);
  }

  /** Taking something answers with the item's name first. */
  lemma TakeAnswer(s: State, arg: string, search: QuestHandler.Search)
    requires arg != "" && TakeTarget(s, arg).Some?
    ensures Text.StartsWith(Take(s, arg, search).text, "You take " + s.world.items[TakeTarget(s, arg).value].name + ".")
  {
    var cur := s.player.currentLocation;
    var s1 := EnsureLocation(s, cur);
    var loc := s1.world.locations.vals[cur];
    var i := FirstMatch(loc.items, id => CanSee(s1.world.items, id, arg)).value;
    var id := loc.items[i];
    var t := Triggers(Pick(s1, cur, id), QuestHandler.CollectAction, id);
    var p := Progresses(t.state, QuestHandler.CollectAction, id, None, search);
    var head := "You take " + s1.world.items[id].name + ".";
    WithMessagesStarts(head, t.messages);
    WithMessagesStarts(WithMessages(head, t.messages), p.messages);
    Text.StartsWithTrans(Take(s, arg, search).text, WithMessages(head, t.messages), head);
  }

  /** The quest steps after picking up `id`: the state evolves, and the
      quests only add reward items after the inventory and leave the items
      lying around and the counter of collected items as they were. */
  lemma TakeQuestSteps(s2: State, id: string, search: QuestHandler.Search)
    requires Good(s2)
    ensures var t := Triggers(s2, QuestHandler.CollectAction, id);
            var p := Progresses(t.state, QuestHandler.CollectAction, id, None, search);
            Evolves(s2, p.state) && KeepsCommand(s2, p.state)
            && s2.player.inventory <= p.state.player.inventory
            && p.state.player.stats.itemsCollected == s2.player.stats.itemsCollected
            && Around(p.state) == Around(s2)
  {
    TriggersEvolve(s2, QuestHandler.CollectAction, id);
    var t := Triggers(s2, QuestHandler.CollectAction, id);
    ProgressesEvolve(t.state, QuestHandler.CollectAction, id, None, search);
    ProgressAround(t.state, QuestHandler.CollectAction, id, None, search);
    QuestHandler.QuestProgressFacts(t.state.log, t.state.world, t.state.player, QuestHandler.CollectAction, id, None, search);
    EvolvesTrans(s2, t.state, Progresses(t.state, QuestHandler.CollectAction, id, None, search).state);
  }

  // ---------------------------------------------------------------------
  // drop

  /** The item `id` leaves the inventory (its first occurrence) for the
      end of the location `at`'s list. */
  function Leave(s: State, at: string, id: string): State
    requires at in s.world.locations.vals && id in s.player.inventory
  {
    var loc := s.world.locations.vals[at];
    s.(world := s.world.(locations := s.world.locations.Put(at, loc.(items := loc.items + [id]))),
       player := s.player.(inventory := RemoveFirst(s.player.inventory, id)))
  }

  /** The carried item `drop` would leave, if any. */
  function DropTarget(s: State, arg: string): (r: Option<string>)
    ensures r.Some? ==> r.value in s.player.inventory && Carries(s.world.items, r.value, arg)
    ensures r.None? <==> forall i :: 0 <= i < |s.player.inventory| ==> !Carries(s.world.items, s.player.inventory[i], arg)
  {
    match FirstMatch(s.player.inventory, id => Carries(s.world.items, id, arg))
    case None => None
    case Some(i) => Some(s.player.inventory[i])
  }

  /** `drop_command`: the first carried item whose name matches is left in
      the current location, and then the quests hear of it. */
  function Drop(s: State, arg: string, search: QuestHandler.Search): Answer {
    if arg == "" then Answer("What do you want to drop?", s)
    else
      var cur := s.player.currentLocation;
      var s1 := EnsureLocation(s, cur);
      match FirstMatch(s1.player.inventory, id => Carries(s1.world.items, id, arg))
      case None => Answer("You don't have " + arg + ".", s1)
      case Some(i) =>
        var id := s1.player.inventory[i];
        var t := Triggers(Leave(s1, cur, id), QuestHandler.DropAction, id);
        var p := Progresses(t.state, QuestHandler.DropAction, id, None, search);
        Answer(WithMessages(WithMessages("You drop " + s1.world.items[id].name + ".", t.messages), p.messages), p.state)
  }

  /** Leaving an item moves it from the inventory to the location. */
  lemma LeaveHoldings(s: State, at: string, id: string)
    requires Good(s) && at in s.world.locations.vals && id in s.player.inventory
    ensures Around(Leave(s, at, id)) == Around(s) + multiset{id}
    ensures multiset(Leave(s, at, id).player.inventory) + multiset{id} == multiset(s.player.inventory)
    ensures Evolves(s, Leave(s, at, id)) && KeepsCommand(s, Leave(s, at, id))
  {
    var locs := s.world.locations;
    var loc := locs.vals[at];
    var loc' := loc.(items := loc.items + [id]);
    LocationItemsPut(locs, at, loc');
    var before := LocationItems(locs, |locs.keys|);
    var after := LocationItems(locs.Put(at, loc'), |locs.keys|);
    assert multiset(loc'.items) == multiset(loc.items) + multiset{id};
    assert after + multiset(loc.items) == (before + multiset{id}) + multiset(loc.items);
    Cancel(after, before + multiset{id}, multiset(loc.items));
    ReplaceLocationEvolves(s, at, loc', Leave(s, at, id).player);
  }

  /** No quest reacts to dropping: the triggers and the progress after a
      drop change nothing and say nothing. */
  lemma DropQuestsIdle(s: State, id: string, search: QuestHandler.Search)
    ensures Triggers(s, QuestHandler.DropAction, id) == Step(s, [])
    ensures Progresses(s, QuestHandler.DropAction, id, None, search) == Step(s, [])
  {
    forall q | q in s.log.active.vals
      ensures !QuestHandler.QuestChanged(s.log.active.vals[q], QuestHandler.DropAction, id, None, search)
    {
      QuestHandler.DropChangesNoQuest(s.log.active.vals[q], id, None, search);
    }
    QuestHandler.QuestProgressIdle(s.log, s.world, s.player, QuestHandler.DropAction, id, None, search);
  }

  /** With nothing to drop, dropping at most repairs the current location:
      the player, the quests and the items stay as they were. */
  lemma DropNothing(s: State, arg: string, search: QuestHandler.Search)
    requires Good(s) && (arg == "" || DropTarget(s, arg).None?)
    ensures var r := Drop(s, arg, search);
            r.state.player == s.player && r.state.log == s.log && Around(r.state) == Around(s)
            && Evolves(s, r.state) && (arg == "" ==> r.state == s)
  {
    EnsureLocationAround(s, s.player.currentLocation);
    EnsureLocationEvolves(s, s.player.currentLocation);
  }

  /** Dropping a carried item answers with its name and leaves the state
      as leaving the item in the repaired current location does. */
  lemma DropAnswer(s: State, arg: string, search: QuestHandler.Search)
    requires Good(s) && arg != "" && DropTarget(s, arg).Some?
    ensures var cur := s.player.currentLocation;
            var s1 := EnsureLocation(s, cur);
            var id := DropTarget(s, arg).value;
            id in s1.player.inventory
            && Drop(s, arg, search) == Answer("You drop " + s.world.items[id].name + ".", Leave(s1, cur, id))
  {
    var cur := s.player.currentLocation;
    var s1 := EnsureLocation(s, cur);
    var id := DropTarget(s, arg).value;
    DropQuestsIdle(Leave(s1, cur, id), id, search);
  }

  /** Dropping moves exactly the first matching carried item from the
      inventory to the end of the current location's list, answers with
      its name and nothing more, and leaves the quests as they were. */
  lemma DropSomething(s: State, arg: string, search: QuestHandler.Search)
    requires Good(s) && arg != "" && DropTarget(s, arg).Some?
    ensures var r := Drop(s, arg, search);
            var id := DropTarget(s, arg).value;
            r.text == "You drop " + s.world.items[id].name + "."
            && r.state.player.inventory == RemoveFirst(s.player.inventory, id)
            && Around(r.state) == Around(s) + multiset{id}
            && Holdings(r.state) == Holdings(s)
            && r.state.log == s.log && Evolves(s, r.state) && KeepsCommand(s, r.state)
  {
    DropAnswer(s, arg, search);
    DropLeaves(s, DropTarget(s, arg).value);
  }

  /** Leaving a carried item at the (ensured) current location moves one
      copy of it from the inventory to the location. */
  lemma DropLeaves(s: State, id: string)
    requires Good(s) && id in s.player.inventory
    ensures var cur := s.player.currentLocation;
            var s2 := Leave(EnsureLocation(s, cur), cur, id);
            s2.player.inventory == RemoveFirst(s.player.inventory, id)
            && Around(s2) == Around(s) + multiset{id}
            && Holdings(s2) == Holdings(s)
            && s2.log == s.log && Evolves(s, s2) && KeepsCommand(s, s2)
  {
    var cur := s.player.currentLocation;
    var s1 := EnsureLocation(s, cur);
    EnsureLocationEvolves(s, cur);
    EnsureLocationAround(s, cur);
    var s2 := Leave(s1, cur, id);
    LeaveHoldings(s1, cur, id);
    EvolvesTrans(s, s1, s2);
    var inv := s.player.inventory;
    var inv' := RemoveFirst(inv, id);
    assert multiset(inv') + multiset{id} + Around(s) == multiset(inv) + Around(s);
  }

  // ---------------------------------------------------------------------
  // inventory

  /** One line per known item among the first `n` carried ids. */
  function InventoryLines(items: map<string, Item>, ids: seq<string>, n: int): string
    requires 0 <= n <= |ids|
  {
    if n == 0 then ""
    else
      var id := ids[n - 1];
      InventoryLines(items, ids, n - 1)
      + (if id in items then "- " + WithJapanese(items[id].name, items[id].japaneseName) + "\n" else "")
  }

  const EmptyInventory := "Your inventory is empty."

  /** `inventory_command`. */
  function Inventory(s: State): string {
    if s.player.inventory == [] then EmptyInventory
    else "Inventory (持ち物):\n" + InventoryLines(s.world.items, s.player.inventory, |s.player.inventory|)
  }

  /** Every known carried item among the first `n` has its line. */
  lemma {:induction false} InventoryLinesList(items: map<string, Item>, ids: seq<string>, n: int, k: int)
    requires 0 <= k < n <= |ids| && ids[k] in items
    ensures Text.Contains(InventoryLines(items, ids, n),
                          "- " + WithJapanese(items[ids[k]].name, items[ids[k]].japaneseName) + "\n")
  {
    var line := "- " + WithJapanese(items[ids[k]].name, items[ids[k]].japaneseName) + "\n";
    if k == n - 1 {
      Text.ContainsSelf(line);
    } else {
      InventoryLinesList(items, ids, n - 1, k);
    }
    var last := if ids[n - 1] in items then "- " + WithJapanese(items[ids[n - 1]].name, items[ids[n - 1]].japaneseName) + "\n" else "";
    Text.ContainsConcat(InventoryLines(items, ids, n - 1), last, line);
  }

  /** The inventory is reported empty exactly when nothing is carried, and
      otherwise lists every known carried item with its Japanese name. */
  lemma InventoryFacts(s: State)
    ensures Inventory(s) == EmptyInventory <==> s.player.inventory == []
    ensures forall k :: 0 <= k < |s.player.inventory| && s.player.inventory[k] in s.world.items ==>
              Text.Contains(Inventory(s), "- " + WithJapanese(s.world.items[s.player.inventory[k]].name,
                                                              s.world.items[s.player.inventory[k]].japaneseName) + "\n")
  {
    var inv := s.player.inventory;
    if inv != [] {
      assert Inventory(s)[0] == 'I' && EmptyInventory[0] == 'Y';
    }
    forall k | 0 <= k < |inv| && inv[k] in s.world.items
      ensures Text.Contains(Inventory(s), "- " + WithJapanese(s.world.items[inv[k]].name, s.world.items[inv[k]].japaneseName) + "\n")
    {
      InventoryLinesList(s.world.items, inv, |inv|, k);
      Text.ContainsConcat("Inventory (持ち物):\n", InventoryLines(s.world.items, inv, |inv|),
                          "- " + WithJapanese(s.world.items[inv[k]].name, s.world.items[inv[k]].japaneseName) + "\n");
    }
  }

  // ---------------------------------------------------------------------
  // use

  /** The exit `dir` leads to an existing location locked with `key`. */
  predicate LockedBy(locs: Dicts.Dict<string, Location>, conns: Dicts.Dict<string, string>, dir: string, key: string) {
    dir in conns.vals && conns.vals[dir] in locs.vals && locs.vals[conns.vals[dir]].requiresKey == Some(key)
  }

  /** The location `id` no longer needs a key. */
  function Unlock(s: State, id: string): State
    requires id in s.world.locations.vals
  {
    s.(world := s.world.(locations := s.world.locations.Put(id, s.world.locations.vals[id].(requiresKey := None))))
  }

  /** Using an item with no lock to open: its `use_effect` property is
      told and the quests hear of it; an item without one does nothing. */
  function Effect(s: State, id: string, item: Item, search: QuestHandler.Search): Response {
    if "use_effect" in item.properties then
      var p := Progresses(s, QuestHandler.UseAction, id, None, search);
      Response(Said(WithMessages("You use " + item.name + ". " + item.properties["use_effect"], p.messages)), p.state)
    else Response(Said("You're not sure how to use " + item.name + " here."), s)
  }

  /** `use_command`: a carried key opens the first exit of the current
      location locked with it; any other item, or a key with nothing to
      open, has its effect. A key used where the current location is
      missing raises `AttributeError`. */
  function Use(s: State, arg: string, search: QuestHandler.Search): Response {
    if arg == "" then Response(Said("What do you want to use?"), s)
    else
      match DropTarget(s, arg)
      case None => Response(Said("You don't have " + arg + "."), s)
      case Some(id) =>
        var item := s.world.items[id];
        if item.itemType != Key then Effect(s, id, item, search)
        else
          match s.world.locations.Get(s.player.currentLocation)
          case None => Response(Raised(AttributeError), s)
          case Some(loc) =>
            match FirstMatch(loc.connections.keys, dir => LockedBy(s.world.locations, loc.connections, dir, id))
            case None => Effect(s, id, item, search)
            case Some(j) =>
              var dir := loc.connections.keys[j];
              var p := Progresses(Unlock(s, loc.connections.vals[dir]), QuestHandler.UseAction, id, None, search);
              Response(Said(WithMessages("You use " + item.name + " to unlock the passage to the " + dir + ".", p.messages)),
                       p.state)
  }

  /** The exit a carried key `id` would open, if any. */
  function UnlockDir(s: State, id: string): (r: Option<string>)
    requires s.player.currentLocation in s.world.locations.vals
    ensures r.Some? ==> LockedBy(s.world.locations, s.world.locations.vals[s.player.currentLocation].connections, r.value, id)
  {
    var loc := s.world.locations.vals[s.player.currentLocation];
    match FirstMatch(loc.connections.keys, dir => LockedBy(s.world.locations, loc.connections, dir, id))
    case None => None
    case Some(j) => Some(loc.connections.keys[j])
  }

  /** Using raises exactly when the item named is a carried key and the
      current location is missing; the state is then untouched. */
  lemma UseRaises(s: State, arg: string, search: QuestHandler.Search)
    ensures var r := Use(s, arg, search);
            r.reply.Raised? <==> arg != "" && DropTarget(s, arg).Some?
                                 && s.world.items[DropTarget(s, arg).value].itemType == Key
                                 && s.player.currentLocation !in s.world.locations.vals
    ensures Use(s, arg, search).reply.Raised? ==> Use(s, arg, search) == Response(Raised(AttributeError), s)
  {
  }

  /** Opening a lock keeps the state evolving. */
  lemma UnlockEvolves(s: State, id: string)
    requires Good(s) && id in s.world.locations.vals
    ensures Evolves(s, Unlock(s, id)) && KeepsCommand(s, Unlock(s, id))
    ensures Around(Unlock(s, id)) == Around(s) && Unlock(s, id).player == s.player
  {
    ReplaceLocationEvolves(s, id, s.world.locations.vals[id].(requiresKey := None), s.player);
    LocationItemsSame(s.world.locations, id, s.world.locations.vals[id].(requiresKey := None));
  }

  /** An effect changes the state only through quest progress, and only
      when the item has an effect to tell. */
  lemma EffectFacts(s: State, id: string, item: Item, search: QuestHandler.Search)
    requires Good(s)
    ensures var r := Effect(s, id, item, search);
            r.reply.Said? && Evolves(s, r.state) && KeepsCommand(s, r.state)
            && Around(r.state) == Around(s) && s.player.inventory <= r.state.player.inventory
            && ("use_effect" !in item.properties ==> r.state == s)
  {
    if "use_effect" in item.properties {
      ProgressesEvolve(s, QuestHandler.UseAction, id, None, search);
      ProgressAround(s, QuestHandler.UseAction, id, None, search);
      QuestHandler.QuestProgressFacts(s.log, s.world, s.player, QuestHandler.UseAction, id, None, search);
    } else {
      EvolvesRefl(s);
    }
  }

  /** The answer of an effect tells the item's `use_effect` property, and
      says that the item has no use exactly when it has none. */
  lemma EffectAnswer(s: State, id: string, item: Item, search: QuestHandler.Search)
    ensures var r := Effect(s, id, item, search);
            ("use_effect" !in item.properties <==> r == Response(Said("You're not sure how to use " + item.name + " here."), s))
            && ("use_effect" in item.properties ==>
                  Text.StartsWith(r.reply.text, "You use " + item.name + ". " + item.properties["use_effect"]))
  {
    if "use_effect" in item.properties {
      var head := "You use " + item.name + ". " + item.properties["use_effect"];
      WithMessagesStarts(head, Progresses(s, QuestHandler.UseAction, id, None, search).messages);
      assert Effect(s, id, item, search).reply.text[4] == 'u';
      assert ("You're not sure how to use " + item.name + " here.")[4] == 'r';
    }
  }

  /** Using never consumes the item used nor moves any item lying around:
      the inventory only grows by quest rewards, and the state evolves. */
  lemma UseFacts(s: State, arg: string, search: QuestHandler.Search)
    requires Good(s)
    ensures var r := Use(s, arg, search);
            Evolves(s, r.state) && KeepsCommand(s, r.state)
            && Around(r.state) == Around(s) && s.player.inventory <= r.state.player.inventory
  {
    var r := Use(s, arg, search);
    if arg != "" && DropTarget(s, arg).Some? {
      var id := DropTarget(s, arg).value;
      var item := s.world.items[id];
      var cur := s.player.currentLocation;
      if item.itemType == Key && cur in s.world.locations.vals && UnlockDir(s, id).Some? {
        UseUnlocksState(s, arg, search);
      } else {
        EffectFacts(s, id, item, search);
        if item.itemType == Key && cur !in s.world.locations.vals {
          EvolvesRefl(s);
        }
      }
    } else {
      EvolvesRefl(s);
    }
  }

  /** Opening a lock with a key: the state evolves, the items stay where
      they are, and the location behind the exit needs no key any more. */
  lemma UseUnlocksState(s: State, arg: string, search: QuestHandler.Search)
    requires Good(s) && arg != "" && DropTarget(s, arg).Some?
    requires s.world.items[DropTarget(s, arg).value].itemType == Key
    requires s.player.currentLocation in s.world.locations.vals
    requires UnlockDir(s, DropTarget(s, arg).value).Some?
    ensures var r := Use(s, arg, search);
            var dir := UnlockDir(s, DropTarget(s, arg).value).value;
            var target := s.world.locations.vals[s.player.currentLocation].connections.vals[dir];
            Evolves(s, r.state) && KeepsCommand(s, r.state)
            && Around(r.state) == Around(s) && s.player.inventory <= r.state.player.inventory
            && target in r.state.world.locations.vals
            && r.state.world.locations.vals[target].requiresKey.None?
  {
    var id := DropTarget(s, arg).value;
    var dir := UnlockDir(s, id).value;
    var target := s.world.locations.vals[s.player.currentLocation].connections.vals[dir];
    var s1 := Unlock(s, target);
    UnlockEvolves(s, target);
    assert Good(s1);
    ProgressesEvolve(s1, QuestHandler.UseAction, id, None, search);
    ProgressAround(s1, QuestHandler.UseAction, id, None, search);
    QuestHandler.QuestProgressFacts(s1.log, s1.world, s1.player, QuestHandler.UseAction, id, None, search);
    EvolvesTrans(s, s1, Progresses(s1, QuestHandler.UseAction, id, None, search).state);
  }

  /** Opening a lock with a key answers with the direction opened. */
  lemma UseUnlocksAnswer(s: State, arg: string, search: QuestHandler.Search)
    requires arg != "" && DropTarget(s, arg).Some?
    requires s.world.items[DropTarget(s, arg).value].itemType == Key
    requires s.player.currentLocation in s.world.locations.vals
    requires UnlockDir(s, DropTarget(s, arg).value).Some?
    ensures var r := Use(s, arg, search);
            var id := DropTarget(s, arg).value;
            r.reply.Said?
            && Text.StartsWith(r.reply.text, "You use " + s.world.items[id].name + " to unlock the passage to the "
                                             + UnlockDir(s, id).value + ".")
  {
    var id := DropTarget(s, arg).value;
    var dir := UnlockDir(s, id).value;
    var target := s.world.locations.vals[s.player.currentLocation].connections.vals[dir];
    var p := Progresses(Unlock(s, target), QuestHandler.UseAction, id, None, search);
    WithMessagesStarts("You use " + s.world.items[id].name + " to unlock the passage to the " + dir + ".", p.messages);
  }

  // ---------------------------------------------------------------------
  // The commands on the game state

  /** `look_command` on the game state. */
  method LookCommand(gs: GameState, target: string, now: string) returns (text: string)
    modifies gs
    ensures var r := Look(old(Snapshot(gs)), target, now);
            Snapshot(gs) == r.state && text == r.text
    ensures KeepsMeta(gs)
  {
    var found := gs.world.locations.Get(gs.player.currentLocation);
    if found.None? {
      return Void;
    }
    var loc := found.value;
    if target != "" {
      var t := Text.Lower(target);
      var items, chars := gs.world.items, gs.world.characters;
      var i := Find(loc.items, id => NamesItem(items, id, t));
      if i.Some? {
        var it := items[loc.items[i.value]];
        return Described(it.description, it.japaneseDescription);
      }
      i := Find(gs.player.inventory, id => NamesItem(items, id, t));
      if i.Some? {
        var it := items[gs.player.inventory[i.value]];
        return Described(it.description, it.japaneseDescription);
      }
      i := Find(loc.characters, id => NamesCharacter(chars, id, t));
      if i.Some? {
        var c := chars[loc.characters[i.value]];
        return Described(c.description, c.japaneseDescription);
      }
      return "You don't see '" + target + "' here.";
    }
    text := GetLocationDescription(gs);
    if loc.vocabulary != [] {
      var learnt := Vocabulary.LearnVocabulary(gs, loc.vocabulary, loc.id, now);
      text := text + learnt;
    }
  }

  /** `take_command` on the game state. */
  method TakeCommand(gs: GameState, arg: string, search: QuestHandler.Search) returns (text: string)
    modifies gs
    ensures var r := Take(old(Snapshot(gs)), arg, search);
            Snapshot(gs) == r.state && text == r.text
    ensures KeepsMeta(gs)
  {
    if arg == "" {
      return "What do you want to take?";
    }
    var cur := gs.player.currentLocation;
    EnsureValidLocation(gs, cur);
    var loc := gs.world.locations.vals[cur];
    var items := gs.world.items;
    var i := Find(loc.items, id => CanSee(items, id, arg));
    if i.None? {
      return "You don't see " + arg + " here.";
    }
    var id := loc.items[i.value];
    var item := items[id];
    if !item.canBeTaken {
      return "You can't take " + item.name + ".";
    }
    gs.world := gs.world.(locations := gs.world.locations.Put(cur, loc.(items := RemoveFirst(loc.items, id))));
    gs.player := gs.player.(inventory := gs.player.inventory + [id],
                            stats := gs.player.stats.(itemsCollected := gs.player.stats.itemsCollected + 1));
    var questMessages := RunTriggers(gs, QuestHandler.CollectAction, id);
    var progressMessages := RunProgress(gs, QuestHandler.CollectAction, id, None, search);
    text := WithMessages(WithMessages("You take " + item.name + ".", questMessages), progressMessages);
  }

  /** `drop_command` on the game state. */
  method DropCommand(gs: GameState, arg: string, search: QuestHandler.Search) returns (text: string)
    modifies gs
    ensures var r := Drop(old(Snapshot(gs)), arg, search);
            Snapshot(gs) == r.state && text == r.text
    ensures KeepsMeta(gs)
  {
    if arg == "" {
      return "What do you want to drop?";
    }
    var cur := gs.player.currentLocation;
    EnsureValidLocation(gs, cur);
    var items := gs.world.items;
    var i := Find(gs.player.inventory, id => Carries(items, id, arg));
    if i.None? {
      return "You don't have " + arg + ".";
    }
    var id := gs.player.inventory[i.value];
    var loc := gs.world.locations.vals[cur];
    gs.player := gs.player.(inventory := RemoveFirst(gs.player.inventory, id));
    gs.world := gs.world.(locations := gs.world.locations.Put(cur, loc.(items := loc.items + [id])));
    var questMessages := RunTriggers(gs, QuestHandler.DropAction, id);
    var progressMessages := RunProgress(gs, QuestHandler.DropAction, id, None, search);
    text := WithMessages(WithMessages("You drop " + items[id].name + ".", questMessages), progressMessages);
  }

  /** `inventory_command`: one line per known carried item. */
  method InventoryCommand(gs: GameState) returns (text: string)
    ensures text == Inventory(Snapshot(gs))
  {
    var inv := gs.player.inventory;
    if inv == [] {
      return EmptyInventory;
    }
    var lines := "";
    for i := 0 to |inv|
      invariant lines == InventoryLines(gs.world.items, inv, i)
    {
      if inv[i] in gs.world.items {
        var item := gs.world.items[inv[i]];
        lines := lines + ("- " + WithJapanese(item.name, item.japaneseName) + "\n");
      }
    }
    text := "Inventory (持ち物):\n" + lines;
  }

  /** The effect of an item with no lock to open, on the game state. */
  method ApplyEffect(gs: GameState, id: string, item: Item, search: QuestHandler.Search) returns (reply: Reply)
    modifies gs
    ensures var r := Effect(old(Snapshot(gs)), id, item, search);
            Snapshot(gs) == r.state && reply == r.reply
    ensures KeepsMeta(gs)
  {
    if "use_effect" !in item.properties {
      return Said("You're not sure how to use " + item.name + " here.");
    }
    var progressMessages := RunProgress(gs, QuestHandler.UseAction, id, None, search);
    reply := Said(WithMessages("You use " + item.name + ". " + item.properties["use_effect"], progressMessages));
  }

  /** `use_command` on the game state. */
  method UseCommand(gs: GameState, arg: string, search: QuestHandler.Search) returns (reply: Reply)
    modifies gs
    ensures var r := Use(old(Snapshot(gs)), arg, search);
            Snapshot(gs) == r.state && reply == r.reply
    ensures KeepsMeta(gs)
  {
    if arg == "" {
      return Said("What do you want to use?");
    }
    var items := gs.world.items;
    var i := Find(gs.player.inventory, id => Carries(items, id, arg));
    if i.None? {
      return Said("You don't have " + arg + ".");
    }
    var id := gs.player.inventory[i.value];
    var item := items[id];
    if item.itemType == Key {
      var found := gs.world.locations.Get(gs.player.currentLocation);
      if found.None? {
        return Raised(AttributeError);
      }
      var conns := found.value.connections;
      var locs := gs.world.locations;
      var j := Find(conns.keys, dir => LockedBy(locs, conns, dir, id));
      if j.Some? {
        var dir := conns.keys[j.value];
        var target := conns.vals[dir];
        gs.world := gs.world.(locations := locs.Put(target, locs.vals[target].(requiresKey := None)));
        var progressMessages := RunProgress(gs, QuestHandler.UseAction, id, None, search);
        return Said(WithMessages("You use " + item.name + " to unlock the passage to the " + dir + ".", progressMessages));
      }
    }
    reply := ApplyEffect(gs, id, item, search);
  }
}
