/** Building a game from the loose world description an LLM produces:
    locations, a start location, characters and items placed by appending
    their ids to a location's lists, vocabulary and quests, then the world
    validator and a fresh player at `start`. */
module WorldInit {

  import opened Wrappers
  import Dicts
  import Text
  import opened QuestModels
  import opened GameModels
  import WorldValidator

  // ---------------------------------------------------------------------
  // The loose input. A field that may be missing is an Option (None =
  // missing); a missing list is the empty list.

  /** A connection target: a string, an object whose "location" field is
      read, or anything else, which is turned into its string form. */
  datatype RawTarget = TargetId(id: string) | TargetObject(location: Option<string>) | TargetOther(text: string)

  datatype RawLocation = RawLocation(
    id: Option<string>,
    name: Option<string>,
    japaneseName: Option<string>,
    description: Option<string>,
    japaneseDescription: Option<string>,
    connections: seq<(string, RawTarget)>,
    vocabulary: seq<Dicts.StrDict>,
    questTriggers: seq<string>,
    hidden: Option<bool>)

  datatype RawCharacter = RawCharacter(
    id: Option<string>,
    name: Option<string>,
    japaneseName: Option<string>,
    description: Option<string>,
    japaneseDescription: Option<string>,
    dialogues: Dicts.Dict<string, Dicts.StrDict>,
    vocabulary: seq<Dicts.StrDict>,
    items: seq<string>,
    questIds: seq<string>,
    questDialogues: map<string, map<string, Dicts.StrDict>>,
    location: Option<string>)

  /** An item; `itemType` is the string the record coerces to ItemType. */
  datatype RawItem = RawItem(
    id: Option<string>,
    name: Option<string>,
    japaneseName: Option<string>,
    description: Option<string>,
    japaneseDescription: Option<string>,
    itemType: Option<string>,
    properties: Dicts.StrDict,
    vocabulary: seq<Dicts.StrDict>,
    canBeTaken: Option<bool>,
    hidden: Option<bool>,
    relatedQuestId: Option<string>,
    location: Option<string>)

  datatype RawVocabulary = RawVocabulary(
    id: Option<string>,
    japanese: Option<string>,
    english: Option<string>,
    reading: Option<string>,
    partOfSpeech: Option<string>,
    exampleSentence: Option<string>,
    notes: Option<string>,
    jlptLevel: Option<int>)

  datatype RawObjective = RawObjective(
    id: Option<string>,
    objType: Option<string>,
    description: Option<string>,
    japaneseDescription: Option<string>,
    targetId: Option<string>,
    count: Option<int>,
    vocabulary: seq<Dicts.StrDict>)

  datatype RawReward = RawReward(
    rewardType: Option<string>,
    description: Option<string>,
    japaneseDescription: Option<string>,
    targetId: Option<string>,
    quantity: Option<int>,
    vocabulary: seq<Dicts.StrDict>)

  datatype RawQuest = RawQuest(
    id: Option<string>,
    title: Option<string>,
    japaneseTitle: Option<string>,
    description: Option<string>,
    japaneseDescription: Option<string>,
    objectives: seq<RawObjective>,
    rewards: seq<RawReward>,
    prerequisites: seq<string>,
    startLocation: Option<string>,
    completionLocation: Option<string>,
    startDialogue: Option<Dicts.StrDict>,
    completionDialogue: Option<Dicts.StrDict>,
    difficulty: Option<int>,
    jlptLevel: Option<int>,
    hidden: Option<bool>)

  datatype RawWorld = RawWorld(
    locations: seq<RawLocation>,
    characters: seq<RawCharacter>,
    items: seq<RawItem>,
    vocabulary: seq<RawVocabulary>,
    quests: seq<RawQuest>)

  /** Why building the game raised: a record field the record type
      refuses. */
  datatype InitError =
    | ConnectionWithoutTarget
    | InvalidItemType(itemId: string, itemType: string)

  // ---------------------------------------------------------------------
  // Locations

  /** The location id a connection target names; None for an object
      without a "location" field. */
  function TargetOf(t: RawTarget): Option<string> {
    match t
    case TargetId(id) => Some(id)
    case TargetObject(l) => l
    case TargetOther(text) => Some(text)
  }

  /** The first `n` connections of the loose data, assigned one after the
      other; a target that names no location is left out here and reported
      by ConnectionsOk. */
  function ReadConnections(items: seq<(string, RawTarget)>, n: int): (r: Dicts.Dict<string, string>)
    requires 0 <= n <= |items|
    ensures r.Valid()
    ensures forall d :: d in r.vals <==> exists i :: 0 <= i < n && items[i].0 == d && TargetOf(items[i].1).Some?
  {
    if n == 0 then Dicts.Empty()
    else
      var before := ReadConnections(items, n - 1);
      var (d, t) := items[n - 1];
      match TargetOf(t)
      case Some(target) => before.Put(d, target)
      case None => before
  }

  /** Every connection target names a location. */
  predicate ConnectionsOk(items: seq<(string, RawTarget)>) {
    forall i :: 0 <= i < |items| ==> TargetOf(items[i].1).Some?
  }

  /** The id a loose location gets when the table holds `count` locations:
      its own, else "loc_<count>". */
  function LocationId(raw: RawLocation, count: nat): string {
    raw.id.GetOr("loc_" + Text.NatToString(count))
  }

  /** A location read from the loose data: nobody and nothing in it, not
      visited, open. */
  function LocationFrom(raw: RawLocation, id: string): (r: Location)
    ensures r.id == id && r.connections.Valid()
    ensures r.items == [] && r.characters == [] && !r.visited && r.requiresKey == None
  {
    Location(id, raw.name.GetOr("Unknown Location"), raw.japaneseName.GetOr(""),
             raw.description.GetOr(""), raw.japaneseDescription.GetOr(""),
             ReadConnections(raw.connections, |raw.connections|),
             [], [], raw.vocabulary, false, None, raw.questTriggers, raw.hidden.GetOr(false))
  }

  /** The table after the first `n` loose locations, each filed under its
      id; a later location with the same id replaces the earlier one in
      its place. */
  function AddLocations(raws: seq<RawLocation>, n: int): (r: WorldValidator.Locs)
    requires 0 <= n <= |raws|
    ensures LocationsValid(r) && WorldValidator.IdsMatch(r)
    ensures forall k :: k in r.vals ==> r.vals[k].items == [] && r.vals[k].characters == []
  {
    if n == 0 then Dicts.Empty()
    else
      var before := AddLocations(raws, n - 1);
      var id := LocationId(raws[n - 1], |before.keys|);
      before.Put(id, LocationFrom(raws[n - 1], id))
  }

  /** Every connection target of every loose location names a
      location. */
  predicate AllConnectionsOk(raws: seq<RawLocation>) {
    forall i :: 0 <= i < |raws| ==> ConnectionsOk(raws[i].connections)
  }

  /** The location loop: each loose location becomes a location of the
      table, its connections read in order. */
  method BuildLocations(raws: seq<RawLocation>) returns (r: WorldValidator.Locs)
    ensures r == AddLocations(raws, |raws|)
  {
    r := Dicts.Empty();
    for i := 0 to |raws|
      invariant r == AddLocations(raws, i)
    {
      var raw := raws[i];
      var id := LocationId(raw, |r.keys|);
      var conns: Dicts.Dict<string, string> := Dicts.Empty();
      for j := 0 to |raw.connections|
        invariant conns == ReadConnections(raw.connections, j)
      {
        var (d, t) := raw.connections[j];
        match TargetOf(t) {
          case Some(target) => conns := conns.Put(d, target);
          case None =>
        }
      }
      r := r.Put(id, LocationFrom(raw, id).(connections := conns));
    }
  }

  /** The start location created when the loose data has none. */
  function InitStart(): Location {
    NewLocation("start", "Starting Point", "開始地点",
                "You find yourself at the starting point of your adventure.",
                "あなたは冒険の出発点にいます。")
  }

  function WithInitStart(locs: WorldValidator.Locs): (r: WorldValidator.Locs)
    ensures "start" in r.vals && locs.vals.Keys <= r.vals.Keys && locs.keys <= r.keys
    ensures "start" in locs.vals ==> r == locs
    ensures LocationsValid(locs) ==> LocationsValid(r)
  {
    if "start" in locs.vals then locs else locs.Put("start", InitStart())
  }

  // ---------------------------------------------------------------------
  // Characters and items

  /** The id a loose character gets when `count` characters are known. */
  function CharacterId(raw: RawCharacter, count: nat): string {
    raw.id.GetOr("char_" + Text.NatToString(count))
  }

  function CharacterFrom(raw: RawCharacter, id: string): (r: Character)
    ensures r.id == id
  {
    Character(id, raw.name.GetOr("Unknown Character"), raw.japaneseName.GetOr(""),
              raw.description.GetOr(""), raw.japaneseDescription.GetOr(""),
              raw.dialogues, raw.vocabulary, raw.items, raw.questIds, raw.questDialogues)
  }

  /** `locations[at].<list>.append(id)` when `at` is a location; otherwise
      the table is unchanged. `toItems` picks the item list, else the
      character list. */
  function Place(locs: WorldValidator.Locs, at: string, id: string, toItems: bool): (r: WorldValidator.Locs)
    ensures r.keys == locs.keys && r.vals.Keys == locs.vals.Keys
    ensures forall k :: k in locs.vals && k != at ==> r.vals[k] == locs.vals[k]
    ensures at in locs.vals ==>
              if toItems then r.vals[at] == locs.vals[at].(items := locs.vals[at].items + [id])
              else r.vals[at] == locs.vals[at].(characters := locs.vals[at].characters + [id])
  {
    if at !in locs.vals then locs
    else
      var loc := locs.vals[at];
      locs.Put(at, if toItems then loc.(items := loc.items + [id]) else loc.(characters := loc.characters + [id]))
  }

  /** One loose character: filed under its id, and placed at its location,
      "start" when it names none. */
  function AddCharacter(w: World, raw: RawCharacter): World {
    var id := CharacterId(raw, |w.characters|);
    w.(locations := Place(w.locations, raw.location.GetOr("start"), id, false),
       characters := w.characters[id := CharacterFrom(raw, id)])
  }

  function AddCharacters(w: World, raws: seq<RawCharacter>, n: int): (r: World)
    requires 0 <= n <= |raws|
    ensures r.locations.keys == w.locations.keys && r.locations.vals.Keys == w.locations.vals.Keys
    ensures r.items == w.items && r.vocabulary == w.vocabulary && r.quests == w.quests
  {
    if n == 0 then w else AddCharacter(AddCharacters(w, raws, n - 1), raws[n - 1])
  }

  /** The id a loose item gets when `count` items are known. */
  function ItemId(raw: RawItem, count: nat): string {
    raw.id.GetOr("item_" + Text.NatToString(count))
  }

  /** The item, or the type string the record refuses. */
  function ItemFrom(raw: RawItem, id: string): (r: Result<Item, string>)
    ensures r.Ok? ==> r.value.id == id
    ensures r.Err? <==> raw.itemType.Some? && ParseItemType(raw.itemType.value).None?
  {
    var t := if raw.itemType.Some? then ParseItemType(raw.itemType.value) else Some(General);
    if t.None? then Err(raw.itemType.value)
    else
      Ok(Item(id, raw.name.GetOr("Unknown Item"), raw.japaneseName.GetOr(""),
              raw.description.GetOr(""), raw.japaneseDescription.GetOr(""), t.value,
              raw.properties, raw.vocabulary, raw.canBeTaken.GetOr(true), raw.hidden.GetOr(false),
              raw.relatedQuestId))
  }

  /** One loose item: filed under its id and placed at its location,
      "start" when it names none; an item type the record refuses
      raises. */
  function AddItem(w: World, raw: RawItem): Result<World, InitError> {
    var id := ItemId(raw, |w.items|);
    match ItemFrom(raw, id)
    case Err(t) => Err(InvalidItemType(id, t))
    case Ok(item) =>
      Ok(w.(locations := Place(w.locations, raw.location.GetOr("start"), id, true),
            items := w.items[id := item]))
  }

  function AddItems(w: World, raws: seq<RawItem>, n: int): (r: Result<World, InitError>)
    requires 0 <= n <= |raws|
    ensures r.Ok? ==> r.value.locations.keys == w.locations.keys && r.value.locations.vals.Keys == w.locations.vals.Keys
    ensures r.Ok? ==> r.value.characters == w.characters && r.value.vocabulary == w.vocabulary && r.value.quests == w.quests
    ensures r.Ok? <==> forall i :: 0 <= i < n ==> raws[i].itemType.Some? ==> ParseItemType(raws[i].itemType.value).Some?
    ensures r.Err? ==> r.error.InvalidItemType?
  {
    if n == 0 then Ok(w)
    else
      match AddItems(w, raws, n - 1)
      case Err(e) => Err(e)
      case Ok(before) => AddItem(before, raws[n - 1])
  }

  /** The character loop. */
  method PlaceCharacters(w: World, raws: seq<RawCharacter>) returns (r: World)
    ensures r == AddCharacters(w, raws, |raws|)
  {
    r := w;
    for i := 0 to |raws|
      invariant r == AddCharacters(w, raws, i)
    {
      var raw := raws[i];
      var id := CharacterId(raw, |r.characters|);
      var at := raw.location.GetOr("start");
      var locs := r.locations;
      if at in locs.vals {
        var loc := locs.vals[at];
        locs := locs.Put(at, loc.(characters := loc.characters + [id]));
      }
      assert locs == Place(r.locations, at, id, false);
      r := r.(locations := locs, characters := r.characters[id := CharacterFrom(raw, id)]);
    }
  }

  /** The item loop; an item type the record refuses raises out of it. */
  method PlaceItems(w: World, raws: seq<RawItem>) returns (r: Result<World, InitError>)
    ensures r == AddItems(w, raws, |raws|)
  {
    var cur := w;
    for i := 0 to |raws|
      invariant AddItems(w, raws, i) == Ok(cur)
    {
      var raw := raws[i];
      var id := ItemId(raw, |cur.items|);
      var item := ItemFrom(raw, id);
      if item.Err? {
        AddItemsStopped(w, raws, i + 1, |raws|);
        return Err(InvalidItemType(id, item.error));
      }
      var at := raw.location.GetOr("start");
      if at in cur.locations.vals {
        var loc := cur.locations.vals[at];
        cur := cur.(locations := cur.locations.Put(at, loc.(items := loc.items + [id])));
      }
      cur := cur.(items := cur.items[id := item.value]);
    }
    r := Ok(cur);
  }

  /** Once an item raises, the later ones are never read. */
  lemma {:induction false} AddItemsStopped(w: World, raws: seq<RawItem>, m: int, n: int)
    requires 0 < m <= n <= |raws| && AddItems(w, raws, m).Err?
    ensures AddItems(w, raws, n) == AddItems(w, raws, m)
  {
    if n > m {
      AddItemsStopped(w, raws, m, n - 1);
    }
  }

  /** Every location lists only known items and characters. */
  ghost predicate PlacedKnown(w: World) {
    WorldValidator.ContentsIn(w.locations, w.items.Keys, w.characters.Keys)
  }

  /** One character keeps every location listing only known items and
      characters. */
  lemma AddCharacterKnown(w: World, raw: RawCharacter)
    requires PlacedKnown(w)
    ensures PlacedKnown(AddCharacter(w, raw))
  {
  }

  lemma AddItemKnown(w: World, raw: RawItem)
    requires PlacedKnown(w) && AddItem(w, raw).Ok?
    ensures PlacedKnown(AddItem(w, raw).value)
  {
  }

  /** Placing characters files each one under its id and lists only such
      ids: a world whose locations list only known items and characters
      keeps that property. */
  lemma {:induction false} CharactersPlacedKnown(w: World, raws: seq<RawCharacter>, n: int)
    requires 0 <= n <= |raws| && PlacedKnown(w)
    ensures PlacedKnown(AddCharacters(w, raws, n))
  {
    if n > 0 {
      CharactersPlacedKnown(w, raws, n - 1);
      AddCharacterKnown(AddCharacters(w, raws, n - 1), raws[n - 1]);
    }
  }

  /** The item counterpart of CharactersPlacedKnown. */
  lemma {:induction false} ItemsPlacedKnown(w: World, raws: seq<RawItem>, n: int)
    requires 0 <= n <= |raws| && PlacedKnown(w) && AddItems(w, raws, n).Ok?
    ensures PlacedKnown(AddItems(w, raws, n).value)
  {
    if n > 0 {
      var before := AddItems(w, raws, n - 1);
      ItemsPlacedKnown(w, raws, n - 1);
      AddItemKnown(before.value, raws[n - 1]);
    }
  }

  lemma AddCharacterAt(w: World, raw: RawCharacter, k: string)
    requires k in w.locations.vals
    ensures var r := AddCharacter(w, raw).locations.vals[k];
            w.locations.vals[k].characters <= r.characters
            && r == w.locations.vals[k].(characters := r.characters)
  {
  }

  lemma AddItemAt(w: World, raw: RawItem, k: string)
    requires k in w.locations.vals && AddItem(w, raw).Ok?
    ensures var r := AddItem(w, raw).value.locations.vals[k];
            w.locations.vals[k].items <= r.items
            && r == w.locations.vals[k].(items := r.items)
  {
  }

  /** Placing characters only appends to character lists: at every location
      the old list is a prefix of the new one, and the items and connections
      are untouched. */
  lemma {:induction false} CharactersOnlyAppend(w: World, raws: seq<RawCharacter>, n: int, k: string)
    requires 0 <= n <= |raws| && k in w.locations.vals
    ensures var r := AddCharacters(w, raws, n).locations.vals[k];
            w.locations.vals[k].characters <= r.characters
            && r == w.locations.vals[k].(characters := r.characters)
  {
    if n > 0 {
      CharactersOnlyAppend(w, raws, n - 1, k);
      AddCharacterAt(AddCharacters(w, raws, n - 1), raws[n - 1], k);
    }
  }

  /** Placing items only appends to item lists. */
  lemma {:induction false} ItemsOnlyAppend(w: World, raws: seq<RawItem>, n: int, k: string)
    requires 0 <= n <= |raws| && k in w.locations.vals && AddItems(w, raws, n).Ok?
    ensures var r := AddItems(w, raws, n).value.locations.vals[k];
            w.locations.vals[k].items <= r.items
            && r == w.locations.vals[k].(items := r.items)
  {
    if n > 0 {
      ItemsOnlyAppend(w, raws, n - 1, k);
      AddItemAt(AddItems(w, raws, n - 1).value, raws[n - 1], k);
    }
  }

  /** A character is placed at the location it names, or at start when it
      names none, by appending its id; a character naming an unknown
      location is placed nowhere. */
  lemma CharacterPlacement(w: World, raw: RawCharacter)
    ensures var r := AddCharacter(w, raw);
            var id := CharacterId(raw, |w.characters|);
            var at := raw.location.GetOr("start");
            id in r.characters && r.characters[id] == CharacterFrom(raw, id)
            && (at in w.locations.vals ==>
                  r.locations.vals[at].characters == w.locations.vals[at].characters + [id])
            && (forall k :: k in w.locations.vals && k != at ==> r.locations.vals[k] == w.locations.vals[k])
  {
  }

  lemma CharactersKeepConnections(w: World, chars: seq<RawCharacter>, k: string)
    requires k in w.locations.vals
    ensures k in AddCharacters(w, chars, |chars|).locations.vals
    ensures AddCharacters(w, chars, |chars|).locations.vals[k].connections == w.locations.vals[k].connections
  {
    CharactersOnlyAppend(w, chars, |chars|, k);
  }

  lemma ItemsKeepConnections(w: World, items: seq<RawItem>, k: string)
    requires k in w.locations.vals && AddItems(w, items, |items|).Ok?
    ensures AddItems(w, items, |items|).value.locations.vals[k].connections == w.locations.vals[k].connections
  {
    ItemsOnlyAppend(w, items, |items|, k);
  }

  /** Placing characters and items leaves every connection table as it
      was, so well-formed tables stay well-formed. */
  lemma PlacementKeepsValid(w: World, chars: seq<RawCharacter>, items: seq<RawItem>)
    requires LocationsValid(w.locations)
    requires AddItems(AddCharacters(w, chars, |chars|), items, |items|).Ok?
    ensures LocationsValid(AddItems(AddCharacters(w, chars, |chars|), items, |items|).value.locations)
  {
    var placed := AddCharacters(w, chars, |chars|);
    var r := AddItems(placed, items, |items|).value.locations;
    forall k | k in w.locations.vals
      ensures r.vals[k].connections == w.locations.vals[k].connections
    {
      CharactersKeepConnections(w, chars, k);
      ItemsKeepConnections(placed, items, k);
    }
    ConnectionsKeptValid(w.locations, r);
  }

  /** A table with the same keys and the same connection tables as a
      well-formed one is well-formed. */
  lemma ConnectionsKeptValid(a: Dicts.Dict<string, Location>, b: Dicts.Dict<string, Location>)
    requires LocationsValid(a) && b.keys == a.keys && b.vals.Keys == a.vals.Keys
    requires forall k :: k in a.vals ==> b.vals[k].connections == a.vals[k].connections
    ensures LocationsValid(b)
  {
  }

  // ---------------------------------------------------------------------
  // Vocabulary

  /** The id a loose vocabulary entry gets when `count` entries are
      known. */
  function VocabularyId(raw: RawVocabulary, count: nat): string {
    raw.id.GetOr("vocab_" + Text.NatToString(count))
  }

  /** A vocabulary entry: missing strings read as "" (the optional ones
      included), never reviewed. */
  function VocabularyFrom(raw: RawVocabulary): VocabularyEntry {
    VocabularyEntry(raw.japanese.GetOr(""), raw.english.GetOr(""), Some(raw.reading.GetOr("")),
                    Some(raw.partOfSpeech.GetOr("")), Some(raw.exampleSentence.GetOr("")),
                    Some(raw.notes.GetOr("")), raw.jlptLevel, 0, 0)
  }

  function AddVocabulary(vocab: map<string, VocabularyEntry>, raws: seq<RawVocabulary>, n: int): (r: map<string, VocabularyEntry>)
    requires 0 <= n <= |raws|
    ensures vocab.Keys <= r.Keys
  {
    if n == 0 then vocab
    else
      var before := AddVocabulary(vocab, raws, n - 1);
      before[VocabularyId(raws[n - 1], |before|) := VocabularyFrom(raws[n - 1])]
  }

  /** The vocabulary loop. */
  method ReadVocabulary(raws: seq<RawVocabulary>) returns (r: map<string, VocabularyEntry>)
    ensures r == AddVocabulary(map[], raws, |raws|)
  {
    r := map[];
    for i := 0 to |raws|
      invariant r == AddVocabulary(map[], raws, i)
    {
      r := r[VocabularyId(raws[i], |r|) := VocabularyFrom(raws[i])];
    }
  }

  /** The ids "vocab_0", "vocab_1", ... below `n`. */
  function VocabIds(n: nat): set<string> {
    if n == 0 then {} else VocabIds(n - 1) + {"vocab_" + Text.NatToString(n - 1)}
  }

  /** "vocab_<i>" names `i`: distinct numbers give distinct ids. */
  lemma VocabIdInjective(i: nat, j: nat)
    requires "vocab_" + Text.NatToString(i) == "vocab_" + Text.NatToString(j)
    ensures i == j
  {
    var a := "vocab_" + Text.NatToString(i);
    assert Text.NatToString(i) == a[6..];
    assert Text.NatToString(j) == a[6..];
    Text.DigitsValueOfNatToString(i);
    Text.DigitsValueOfNatToString(j);
  }

  /** The next id is not among the earlier ones. */
  lemma VocabIdFresh(n: nat)
    ensures VocabIds(n + 1) == VocabIds(n) + {"vocab_" + Text.NatToString(n)}
    ensures "vocab_" + Text.NatToString(n) !in VocabIds(n)
  {
    VocabIdsBelow(n, n);
  }

  /** "vocab_<j>" is among the ids below `n` exactly when `j` is. */
  lemma {:induction false} VocabIdsBelow(n: nat, j: nat)
    ensures "vocab_" + Text.NatToString(j) in VocabIds(n) <==> j < n
  {
    if n > 0 {
      var a, b := "vocab_" + Text.NatToString(j), "vocab_" + Text.NatToString(n - 1);
      assert VocabIds(n) == VocabIds(n - 1) + {b};
      VocabIdsBelow(n - 1, j);
      if a == b {
        VocabIdInjective(j, n - 1);
      } else {
        assert j != n - 1;
      }
    }
  }

  /** Entries without ids of their own get the contiguous ids "vocab_0",
      "vocab_1", ..., one per entry. */
  lemma {:induction false} VocabularyIdsContiguous(raws: seq<RawVocabulary>, n: int)
    requires 0 <= n <= |raws| && forall i :: 0 <= i < |raws| ==> raws[i].id.None?
    ensures AddVocabulary(map[], raws, n).Keys == VocabIds(n)
    ensures |AddVocabulary(map[], raws, n)| == n
  {
    if n > 0 {
      var before := AddVocabulary(map[], raws, n - 1);
      VocabularyIdsContiguous(raws, n - 1);
      VocabIdFresh(n - 1);
      var id := "vocab_" + Text.NatToString(n - 1);
      assert VocabularyId(raws[n - 1], |before|) == id;
      AddFresh(before, id, VocabularyFrom(raws[n - 1]));
    }
  }

  /** Adding a key that is not there yet adds one entry. */
  lemma AddFresh(m: map<string, VocabularyEntry>, k: string, v: VocabularyEntry)
    requires k !in m
    ensures m[k := v].Keys == m.Keys + {k} && |m[k := v]| == |m| + 1
  {
  }

  // ---------------------------------------------------------------------
  // Quests

  /** An objective; None when its type string is not an objective type. */
  function ObjectiveFrom(raw: RawObjective, count: nat): (r: Option<QuestObjective>)
    ensures r.Some? ==> !r.value.completed && r.value.progress == 0 && r.value.properties == NoProperties
  {
    var t := if raw.objType.Some? then ParseObjectiveType(raw.objType.value) else Some(CustomObjective);
    if t.None? then None
    else
      Some(QuestObjective(raw.id.GetOr("obj_" + Text.NatToString(count)), t.value,
                          raw.description.GetOr(""), raw.japaneseDescription.GetOr(""),
                          raw.targetId.GetOr(""), raw.count.GetOr(1), false, 0, [], [],
                          raw.vocabulary, NoProperties))
  }

  /** A reward; None when its type string is not a reward type. */
  function RewardFrom(raw: RawReward): (r: Option<QuestReward>)
    ensures r.Some? ==> !r.value.claimed
  {
    var t := if raw.rewardType.Some? then ParseRewardType(raw.rewardType.value) else Some(CustomReward);
    if t.None? then None
    else
      Some(QuestReward(t.value, raw.description.GetOr(""), raw.japaneseDescription.GetOr(""),
                       raw.targetId, raw.quantity.GetOr(1), false, raw.vocabulary))
  }

  /** The first `n` objectives, or None when one of them fails. */
  function ObjectivesFrom(raws: seq<RawObjective>, n: int): (r: Option<seq<QuestObjective>>)
    requires 0 <= n <= |raws|
    ensures r.Some? ==> |r.value| == n
    ensures r.Some? <==> forall i :: 0 <= i < n ==> ObjectiveFrom(raws[i], i).Some?
  {
    if n == 0 then Some([])
    else
      match ObjectivesFrom(raws, n - 1)
      case None => None
      case Some(before) =>
        match ObjectiveFrom(raws[n - 1], n - 1)
        case None => None
        case Some(o) => Some(before + [o])
  }

  function RewardsFrom(raws: seq<RawReward>, n: int): (r: Option<seq<QuestReward>>)
    requires 0 <= n <= |raws|
    ensures r.Some? ==> |r.value| == n
    ensures r.Some? <==> forall i :: 0 <= i < n ==> RewardFrom(raws[i]).Some?
  {
    if n == 0 then Some([])
    else
      match RewardsFrom(raws, n - 1)
      case None => None
      case Some(before) =>
        match RewardFrom(raws[n - 1])
        case None => None
        case Some(w) => Some(before + [w])
  }

  /** The id a loose quest gets when `count` quests are known. */
  function QuestId(raw: RawQuest, count: nat): string {
    raw.id.GetOr("quest_" + Text.NatToString(count))
  }

  /** A quest: not started, its objectives and rewards read in order; None
      when an objective or reward has a type its record refuses. */
  function QuestFrom(raw: RawQuest, id: string): (r: Option<Quest>)
    ensures r.Some? ==> r.value.id == id && r.value.state == NotStarted
    ensures r.Some? ==> |r.value.objectives| == |raw.objectives| && |r.value.rewards| == |raw.rewards|
  {
    var objectives := ObjectivesFrom(raw.objectives, |raw.objectives|);
    var rewards := RewardsFrom(raw.rewards, |raw.rewards|);
    if objectives.None? || rewards.None? then None
    else
      Some(Quest(id, raw.title.GetOr("Untitled Quest"), raw.japaneseTitle.GetOr(""),
                 raw.description.GetOr(""), raw.japaneseDescription.GetOr(""), NotStarted,
                 objectives.value, rewards.value, raw.prerequisites, raw.startLocation,
                 raw.completionLocation, raw.startDialogue, raw.completionDialogue,
                 raw.difficulty.GetOr(1), raw.jlptLevel, None, raw.hidden.GetOr(false)))
  }

  /** Whether a loose quest can be read; its id plays no part. */
  predicate QuestReadable(raw: RawQuest) {
    QuestFrom(raw, "").Some?
  }

  lemma QuestReadableAnyId(raw: RawQuest, id: string)
    ensures QuestFrom(raw, id).Some? <==> QuestReadable(raw)
  {
  }

  /** The quests block: quests are read in order and filed under their
      ids; the first one that cannot be read ends the block, keeping the
      quests read before it. */
  function AddQuests(qs: map<string, Quest>, raws: seq<RawQuest>): (r: map<string, Quest>)
    ensures qs.Keys <= r.Keys
    decreases |raws|
  {
    if |raws| == 0 then qs
    else
      var id := QuestId(raws[0], |qs|);
      match QuestFrom(raws[0], id)
      case None => qs
      case Some(q) => AddQuests(qs[id := q], raws[1..])
  }

  /** Everything from a quest that cannot be read on is dropped. */
  lemma {:induction false} QuestsDroppedFromError(qs: map<string, Quest>, raws: seq<RawQuest>, i: int)
    requires 0 <= i < |raws| && !QuestReadable(raws[i])
    ensures AddQuests(qs, raws) == AddQuests(qs, raws[..i])
    decreases i
  {
    QuestReadableAnyId(raws[0], QuestId(raws[0], |qs|));
    if i > 0 && QuestReadable(raws[0]) {
      var id := QuestId(raws[0], |qs|);
      var q := QuestFrom(raws[0], id).value;
      QuestsDroppedFromError(qs[id := q], raws[1..], i - 1);
      assert raws[..i][1..] == raws[1..][..i - 1];
    }
  }

  /** A quest with an id of its own that comes before every quest that
      cannot be read is kept. */
  lemma {:induction false} QuestsKeptBeforeError(qs: map<string, Quest>, raws: seq<RawQuest>, i: int)
    requires 0 <= i < |raws| && raws[i].id.Some?
    requires forall j :: 0 <= j <= i ==> QuestReadable(raws[j])
    ensures raws[i].id.value in AddQuests(qs, raws)
    decreases i
  {
    var id := QuestId(raws[0], |qs|);
    var q := AddQuestsStep(qs, raws);
    var rest := raws[1..];
    if i > 0 {
      assert forall j :: 0 <= j <= i - 1 ==> rest[j] == raws[j + 1];
      QuestsKeptBeforeError(qs[id := q], rest, i - 1);
    } else {
      assert id in qs[id := q];
    }
  }

  /** A readable first quest is filed under its id before the rest are
      read. */
  lemma AddQuestsStep(qs: map<string, Quest>, raws: seq<RawQuest>) returns (q: Quest)
    requires |raws| > 0 && QuestReadable(raws[0])
    ensures var id := QuestId(raws[0], |qs|);
            QuestFrom(raws[0], id) == Some(q)
            && AddQuests(qs, raws) == AddQuests(qs[id := q], raws[1..])
  {
    var id := QuestId(raws[0], |qs|);
    QuestReadableAnyId(raws[0], id);
    q := QuestFrom(raws[0], id).value;
  }

  /** One quest of the block, its objectives and rewards read by loops. */
  method ReadQuest(raw: RawQuest, id: string) returns (r: Option<Quest>)
    ensures r == QuestFrom(raw, id)
  {
    var objectives: seq<QuestObjective> := [];
    for i := 0 to |raw.objectives|
      invariant ObjectivesFrom(raw.objectives, i) == Some(objectives)
    {
      var o := ObjectiveFrom(raw.objectives[i], |objectives|);
      if o.None? {
        ObjectivesStopped(raw.objectives, i + 1, |raw.objectives|);
        return None;
      }
      objectives := objectives + [o.value];
    }
    var rewards: seq<QuestReward> := [];
    for i := 0 to |raw.rewards|
      invariant RewardsFrom(raw.rewards, i) == Some(rewards)
    {
      var w := RewardFrom(raw.rewards[i]);
      if w.None? {
        RewardsStopped(raw.rewards, i + 1, |raw.rewards|);
        return None;
      }
      rewards := rewards + [w.value];
    }
    r := Some(Quest(id, raw.title.GetOr("Untitled Quest"), raw.japaneseTitle.GetOr(""),
                    raw.description.GetOr(""), raw.japaneseDescription.GetOr(""), NotStarted,
                    objectives, rewards, raw.prerequisites, raw.startLocation,
                    raw.completionLocation, raw.startDialogue, raw.completionDialogue,
                    raw.difficulty.GetOr(1), raw.jlptLevel, None, raw.hidden.GetOr(false)));
  }

  lemma {:induction false} ObjectivesStopped(raws: seq<RawObjective>, m: int, n: int)
    requires 0 < m <= n <= |raws| && ObjectivesFrom(raws, m).None?
    ensures ObjectivesFrom(raws, n).None?
  {
    if n > m {
      ObjectivesStopped(raws, m, n - 1);
    }
  }

  lemma {:induction false} RewardsStopped(raws: seq<RawReward>, m: int, n: int)
    requires 0 < m <= n <= |raws| && RewardsFrom(raws, m).None?
    ensures RewardsFrom(raws, n).None?
  {
    if n > m {
      RewardsStopped(raws, m, n - 1);
    }
  }

  /** The quests block: the loop ends at the first quest that raises. */
  method ReadQuests(raws: seq<RawQuest>) returns (r: map<string, Quest>)
    ensures r == AddQuests(map[], raws)
  {
    r := map[];
    var i := 0;
    while i < |raws|
      invariant 0 <= i <= |raws|
      invariant AddQuests(r, raws[i..]) == AddQuests(map[], raws)
    {
      var id := QuestId(raws[i], |r|);
      var q := ReadQuest(raws[i], id);
      if q.None? {
        break;
      }
      assert raws[i..][1..] == raws[i + 1..];
      r := r[id := q.value];
      i := i + 1;
    }
  }

  // ---------------------------------------------------------------------
  // The whole initializer

  /** Every item type string names an item type. */
  predicate ItemTypesOk(raws: seq<RawItem>) {
    forall i :: 0 <= i < |raws| ==> raws[i].itemType.Some? ==> ParseItemType(raws[i].itemType.value).Some?
  }

  /** The world as built before the validator runs: locations, a start if
      none, characters, items, vocabulary and quests; an error when an item
      type is refused. */
  function PreWorld(data: RawWorld): Result<World, InitError> {
    var locs := WithInitStart(AddLocations(data.locations, |data.locations|));
    var placed := AddItems(AddCharacters(World(locs, map[], map[], map[], map[]), data.characters, |data.characters|),
                           data.items, |data.items|);
    match placed
    case Err(e) => Err(e)
    case Ok(w) =>
      Ok(w.(vocabulary := AddVocabulary(map[], data.vocabulary, |data.vocabulary|),
            quests := AddQuests(map[], data.quests)))
  }

  /** The world builder fails exactly on a refused item type. */
  lemma PreWorldFails(data: RawWorld)
    ensures PreWorld(data).Ok? <==> ItemTypesOk(data.items)
    ensures PreWorld(data).Err? ==> PreWorld(data).error.InvalidItemType?
  {
  }

  /** Otherwise it gives well-formed tables holding every location read,
      the vocabulary and the quests. */
  lemma PreWorldBuilt(data: RawWorld)
    requires PreWorld(data).Ok?
    ensures var w := PreWorld(data).value;
            w.Valid() && "start" in w.locations.vals
            && AddLocations(data.locations, |data.locations|).keys <= w.locations.keys
            && w.vocabulary == AddVocabulary(map[], data.vocabulary, |data.vocabulary|)
            && w.quests == AddQuests(map[], data.quests)
  {
    var locs := WithInitStart(AddLocations(data.locations, |data.locations|));
    var w0 := World(locs, map[], map[], map[], map[]);
    var placed := AddItems(AddCharacters(w0, data.characters, |data.characters|), data.items, |data.items|).value;
    assert PreWorld(data).value
        == placed.(vocabulary := AddVocabulary(map[], data.vocabulary, |data.vocabulary|),
                   quests := AddQuests(map[], data.quests));
    PlacementKeepsValid(w0, data.characters, data.items);
  }

  /** The building half of `init_game_state`, loop by loop. */
  method BuildWorld(data: RawWorld) returns (r: Result<World, InitError>)
    ensures r == PreWorld(data)
  {
    var locs := BuildLocations(data.locations);
    locs := WithInitStart(locs);
    var w := World(locs, map[], map[], map[], map[]);
    w := PlaceCharacters(w, data.characters);
    var placed := PlaceItems(w, data.items);
    if placed.Err? {
      return Err(placed.error);
    }
    var vocab := ReadVocabulary(data.vocabulary);
    var quests := ReadQuests(data.quests);
    r := Ok(placed.value.(vocabulary := vocab, quests := quests));
  }

  /** `init_game_state`: the world as built, then the validator and a
      player at `start` with nothing carried, nothing visited and an empty
      quest log. It raises when an item type is refused or, in the
      validator, when a connection target names no location. */
  method InitGameState(data: RawWorld, playerTime: string, creationTime: string) returns (r: Result<GameState, InitError>)
    ensures r.Ok? <==> ItemTypesOk(data.items) && AllConnectionsOk(data.locations)
    ensures r.Err? && !ItemTypesOk(data.items) ==> r.error.InvalidItemType?
    ensures r.Ok? ==> fresh(r.value)
    ensures r.Ok? ==>
              var g := r.value;
              g.Valid() && g.player == NewPlayer("start", playerTime)
              && g.visitedLocations == {} && g.flags == map[] && g.questLog == NewQuestLog()
              && g.activeGrammarChallenge == None
              && g.version == "0.1.0" && g.creationTime == creationTime
    ensures r.Ok? ==>
              var w := r.value.world;
              WorldValidator.Sound(w.locations) && "start" in w.locations.vals
              && WorldValidator.AllHaveExits(w.locations)
              && WorldValidator.ContentsIn(w.locations, w.items.Keys, w.characters.Keys)
              && AddLocations(data.locations, |data.locations|).keys <= w.locations.keys
              && w.vocabulary == AddVocabulary(map[], data.vocabulary, |data.vocabulary|)
              && w.quests == AddQuests(map[], data.quests)
  {
    var built := BuildWorld(data);
    PreWorldFails(data);
    if built.Err? {
      return Err(built.error);
    }
    PreWorldBuilt(data);
    if !AllConnectionsOk(data.locations) {
      return Err(ConnectionWithoutTarget);
    }
    var w, closed, wired := WorldValidator.ValidateWorld(built.value);
    var g := new GameState(w, NewPlayer("start", playerTime), "0.1.0", creationTime);
    r := Ok(g);
  }
}
