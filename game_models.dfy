/** The world and player records of the adventure and the mutable game
    state that the engine and the quest handler update in place. */
module GameModels {

  import opened Wrappers
  import Dicts
  import opened QuestModels

  /** The eight compass and vertical directions. Connections are keyed by
      their string values. */
  datatype Direction = North | South | East | West | Up | Down | In | Out
  {
    function Value(): string {
      match this
      case North => "north"
      case South => "south"
      case East => "east"
      case West => "west"
      case Up => "up"
      case Down => "down"
      case In => "in"
      case Out => "out"
    }
  }

  const AllDirections: seq<Direction> := [North, South, East, West, Up, Down, In, Out]

  function ParseDirection(s: string): (r: Option<Direction>)
    ensures r.Some? ==> r.value.Value() == s
    ensures r.None? ==> forall d: Direction :: d.Value() != s
  {
    if s == "north" then Some(North)
    else if s == "south" then Some(South)
    else if s == "east" then Some(East)
    else if s == "west" then Some(West)
    else if s == "up" then Some(Up)
    else if s == "down" then Some(Down)
    else if s == "in" then Some(In)
    else if s == "out" then Some(Out)
    else None
  }

  /** Direction is a closed enumeration of eight distinct strings. */
  lemma DirectionRoundTrip(d: Direction)
    ensures ParseDirection(d.Value()) == Some(d)
    ensures d in AllDirections && |AllDirections| == 8
    ensures forall e: Direction :: e.Value() == d.Value() ==> e == d
  {
  }

  /** The kinds of item. */
  datatype ItemType = General | Key | Weapon | Armor | Food | Scroll | Book | QuestItem
  {
    function Value(): string {
      match this
      case General => "general"
      case Key => "key"
      case Weapon => "weapon"
      case Armor => "armor"
      case Food => "food"
      case Scroll => "scroll"
      case Book => "book"
      case QuestItem => "quest"
    }
  }

  const AllItemTypes: seq<ItemType> := [General, Key, Weapon, Armor, Food, Scroll, Book, QuestItem]

  function ParseItemType(s: string): (r: Option<ItemType>)
    ensures r.Some? ==> r.value.Value() == s
    ensures r.None? ==> forall t: ItemType :: t.Value() != s
  {
    if s == "general" then Some(General)
    else if s == "key" then Some(Key)
    else if s == "weapon" then Some(Weapon)
    else if s == "armor" then Some(Armor)
    else if s == "food" then Some(Food)
    else if s == "scroll" then Some(Scroll)
    else if s == "book" then Some(Book)
    else if s == "quest" then Some(QuestItem)
    else None
  }

  /** ItemType is a closed enumeration of eight distinct strings. */
  lemma ItemTypeRoundTrip(t: ItemType)
    ensures ParseItemType(t.Value()) == Some(t)
    ensures t in AllItemTypes && |AllItemTypes| == 8
    ensures forall u: ItemType :: u.Value() == t.Value() ==> u == t
  {
  }

  datatype Item = Item(
    id: string,
    name: string,
    japaneseName: string,
    description: string,
    japaneseDescription: string,
    itemType: ItemType,
    properties: Dicts.StrDict,
    vocabulary: seq<Dicts.StrDict>,
    canBeTaken: bool,
    hidden: bool,
    relatedQuestId: Option<string>)

  /** A new item: general, takeable, visible, tied to no quest. */
  function NewItem(id: string, name: string, description: string): Item {
    Item(id, name, "", description, "", General, map[], [], true, false, None)
  }

  /** A non-player character. `dialogues` maps a topic to a line
      (`response`, `japanese_response`); `questDialogues` maps a quest id and
      a quest-state value to such a line. */
  datatype Character = Character(
    id: string,
    name: string,
    japaneseName: string,
    description: string,
    japaneseDescription: string,
    dialogues: Dicts.Dict<string, Dicts.StrDict>,
    vocabulary: seq<Dicts.StrDict>,
    items: seq<string>,
    questIds: seq<string>,
    questDialogues: map<string, map<string, Dicts.StrDict>>)

  /** A place. `connections` maps a direction string to a location id. */
  datatype Location = Location(
    id: string,
    name: string,
    japaneseName: string,
    description: string,
    japaneseDescription: string,
    connections: Dicts.Dict<string, string>,
    characters: seq<string>,
    items: seq<string>,
    vocabulary: seq<Dicts.StrDict>,
    visited: bool,
    requiresKey: Option<string>,
    questTriggers: seq<string>,
    hidden: bool)

  /** A new location: no exits, nobody and nothing in it, not visited,
      open and visible. */
  function NewLocation(id: string, name: string, japaneseName: string,
                       description: string, japaneseDescription: string): Location
  {
    Location(id, name, japaneseName, description, japaneseDescription, Dicts.Empty(),
             [], [], [], false, None, [], false)
  }

  datatype VocabularyEntry = VocabularyEntry(
    japanese: string,
    english: string,
    reading: Option<string>,
    partOfSpeech: Option<string>,
    exampleSentence: Option<string>,
    notes: Option<string>,
    jlptLevel: Option<int>,
    masteryLevel: int,
    reviewCount: int)

  datatype LearnedVocabulary = LearnedVocabulary(
    vocabularyId: string,
    firstLocation: Option<string>,
    firstTime: Option<string>,
    masteryLevel: int,
    lastReviewTime: Option<string>,
    nextReviewTime: Option<string>,
    reviewCount: int,
    context: Option<string>)

  /** The visited-location record in the player's statistics: a set, or a
      list that grows only by ids it does not yet hold. */
  datatype VisitedLog = VisitedSet(ids: set<string>) | VisitedList(order: seq<string>)
  {
    function Contents(): set<string> {
      match this
      case VisitedSet(s) => s
      case VisitedList(o) => set x | x in o
    }

    /** Recording a visit: a list appends the id only when absent, a set
        adds it. */
    function Record(id: string): (r: VisitedLog)
      ensures r.Contents() == Contents() + {id}
      ensures r.VisitedSet? == VisitedSet?
      ensures VisitedList? ==> Dicts.Distinct(order) ==> Dicts.Distinct(r.order)
    {
      match this
      case VisitedSet(s) => VisitedSet(s + {id})
      case VisitedList(o) => if id in o then this else VisitedList(o + [id])
    }
  }

  datatype PlayerStats = PlayerStats(
    moves: int,
    itemsCollected: int,
    locationsVisited: VisitedLog,
    vocabularyLearned: int,
    grammarPointsMastered: int,
    questsCompleted: int)

  /** Fresh statistics: every counter zero, no location visited. */
  const NewStats := PlayerStats(0, 0, VisitedSet({}), 0, 0, 0)

  /** The player. `grammarPoints` is the `grammar_points` list of the
      player's knowledge. */
  datatype Player = Player(
    currentLocation: string,
    inventory: seq<string>,
    learnedVocabulary: map<string, LearnedVocabulary>,
    grammarPoints: seq<GrammarPoint>,
    stats: PlayerStats,
    jlptLevel: int,
    lastCommand: string,
    lastCommandTime: string)

  /** A player standing at `location` with nothing learnt, an empty
      inventory, level five and fresh statistics. */
  function NewPlayer(location: string, now: string): Player {
    Player(location, [], map[], [], NewStats, 5, "", now)
  }

  /** The world: locations in insertion order, and the characters, items,
      vocabulary and quest definitions by id. */
  datatype World = World(
    locations: Dicts.Dict<string, Location>,
    characters: map<string, Character>,
    items: map<string, Item>,
    vocabulary: map<string, VocabularyEntry>,
    quests: map<string, Quest>)
  {
    ghost predicate Valid() {
      LocationsValid(locations)
    }
  }

  /** The location table and every location's connection table are
      well-formed ordered dictionaries. */
  ghost predicate LocationsValid(locs: Dicts.Dict<string, Location>) {
    locs.Valid() && forall k :: k in locs.vals ==> locs.vals[k].connections.Valid()
  }

  /** An empty world. */
  function NewWorld(): (w: World)
    ensures w.Valid()
  {
    World(Dicts.Empty(), map[], map[], map[], map[])
  }

  /** The challenge the player has started and not yet answered correctly. */
  datatype GrammarChallengeRef = GrammarChallengeRef(questId: string, objectiveId: string, targetId: string)

  /** The whole state of one game, updated in place by every command. */
  class GameState {
    var world: World
    var player: Player
    var visitedLocations: set<string>
    var flags: map<string, bool>
    var version: string
    var creationTime: string
    var questLog: QuestLog
    var activeGrammarChallenge: Option<GrammarChallengeRef>

    ghost predicate Valid()
      reads this
    {
      world.Valid() && questLog.Valid()
    }

    /** A state over `world` with `player`: nothing visited, no flags, an
        empty quest log and no pending grammar challenge. */
    constructor (world: World, player: Player, version: string, creationTime: string)
      requires world.Valid()
      ensures Valid()
      ensures this.world == world && this.player == player
      ensures visitedLocations == {} && flags == map[]
      ensures this.version == version && this.creationTime == creationTime
      ensures questLog == NewQuestLog() && activeGrammarChallenge == None
    {
      this.world := world;
      this.player := player;
      visitedLocations := {};
      flags := map[];
      this.version := version;
      this.creationTime := creationTime;
      questLog := NewQuestLog();
      activeGrammarChallenge := None;
    }
  }
}
