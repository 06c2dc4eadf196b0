# A verified model of the Japanese-learning text adventure and its helpers

This project models, in Dafny, the core of a Japanese-language learning
repository. The centre is **jp-mud**, a text adventure whose world is
generated by a language model. The model covers:

- **The records of the game**: directions, item types, items, characters,
  locations, the player, the world and the game state. It also covers the
  quest records: objective and reward types, quest states, quests and the
  quest log.
- **The game engine**:
  - repairing a generated world (`validate_world_structure`);
  - building the game state from generated data (`init_game_state`);
  - routing a typed command (`process_command`) to its handler: look, take,
    drop, inventory, use, talk, help, quests and grammar;
  - moving between locations and describing them;
  - learning vocabulary;
  - starting and answering grammar challenges;
  - repairing a missing location.
- **The quest handler**: starting quests whose triggers fire, advancing
  objectives, completing quests and granting their rewards, and the quest
  overview.
- **Salvaging the language model's JSON** (`clean_json_string`,
  `extreme_json_clean`). This includes the template content that
  `add_template_content` adds to a generated world: a start location, the
  areas around it, and the quests and dialogue of the elder and the priest.
- **The song-vocabulary helper** `fix_vocabulary_format`.
- **The listening-practice backend**: the parsers of generated questions,
  padding of the options, the fallback question, the query of each practice
  type, and the section of each practice type.
- **The listening-practice page**: counting Japanese characters, the
  ten-question history, and reading the chosen answer back from its label.
- **The language portal's vocabulary clean-up**: the Go code that repairs
  the JSON array a language model returns.

Where the code updates an object in place, the object is a Dafny `class`:
- `GameModels.GameState`, whose methods carry a `modifies` clause;
- `PracticeUi.History`.

Each such method is proved against a function on a snapshot of the state.
The properties are proved about those functions:
- the invariants every command keeps (`EngineState.Evolves`, `Good`);
- what each command changes and what it leaves alone;
- that no item is created or lost by taking, dropping or using;
- round trips of every enumeration;
- that the quest log stays well formed.

Loops of the source are `while` loops with invariants, proved against the
same functions.

Where the source does something its authors evidently did not intend (see
"## Findings"), the methods on the game state compute the source as
written, and a corrected function stands beside it. `Dispatch.ProcessCommand`
takes a `Version`: `AsWritten` routes by the `startswith` scan of the
direction words and runs the grammar command that raises `NameError`;
`Intended` routes by the first word and runs the corrected grammar command.
`TemplateContent.AddTemplateAsWritten` and `AddTemplate` are the two
versions of `add_template_content`.

Regular expressions, `json.loads` and `json.dumps`, the language model,
the clock and random choices are parameters of the operations that use
them.

## Model

| member | source | states |
|---|---|---|
| `GameModels.ParseDirection` | jp-mud/backend/app/models/game.py:7-16 | reading a string as a direction yields a direction whose value is that string, and fails only when no direction has it |
| `GameModels.DirectionRoundTrip` | jp-mud/backend/app/models/game.py:7-16 | the eight directions have eight distinct values, and each reads back as itself |
| `GameModels.ParseItemType` | jp-mud/backend/app/models/game.py:18-27 | reading a string as an item type yields a type with that value, and fails only when no type has it |
| `GameModels.ItemTypeRoundTrip` | jp-mud/backend/app/models/game.py:18-27 | the eight item types have distinct values, and each reads back as itself |
| `GameModels.VisitedLog.Record` | jp-mud/backend/app/services/game_engine.py:636-641 | recording a visit adds exactly that id to the visited locations, whether the record is a set or a list, and a list stays free of repeats |
| `GameModels.NewWorld` | jp-mud/backend/app/models/game.py:120-125 | an empty world is well formed |
| `GameModels.GameState.constructor` | jp-mud/backend/app/models/game.py:128-135 | a new game state holds the world and player given, with nothing visited, no flags, an empty quest log and no grammar challenge |
| `QuestModels.ParseObjectiveType` | jp-mud/backend/app/models/quest.py:6-13 | a string reads as an objective type exactly when it is one of the seven values, and that type has that value |
| `QuestModels.ObjectiveTypeRoundTrip` | jp-mud/backend/app/models/quest.py:6-13 | the seven objective types have distinct values, and each reads back as itself |
| `QuestModels.ParseRewardType` | jp-mud/backend/app/models/quest.py:16-21 | a string reads as a reward type exactly when it is one of the five values |
| `QuestModels.RewardTypeRoundTrip` | jp-mud/backend/app/models/quest.py:16-21 | the five reward types have distinct values, and each reads back as itself |
| `QuestModels.ParseQuestState` | jp-mud/backend/app/models/quest.py:49-53 | a string reads as a quest state exactly when it is one of the four values |
| `QuestModels.QuestStateRoundTrip` | jp-mud/backend/app/models/quest.py:49-53 | the four quest states have distinct values, and each reads back as itself |
| `QuestModels.NewQuestLog` | jp-mud/backend/app/models/quest.py:76-80 | a new quest log, with its four buckets empty, is well formed |
| `EngineState.Fallback` | jp-mud/backend/app/services/game_engine.py:48-83 | a fallback location has the requested id, no exits, items, characters or vocabulary, is neither visited nor hidden nor locked, and is called "Starting Point" exactly for "start" |
| `EngineState.EnsureLocation` | jp-mud/backend/app/services/game_engine.py:85-99 | afterwards the id names a location; a present location leaves the state alone; player, quests and challenge never change |
| `EngineState.EnsureLocationRepairs` | jp-mud/backend/app/services/game_engine.py:85-99 | a missing location is appended to the location table as the fallback; it counts as visited exactly when the player stands there, and nothing else in the world changes |
| `EngineState.EnsureLocationEvolves` | jp-mud/backend/app/services/game_engine.py:85-99 | repairing a location keeps the invariant every command keeps (the world and the player's records only grow) |
| `EngineState.EnsureValidLocation` | jp-mud/backend/app/services/game_engine.py:85-99 | on the game state, `ensure_valid_location` does what `EnsureLocation` says and leaves the flags, version and creation time alone |
| `EngineState.Triggers` | jp-mud/backend/app/services/quest_handler.py:21-113 | checking quest triggers changes only the quest log and the world's quests |
| `EngineState.TriggersEvolve` | jp-mud/backend/app/services/quest_handler.py:21-113 | triggers keep the completed quests and the evolving invariant |
| `EngineState.Progresses` | jp-mud/backend/app/services/quest_handler.py:114-261 | quest progress changes neither the visited locations nor the grammar challenge |
| `EngineState.ProgressesEvolve` | jp-mud/backend/app/services/quest_handler.py:114-261 | quest progress keeps the player in place, keeps the location order and the vocabulary, only adds reward items to the inventory and only unhides locations |
| `EngineState.RunTriggers` | jp-mud/backend/app/services/quest_handler.py:21-113 | `check_quest_triggers` on the game state returns the messages and the new state `Triggers` gives |
| `EngineState.RunProgress` | jp-mud/backend/app/services/quest_handler.py:114-261 | `update_quest_progress` on the game state returns the messages and the new state `Progresses` gives |
| `EngineState.WithMessages` | jp-mud/backend/app/services/game_engine.py:664-669 | a reply with no quest messages is unchanged; otherwise it is followed by a blank line |
| `EngineState.WithMessagesStarts` | jp-mud/backend/app/services/game_engine.py:664-669 | a reply with quest messages still opens with the reply |
| `EngineState.WithJapanese` | jp-mud/backend/app/services/game_engine.py:684 | a name shown with its Japanese form opens with the name, and is the bare name exactly when there is no Japanese form |
| `EngineState.FirstMatch` | jp-mud/backend/app/services/game_engine.py:808-810 | the first position whose id is accepted, with no earlier accepted id, or none when no id is accepted |
| `EngineState.Find` | jp-mud/backend/app/services/game_engine.py:808-810 | the `for` loop that stops at the first accepted id finds what `FirstMatch` says |
| `EngineState.RemoveFirst` | jp-mud/backend/app/services/game_engine.py:815 | `list.remove` drops exactly one occurrence of the item: one element fewer, and the multiset loses exactly that item |
| `EngineState.RemoveFirstAt` | jp-mud/backend/app/services/game_engine.py:815 | `list.remove` cuts the first occurrence out and keeps the order of the rest |
| `Dispatch.Record` | jp-mud/backend/app/services/game_engine.py:552-558 | every non-empty command counts one move and is remembered with its time |
| `Dispatch.NormalizeBlank` | jp-mud/backend/app/services/game_engine.py:550 | a command normalises to nothing exactly when it is all whitespace; otherwise the normalised command opens with a non-space |
| `Dispatch.FirstWordOf` | jp-mud/backend/app/services/game_engine.py:566-570 | a normalised command that is not empty has a first word, and its object is what follows that word |
| `Dispatch.PrefixFromSound` | jp-mud/backend/app/services/game_engine.py:14-31 | the prefix scan of the direction table finds a direction word the command starts with, and finds none only when there is none |
| `Dispatch.WordFromSound` | jp-mud/backend/app/services/game_engine.py:14-31 | looking a word up in the direction table finds its direction, and finds none only when the word is not in the table |
| `Dispatch.VerbFromSound` | jp-mud/backend/app/services/game_engine.py:34-44 | looking a word up in the command table finds a command whose synonyms list it, and finds none only when none does |
| `Dispatch.RouteNoWord` | jp-mud/backend/app/services/game_engine.py:560-566 | in both versions of the routing, a command has no first word exactly when it is all whitespace; as written, a direction found by the prefix scan implies a first word |
| `Dispatch.PrefixNotBlank` | jp-mud/backend/app/services/game_engine.py:561-563 | a command in which the prefix scan finds a direction word opens with a non-space |
| `Dispatch.HandleSteps` | jp-mud/backend/app/services/game_engine.py:572-590 | every command handler, as written or corrected, keeps the dispatcher's bookkeeping and the evolving invariant |
| `Dispatch.HandleItemSteps` | jp-mud/backend/app/services/game_engine.py:572-582 | look, take, drop, inventory and use keep the invariant |
| `Dispatch.HandleTalkSteps` | jp-mud/backend/app/services/game_engine.py:583-590 | talk, help, quests and grammar keep the invariant; as written, grammar changes nothing |
| `Dispatch.TalkSteps` | jp-mud/backend/app/services/game_engine.py:973-1036 | talking, to someone or to nobody, keeps the invariant |
| `Dispatch.HandleRaises` | jp-mud/backend/app/services/game_engine.py:572-590 | of the handlers only `use` raises, AttributeError, and, as written, `grammar`, NameError; as written, `grammar` raises exactly when some active quest has an objective |
| `Dispatch.RespondSteps` | jp-mud/backend/app/services/game_engine.py:560-602 | whatever the route, as written or corrected, the reply keeps the invariant |
| `Dispatch.RespondRaises` | jp-mud/backend/app/services/game_engine.py:560-602 | IndexError is raised exactly when there is no first word; the only other exceptions are the AttributeError of `use` and, as written, the NameError of `grammar`, raised exactly when some active quest has an objective |
| `Dispatch.ProcessCommandSteps` | jp-mud/backend/app/services/game_engine.py:544-602 | for `process_command` as written (prefix routing, grammar as written) and as corrected: an empty command answers the prompt and changes nothing; any other counts one move and remembers the normalised command and its time; the state evolves |
| `Dispatch.ProcessCommandRaises` | jp-mud/backend/app/services/game_engine.py:544-602 | `process_command`, as written and as corrected, raises IndexError exactly for a non-empty all-whitespace command; any other exception is the AttributeError of `use` or, as written, the NameError of `grammar`, which a command routed to `grammar` raises exactly when some active quest has an objective |
| `Dispatch.GrammarCommandRaises` | jp-mud/backend/app/services/game_engine.py:1140-1150 | as written, the command "grammar" raises NameError once some active quest has an objective, where the corrected dispatcher answers |
| `Dispatch.RespondGrammar` | jp-mud/backend/app/services/game_engine.py:589-590 | a command routed to `grammar` runs the grammar command of its version |
| `Dispatch.NormalizeLowerWord` | jp-mud/backend/app/services/game_engine.py:550 | a word of lower-case letters is its own normal form |
| `Dispatch.GrammarRouted` | jp-mud/backend/app/services/game_engine.py:560-570 | "grammar" reaches the grammar command with no object, in both versions of the routing |
| `Dispatch.ShadowedVerbs` | jp-mud/backend/app/services/game_engine.py:561-563 | as written, the prefix test sends "use" up, "drop" down, "examine" east, "speak" south, and both "enter" and "exit" east |
| `Dispatch.AsWrittenMoves` | jp-mud/backend/app/services/game_engine.py:561-563 | as written, a command is a move exactly when it begins with one of n, s, e, w, u, d, or with "inside" or "outside" |
| `Dispatch.MovesStart` | jp-mud/backend/app/services/game_engine.py:561-563 | when the prefix scan finds a direction word, the command begins with one of those letters or words |
| `Dispatch.PrefixMoves` | jp-mud/backend/app/services/game_engine.py:561-563 | a command beginning with one of those letters or words always finds a direction word |
| `Dispatch.AsWrittenLetter` | jp-mud/backend/app/services/game_engine.py:14-20 | the one-letter direction words come first, so a command beginning with such a letter moves that way whatever follows |
| `Dispatch.VerbsRouted` | jp-mud/backend/app/services/game_engine.py:34-44 | corrected: routed by first word, "use", "drop", "examine" and "speak" reach their commands |
| `Dispatch.DirectionsRouted` | jp-mud/backend/app/services/game_engine.py:29-30 | corrected: routed by first word, "enter" moves in and "exit" moves out |
| `Dispatch.RouteOfVerb` | jp-mud/backend/app/services/game_engine.py:566-570 | corrected routing: a first word that names a command and no direction routes to that command, with the rest stripped as its object |
| `Dispatch.RouteOfDirection` | jp-mud/backend/app/services/game_engine.py:14-31 | corrected routing: a first word that is a direction word routes to a move that way |
| `Dispatch.RoutesAgree` | jp-mud/backend/app/services/game_engine.py:560-590 | where no direction word begins the command, the routing as written and the corrected first-word routing agree |
| `Dispatch.FindDirection` | jp-mud/backend/app/services/game_engine.py:561-563 | the loop over the direction table, testing whether the command starts with each word, finds what the prefix scan `PrefixFrom` says |
| `Dispatch.FindVerb` | jp-mud/backend/app/services/game_engine.py:567-568 | the loop over the command table finds what `VerbOf` says |
| `Dispatch.RouteCommand` | jp-mud/backend/app/services/game_engine.py:560-570 | routing a normalised command as written, direction prefixes first, then the first word against the commands, gives `RouteAsWritten` |
| `Dispatch.RunVerb` | jp-mud/backend/app/services/game_engine.py:572-590 | the handler of a command on the game state does what the as-written `Handle` says, grammar included, and keeps the metadata |
| `Dispatch.RespondOn` | jp-mud/backend/app/services/game_engine.py:560-602 | what follows the routing, on the game state, does what the as-written `Respond` says |
| `Dispatch.ProcessCommandOn` | jp-mud/backend/app/services/game_engine.py:544-602 | `process_command` on the game state does what the as-written `ProcessCommand` says and keeps the metadata |
| `Conversation.Listener` | jp-mud/backend/app/services/game_engine.py:982-985 | `talk` addresses a character present at the location whose name answers to the argument, and nobody only when no character present answers |
| `Conversation.QuestLineLast` | jp-mud/backend/app/services/game_engine.py:996-1005 | there is a quest line exactly when some quest of the character has a line for its state, and it is the line of the last such quest |
| `Conversation.DialogueFacts` | jp-mud/backend/app/services/game_engine.py:996-1021 | the answer is the quest line when there is one, otherwise the default line, which opens with the character's name and lists the other topics |
| `Conversation.TalkToNobody` | jp-mud/backend/app/services/game_engine.py:973-1035 | talking with no argument, with no current location or to nobody present changes nothing, and a missing location is reported |
| `Conversation.TalkQuests` | jp-mud/backend/app/services/game_engine.py:986-994 | talking to a character starts its available quests; no other quest starts, and the state evolves |
| `Conversation.TalkAnswer` | jp-mud/backend/app/services/game_engine.py:996-1033 | the answer opens with what the character says, chosen after the quests have heard of the talk |
| `Conversation.FindDialogue` | jp-mud/backend/app/services/game_engine.py:996-1005 | the scan in which every active quest with a line overwrites the answer yields `Dialogue` |
| `Conversation.TalkCommand` | jp-mud/backend/app/services/game_engine.py:973-1036 | `talk_command` on the game state does what `Talk` says and keeps the metadata |
| `LocationView.ExitLabelsEmpty` | jp-mud/backend/app/services/game_engine.py:690-704 | there is no exit label exactly when no direction leads to an existing, visible location |
| `LocationView.ItemLabelsEmpty` | jp-mud/backend/app/services/game_engine.py:708-719 | there is no item label exactly when no id names a visible item |
| `LocationView.CharacterLabelsEmpty` | jp-mud/backend/app/services/game_engine.py:724-736 | there is no character label exactly when no id names a known character |
| `LocationView.ExitsLine` | jp-mud/backend/app/services/game_engine.py:690-704 | the exits line is the no-exits sentence exactly when no direction leads to an existing, visible location |
| `LocationView.DescribeFacts` | jp-mud/backend/app/services/game_engine.py:672-744 | the description is the void message ("You are lost in a void. Something is terribly wrong.") exactly when the current location is missing; otherwise it opens with the location's name, then its description, then the exits line |
| `LocationView.BuildExits` | jp-mud/backend/app/services/game_engine.py:690-704 | the loop over the exits builds `ExitLabels` |
| `LocationView.BuildItemLabels` | jp-mud/backend/app/services/game_engine.py:708-719 | the loop over the items builds `ItemLabels` |
| `LocationView.BuildCharacterLabels` | jp-mud/backend/app/services/game_engine.py:724-736 | the loop over the characters builds `CharacterLabels` |
| `LocationView.GetLocationDescription` | jp-mud/backend/app/services/game_engine.py:672-744 | `get_location_description` on the game state gives `Describe` |
| `Movement.MoveArrives` | jp-mud/backend/app/services/game_engine.py:603-671 | the player ends up at the destination when there is one and stays put otherwise; the inventory only grows and the state evolves |
| `Movement.MoveRefused` | jp-mud/backend/app/services/game_engine.py:605-625 | a refused move leaves the player and the quests alone, and names the reason: no exit that way, a blocked path, or the key that is needed |
| `Movement.MoveDescribes` | jp-mud/backend/app/services/game_engine.py:627-670 | the answer to an allowed move opens with the description of where the player ends up |
| `Movement.ArriveSteps` | jp-mud/backend/app/services/game_engine.py:627-659 | arriving moves the player to the target; a first visit marks the location visited and records it in the statistics |
| `Movement.ArriveDescribes` | jp-mud/backend/app/services/game_engine.py:627-670 | arriving answers with the location's description first |
| `Movement.VisitSteps` | jp-mud/backend/app/services/game_engine.py:630-659 | after a first visit and the quest updates, the location is recorded as visited in all three places and the state evolves |
| `Movement.MovePlayer` | jp-mud/backend/app/services/game_engine.py:603-671 | `move_player` on the game state does what `Move` says and keeps the metadata |
| `Movement.ArriveAt` | jp-mud/backend/app/services/game_engine.py:627-670 | stepping into a location on the game state does what `Arrive` says |
| `Movement.VisitFirst` | jp-mud/backend/app/services/game_engine.py:630-659 | a first visit on the game state marks, records and tells the quests as `Visit`, `Triggers` and `Progresses` say |
| `Vocabulary.LearnWordKeeps` | jp-mud/backend/app/services/game_engine.py:1090-1133 | learning one word keeps every known entry and learned word, and changes only the player's learned words and counter |
| `Vocabulary.LearnWordNumbered` | jp-mud/backend/app/services/game_engine.py:1090-1133 | a word with Japanese gets the next numbered id, a new entry and a learned record from its source, and raises the counters by one; a word without Japanese changes nothing |
| `Vocabulary.NumberedAdd` | jp-mud/backend/app/services/game_engine.py:1099-1120 | the next numbered id is fresh, and filing an entry and a learned word under it keeps the ids numbered 0 to n |
| `Vocabulary.LearnWordGrown` | jp-mud/backend/app/services/game_engine.py:1090-1133 | with numbered ids, one word grows the entries, new words and counter by one exactly when it has Japanese, keeping every old entry and the rest of the player |
| `Vocabulary.LearnAllStep` | jp-mud/backend/app/services/game_engine.py:1090-1139 | one more turn of the word loop keeps the ids numbered and adds the next word's growth to that of the words before it |
| `Vocabulary.LearnAllNumbered` | jp-mud/backend/app/services/game_engine.py:1071-1139 | learning a list adds exactly one entry per word with Japanese, keeps the numbering and the old entries, and changes nothing else of the player |
| `Vocabulary.LearnAllRecords` | jp-mud/backend/app/services/game_engine.py:1090-1133 | every word with Japanese ends up as an entry and a learned word under the id it was given |
| `Vocabulary.LaterKeepsEntries` | jp-mud/backend/app/services/game_engine.py:1090-1133 | entries learned early are still there, unchanged, at the end |
| `Vocabulary.LearnAllStuck` | jp-mud/backend/app/services/game_engine.py:1099-1102 | once the next id is already learned, the id never moves on, so no later word is learned either |
| `Vocabulary.ProcessVocabularyFacts` | jp-mud/backend/app/services/game_engine.py:1071-1139 | `process_vocabulary` adds one entry and one learned word per word with Japanese and changes nothing else of the state |
| `Vocabulary.ProcessVocabularyText` | jp-mud/backend/app/services/game_engine.py:1071-1139 | the listing is empty exactly when no word has Japanese, and otherwise opens with the vocabulary heading |
| `Vocabulary.ProcessVocabularyEvolves` | jp-mud/backend/app/services/game_engine.py:1071-1139 | learning vocabulary keeps the evolving invariant |
| `Vocabulary.LearnVocabulary` | jp-mud/backend/app/services/game_engine.py:1071-1139 | `process_vocabulary` on the game state does what `ProcessVocabulary` says and keeps the metadata |
| `ItemCommands.LookAt` | jp-mud/backend/app/services/game_engine.py:755-786 | looking at a target finds nothing exactly when no item here, no carried item and no character here is named by it (by name or id) |
| `ItemCommands.LookFacts` | jp-mud/backend/app/services/game_engine.py:745-797 | looking with no current location answers the void and changes nothing; looking at a target changes nothing and answers its description or that it is not there; looking around answers the location's description first and learns the location's vocabulary |
| `ItemCommands.LocationItemsPut` | jp-mud/backend/app/services/game_engine.py:815 | replacing one location changes the items lying around by exactly the difference between its old and new item lists |
| `ItemCommands.LocationItemsSame` | jp-mud/backend/app/services/game_engine.py:85-99 | replacing a location by one holding the same items keeps the items lying around |
| `ItemCommands.LocationItemsAppend` | jp-mud/backend/app/services/game_engine.py:48-83 | adding an empty fallback location keeps the items lying around |
| `ItemCommands.LocationItemsUnhide` | jp-mud/backend/app/services/quest_handler.py:240-245 | unhiding locations keeps the items lying around |
| `ItemCommands.EnsureLocationAround` | jp-mud/backend/app/services/game_engine.py:85-99 | repairing a location creates no item |
| `ItemCommands.ProgressAround` | jp-mud/backend/app/services/quest_handler.py:114-261 | quest progress moves no item lying around and only appends rewards to the inventory |
| `ItemCommands.PickHoldings` | jp-mud/backend/app/services/game_engine.py:815-816 | picking an item up moves it from the location to the inventory: the items lying around lose exactly that item |
| `ItemCommands.TakeTarget` | jp-mud/backend/app/services/game_engine.py:808-811 | `take` only takes a known item that is visible and can be taken |
| `ItemCommands.TakeNothing` | jp-mud/backend/app/services/game_engine.py:799-812 | with nothing to take, taking at most repairs the current location: the player, the quests and the items stay as they were |
| `ItemCommands.TakeSomething` | jp-mud/backend/app/services/game_engine.py:808-850 | taking an item appends it to the inventory, takes exactly it from the items lying around and counts one more item collected; the state evolves |
| `ItemCommands.TakeAnswer` | jp-mud/backend/app/services/game_engine.py:842-850 | taking something answers with the item's name first |
| `ItemCommands.TakeQuestSteps` | jp-mud/backend/app/services/game_engine.py:824-839 | the quest updates after taking keep the items lying around and the counter of collected items, and only append rewards |
| `ItemCommands.DropTarget` | jp-mud/backend/app/services/game_engine.py:863-865 | `drop` drops the first carried item whose name contains the argument, and finds none only when no carried item matches |
| `ItemCommands.LeaveHoldings` | jp-mud/backend/app/services/game_engine.py:867-868 | leaving an item moves exactly that item from the inventory to the location |
| `ItemCommands.DropQuestsIdle` | jp-mud/backend/app/services/quest_handler.py:21-261 | no quest reacts to dropping: neither the triggers nor the progress change anything or say anything |
| `ItemCommands.DropNothing` | jp-mud/backend/app/services/game_engine.py:854-900 | with nothing to drop, dropping at most repairs the current location; with no argument it changes nothing |
| `ItemCommands.DropSomething` | jp-mud/backend/app/services/game_engine.py:863-898 | dropping answers with the item's name, removes its first occurrence from the inventory, adds it to the items lying around, keeps the quests, and neither creates nor loses an item |
| `ItemCommands.InventoryLinesList` | jp-mud/backend/app/services/game_engine.py:908-914 | every known carried item has its line |
| `ItemCommands.InventoryFacts` | jp-mud/backend/app/services/game_engine.py:902-916 | the inventory is reported empty exactly when nothing is carried, and otherwise lists every known carried item with its Japanese name |
| `ItemCommands.UnlockDir` | jp-mud/backend/app/services/game_engine.py:931-933 | a key opens an exit whose location requires that key |
| `ItemCommands.UseRaises` | jp-mud/backend/app/services/game_engine.py:928-931 | using raises AttributeError exactly when the item is a carried key and the current location is missing, and the state is then untouched |
| `ItemCommands.UnlockEvolves` | jp-mud/backend/app/services/game_engine.py:935 | opening a lock keeps the invariant, the items lying around and the player |
| `ItemCommands.EffectFacts` | jp-mud/backend/app/services/game_engine.py:951-969 | an effect changes the state only through quest progress, and only when the item has an effect |
| `ItemCommands.EffectAnswer` | jp-mud/backend/app/services/game_engine.py:951-969 | the answer tells the item's `use_effect`, and says the item has no use exactly when it has none |
| `ItemCommands.UseFacts` | jp-mud/backend/app/services/game_engine.py:918-971 | using never consumes the item nor moves any item lying around; the inventory only grows by rewards and the state evolves |
| `ItemCommands.UseUnlocksState` | jp-mud/backend/app/services/game_engine.py:928-949 | using a key on a locked exit leaves the location behind it needing no key, with the items where they were |
| `ItemCommands.UseUnlocksAnswer` | jp-mud/backend/app/services/game_engine.py:943-949 | opening a lock answers with the direction opened |
| `ItemCommands.LookCommand` | jp-mud/backend/app/services/game_engine.py:745-797 | `look_command` on the game state does what `Look` says |
| `ItemCommands.TakeCommand` | jp-mud/backend/app/services/game_engine.py:799-852 | `take_command` on the game state does what `Take` says |
| `ItemCommands.DropCommand` | jp-mud/backend/app/services/game_engine.py:854-900 | `drop_command` on the game state does what `Drop` says |
| `ItemCommands.InventoryCommand` | jp-mud/backend/app/services/game_engine.py:902-916 | `inventory_command` gives `Inventory` and changes nothing |
| `ItemCommands.ApplyEffect` | jp-mud/backend/app/services/game_engine.py:951-969 | the effect of an item on the game state does what `Effect` says |
| `ItemCommands.UseCommand` | jp-mud/backend/app/services/game_engine.py:918-971 | `use_command` on the game state does what `Use` says |
| `GrammarChallenges.FirstFor` | jp-mud/backend/app/services/game_engine.py:1168-1172 | the first challenge with the target, and none only when no challenge has it |
| `GrammarChallenges.PendingSound` | jp-mud/backend/app/services/game_engine.py:1147-1155 | only open grammar objectives of active quests are listed, each with its quest's key and title |
| `GrammarChallenges.PendingComplete` | jp-mud/backend/app/services/game_engine.py:1147-1155 | every open grammar objective of an active quest is listed |
| `GrammarChallenges.PendingPrefix` | jp-mud/backend/app/services/game_engine.py:1147-1155 | the challenges of earlier quests come first |
| `GrammarChallenges.FirstForPrefix` | jp-mud/backend/app/services/game_engine.py:1168-1185 | the first match in a list is the first match of any longer list it begins |
| `GrammarChallenges.EntriesMention` | jp-mud/backend/app/services/game_engine.py:1160-1163 | the numbered list holds the start instruction of every challenge |
| `GrammarChallenges.GrammarLists` | jp-mud/backend/app/services/game_engine.py:1143-1165 | with no id, nothing changes, the answer says there is none exactly when no challenge is open, and otherwise tells how to start each one |
| `GrammarChallenges.GrammarStarts` | jp-mud/backend/app/services/game_engine.py:1167-1187 | with an id, only the active challenge may change; a challenge starts exactly when some active quest has an open grammar objective with that target, and it records that quest and objective |
| `GrammarChallenges.GrammarAsWritten` | jp-mud/backend/app/services/game_engine.py:1140-1187 | as written, the command never changes the state |
| `GrammarChallenges.GrammarNameError` | jp-mud/backend/app/services/game_engine.py:1149-1150 | as written, any open grammar objective makes the command raise NameError; with no objective at all it agrees with the intended command |
| `GrammarChallenges.GrammarAnswerSteps` | jp-mud/backend/app/services/game_engine.py:1189-1214 | with no challenge the answer says so and changes nothing; otherwise the quests hear the answer, the challenge ends exactly when a message reports it completed, and the reply is the messages or the stock line |
| `GrammarChallenges.CollectChallenges` | jp-mud/backend/app/services/game_engine.py:1147-1155 | the nested loop gathers `Pending` |
| `GrammarChallenges.FindChallenge` | jp-mud/backend/app/services/game_engine.py:1168-1185 | the nested search finds the first match of `Pending` |
| `GrammarChallenges.PendingFound` | jp-mud/backend/app/services/game_engine.py:1168-1185 | a match among the first quests is the first match of all, so the search may stop there |
| `GrammarChallenges.NoObjectivesNoPending` | jp-mud/backend/app/services/game_engine.py:1147-1155 | active quests without objectives list no challenge |
| `GrammarChallenges.PendingNext` | jp-mud/backend/app/services/game_engine.py:1168-1172 | with no match among the first quests, the next match is the first one in the next quest |
| `GrammarChallenges.FindInQuest` | jp-mud/backend/app/services/game_engine.py:1169-1172 | the search in one quest finds its first open objective with the target |
| `GrammarChallenges.GrammarChallengeCommand` | jp-mud/backend/app/services/game_engine.py:1140-1187 | `grammar_challenge_command` on the game state, as intended, does what `Grammar` says |
| `GrammarChallenges.GrammarChallengeCommandAsWritten` | jp-mud/backend/app/services/game_engine.py:1140-1187 | `grammar_challenge_command` on the game state, as written, answers what `GrammarAsWritten` says: NameError once an active quest has an objective, and otherwise the no-challenge line or the not-found line |
| `GrammarChallenges.ProcessGrammarAnswer` | jp-mud/backend/app/services/game_engine.py:1189-1214 | `process_grammar_answer` on the game state does what `GrammarAnswer` says |
| `QuestHandler.NewQuestLogConsistent` | jp-mud/backend/app/models/quest.py:76-80 | an empty quest log is consistent with any quest definitions (each bucket holds the definitions' quests under their own ids, and no quest is both active and completed) |
| `QuestHandler.OfferOnVisit` | jp-mud/backend/app/services/quest_handler.py:36-57 | a visit makes available exactly the location's trigger ids that exist, are neither active nor completed, have their prerequisites completed and are not hidden; every other bucket stays |
| `QuestHandler.VisitOffers` | jp-mud/backend/app/services/quest_handler.py:36-57 | the visit rule, as `check_quest_triggers` applies it, makes exactly those quests available and changes nothing else |
| `QuestHandler.StartOne` | jp-mud/backend/app/services/quest_handler.py:65-74 | starting one quest keeps the log well formed and leaves the completed and failed buckets alone |
| `QuestHandler.StartOnTalk` | jp-mud/backend/app/services/quest_handler.py:62-86 | talking starts quests without touching the completed and failed buckets or the quest definitions' ids, keeping the log well formed |
| `QuestHandler.StartedIn` | jp-mud/backend/app/services/quest_handler.py:63-67 | a quest is started exactly when it is among the character's quest ids, defined, available and not active |
| `QuestHandler.StartOneFacts` | jp-mud/backend/app/services/quest_handler.py:65-74 | a quest that exists, is available and not active moves from available to active, in progress, in both its bucket and the definitions; otherwise nothing changes; no other quest changes |
| `QuestHandler.StartOnTalkBuckets` | jp-mud/backend/app/services/quest_handler.py:60-86 | talking moves exactly the started ids from the available bucket to the active one |
| `QuestHandler.StartOnTalkStarted` | jp-mud/backend/app/services/quest_handler.py:69-74 | a newly active quest is the world's definition set in progress |
| `QuestHandler.StartOnTalkUnchanged` | jp-mud/backend/app/services/quest_handler.py:60-86 | talking changes no other quest |
| `QuestHandler.StartedWasAvailable` | jp-mud/backend/app/services/quest_handler.py:65-67 | a started quest was available before the talk |
| `QuestHandler.TalkStarts` | jp-mud/backend/app/services/quest_handler.py:60-86 | a quest becomes active on a talk exactly when the character lists it and it exists, is available and is not already active |
| `QuestHandler.OfferOnCollect` | jp-mud/backend/app/services/quest_handler.py:89-110 | collecting an item changes only the available bucket, and keeps it well formed |
| `QuestHandler.CollectOffers` | jp-mud/backend/app/services/quest_handler.py:89-110 | collecting an item makes its related quest available exactly when it is offerable, hidden or not |
| `QuestHandler.VisitConsistent` | jp-mud/backend/app/services/quest_handler.py:36-57 | the visit rule keeps the log consistent |
| `QuestHandler.TalkConsistent` | jp-mud/backend/app/services/quest_handler.py:60-86 | the talk rule keeps the log consistent |
| `QuestHandler.CollectConsistent` | jp-mud/backend/app/services/quest_handler.py:89-110 | the collect rule keeps the log consistent |
| `QuestHandler.TriggerConsistent` | jp-mud/backend/app/services/quest_handler.py:21-112 | no trigger touches the completed or failed buckets, and every trigger keeps the log consistent |
| `QuestHandler.CheckPrerequisites` | jp-mud/backend/app/services/quest_handler.py:48-52 | the prerequisite loop, which stops at the first prerequisite not completed, answers whether all are completed |
| `QuestHandler.BuildStartMessage` | jp-mud/backend/app/services/quest_handler.py:77-84 | the start message built line by line is `StartMessage` |
| `QuestHandler.OfferVisitTriggers` | jp-mud/backend/app/services/quest_handler.py:36-57 | the visit rule on the game state changes the quest log and definitions as `OfferOnVisit` says |
| `QuestHandler.StartTalkQuests` | jp-mud/backend/app/services/quest_handler.py:60-86 | the talk rule on the game state changes the quest log and definitions as `StartOnTalk` says |
| `QuestHandler.CheckQuestTriggers` | jp-mud/backend/app/services/quest_handler.py:21-112 | `check_quest_triggers` on the game state changes only the quest log and the definitions, as `Trigger` says |
| `QuestHandler.AdvanceObjectiveRules` | jp-mud/backend/app/services/quest_handler.py:135-206 | an objective changes exactly when it is open, of the action's type and aimed at the entity, and for a grammar challenge the answer is non-empty and right; a collect objective completes when its progress reaches its count, the others at once |
| `QuestHandler.WrongAnswerOnlyHints` | jp-mud/backend/app/services/quest_handler.py:203-206 | a wrong non-empty answer to a pending grammar objective changes nothing and yields only the hint |
| `QuestHandler.AdvanceAllPointwise` | jp-mud/backend/app/services/quest_handler.py:135-206 | each objective is checked on its own |
| `QuestHandler.AdvanceAllUpdated` | jp-mud/backend/app/services/quest_handler.py:132-206 | a quest is updated exactly when one of its objectives changed |
| `QuestHandler.AdvanceAllUnchanged` | jp-mud/backend/app/services/quest_handler.py:132-206 | when no objective changed, the objectives are as they were and nothing is learnt |
| `QuestHandler.GrantOneFacts` | jp-mud/backend/app/services/quest_handler.py:230-252 | granting a reward appends it, changed at most in `claimed`; the inventory only gains known items and locations are only unhidden |
| `QuestHandler.GrantOneClaims` | jp-mud/backend/app/services/quest_handler.py:234-252 | an item reward is claimed exactly when its item exists, and is then appended to the inventory; an unlock reward is claimed exactly when its location exists, which is then visible; no other reward is claimed |
| `QuestHandler.GrantOneRewards` | jp-mud/backend/app/services/quest_handler.py:230-252 | granting a reward appends it to the granted list, equal to it once the `claimed` flags are cleared |
| `QuestHandler.GrantAllStep` | jp-mud/backend/app/services/quest_handler.py:228-252 | each pass of the reward loop appends the next reward, equal to it up to `claimed` |
| `QuestHandler.GrantAllRewards` | jp-mud/backend/app/services/quest_handler.py:228-252 | with the `claimed` flags cleared, the granted list is the old one followed by all the rewards in order: each reward is kept and changed at most in `claimed` |
| `QuestHandler.GrantAllEffects` | jp-mud/backend/app/services/quest_handler.py:228-252 | granting all rewards only gains known items and only unhides locations |
| `QuestHandler.CompleteActiveConsistent` | jp-mud/backend/app/services/quest_handler.py:217-221 | moving an active quest to the completed bucket and the definitions keeps the log consistent |
| `QuestHandler.ProgressQuestConsistent` | jp-mud/backend/app/services/quest_handler.py:131-254 | one quest's step keeps the log consistent and leaves the available and failed buckets alone |
| `QuestHandler.ProgressQuestKeeps` | jp-mud/backend/app/services/quest_handler.py:131-254 | one quest's step keeps it active or completes it and loses no completed quest |
| `QuestHandler.ProgressAllPending` | jp-mud/backend/app/services/quest_handler.py:131 | quests the loop over the snapshot has not reached are still active as they were |
| `QuestHandler.ProgressQuestOthers` | jp-mud/backend/app/services/quest_handler.py:131-254 | one quest's step leaves the other active quests as they were |
| `QuestHandler.ProgressQuestEffects` | jp-mud/backend/app/services/quest_handler.py:131-254 | one quest's step changes only the inventory, the grammar points and the completed counter of the player, only gains known items and only unhides locations |
| `QuestHandler.ProgressQuestCompletion` | jp-mud/backend/app/services/quest_handler.py:208-224 | a quest completes exactly when an objective changed and all are now completed; it then leaves the active bucket for the completed one and counts one more completed quest; otherwise it stays active with its objectives as checked |
| `QuestHandler.ProgressQuestUpdated` | jp-mud/backend/app/services/quest_handler.py:208-210 | the step reports a change exactly when an objective changed |
| `QuestHandler.ProgressAllConsistent` | jp-mud/backend/app/services/quest_handler.py:131-254 | over the snapshot of the active quests, the log stays consistent and each quest not yet reached is still active as it was |
| `QuestHandler.ProgressAllNoNewActive` | jp-mud/backend/app/services/quest_handler.py:131 | updating progress makes no quest active |
| `QuestHandler.ProgressAllReached` | jp-mud/backend/app/services/quest_handler.py:131-254 | every active quest ends up still active or completed |
| `QuestHandler.ProgressAllEffects` | jp-mud/backend/app/services/quest_handler.py:131-254 | over all active quests, the inventory only gains known items and locations are only unhidden |
| `QuestHandler.ProgressAllUpdated` | jp-mud/backend/app/services/quest_handler.py:128-210 | a change is reported exactly when some objective of some active quest changed |
| `QuestHandler.QuestProgressFacts` | jp-mud/backend/app/services/quest_handler.py:114-260 | `update_quest_progress` keeps the log consistent, only moves active quests to completed, counts each completion once, only gains known items, only unhides locations, and says nothing unless some quest changed |
| `QuestHandler.ProgressAllIdle` | jp-mud/backend/app/services/quest_handler.py:131-254 | when no quest changes, nothing changes |
| `QuestHandler.QuestProgressIdle` | jp-mud/backend/app/services/quest_handler.py:256-260 | when no active quest changes, `update_quest_progress` changes nothing and says nothing, hints included |
| `QuestHandler.DropChangesNoQuest` | jp-mud/backend/app/services/quest_handler.py:140-180 | no objective reacts to dropping an item |
| `QuestHandler.AdvanceObjectives` | jp-mud/backend/app/services/quest_handler.py:135-206 | the objective loop gives `AdvanceAll` |
| `QuestHandler.CheckAllCompleted` | jp-mud/backend/app/services/quest_handler.py:211-215 | the loop that stops at the first open objective answers whether all are completed |
| `QuestHandler.ListWords` | jp-mud/backend/app/services/quest_handler.py:247-252 | the vocabulary-boost loop lists the words as `WordLines` does |
| `QuestHandler.GrantRewards` | jp-mud/backend/app/services/quest_handler.py:228-252 | the reward loop grants the rewards as `GrantAll` does |
| `QuestHandler.FinishQuest` | jp-mud/backend/app/services/quest_handler.py:217-254 | a finished quest is completed, counted and rewarded in place, as `Finish` says |
| `QuestHandler.AdvanceQuest` | jp-mud/backend/app/services/quest_handler.py:131-254 | one active quest is updated in place as `ProgressQuest` says |
| `QuestHandler.UpdateQuestProgress` | jp-mud/backend/app/services/quest_handler.py:114-260 | `update_quest_progress` on the game state does what `QuestProgress` says and changes nothing else |
| `QuestHandler.DoneCountBounds` | jp-mud/backend/app/services/quest_handler.py:299-300 | the completed count is at most the number of objectives, and equals it exactly when every objective is completed |
| `QuestHandler.QuestInfoCases` | jp-mud/backend/app/services/quest_handler.py:262-312 | a named active quest gets its details, an unknown one the not-found line; without a name, the no-quests line exactly when nothing is active, otherwise the overview opening with the active quests and ending with the number of completed quests |
| `QuestHandler.ChecklistLineTick` | jp-mud/backend/app/services/quest_handler.py:283 | a checklist line shows a tick exactly for a completed objective |
| `QuestHandler.BuildChecklist` | jp-mud/backend/app/services/quest_handler.py:282-287 | the checklist loop gives `Checklist` |
| `QuestHandler.CountDone` | jp-mud/backend/app/services/quest_handler.py:299 | counting the completed objectives gives `DoneCount`, at most the number of objectives |
| `QuestHandler.GetQuestInfo` | jp-mud/backend/app/services/quest_handler.py:262-312 | `get_quest_info` gives `QuestInfo` |
| `WorldValidator.OppositeInvolution` | jp-mud/backend/app/services/game_engine.py:530-543 | the opposite of a direction is a different direction whose opposite is the first; any other string goes to "south" |
| `WorldValidator.SetSlot` | jp-mud/backend/app/services/game_engine.py:207-213 | writing a connection slot keeps the location table's keys and order |
| `WorldValidator.SetSlotReads` | jp-mud/backend/app/services/game_engine.py:207-213 | after the write the slot holds the value and every other slot reads as before |
| `WorldValidator.SetSlotKeeps` | jp-mud/backend/app/services/game_engine.py:207-213 | a write changes one connection table, drops no exit, and keeps the table closed when it names an existing location |
| `WorldValidator.SetSlotSame` | jp-mud/backend/app/services/game_engine.py:204-213 | writing into a slot the value it already holds changes nothing |
| `WorldValidator.FixIdentity` | jp-mud/backend/app/services/game_engine.py:127-137 | a location filed under a key gets that key as its id and a name if it had none; nothing else changes |
| `WorldValidator.FixIdentities` | jp-mud/backend/app/services/game_engine.py:117-149 | step 1 fixes every location of the table as `FixIdentity` says and keeps the table's order |
| `WorldValidator.FixIdentitiesResult` | jp-mud/backend/app/services/game_engine.py:117-149 | after step 1 every id matches its key and every name is set |
| `WorldValidator.Referenced` | jp-mud/backend/app/services/game_engine.py:150-152 | every id some connection names is referenced |
| `WorldValidator.AddPlaceholders` | jp-mud/backend/app/services/game_engine.py:154-175 | step 2 adds a placeholder for exactly each missing id, after the existing locations, and leaves those alone |
| `WorldValidator.PlaceholdersClose` | jp-mud/backend/app/services/game_engine.py:154-175 | placeholders for exactly the missing targets make every connection name an existing location, and keep ids and names set |
| `WorldValidator.ReverseEdges` | jp-mud/backend/app/services/game_engine.py:185-214 | the reverse-edge loop of one location keeps the table's keys |
| `WorldValidator.Turn` | jp-mud/backend/app/services/game_engine.py:180-218 | the turn of one location in step 3 keeps the table's keys |
| `WorldValidator.ReversePass` | jp-mud/backend/app/services/game_engine.py:179-218 | step 3 over a list of locations keeps the table's keys |
| `WorldValidator.ReversePassKeeps` | jp-mud/backend/app/services/game_engine.py:177-218 | step 3 changes connection tables only, drops no exit, and keeps the tables well formed and closed |
| `WorldValidator.RepairFrom` | jp-mud/backend/app/services/game_engine.py:180-218 | the loop over one location's connections, over a snapshot taken first, gives `Turn` |
| `WorldValidator.RepairReverseEdges` | jp-mud/backend/app/services/game_engine.py:177-218 | step 3 over the snapshot of the table gives `ReversePass`; on a closed table the branch that drops a connection is never taken |
| `WorldValidator.TurnReady` | jp-mud/backend/app/services/game_engine.py:179-180 | each location is still in the table, well formed, when its turn comes |
| `WorldValidator.PassWritesReverse` | jp-mud/backend/app/services/game_engine.py:204-213 | every slot a turn writes ends up naming the location whose turn it is |
| `WorldValidator.PassFrame` | jp-mud/backend/app/services/game_engine.py:185-214 | a turn leaves alone every slot that none of its edges aims at |
| `WorldValidator.TurnWrites` | jp-mud/backend/app/services/game_engine.py:204-213 | a turn writes its own id into the reverse slot of every edge it had |
| `WorldValidator.OwnTurnWrites` | jp-mud/backend/app/services/game_engine.py:179-218 | the turn of each location writes its id into the reverse slot of each of its edges |
| `WorldValidator.LaterTurnFrame` | jp-mud/backend/app/services/game_engine.py:179-218 | a later turn leaves a slot alone unless one of its edges writes it |
| `WorldValidator.ReverseEdgeLastWriterWins` | jp-mud/backend/app/services/game_engine.py:179-218 | after step 3 each reverse slot names the location that wrote it, unless a later turn wrote the same slot; the last writer wins |
| `WorldValidator.ReversePassSymmetric` | jp-mud/backend/app/services/game_engine.py:177-218 | on a table whose edges all have their reverse, step 3 changes nothing |
| `WorldValidator.AddDefaultExit` | jp-mud/backend/app/services/game_engine.py:238-255 | a default exit adds its target to the table, after the others when it is new |
| `WorldValidator.AddDefaultExitWrites` | jp-mud/backend/app/services/game_engine.py:247-253 | after a default exit, the start leads to the target and the target has a reverse exit |
| `WorldValidator.AddDefaultExitStartTable` | jp-mud/backend/app/services/game_engine.py:248 | a default exit adds exactly that exit to the start's table |
| `WorldValidator.AddDefaultExitKeepsSlot` | jp-mud/backend/app/services/game_engine.py:247-253 | a default exit never removes a connection |
| `WorldValidator.AddDefaultExits` | jp-mud/backend/app/services/game_engine.py:238-255 | the default exits only add locations, after the old ones |
| `WorldValidator.WithStart` | jp-mud/backend/app/services/game_engine.py:222-231 | afterwards there is a start location |
| `WorldValidator.WireStart` | jp-mud/backend/app/services/game_engine.py:221-267 | step 4 creates a missing start and gives a start without exits the default ones |
| `WorldValidator.WireDefaultExits` | jp-mud/backend/app/services/game_engine.py:236-255 | the default-exit loop adds the four default exits in order, as `AddDefaultExits` does |
| `WorldValidator.WireExit` | jp-mud/backend/app/services/game_engine.py:238-255 | the body of the default-exit loop gives `AddDefaultExit` |
| `WorldValidator.WithStartSound` | jp-mud/backend/app/services/game_engine.py:222-231 | adding a missing start keeps a sound table sound (well formed, closed, ids matching, names set), with the old locations first |
| `WorldValidator.AddDefaultExitsSound` | jp-mud/backend/app/services/game_engine.py:233-255 | the default exits keep the table sound and give the start an exit |
| `WorldValidator.StartExitsSound` | jp-mud/backend/app/services/game_engine.py:221-267 | step 4 leaves a sound table sound, with a start that has an exit and the old locations first |
| `WorldValidator.ExitTable` | jp-mud/backend/app/services/game_engine.py:236 | the start's default table is well formed |
| `WorldValidator.DefaultTargetNotStart` | jp-mud/backend/app/services/game_engine.py:236 | no default exit leads back to the start |
| `WorldValidator.DefaultExitReversed` | jp-mud/backend/app/services/game_engine.py:249-253 | once a default exit is added, its target keeps an exit the opposite way |
| `WorldValidator.DefaultExitsSpelled` | jp-mud/backend/app/services/game_engine.py:236 | the default exits are north to forest, east to shop, west to house and south to river, in that order, with their opposite directions |
| `WorldValidator.DefaultExitsResult` | jp-mud/backend/app/services/game_engine.py:233-255 | a start without exits ends with exactly those four exits, and each target has an exit back |
| `WorldValidator.KeepKnown` | jp-mud/backend/app/services/game_engine.py:280-286 | the kept ids are exactly those that exist, in order; a list of known ids is kept whole |
| `WorldValidator.FilterContents` | jp-mud/backend/app/services/game_engine.py:276-301 | a location loses exactly its references to items and characters that do not exist; nothing else changes |
| `WorldValidator.FilterAll` | jp-mud/backend/app/services/game_engine.py:275-301 | step 5 keeps the table's keys |
| `WorldValidator.FilterPlacements` | jp-mud/backend/app/services/game_engine.py:269-301 | step 5, location by location, gives `FilterAll` |
| `WorldValidator.FilterAllSound` | jp-mud/backend/app/services/game_engine.py:269-301 | after step 5 every location lists only existing items and characters, and the connections are untouched |
| `WorldValidator.FilterAllKnown` | jp-mud/backend/app/services/game_engine.py:269-301 | a table that lists only existing items and characters is left unchanged by step 5 |
| `WorldValidator.AttachOne` | jp-mud/backend/app/services/game_engine.py:306-326 | the turn of one location in step 6 keeps the table's keys |
| `WorldValidator.AttachPass` | jp-mud/backend/app/services/game_engine.py:305-326 | step 6 keeps the table's keys |
| `WorldValidator.AttachOrphans` | jp-mud/backend/app/services/game_engine.py:303-330 | step 6 over the locations in table order, each read as it stands when its turn comes, gives `AttachPass` |
| `WorldValidator.AttachPassKeeps` | jp-mud/backend/app/services/game_engine.py:303-330 | step 6 changes connection tables only, drops no exit and keeps a sound table sound |
| `WorldValidator.AttachPassIds` | jp-mud/backend/app/services/game_engine.py:303-330 | step 6 keeps every id |
| `WorldValidator.AttachOneAt` | jp-mud/backend/app/services/game_engine.py:311-314 | an orphan other than the start gets a single exit south to the start; any other location keeps its exits |
| `WorldValidator.OrphanAttached` | jp-mud/backend/app/services/game_engine.py:303-330 | after step 6 an orphan has exactly the exit south to the start, and every other location keeps its connections |
| `WorldValidator.AttachOneExit` | jp-mud/backend/app/services/game_engine.py:311-326 | a turn gives its orphan an exit and takes no exit away |
| `WorldValidator.AttachPassExit` | jp-mud/backend/app/services/game_engine.py:303-330 | after step 6 every location reached has an exit, and no exit is lost |
| `WorldValidator.AttachPassAllExits` | jp-mud/backend/app/services/game_engine.py:303-330 | after step 6 every location has an exit when the start had one |
| `WorldValidator.OrphansStepSound` | jp-mud/backend/app/services/game_engine.py:303-330 | step 6 keeps the table sound, gives every location an exit and leaves the contents alone |
| `WorldValidator.ValidateWorld` | jp-mud/backend/app/services/game_engine.py:100-334 | `validate_world_structure` leaves a sound table with a start, every location with an exit and listing only existing items and characters, the old locations first, and the rest of the world unchanged; every exit an old location had is still there, each old location keeps its descriptions and the existing items and characters in their order, with its key as id and a filled-in name; the reverse pass runs on the table with every target present, and after it an orphan other than start gains only the exit south to start |
| `WorldValidator.FixedExits` | jp-mud/backend/app/services/game_engine.py:117-153 | step 1 changes no connection: the referenced targets and every exit stay |
| `WorldValidator.ContentsThrough` | jp-mud/backend/app/services/game_engine.py:100-334 | through the six steps an old location changes only in its connections, its repaired id and name, and its items and characters filtered to existing ones |
| `WorldValidator.OrphansAttached` | jp-mud/backend/app/services/game_engine.py:303-326 | after step 6 a location other than start without exits has exactly the exit south to start, and any other keeps its connections |
| `WorldValidator.OrphansThrough` | jp-mud/backend/app/services/game_engine.py:269-326 | the orphan rule holds of the table step 4 leaves, since step 5 touches no connection |
| `WorldInit.ReadConnections` | jp-mud/backend/app/services/game_engine.py:359-366 | a direction is connected exactly when some connection of the loose data names it with a target that names a location, the later one winning |
| `WorldInit.LocationFrom` | jp-mud/backend/app/services/game_engine.py:343-357 | a location read from the data has the given id and is empty, unvisited and open |
| `WorldInit.AddLocations` | jp-mud/backend/app/services/game_engine.py:341-368 | the location table is well formed, every location under its own id, with no items or characters yet |
| `WorldInit.BuildLocations` | jp-mud/backend/app/services/game_engine.py:341-368 | the location loop builds exactly that table |
| `WorldInit.WithInitStart` | jp-mud/backend/app/services/game_engine.py:370-384 | afterwards "start" exists, nothing read before is lost, and a table that already had a start is left alone |
| `WorldInit.CharacterFrom` | jp-mud/backend/app/services/game_engine.py:388-400 | a character keeps its id |
| `WorldInit.Place` | jp-mud/backend/app/services/game_engine.py:402-405 | placing appends the id to the named location's list only, and does nothing when the location does not exist |
| `WorldInit.AddCharacters` | jp-mud/backend/app/services/game_engine.py:386-410 | placing characters changes no location id and none of the other tables |
| `WorldInit.ItemFrom` | jp-mud/backend/app/services/game_engine.py:414-427 | an item is refused exactly when its type string is not an item type |
| `WorldInit.AddItems` | jp-mud/backend/app/services/game_engine.py:412-434 | the item loop succeeds exactly when every item type is accepted, fails only with the refused type, and otherwise changes only item lists |
| `WorldInit.PlaceCharacters` | jp-mud/backend/app/services/game_engine.py:386-410 | the character loop computes the character placement |
| `WorldInit.PlaceItems` | jp-mud/backend/app/services/game_engine.py:412-434 | the item loop computes the item placement, stopping at a refused type |
| `WorldInit.AddItemsStopped` | jp-mud/backend/app/services/game_engine.py:412-434 | once an item is refused, the later items are never read |
| `WorldInit.AddCharacterKnown` | jp-mud/backend/app/services/game_engine.py:402-410 | one character keeps every location listing only known characters and items |
| `WorldInit.AddItemKnown` | jp-mud/backend/app/services/game_engine.py:429-434 | one item keeps every location listing only known characters and items |
| `WorldInit.CharactersPlacedKnown` | jp-mud/backend/app/services/game_engine.py:386-410 | the whole character loop keeps every listed character known |
| `WorldInit.ItemsPlacedKnown` | jp-mud/backend/app/services/game_engine.py:412-434 | the whole item loop keeps every listed item known |
| `WorldInit.AddCharacterAt` | jp-mud/backend/app/services/game_engine.py:402-405 | one character only extends a location's character list |
| `WorldInit.AddItemAt` | jp-mud/backend/app/services/game_engine.py:429-432 | one item only extends a location's item list |
| `WorldInit.CharactersOnlyAppend` | jp-mud/backend/app/services/game_engine.py:386-410 | the character loop only extends character lists, everything else in a location unchanged |
| `WorldInit.ItemsOnlyAppend` | jp-mud/backend/app/services/game_engine.py:412-434 | the item loop only extends item lists, everything else in a location unchanged |
| `WorldInit.CharacterPlacement` | jp-mud/backend/app/services/game_engine.py:387-410 | a character is stored under its id and appended to its location, "start" by default, and no other location changes |
| `WorldInit.CharactersKeepConnections` | jp-mud/backend/app/services/game_engine.py:386-410 | placing characters keeps every location and its connections |
| `WorldInit.ItemsKeepConnections` | jp-mud/backend/app/services/game_engine.py:412-434 | placing items keeps every location's connections |
| `WorldInit.PlacementKeepsValid` | jp-mud/backend/app/services/game_engine.py:386-434 | placing characters and items keeps the location table well formed |
| `WorldInit.AddVocabulary` | jp-mud/backend/app/services/game_engine.py:436-448 | reading vocabulary loses no entry already present |
| `WorldInit.ReadVocabulary` | jp-mud/backend/app/services/game_engine.py:436-448 | the vocabulary loop computes that table |
| `WorldInit.VocabIdInjective` | jp-mud/backend/app/services/game_engine.py:438 | distinct entry numbers give distinct default ids |
| `WorldInit.VocabIdFresh` | jp-mud/backend/app/services/game_engine.py:438 | the next default id is new |
| `WorldInit.VocabIdsBelow` | jp-mud/backend/app/services/game_engine.py:438 | "vocab_<j>" is among the first n default ids exactly when j < n |
| `WorldInit.VocabularyIdsContiguous` | jp-mud/backend/app/services/game_engine.py:436-448 | entries without ids get "vocab_0", "vocab_1", ... one per entry, none overwritten |
| `WorldInit.ObjectiveFrom` | jp-mud/backend/app/services/game_engine.py:458-469 | an objective read from the data starts incomplete with no progress |
| `WorldInit.RewardFrom` | jp-mud/backend/app/services/game_engine.py:473-483 | a reward read from the data starts unclaimed |
| `WorldInit.ObjectivesFrom` | jp-mud/backend/app/services/game_engine.py:456-469 | all objectives are read, in order, exactly when each has an accepted type |
| `WorldInit.RewardsFrom` | jp-mud/backend/app/services/game_engine.py:471-483 | all rewards are read, in order, exactly when each has an accepted type |
| `WorldInit.QuestFrom` | jp-mud/backend/app/services/game_engine.py:452-503 | a quest read from the data has its id, is not started and keeps all its objectives and rewards |
| `WorldInit.QuestReadableAnyId` | jp-mud/backend/app/services/game_engine.py:452-503 | whether a quest can be read does not depend on its id |
| `WorldInit.AddQuests` | jp-mud/backend/app/services/game_engine.py:450-506 | reading quests loses no quest already present |
| `WorldInit.QuestsDroppedFromError` | jp-mud/backend/app/services/game_engine.py:450-506 | a quest that raises ends the block: it and every later quest are dropped |
| `WorldInit.QuestsKeptBeforeError` | jp-mud/backend/app/services/game_engine.py:450-506 | a quest before every quest that raises is kept under its id |
| `WorldInit.ReadQuest` | jp-mud/backend/app/services/game_engine.py:453-503 | the objective and reward loops build exactly that quest |
| `WorldInit.ObjectivesStopped` | jp-mud/backend/app/services/game_engine.py:458-469 | once an objective raises, the later ones cannot rescue the quest |
| `WorldInit.RewardsStopped` | jp-mud/backend/app/services/game_engine.py:473-483 | once a reward raises, the later ones cannot rescue the quest |
| `WorldInit.ReadQuests` | jp-mud/backend/app/services/game_engine.py:450-506 | the quest block computes that table and swallows the error |
| `WorldInit.PreWorldFails` | jp-mud/backend/app/services/game_engine.py:336-507 | building the world fails exactly on a refused item type |
| `WorldInit.PreWorldBuilt` | jp-mud/backend/app/services/game_engine.py:336-507 | otherwise the tables are well formed with a start, every location read, the vocabulary and the quests |
| `WorldInit.BuildWorld` | jp-mud/backend/app/services/game_engine.py:336-507 | the loops, one after the other, build that world |
| `WorldInit.InitGameState` | jp-mud/backend/app/services/game_engine.py:336-528 | `init_game_state` succeeds exactly when every item type is accepted and every connection names a target; the state then holds a validated world that keeps the vocabulary and quests read, a new player at "start", nothing visited and version "0.1.0" |
| `EngineState.InitGood` | jp-mud/backend/app/services/game_engine.py:336-528 | the state a new game starts in satisfies the invariant every command keeps, when the vocabulary entries carry no ids of their own |
| `JsonSalvage.Unfence` | jp-mud/backend/app/services/llm_service.py:17-23 | removing the fences never lengthens the reply |
| `JsonSalvage.Squash` | jp-mud/backend/app/services/llm_service.py:34-53 | the character loop leaves no control character and never lengthens the text |
| `JsonSalvage.UnfenceFenced` | jp-mud/backend/app/services/llm_service.py:17-23 | a reply fenced with "```json" or "```" loses exactly its two fences |
| `JsonSalvage.PlainFence` | jp-mud/backend/app/services/llm_service.py:18-21 | a plain fence is taken for a JSON fence only when the body begins with "json" |
| `JsonSalvage.UnfenceBare` | jp-mud/backend/app/services/llm_service.py:17-23 | a reply without fences is kept whole |
| `JsonSalvage.SquashConcat` | jp-mud/backend/app/services/llm_service.py:34-53 | the loop works character by character: it distributes over concatenation |
| `JsonSalvage.SquashPrintable` | jp-mud/backend/app/services/llm_service.py:34-53 | text without control characters passes unchanged, so the loop is idempotent |
| `JsonSalvage.SquashSpaces` | jp-mud/backend/app/services/llm_service.py:41-43 | a newline, carriage return or tab becomes exactly one space |
| `JsonSalvage.CleanJsonBounds` | jp-mud/backend/app/services/llm_service.py:15-58 | `clean_json_string` returns text without control characters, never longer than the reply |
| `JsonSalvage.CleanJsonString` | jp-mud/backend/app/services/llm_service.py:15-58 | the fence cutting, strip and unescaping followed by the loop compute the cleaned text |
| `JsonSalvage.SquashLoop` | jp-mud/backend/app/services/llm_service.py:34-53 | the character loop computes exactly the character-wise squashing |
| `JsonSalvage.Compact` | jp-mud/backend/app/services/llm_service.py:74-84 | the whitespace loop never lengthens the text |
| `JsonSalvage.NonSpace` | jp-mud/backend/app/services/llm_service.py:81 | text with its whitespace removed holds no whitespace |
| `JsonSalvage.Braced` | jp-mud/backend/app/services/llm_service.py:95-99 | the result opens with "{" and closes with "}", and text already braced is kept |
| `JsonSalvage.CompactDropsOnlySpace` | jp-mud/backend/app/services/llm_service.py:74-84 | the whitespace loop drops whitespace and nothing else |
| `JsonSalvage.CompactUnquoted` | jp-mud/backend/app/services/llm_service.py:74-84 | without any double quote, the loop drops every whitespace character |
| `JsonSalvage.CompactKeepsQuoted` | jp-mud/backend/app/services/llm_service.py:81-82 | inside a double-quoted string every character is kept |
| `JsonSalvage.FlattenNoBreaks` | jp-mud/backend/app/services/llm_service.py:64-72 | after the first six replacements no newline, carriage return or tab is left |
| `JsonSalvage.LiteralsNoSingleQuote` | jp-mud/backend/app/services/llm_service.py:86-93 | no single quote is left after the literal replacements |
| `JsonSalvage.LiteralsNoPythonWords` | jp-mud/backend/app/services/llm_service.py:86-93 | none of `True`, `False` and `None` is left after the literal replacements |
| `JsonSalvage.TrueTails` | jp-mud/backend/app/services/llm_service.py:89-91 | no later replacement can complete a `True` |
| `JsonSalvage.FalseTails` | jp-mud/backend/app/services/llm_service.py:90-91 | no later replacement can complete a `False` |
| `JsonSalvage.NoneTails` | jp-mud/backend/app/services/llm_service.py:91 | the replacement cannot complete a `None` |
| `JsonSalvage.BracedKeepsAbsent` | jp-mud/backend/app/services/llm_service.py:95-99 | adding the braces creates no occurrence of a word that neither starts with "{" nor contains "}", such as `True`, `False` or `None` |
| `JsonSalvage.ExtremeJsonShape` | jp-mud/backend/app/services/llm_service.py:60-101 | `extreme_json_clean` always returns braced text of at least "{}" with no single quote and no Python literal left |
| `JsonSalvage.ExtremeJsonClean` | jp-mud/backend/app/services/llm_service.py:60-101 | the loop computes that text |
| `VocabFormat.FixPartGood` | song-vocab/tools/helper.py:51-60 | a part is repaired exactly when it is a dictionary, and then has a kanji and a romaji; a good part is kept |
| `VocabFormat.FixPartsGood` | song-vocab/tools/helper.py:52-60 | the parts loop repairs every part, fails with TypeError exactly when a part is not a dictionary, and keeps good parts |
| `VocabFormat.FixItemGood` | song-vocab/tools/helper.py:29-60 | a repaired item is good, keeps the fields it had, numbers the missing kanji and English, and copies the kanji into a missing romaji; an item that is not a dictionary fails |
| `VocabFormat.FillFieldsGood` | song-vocab/tools/helper.py:31-41 | the three fields are filled, the item's own values kept and the others numbered from 1 |
| `VocabFormat.FillPartsGood` | song-vocab/tools/helper.py:43-60 | filling the parts gives a good item with the same kanji, romaji and English |
| `VocabFormat.FixItemKeepsGood` | song-vocab/tools/helper.py:29-60 | a good item is left as it is |
| `VocabFormat.FixItemsGood` | song-vocab/tools/helper.py:29-60 | the items loop repairs every item into a good one, in order |
| `VocabFormat.FixItemsKeepGood` | song-vocab/tools/helper.py:29-60 | items that are all good are left as they are |
| `VocabFormat.DefaultItemGood` | song-vocab/tools/helper.py:13-25 | the item put in place of a missing vocabulary is already good |
| `VocabFormat.FixVocabularyFormatGood` | song-vocab/tools/helper.py:1-62 | data without a dictionary answer is returned as it is; otherwise every item comes out good and the vocabulary keeps its length, and an item that is not a dictionary fails the repair |
| `VocabFormat.FixItemsErr` | song-vocab/tools/helper.py:29-60 | the items loop fails when an item is not a dictionary |
| `VocabFormat.GoodAnswerKept` | song-vocab/tools/helper.py:1-62 | an answer whose vocabulary is already a list of good items is returned unchanged |
| `VocabFormat.FixVocabularyFormatIdempotent` | song-vocab/tools/helper.py:1-62 | a repaired answer needs no further repair |
| `VocabFormat.FixPartsLoop` | song-vocab/tools/helper.py:52-60 | the parts loop computes the repaired parts |
| `VocabFormat.FixPartsErrStays` | song-vocab/tools/helper.py:52-60 | once the parts loop raises, the failure stands |
| `VocabFormat.FixPartsFail` | song-vocab/tools/helper.py:53-54 | a part that is not a dictionary raises TypeError |
| `VocabFormat.FixItemsErrStays` | song-vocab/tools/helper.py:29-60 | once the items loop raises, the failure stands |
| `VocabFormat.FixItemBody` | song-vocab/tools/helper.py:30-60 | the body of the item loop computes the repaired item |
| `VocabFormat.FillFieldsIn` | song-vocab/tools/helper.py:31-41 | the three assignments compute the filled fields |
| `VocabFormat.FillPartsIn` | song-vocab/tools/helper.py:43-60 | the parts are added and repaired as specified |
| `VocabFormat.FixItemsLoop` | song-vocab/tools/helper.py:29-60 | the items loop computes the repaired items |
| `VocabFormat.FixItemsFail` | song-vocab/tools/helper.py:29-60 | an item whose repair raises ends the repair with that error |
| `VocabFormat.FixVocabulary` | song-vocab/tools/helper.py:1-62 | `fix_vocabulary_format` computes the repaired answer |
| `TemplateContent.MarkStarts` | jp-mud/backend/app/services/llm_service.py:451-467 | the first pass keeps the number of locations |
| `TemplateContent.NameStart` | jp-mud/backend/app/services/llm_service.py:469-486 | the second pass keeps the number of locations |
| `TemplateContent.CharactersPass` | jp-mud/backend/app/services/llm_service.py:528-576 | the character passes keep the number of characters |
| `TemplateContent.FirstAnonymousSound` | jp-mud/backend/app/services/llm_service.py:471-486 | the second pass picks the first location without an id, and none only when every location has one |
| `TemplateContent.FirstStartSound` | jp-mud/backend/app/services/llm_service.py:508 | the lookup finds the first start location, and none only when there is none |
| `TemplateContent.MarkStartGood` | jp-mud/backend/app/services/llm_service.py:454-467 | a marked start location has the village-map trigger once and at least one exit, keeping its own id, text, triggers and non-empty connections |
| `TemplateContent.MarkStartIdempotent` | jp-mud/backend/app/services/llm_service.py:454-467 | marking twice is marking once |
| `TemplateContent.StartPassesGood` | jp-mud/backend/app/services/llm_service.py:451-504 | corrected: after the start passes there is a start location, and each has the village-map trigger and an exit |
| `TemplateContent.StartPassesAsWrittenGood` | jp-mud/backend/app/services/llm_service.py:451-504 | as written: after the start passes there is a start location, and each, the appended Village Square included, has the village-map trigger and an exit |
| `TemplateContent.StartPassesCompared` | jp-mud/backend/app/services/llm_service.py:469-504 | the start passes as written are the corrected passes, plus the Village Square appended exactly when there was no start but a location without an id |
| `TemplateContent.MarkStartsAnonymous` | jp-mud/backend/app/services/llm_service.py:451-486 | the first pass does not change which location is the first without an id |
| `TemplateContent.StartPassesOneStart` | jp-mud/backend/app/services/llm_service.py:451-504 | corrected: a world without a start comes out with exactly one |
| `TemplateContent.StartPassesAsWrittenTwoStarts` | jp-mud/backend/app/services/llm_service.py:469-504 | as written: a world without a start but with a location without an id comes out with two start locations |
| `TemplateContent.AsWrittenDuplicatesStart` | jp-mud/backend/app/services/llm_service.py:469-504 | as written: a single location without an id becomes a start and the Village Square is appended as a second |
| `TemplateContent.AddTargetsGood` | jp-mud/backend/app/services/llm_service.py:510-526 | the targets loop only appends, and afterwards every connection it visited names an existing location |
| `TemplateContent.AddTargetsBackToStart` | jp-mud/backend/app/services/llm_service.py:515-526 | every location created for a target has a connection back to "start" |
| `TemplateContent.TargetsPassGood` | jp-mud/backend/app/services/llm_service.py:506-526 | the targets pass keeps the first start location first, and afterwards each of its connections names an existing location |
| `TemplateContent.AddTemplateGood` | jp-mud/backend/app/services/llm_service.py:425-578 | corrected: `add_template_content` appends the template quests and items, and leaves a first start location with the village-map trigger, an exit, and every connection naming an existing location |
| `TemplateContent.AddTemplateAsWrittenGood` | jp-mud/backend/app/services/llm_service.py:425-578 | as written: `add_template_content` appends the template quests and items, and leaves a first start location with the village-map trigger, an exit, and every connection naming an existing location |
| `TemplateContent.TargetsAfterStarts` | jp-mud/backend/app/services/llm_service.py:506-526 | on locations whose starts are marked, the targets pass leaves the first start marked, with an exit, and each of its connections naming an existing location |
| `TemplateContent.FirstStartPrefix` | jp-mud/backend/app/services/llm_service.py:508 | appending after a start location does not change which is found first |
| `TemplateContent.CharactersPassGood` | jp-mud/backend/app/services/llm_service.py:528-576 | the elder and the priest end up with their quests and dialogues, and every other character is unchanged |
| `TemplateContent.CharactersPassIdempotent` | jp-mud/backend/app/services/llm_service.py:528-576 | the character passes are idempotent |
| `TemplateContent.RepeatedTemplates` | jp-mud/backend/app/services/llm_service.py:429-449 | as written, the shallow copy shares the lists: calling twice with the caller's world leaves its items and quests holding the templates twice and its locations grown by the hidden locations twice |
| `TemplateContent.LocationsGrow` | jp-mud/backend/app/services/llm_service.py:445-526 | as written and corrected, the locations only grow, at least by the hidden locations, and each hidden location follows the world's own in its place with its text; one whose id is neither missing nor "start" comes out exactly as the template gave it |
| `TemplateContent.StartPassesKeep` | jp-mud/backend/app/services/llm_service.py:451-504 | both versions of the start passes keep every location in its place with its text, and leave one whose id is neither missing nor "start" untouched |
| `TemplateContent.TargetsGrow` | jp-mud/backend/app/services/llm_service.py:506-526 | the targets pass only appends: the locations it is given come out first and unchanged |
| `TemplateContent.MarkStartsLoop` | jp-mud/backend/app/services/llm_service.py:452-467 | the first loop computes the marked locations and whether a start was found |
| `TemplateContent.NameStartLoop` | jp-mud/backend/app/services/llm_service.py:470-486 | the second loop computes the named locations and stops at the first one without an id |
| `TemplateContent.StartPassesLoop` | jp-mud/backend/app/services/llm_service.py:451-504 | the start passes, loops included, compute the passes as written, Village Square appended whenever the first pass found no start |
| `TemplateContent.MarkStartsKeepStart` | jp-mud/backend/app/services/llm_service.py:452-455 | the first pass finds a start exactly when there is one |
| `TemplateContent.AnyHasId` | jp-mud/backend/app/services/llm_service.py:512 | `any(...)` tells whether some location has the id |
| `TemplateContent.TargetsPassLoop` | jp-mud/backend/app/services/llm_service.py:506-526 | the loop over the start's connections computes the targets pass |
| `TemplateContent.CharactersLoop` | jp-mud/backend/app/services/llm_service.py:528-576 | the two character loops compute the character passes |
| `TemplateContent.AddTemplateContent` | jp-mud/backend/app/services/llm_service.py:425-578 | the method computes `add_template_content` as written, and what the shallow copy leaves in the caller's world |
| `QuestionParser.SectionOfKnown` | listening-comp/backend/interactive.py:46-54 | the section lookup succeeds exactly for the three practice types, each mapped to its own section, and raises `KeyError` naming any other |
| `QuestionParser.QueryForTypes` | listening-comp/backend/interactive.py:75-82 | each named type has its own query, and every other type gets the listening exercise's |
| `QuestionParser.FallbackQuestion` | listening-comp/backend/interactive.py:319-338 | a fallback question has a setup, a question and four options |
| `QuestionParser.FallbackOther` | listening-comp/backend/interactive.py:319-338 | every type other than the two named gets the listening exercise's fallback |
| `QuestionParser.BetweenLeftmost` | listening-comp/backend/interactive.py:165-166 | the lazy tag search finds the leftmost and then shortest match, and none only when there is no match |
| `QuestionParser.After` | listening-comp/backend/interactive.py:268 | the text after "Options:" exists exactly when the marker occurs, and is a suffix of the question |
| `QuestionParser.AfterFirst` | listening-comp/backend/interactive.py:268 | the options are read from after the first marker |
| `QuestionParser.DigitRun` | listening-comp/backend/interactive.py:274 | the digit scan stops at the first character that is not a decimal digit |
| `QuestionParser.OptionLineShape` | listening-comp/backend/interactive.py:274-276 | a line of digits, a full stop and whitespace gives the rest, stripped, as its option |
| `QuestionParser.OptionLineMatched` | listening-comp/backend/interactive.py:274-276 | every line the pattern takes has that shape |
| `QuestionParser.Collect` | listening-comp/backend/interactive.py:272-276 | there are never more options than lines |
| `QuestionParser.CollectConcat` | listening-comp/backend/interactive.py:273-276 | collecting keeps the order of the lines |
| `QuestionParser.CollectFrom` | listening-comp/backend/interactive.py:273-276 | every option comes from a line that matches |
| `QuestionParser.CollectAll` | listening-comp/backend/interactive.py:273-276 | when every line matches, each line gives its option in order |
| `QuestionParser.CollectLoop` | listening-comp/backend/interactive.py:272-276 | the loop over the lines collects those options |
| `QuestionParser.PadGood` | listening-comp/backend/interactive.py:278-280 | padding keeps the options found, never truncates, and fills up to four with "Option k" at position k |
| `QuestionParser.PadLoop` | listening-comp/backend/interactive.py:279-280 | the padding loop computes that list |
| `QuestionParser.NoOptionsMarker` | listening-comp/backend/interactive.py:268-280 | a question without "Options:" gets four placeholders |
| `QuestionParser.ParseMarked` | listening-comp/backend/interactive.py:257-317 | the vocabulary and listening parsers always give at least four options |
| `QuestionParser.ParseMarkedLoop` | listening-comp/backend/interactive.py:257-317 | the parsers with their loops compute that question |
| `QuestionParser.OptionsOfLines` | listening-comp/backend/interactive.py:268-276 | the options are those of the lines after the first marker |
| `QuestionParser.ParseMarkedReads` | listening-comp/backend/interactive.py:257-317 | four or more well-formed option lines are read in order, none added |
| `QuestionParser.StripAll` | listening-comp/backend/interactive.py:241-242 | each option group is stripped, in order |
| `QuestionParser.ParseDialogue` | listening-comp/backend/interactive.py:226-255 | the dialogue parser always gives at least four options |
| `QuestionParser.ParseResponseOptions` | listening-comp/backend/interactive.py:157-224 | whatever the reply, the parsed question has at least four options |
| `QuestionParser.ClosedExtracts` | listening-comp/backend/interactive.py:160-166 | a reply with an opening tag but no closing one is read from inside the tags |
| `QuestionParser.UntaggedDirect` | listening-comp/backend/interactive.py:168-171 | a reply without an opening tag is parsed directly |
| `PracticeUi.JapaneseCount` | listening-comp/frontend/main.py:190-197 | no more characters count than the text has |
| `PracticeUi.CountCharacters` | listening-comp/frontend/main.py:185-198 | `count_characters` gives (0, 0) for a missing or empty text, else the Japanese count, never more than the length, and the length |
| `PracticeUi.JapaneseCountConcat` | listening-comp/frontend/main.py:197 | the count of two texts together is the sum of their counts |
| `PracticeUi.JapaneseCountOne` | listening-comp/frontend/main.py:190-195 | one character counts exactly when it is kanji, hiragana or katakana; the ideographic full stop and full-width letters do not |
| `PracticeUi.JapaneseCountAll` | listening-comp/frontend/main.py:190-197 | the count equals the length exactly when every character is Japanese |
| `PracticeUi.PushCapped` | listening-comp/frontend/main.py:351-354 | a history of at most ten stays at most ten, with the new question last and the most recent old ones before it in order |
| `PracticeUi.PushLong` | listening-comp/frontend/main.py:351-354 | a longer history only loses its oldest question per push and is never cut down to ten |
| `PracticeUi.PushAllLastTen` | listening-comp/frontend/main.py:351-354 | pushing questions one after the other keeps the last ten of them all |
| `PracticeUi.History.constructor` | listening-comp/frontend/main.py:351-354 | the history starts as loaded |
| `PracticeUi.History.Add` | listening-comp/frontend/main.py:351-354 | appending and popping index 0 is the push, and a history of at most ten stays capped with the new question last |
| `PracticeUi.Labels` | listening-comp/frontend/main.py:379-380 | the label at position i is "i+1. " followed by the option |
| `PracticeUi.LabelRoundTrip` | listening-comp/frontend/main.py:379-383 | reading the index back from a label gives its position, whatever the option holds |
| `PracticeUi.AnswerCorrect` | listening-comp/frontend/main.py:379-388 | the chosen answer is right exactly when its position is the correct index |
| `VocabCleaner.IndexOf` | lang-portal/backend-go/internal/services/ollama.go:107 | the index found holds the first '[' and none means there is none |
| `VocabCleaner.LastIndexOf` | lang-portal/backend-go/internal/services/ollama.go:108 | the index found holds the last ']' and none means there is none |
| `VocabCleaner.ArraySlice` | lang-portal/backend-go/internal/services/ollama.go:106-112 | the only failure is "no JSON array" carrying the content |
| `VocabCleaner.ArraySliceShape` | lang-portal/backend-go/internal/services/ollama.go:106-112 | the slice fails exactly when no ']' follows a '['; otherwise it runs from the first '[' to the last ']' of the reply |
| `VocabCleaner.TrimSpaceBracketed` | lang-portal/backend-go/internal/services/ollama.go:115 | trimming has nothing to remove from the slice |
| `VocabCleaner.LaterStepsKeepOut` | lang-portal/backend-go/internal/services/ollama.go:116-130 | no later replacement brings back a tab, newline, backslash or '/' |
| `VocabCleaner.QuoteStepsKeepOut` | lang-portal/backend-go/internal/services/ollama.go:119-121 | the quote and letter replacements bring back no tab, newline or backslash |
| `VocabCleaner.ScrubDeletes` | lang-portal/backend-go/internal/services/ollama.go:114-130 | after the replacement chain no tab, newline, backslash or '/' is left |
| `VocabCleaner.SlashGone` | lang-portal/backend-go/internal/services/ollama.go:119-121 | the quote and letter replacements leave no '/' |
| `VocabCleaner.EmptyValueCollapses` | lang-portal/backend-go/internal/services/ollama.go:119 | an empty string value loses one of its quotes and runs on into what follows |
| `VocabCleaner.CopyRunes` | lang-portal/backend-go/internal/services/ollama.go:132-148 | the rune loop copies the content unchanged, its quote flag telling whether an odd number of quotes went by |
| `VocabCleaner.Rename` | lang-portal/backend-go/internal/services/ollama.go:153-158 | a "kanji" value moves to "japanese", nothing else changes, and an item without "kanji" is left as it is |
| `VocabCleaner.RenameAll` | lang-portal/backend-go/internal/services/ollama.go:153-158 | every item is renamed, in order |
| `VocabCleaner.RenameLoop` | lang-portal/backend-go/internal/services/ollama.go:150-161 | the rename loop computes the renamed items |
| `VocabCleaner.RenameIdempotent` | lang-portal/backend-go/internal/services/ollama.go:153-158 | renaming twice is renaming once |
| `VocabCleaner.ItemFailureAcceptable` | lang-portal/backend-go/internal/services/ollama.go:170-178 | an item fails exactly when a field is empty or "-" |
| `VocabCleaner.FirstFailureSpec` | lang-portal/backend-go/internal/services/ollama.go:169-178 | validation passes exactly when every item is acceptable, and otherwise reports the first item that is not |
| `VocabCleaner.ValidateLoop` | lang-portal/backend-go/internal/services/ollama.go:169-178 | the validation loop stops at the first bad item |
| `VocabCleaner.CheckedGood` | lang-portal/backend-go/internal/services/ollama.go:163-180 | the check returns the content exactly when it decodes to acceptable items, "invalid JSON" exactly when it does not decode, and otherwise the first bad item |
| `VocabCleaner.CleanSteps` | lang-portal/backend-go/internal/services/ollama.go:100-180 | only a missing or empty reply gives "no content", only a reply without an array gives "no JSON array", and every other reply reaches the check after cleaning and renaming |
| `VocabCleaner.CleanAccepts` | lang-portal/backend-go/internal/services/ollama.go:100-180 | a reply whose cleaned array decodes to items that are acceptable once renamed gives the renamed items' encoding |
| `VocabCleaner.ScrubSteps` | lang-portal/backend-go/internal/services/ollama.go:114-130 | the reassignments compute the replacement chain |
| `VocabCleaner.CleanArray` | lang-portal/backend-go/internal/services/ollama.go:112-180 | the steps after the slice compute the check of the renamed, cleaned array |
| `VocabCleaner.CleanReply` | lang-portal/backend-go/internal/services/ollama.go:100-180 | the cleaning, step by step, computes the specified result |
| `Text.Lower` | jp-mud/backend/app/services/game_engine.py:550 | `str.lower()` keeps the length and lowers each character in place |
| `Text.Capitalize` | jp-mud/backend/app/services/game_engine.py:697 | `str.capitalize()` keeps the length, raises the first character and lowers the rest |
| `Text.StripLeft` | jp-mud/backend/app/services/game_engine.py:550 | the left half of `str.strip()`: a suffix of the string, everything dropped being whitespace and the result not starting with whitespace |
| `Text.StripRight` | jp-mud/backend/app/services/game_engine.py:550 | the right half of `str.strip()`: a prefix of the string, everything dropped being whitespace and the result not ending with whitespace |
| `Text.Strip` | jp-mud/backend/app/services/game_engine.py:550 | `str.strip()` returns a slice of the string with only whitespace outside it and no whitespace at either end |
| `Text.StripIdempotent` | jp-mud/backend/app/services/game_engine.py:570 | stripping twice is stripping once |
| `Text.FirstToken` | jp-mud/backend/app/services/game_engine.py:566 | `split()[0]` is absent exactly when the string is all whitespace, and is otherwise a non-empty word without whitespace, the leading word when the string does not start with whitespace |
| `Text.SplitOn` | listening-comp/backend/interactive.py:272 | `str.split(c)` gives at least one piece and no piece holds the separator |
| `Text.SplitOnJoin` | listening-comp/backend/interactive.py:272 | joining the pieces of `split(c)` with `c` gives the string back |
| `Text.SplitOnOfJoin` | listening-comp/backend/interactive.py:272 | splitting a join of separator-free pieces gives the pieces back |

## Left out

- Logging, the `fixed_issues` counter of `validate_world_structure`, and the `print` calls of the helpers: they only report.
- `datetime.now()` stamps: the time is a parameter (`now`, `playerTime`, `creationTime`).
- The language model, HTTP, the vector store and `random`: `generate_question` is modelled only through its section lookup and query choice. Its retrieval, generation and random `correct_index` are left out.
- Regular expressions: `re.search` in grammar answers is the parameter `search`. What the dialogue expressions of `_parse_dialogue_question` and `_parse_direct` find is a parameter too. `json.Unmarshal` and `json.Marshal` of the Go cleaner are the parameters `decode` and `encode`.
- Python's `set` iteration order in step 2 of `validate_world_structure` (game_engine.py:155-158) is hash order. The model appends the placeholders in an order it does not fix, and proves only what holds for every order.
- Step 1's deletion of a `None` location (game_engine.py:120-125) and its `hasattr` defaults: a typed location is never `None` and always has its fields, so only the id and name repairs are modelled.
- `WorldValidator.ReverseEdges`: the removal of a connection whose target is still missing (game_engine.py:188-193, 216-218) is not modelled. Step 2 has created every target by then, and the lemmas are stated for such tables.
- `WorldValidator.AddDefaultExits`: the "first other location" fallback (game_engine.py:257-267) is not modelled. The four default exits are always added first, so that branch never runs.
- The `try`/`except` around the grammar answer (game_engine.py:594-598) is not modelled: the modelled answer never raises.
- The `except` branches of `_parse_question_response` and `_parse_direct` are not modelled. The modelled parsers never raise, so the fallback is reached only through `_parse_direct` for the other two types.
- Aliasing between `world.quests` and the quest-log buckets is modelled only by writing both: an activated quest is one copy kept equal in both places.
- The default `player` factory of `GameState` (game.py:130) cannot succeed, because `Player.current_location` has no default. The model always builds a game state from a given player.
- `VocabFormat.FixVocabulary`: on `TypeError` or `KeyError` the source has already changed the items before the failing one in place. The model returns only the error, not that partial change.
- `VocabFormat.Json`: JSON numbers are integers. Floats and their truth values are not modelled.
- `Text.Lower` and `Text.Capitalize` change only ASCII letters. Python's full Unicode case mapping is not modelled.
- `QuestionParser.IsDecimal` takes the ASCII and full-width digits for `\d`. The other Unicode decimal digits are not included.
- `PracticeUi.SelectedIndex` accepts only ASCII digits before the first full stop. Python's `int` also accepts signs, surrounding whitespace, underscores and other Unicode digits, which a generated label never holds.
- The question-history file (`load_question_history`, `save_question_history`) is I/O and not modelled. A loaded history longer than ten is covered by `PracticeUi.PushLong`.
- Go strings are modelled as sequences of runes. Invalid UTF-8, which `range` turns into U+FFFD, is not modelled. The error of `json.Marshal`, which the source ignores, cannot occur in the model.
- The "I don't understand" reply that jp-mud/backend/app/services/llm_service.py:613 looks for is modelled in `Dispatch`. `process_game_input` itself is not part of this model.
- Vocabulary entries that carry their own "id" in the world data (game_engine.py:438): `EngineState.Good` asks for the ids "vocab_0" up to the number of entries, which is what `process_vocabulary` needs to mint fresh ids. `EngineState.InitGood` proves that a new game is good when the data's entries carry no ids. A game whose data names its own vocabulary ids starts outside `Good`, and the lemmas that assume `Good` say nothing about it.
- `Movement.Move` narrates a refused direction by its value ("north"). On Python 3.11 and later, an f-string of a `(str, Enum)` member renders its name ("Direction.NORTH") at game_engine.py:610 and 618. The model follows the value rendering of earlier versions.
- A `grammar_point` is either absent or a `QuestModels.GrammarPoint` record with a name. The source skips an empty `grammar_point` dictionary as false (quest_handler.py:196) and raises `KeyError` for a point without "name" (quest_handler.py:202); neither case can be represented.
- `TemplateContent.Loc`: connection targets are strings. A start connection whose target is not a string, on which `target_id.capitalize()` raises AttributeError (llm_service.py:517), cannot be represented.
- `learn_vocabulary` and `custom` objectives, and `learn_skill` and `custom` rewards, exist as values but are never acted on, as in the source. A `vocabulary_boost` reward is only narrated and stays unclaimed.

## Findings

| source | as written | input that shows it | evidently intended | confidence | as-written member | corrected member |
|---|---|---|---|---|---|---|
| jp-mud/backend/app/services/game_engine.py:1149 | `grammar_challenge_command` compares objective types with `ObjectiveType`, a name never imported at module scope, so the command raises `NameError` | any active quest with at least one objective, then "grammar" | list the open grammar objectives of the active quests, and start the first one whose target matches | high; not executed | `GrammarChallenges.GrammarNameError` | `GrammarChallenges.GrammarStarts` |
| jp-mud/backend/app/services/game_engine.py:561-563 | direction words are matched with `startswith` before the action words, one-letter words first | "use key" moves up, "drop key" moves down, "examine x" moves east, "speak x" moves south, "enter" and "exit" move east | match direction words against the first word, so the action synonyms reach their commands and "enter"/"exit" move in and out | high; not executed | `Dispatch.ShadowedVerbs` | `Dispatch.VerbsRouted` |
| jp-mud/backend/app/services/llm_service.py:469-504 | naming an id-less location "start" does not set `start_location_found`, so the Village Square is appended as well | a world whose only location has no "id" key | exactly one start location | high; not executed | `TemplateContent.AsWrittenDuplicatesStart` | `TemplateContent.StartPassesOneStart` |
