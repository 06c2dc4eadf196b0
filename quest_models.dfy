/** The quest records of the adventure: objectives, rewards, quests and the
    player's quest log with its four buckets. */
module QuestModels {

  import opened Wrappers
  import Dicts

  /** What an objective asks of the player. */
  datatype ObjectiveType =
    | VisitLocation | CollectItem | TalkToNpc | UseItem
    | LearnVocabulary | GrammarChallenge | CustomObjective
  {
    function Value(): string {
      match this
      case VisitLocation => "visit_location"
      case CollectItem => "collect_item"
      case TalkToNpc => "talk_to_npc"
      case UseItem => "use_item"
      case LearnVocabulary => "learn_vocabulary"
      case GrammarChallenge => "grammar_challenge"
      case CustomObjective => "custom"
    }
  }

  const AllObjectiveTypes: seq<ObjectiveType> :=
    [VisitLocation, CollectItem, TalkToNpc, UseItem, LearnVocabulary, GrammarChallenge, CustomObjective]

  /** Coercion of a string to the enumeration, as the record validation does
      it: None for a string that is not one of the seven values. */
  function ParseObjectiveType(s: string): (r: Option<ObjectiveType>)
    ensures r.Some? ==> r.value.Value() == s
    ensures r.None? ==> forall t: ObjectiveType :: t.Value() != s
  {
    if s == "visit_location" then Some(VisitLocation)
    else if s == "collect_item" then Some(CollectItem)
    else if s == "talk_to_npc" then Some(TalkToNpc)
    else if s == "use_item" then Some(UseItem)
    else if s == "learn_vocabulary" then Some(LearnVocabulary)
    else if s == "grammar_challenge" then Some(GrammarChallenge)
    else if s == "custom" then Some(CustomObjective)
    else None
  }

  /** The objective types form a closed set of seven distinct strings, each
      read back as itself. */
  lemma ObjectiveTypeRoundTrip(t: ObjectiveType)
    ensures ParseObjectiveType(t.Value()) == Some(t)
    ensures t in AllObjectiveTypes
    ensures |AllObjectiveTypes| == 7
    ensures forall u: ObjectiveType :: u.Value() == t.Value() ==> u == t
  {
  }

  /** What a reward grants. */
  datatype RewardType = ItemReward | UnlockLocation | LearnSkill | VocabularyBoost | CustomReward
  {
    function Value(): string {
      match this
      case ItemReward => "item"
      case UnlockLocation => "unlock_location"
      case LearnSkill => "learn_skill"
      case VocabularyBoost => "vocabulary_boost"
      case CustomReward => "custom"
    }
  }

  const AllRewardTypes: seq<RewardType> := [ItemReward, UnlockLocation, LearnSkill, VocabularyBoost, CustomReward]

  function ParseRewardType(s: string): (r: Option<RewardType>)
    ensures r.Some? ==> r.value.Value() == s
    ensures r.None? ==> forall t: RewardType :: t.Value() != s
  {
    if s == "item" then Some(ItemReward)
    else if s == "unlock_location" then Some(UnlockLocation)
    else if s == "learn_skill" then Some(LearnSkill)
    else if s == "vocabulary_boost" then Some(VocabularyBoost)
    else if s == "custom" then Some(CustomReward)
    else None
  }

  lemma RewardTypeRoundTrip(t: RewardType)
    ensures ParseRewardType(t.Value()) == Some(t)
    ensures t in AllRewardTypes
    ensures |AllRewardTypes| == 5
    ensures forall u: RewardType :: u.Value() == t.Value() ==> u == t
  {
  }

  /** Where a quest stands. Its string value is also the key under which a
      character keeps the dialogue for a quest in that state. */
  datatype QuestState = NotStarted | InProgress | Completed | Failed
  {
    function Value(): string {
      match this
      case NotStarted => "not_started"
      case InProgress => "in_progress"
      case Completed => "completed"
      case Failed => "failed"
    }
  }

  function ParseQuestState(s: string): (r: Option<QuestState>)
    ensures r.Some? ==> r.value.Value() == s
    ensures r.None? ==> forall t: QuestState :: t.Value() != s
  {
    if s == "not_started" then Some(NotStarted)
    else if s == "in_progress" then Some(InProgress)
    else if s == "completed" then Some(Completed)
    else if s == "failed" then Some(Failed)
    else None
  }

  lemma QuestStateRoundTrip(t: QuestState)
    ensures ParseQuestState(t.Value()) == Some(t)
    ensures forall u: QuestState :: u.Value() == t.Value() ==> u == t
  {
  }

  /** A grammar point learnt by completing a grammar challenge: its name and
      its other string-valued fields. */
  datatype GrammarPoint = GrammarPoint(name: string, details: Dicts.StrDict)

  /** The `properties` of an objective that the engine reads: the challenge
      prompt, the expected answer (absent = ""), whether the answer is a
      pattern, the hint for a wrong answer and the grammar point taught. */
  datatype ObjectiveProperties = ObjectiveProperties(
    prompt: Option<string>,
    correctPattern: string,
    usePattern: bool,
    hint: Option<string>,
    grammarPoint: Option<GrammarPoint>)

  const NoProperties := ObjectiveProperties(None, "", false, None, None)

  datatype QuestObjective = QuestObjective(
    id: string,
    objType: ObjectiveType,
    description: string,
    japaneseDescription: string,
    targetId: string,
    count: int,
    completed: bool,
    progress: int,
    hints: seq<string>,
    japaneseHints: seq<string>,
    vocabulary: seq<Dicts.StrDict>,
    properties: ObjectiveProperties)

  /** A new objective: one to do, none done, no hints, vocabulary or
      properties. */
  function NewObjective(id: string, objType: ObjectiveType, description: string,
                        japaneseDescription: string, targetId: string): QuestObjective
  {
    QuestObjective(id, objType, description, japaneseDescription, targetId,
                   1, false, 0, [], [], [], NoProperties)
  }

  datatype QuestReward = QuestReward(
    rewardType: RewardType,
    description: string,
    japaneseDescription: string,
    targetId: Option<string>,
    quantity: int,
    claimed: bool,
    vocabulary: seq<Dicts.StrDict>)

  /** A new reward: quantity one, unclaimed, no target. */
  function NewReward(rewardType: RewardType, description: string, japaneseDescription: string): QuestReward
  {
    QuestReward(rewardType, description, japaneseDescription, None, 1, false, [])
  }

  datatype Quest = Quest(
    id: string,
    title: string,
    japaneseTitle: string,
    description: string,
    japaneseDescription: string,
    state: QuestState,
    objectives: seq<QuestObjective>,
    rewards: seq<QuestReward>,
    prerequisites: seq<string>,
    startLocation: Option<string>,
    completionLocation: Option<string>,
    startDialogue: Option<Dicts.StrDict>,
    completionDialogue: Option<Dicts.StrDict>,
    difficulty: int,
    jlptLevel: Option<int>,
    timeLimit: Option<int>,
    hidden: bool)

  /** A new quest: not started, visible, difficulty one, with no objectives,
      rewards or prerequisites. */
  function NewQuest(id: string, title: string, japaneseTitle: string,
                    description: string, japaneseDescription: string): Quest
  {
    Quest(id, title, japaneseTitle, description, japaneseDescription, NotStarted,
          [], [], [], None, None, None, None, 1, None, None, false)
  }

  /** The player's quests by bucket. The active and available buckets are
      read in insertion order, so they keep it. */
  datatype QuestLog = QuestLog(
    active: Dicts.Dict<string, Quest>,
    completed: map<string, Quest>,
    failed: map<string, Quest>,
    available: Dicts.Dict<string, Quest>)
  {
    ghost predicate Valid() {
      active.Valid() && available.Valid()
    }
  }

  /** A fresh quest log: all four buckets empty. */
  function NewQuestLog(): (log: QuestLog)
    ensures log.Valid()
  {
    QuestLog(Dicts.Empty(), map[], map[], Dicts.Empty())
  }
}
