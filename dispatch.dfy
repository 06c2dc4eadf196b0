/** The command dispatcher: a command is normalised and counted, then
    routed by its first word to a move, to one of the command handlers,
    to the grammar challenge awaiting an answer, or to the not-understood
    reply. */
module Dispatch {

  import opened Wrappers
  import Text
  import opened QuestModels
  import opened GameModels
  import QuestHandler
  import opened EngineState
  import ItemCommands
  import Conversation
  import Movement
  import GrammarChallenges

  /** The commands other than moves. */
  datatype Verb = Look | Take | Drop | Inventory | Use | Talk | Help | Quests | Grammar

  /** The direction words in the order they are tried. */
  const DirectionWords: seq<(string, Direction)> := [
    ("n", North), ("s", South), ("e", East), ("w", West), ("u", Up), ("d", Down),
    ("north", North), ("south", South), ("east", East), ("west", West), ("up", Up), ("down", Down),
    ("inside", In), ("outside", Out), ("enter", In), ("exit", Out)]

  /** Each command with its words, in the order they are tried. */
  const VerbWords: seq<(Verb, seq<string>)> := [
    (Look, ["look", "examine", "inspect", "check", "見る", "調べる"]),
    (Take, ["take", "get", "grab", "pick", "持つ", "取る", "拾う"]),
    (Drop, ["drop", "leave", "put", "置く", "捨てる"]),
    (Inventory, ["inventory", "items", "belongings", "i", "持ち物", "インベントリー"]),
    (Use, ["use", "activate", "apply", "使う", "使用する"]),
    (Talk, ["talk", "speak", "chat", "converse", "ask", "話す", "聞く", "質問"]),
    (Help, ["help", "commands", "助け", "ヘルプ", "コマンド"]),
    (Quests, ["quests", "quest", "missions", "tasks", "クエスト", "任務"]),
    (Grammar, ["grammar", "practice", "文法", "練習"])]

  /** The text of the help command. */
  const HelpText: string :=
    "\n"
    + "Available Commands:\n"
    + "- north/south/east/west/up/down: Move in that direction (n/s/e/w/u/d for short)\n"
    + "- look [object]: Look at your surroundings or examine a specific object\n"
    + "- take [item]: Pick up an item\n"
    + "- drop [item]: Drop an item from your inventory\n"
    + "- inventory: Check what you're carrying (i for short)\n"
    + "- use [item]: Use an item in your inventory\n"
    + "- talk [character]: Talk to someone\n"
    + "- quests: View your active quests\n"
    + "- grammar [challenge_id]: Start a grammar challenge or list available challenges\n"
    + "- help: Show this help message\n"
    + "\n"
    + "Japanese Commands:\n"
    + "- 北/南/東/西/上/下: Move in that direction\n"
    + "- 見る [object]: Look at something\n"
    + "- 取る [item]: Pick up an item\n"
    + "- 置く [item]: Drop an item\n"
    + "- 持ち物: Check inventory\n"
    + "- 使う [item]: Use an item\n"
    + "- 話す [character]: Talk to someone\n"
    + "- クエスト: View quests\n"
    + "- 文法 [challenge_id]: Grammar practice\n"
    + "- ヘルプ: Show help\n"

  // ---------------------------------------------------------------------
  // Routing

  /** A command lower-cased and stripped of surrounding whitespace. */
  function Normalize(command: string): string {
    Text.Strip(Text.Lower(command))
  }

  /** Where a normalised command goes. */
  datatype Route =
    | Go(direction: Direction)
    | Do(verb: Verb, obj: string)
    | NoWord   // nothing left after normalising: the first word cannot be taken
    | Other

  /** The first direction word from position `i` on that `c` starts with. */
  function PrefixFrom(c: string, i: nat): Option<Direction>
    requires i <= |DirectionWords|
    decreases |DirectionWords| - i
  {
    if i == |DirectionWords| then None
    else if Text.StartsWith(c, DirectionWords[i].0) then Some(DirectionWords[i].1)
    else PrefixFrom(c, i + 1)
  }

  /** The direction of the first direction word that is exactly `w`,
      from position `i` on. */
  function WordFrom(w: string, i: nat): Option<Direction>
    requires i <= |DirectionWords|
    decreases |DirectionWords| - i
  {
    if i == |DirectionWords| then None
    else if DirectionWords[i].0 == w then Some(DirectionWords[i].1)
    else WordFrom(w, i + 1)
  }

  /** The first command, from position `i` on, that has `w` among its
      words. */
  function VerbFrom(w: string, i: nat): Option<Verb>
    requires i <= |VerbWords|
    decreases |VerbWords| - i
  {
    if i == |VerbWords| then None
    else if w in VerbWords[i].1 then Some(VerbWords[i].0)
    else VerbFrom(w, i + 1)
  }

  /** The command named by the word `w`. */
  function VerbOf(w: string): Option<Verb> {
    VerbFrom(w, 0)
  }

  /** The first word of `c` (`c.split()[0]`) routed to a command with the
      rest of `c`, stripped, as its object. */
  function ByWord(c: string): Route {
    match Text.FirstToken(c)
    case None => NoWord
    case Some(w) =>
      match VerbOf(w)
      case Some(v) => Do(v, Text.Strip(c[|w|..]))
      case None => Other
  }

  /** The routing as written: a move for the first direction word the
      command merely starts with, the first word's command otherwise. */
  function RouteAsWritten(c: string): Route {
    match PrefixFrom(c, 0)
    case Some(d) => Go(d)
    case None => ByWord(c)
  }

  /** The routing as the direction table means it: a move when the first
      word is a direction word, the first word's command otherwise. */
  function RouteOf(c: string): Route {
    match Text.FirstToken(c)
    case None => NoWord
    case Some(w) =>
      match WordFrom(w, 0)
      case Some(d) => Go(d)
      case None => ByWord(c)
  }

  // ---------------------------------------------------------------------
  // Handling

  /** A reply that cannot fail. */
  function Replied(a: Answer): (r: Response)
    ensures r.reply == Said(a.text) && r.state == a.state
  {
    Response(Said(a.text), a.state)
  }

  /** `quest_command`: the quest named by the object, or the overview. */
  function QuestsFor(s: State, obj: string): string {
    QuestHandler.QuestInfo(s.log, if obj != "" then Some(Text.Strip(obj)) else None)
  }

  /** The dispatcher as written, or as its tables and handlers are meant
      to work: the first-word routing and the grammar command that lists
      and starts challenges. */
  datatype Version = AsWritten | Intended

  /** The route of the normalised command `c` in the version `ver`. */
  function RouteIn(ver: Version, c: string): Route {
    match ver
    case AsWritten => RouteAsWritten(c)
    case Intended => RouteOf(c)
  }

  /** The command `v` on `obj`; as written, `grammar` raises NameError
      whenever some active quest has an objective. */
  function Handle(s: State, v: Verb, obj: string, env: Env, ver: Version): Response {
    match v
    case Look => Replied(ItemCommands.Look(s, obj, env.now))
    case Take => Replied(ItemCommands.Take(s, obj, env.search))
    case Drop => Replied(ItemCommands.Drop(s, obj, env.search))
    case Inventory => Response(Said(ItemCommands.Inventory(s)), s)
    case Use => ItemCommands.Use(s, obj, env.search)
    case Talk => Replied(Conversation.Talk(s, obj, env.search, env.now))
    case Help => Response(Said(HelpText), s)
    case Quests => Response(Said(QuestsFor(s, obj)), s)
    case Grammar =>
      if ver == AsWritten then GrammarChallenges.GrammarAsWritten(s, obj)
      else Replied(GrammarChallenges.Grammar(s, obj))
  }

  /** The command `c` is counted and remembered with its time. */
  function Record(s: State, c: string, now: string): (r: State)
    ensures r.player.stats.moves == s.player.stats.moves + 1
    ensures r.player.lastCommand == c && r.player.lastCommandTime == now
  {
    s.(player := s.player.(stats := s.player.stats.(moves := s.player.stats.moves + 1),
                           lastCommand := c, lastCommandTime := now))
  }

  /** What follows the routing of the normalised command `c`: a move, a
      command, the answer to a grammar challenge awaiting one, or the
      not-understood reply; no first word raises IndexError. */
  function Respond(s: State, c: string, route: Route, env: Env, ver: Version): Response {
    match route
    case Go(d) => Replied(Movement.Move(s, d, env.search))
    case Do(v, obj) => Handle(s, v, obj, env, ver)
    case NoWord => Response(Raised(IndexError), s)
    case Other =>
      if s.challenge.Some? then Replied(GrammarChallenges.GrammarAnswer(s, c, env.search))
      else Response(Said("I don't understand '" + c + "'. Type 'help' for a list of commands."), s)
  }

  const Prompt := "What would you like to do?"

  /** `process_command`: an empty command only prompts; any other is
      normalised, counted and remembered before it is routed. As written a
      direction word only has to begin the command; as intended it has to
      be the first word. */
  function ProcessCommand(s: State, command: string, env: Env, ver: Version): Response {
    if command == "" then Response(Said(Prompt), s)
    else
      var c := Normalize(command);
      Respond(Record(s, c, env.now), c, RouteIn(ver, c), env, ver)
  }

  // ---------------------------------------------------------------------
  // Properties

  /** Lower-casing keeps whitespace and non-whitespace apart. */
  lemma LowerSpaces(command: string)
    ensures forall i :: 0 <= i < |command| ==> (Text.IsSpace(Text.Lower(command)[i]) <==> Text.IsSpace(command[i]))
  {
  }

  /** A command normalises to nothing exactly when it is all whitespace;
      otherwise it opens with a character that is not. */
  lemma NormalizeBlank(command: string)
    ensures Normalize(command) == "" <==> forall i :: 0 <= i < |command| ==> Text.IsSpace(command[i])
    ensures Normalize(command) != "" ==> !Text.IsSpace(Normalize(command)[0])
  {
    var l := Text.Lower(command);
    LowerSpaces(command);
    var a :| Text.TrimmedFrom(l, Normalize(command), a);
    if Normalize(command) == "" {
      forall i | 0 <= i < |command| ensures Text.IsSpace(command[i]) {
        assert Text.IsSpace(l[i]);
      }
    } else {
      assert l[a] == Normalize(command)[0];
    }
  }

  /** A normalised command that is not empty has a first word, and the
      object is what follows it. */
  lemma FirstWordOf(command: string)
    requires Normalize(command) != ""
    ensures var c := Normalize(command);
            Text.FirstToken(c) == Some(Text.TakeWord(c))
  {
    NormalizeBlank(command);
  }

  /** The prefix scan finds a direction word the command starts with, and
      finds none only when there is none. */
  lemma {:induction false} PrefixFromSound(c: string, i: nat)
    requires i <= |DirectionWords|
    ensures var r := PrefixFrom(c, i);
            (r.None? <==> forall k :: i <= k < |DirectionWords| ==> !Text.StartsWith(c, DirectionWords[k].0))
            && (r.Some? ==> exists k :: i <= k < |DirectionWords| && Text.StartsWith(c, DirectionWords[k].0)
                                        && DirectionWords[k].1 == r.value)
    decreases |DirectionWords| - i
  {
    if i < |DirectionWords| && !Text.StartsWith(c, DirectionWords[i].0) {
      PrefixFromSound(c, i + 1);
    }
  }

  /** The word scan finds the direction of a direction word equal to the
      word, and finds none only when there is none. */
  lemma {:induction false} WordFromSound(w: string, i: nat)
    requires i <= |DirectionWords|
    ensures var r := WordFrom(w, i);
            (r.None? <==> forall k :: i <= k < |DirectionWords| ==> DirectionWords[k].0 != w)
            && (r.Some? ==> exists k :: i <= k < |DirectionWords| && DirectionWords[k] == (w, r.value))
    decreases |DirectionWords| - i
  {
    if i < |DirectionWords| && DirectionWords[i].0 != w {
      WordFromSound(w, i + 1);
    }
  }

  /** The command scan finds a command listing the word, and finds none
      only when no command lists it. */
  lemma {:induction false} VerbFromSound(w: string, i: nat)
    requires i <= |VerbWords|
    ensures var r := VerbFrom(w, i);
            (r.None? <==> forall k :: i <= k < |VerbWords| ==> w !in VerbWords[k].1)
            && (r.Some? ==> exists k :: i <= k < |VerbWords| && w in VerbWords[k].1 && VerbWords[k].0 == r.value)
    decreases |VerbWords| - i
  {
    if i < |VerbWords| && w !in VerbWords[i].1 {
      VerbFromSound(w, i + 1);
    }
  }

  /** In either version, a command has no first word exactly when it is
      all whitespace. */
  lemma RouteNoWord(ver: Version, c: string)
    ensures RouteIn(ver, c) == NoWord <==> forall i :: 0 <= i < |c| ==> Text.IsSpace(c[i])
  {
    if ver == AsWritten && PrefixFrom(c, 0).Some? {
      PrefixNotBlank(c);
    }
  }

  /** A command in which the prefix scan finds a direction word does not
      open with whitespace. */
  lemma PrefixNotBlank(c: string)
    requires PrefixFrom(c, 0).Some?
    ensures |c| > 0 && !Text.IsSpace(c[0])
  {
    MovesStart(c);
    if c[0] in "nsewud" {
      LetterNotSpace(c[0]);
    } else if Text.StartsWith(c, "inside") {
      assert c[0] == "inside"[0];
    } else {
      assert c[0] == "outside"[0];
    }
  }

  lemma LetterNotSpace(x: char)
    requires x in "nsewud"
    ensures !Text.IsSpace(x)
  {
    var i :| 0 <= i < 6 && "nsewud"[i] == x;
  }

  /** Every command keeps the player's bookkeeping to the dispatcher and
      makes the state evolve. */
  lemma HandleSteps(s: State, v: Verb, obj: string, env: Env, ver: Version)
    requires Good(s)
    ensures var r := Handle(s, v, obj, env, ver);
            Evolves(s, r.state) && KeepsCommand(s, r.state)
  {
    if v.Look? || v.Take? || v.Drop? || v.Inventory? || v.Use? {
      HandleItemSteps(s, v, obj, env, ver);
    } else {
      HandleTalkSteps(s, v, obj, env, ver);
    }
  }

  /** The item commands: looking, taking, dropping, the inventory and
      using. */
  lemma HandleItemSteps(s: State, v: Verb, obj: string, env: Env, ver: Version)
    requires Good(s) && (v.Look? || v.Take? || v.Drop? || v.Inventory? || v.Use?)
    ensures var r := Handle(s, v, obj, env, ver);
            Evolves(s, r.state) && KeepsCommand(s, r.state)
  {
    match v
    case Look => ItemCommands.LookFacts(s, obj, env.now);
    case Take =>
      if obj == "" || ItemCommands.TakeTarget(s, obj).None? {
        ItemCommands.TakeNothing(s, obj, env.search);
      } else {
        ItemCommands.TakeSomething(s, obj, env.search);
      }
    case Drop =>
      if obj == "" || ItemCommands.DropTarget(s, obj).None? {
        ItemCommands.DropNothing(s, obj, env.search);
      } else {
        ItemCommands.DropSomething(s, obj, env.search);
      }
    case Inventory =>
    case Use => ItemCommands.UseFacts(s, obj, env.search);
  }

  /** Talking, help, the quest overview and grammar challenges (which, as
      written, change nothing). */
  lemma HandleTalkSteps(s: State, v: Verb, obj: string, env: Env, ver: Version)
    requires Good(s) && (v.Talk? || v.Help? || v.Quests? || v.Grammar?)
    ensures var r := Handle(s, v, obj, env, ver);
            Evolves(s, r.state) && KeepsCommand(s, r.state)
  {
    match v
    case Talk => TalkSteps(s, obj, env);
    case Help =>
    case Quests =>
    case Grammar =>
      if ver == AsWritten {
      } else if obj == "" {
        GrammarChallenges.GrammarLists(s);
      } else {
        GrammarChallenges.GrammarStarts(s, obj);
      }
  }

  /** Talking to someone or to nobody. */
  lemma TalkSteps(s: State, obj: string, env: Env)
    requires Good(s)
    ensures var a := Conversation.Talk(s, obj, env.search, env.now);
            Evolves(s, a.state) && KeepsCommand(s, a.state)
  {
    if obj == "" || s.player.currentLocation !in s.world.locations.vals || Conversation.Listener(s, obj).None? {
      Conversation.TalkToNobody(s, obj, env.search, env.now);
    } else {
      Conversation.TalkQuests(s, obj, env.search, env.now);
    }
  }

  /** Among the commands only `use` raises, AttributeError, and, as
      written, `grammar`, NameError, exactly when some active quest has an
      objective; the intended `grammar` never raises. */
  lemma HandleRaises(s: State, v: Verb, obj: string, env: Env, ver: Version)
    ensures var r := Handle(s, v, obj, env, ver);
            (r.reply.Raised? ==>
               (v == Use && r.reply == Raised(AttributeError))
               || (v == Grammar && ver == AsWritten && r.reply == Raised(NameError)))
            && (v == Grammar && ver == AsWritten ==>
                  (r.reply == Raised(NameError) <==> GrammarChallenges.AnyObjective(s.log.active)))
  {
    if v == Use {
      ItemCommands.UseRaises(s, obj, env.search);
    }
  }

  /** Whatever the route, the state evolves and the bookkeeping stays. */
  lemma RespondSteps(s: State, c: string, route: Route, env: Env, ver: Version)
    requires Good(s)
    ensures var r := Respond(s, c, route, env, ver);
            Evolves(s, r.state) && KeepsCommand(s, r.state)
  {
    match route
    case Go(d) =>
      assert Respond(s, c, route, env, ver) == Replied(Movement.Move(s, d, env.search));
      Movement.MoveArrives(s, d, env.search);
    case Do(v, obj) =>
      assert Respond(s, c, route, env, ver) == Handle(s, v, obj, env, ver);
      HandleSteps(s, v, obj, env, ver);
    case NoWord =>
    case Other =>
      if s.challenge.Some? {
        assert Respond(s, c, route, env, ver) == Replied(GrammarChallenges.GrammarAnswer(s, c, env.search));
        GrammarChallenges.GrammarAnswerSteps(s, c, env.search);
      }
  }

  /** Only a missing first word raises IndexError; the only other
      exceptions are AttributeError from `use` and, as written, NameError
      from `grammar`. */
  lemma RespondRaises(s: State, c: string, route: Route, env: Env, ver: Version)
    ensures var r := Respond(s, c, route, env, ver);
            (r.reply == Raised(IndexError) <==> route == NoWord)
            && (r.reply.Raised? && route != NoWord ==>
                  route.Do? && ((route.verb == Use && r.reply == Raised(AttributeError))
                                || (route.verb == Grammar && ver == AsWritten && r.reply == Raised(NameError))))
            && (route.Do? && route.verb == Grammar && ver == AsWritten ==>
                  (r.reply == Raised(NameError) <==> GrammarChallenges.AnyObjective(s.log.active)))
  {
    if route.Do? {
      HandleRaises(s, route.verb, route.obj, env, ver);
    }
  }

  /** `process_command`, as written or as intended: an empty command only
      prompts; any other command is counted once, remembered in its
      normalised form with its time, and the state evolves. */
  lemma ProcessCommandSteps(s: State, command: string, env: Env, ver: Version)
    requires Good(s)
    ensures var r := ProcessCommand(s, command, env, ver);
            Evolves(s, r.state)
            && (command == "" ==> r == Response(Said(Prompt), s))
            && (command != "" ==>
                  r.state.player.stats.moves == s.player.stats.moves + 1
                  && r.state.player.lastCommand == Normalize(command)
                  && r.state.player.lastCommandTime == env.now)
  {
    if command != "" {
      var c := Normalize(command);
      var s1 := Record(s, c, env.now);
      assert Evolves(s, s1);
      RespondSteps(s1, c, RouteIn(ver, c), env, ver);
      EvolvesTrans(s, s1, ProcessCommand(s, command, env, ver).state);
    }
  }

  /** A command raises IndexError exactly when it is nothing but
      whitespace. The only other exceptions are AttributeError from `use`
      and, as written, NameError from `grammar`, which a command routed to
      `grammar` raises exactly when some active quest has an objective. */
  lemma ProcessCommandRaises(s: State, command: string, env: Env, ver: Version)
    ensures var r := ProcessCommand(s, command, env, ver);
            var route := RouteIn(ver, Normalize(command));
            (r.reply == Raised(IndexError) <==> command != "" && forall i :: 0 <= i < |command| ==> Text.IsSpace(command[i]))
            && (r.reply.Raised? && r.reply.error != IndexError ==>
                  route.Do? && ((route.verb == Use && r.reply.error == AttributeError)
                                || (route.verb == Grammar && ver == AsWritten && r.reply.error == NameError)))
            && (command != "" && route.Do? && route.verb == Grammar && ver == AsWritten ==>
                  (r.reply == Raised(NameError) <==> GrammarChallenges.AnyObjective(s.log.active)))
  {
    if command != "" {
      var c := Normalize(command);
      NormalizeBlank(command);
      RouteNoWord(ver, c);
      assert RouteIn(ver, c) == NoWord <==> c == "";
      RespondRaises(Record(s, c, env.now), c, RouteIn(ver, c), env, ver);
    }
  }

  /** As written, the command "grammar" raises NameError as soon as some
      active quest has an objective; as intended it answers. */
  lemma GrammarCommandRaises(s: State, env: Env)
    requires GrammarChallenges.AnyObjective(s.log.active)
    ensures ProcessCommand(s, "grammar", env, AsWritten).reply == Raised(NameError)
    ensures ProcessCommand(s, "grammar", env, Intended).reply.Said?
  {
    NormalizeLowerWord("grammar");
    GrammarRouted();
    var s1 := Record(s, "grammar", env.now);
    RespondGrammar(s1, "grammar", "", env);
    assert s1.log == s.log;
  }

  /** A command routed to `grammar` runs the grammar command of its
      version. */
  lemma RespondGrammar(s: State, c: string, obj: string, env: Env)
    ensures Respond(s, c, Do(Grammar, obj), env, AsWritten) == GrammarChallenges.GrammarAsWritten(s, obj)
    ensures Respond(s, c, Do(Grammar, obj), env, Intended) == Replied(GrammarChallenges.Grammar(s, obj))
  {
    assert Respond(s, c, Do(Grammar, obj), env, AsWritten) == Handle(s, Grammar, obj, env, AsWritten);
    assert Respond(s, c, Do(Grammar, obj), env, Intended) == Handle(s, Grammar, obj, env, Intended);
  }

  /** A word of lower-case letters is its own normal form. */
  lemma NormalizeLowerWord(w: string)
    requires |w| > 0 && forall i :: 0 <= i < |w| ==> 'a' <= w[i] <= 'z'
    ensures Normalize(w) == w
  {
    var l := Text.Lower(w);
    assert forall i :: 0 <= i < |w| ==> l[i] == w[i];
    assert l == w;
    assert !Text.IsSpace(w[0]) && !Text.IsSpace(w[|w| - 1]);
    assert Text.StripLeft(w) == w;
    assert Text.StripRight(w) == w;
  }

  /** "grammar" is routed to `Grammar` in both versions. */
  lemma GrammarRouted()
    ensures RouteAsWritten("grammar") == Do(Grammar, "") && RouteOf("grammar") == Do(Grammar, "")
  {
    FirstWordIs("grammar", "grammar");
    GrammarRoutedWord();
    GrammarVerb();
    RouteOfVerb("grammar", "grammar", Grammar);
    GrammarNoPrefix();
  }

  lemma GrammarRoutedWord()
    ensures WordFrom("grammar", 0).None?
  {
    assert WordFrom("grammar", 8).None?;
  }

  lemma GrammarVerb()
    ensures VerbOf("grammar") == Some(Grammar)
  {
    assert VerbFrom("grammar", 8) == Some(Grammar);
  }

  /** No direction word begins "grammar". */
  lemma GrammarNoPrefix()
    ensures PrefixFrom("grammar", 0).None?
  {
    var c := "grammar";
    assert c[0] !in "nsewud";
    assert c[..6] != "inside" && c[..7] != "outside" by {
      assert c[..6][0] == 'g' && c[..7][0] == 'g';
    }
    if PrefixFrom(c, 0).Some? {
      MovesStart(c);
      assert false;
    }
  }

  /** As written, every command that merely begins with one of the letters
      n, s, e, w, u, d, or with "inside" or "outside", is a move. */
  lemma AsWrittenMoves(c: string)
    ensures RouteAsWritten(c).Go? <==>
            |c| > 0 && (c[0] in "nsewud" || Text.StartsWith(c, "inside") || Text.StartsWith(c, "outside"))
  {
    if PrefixFrom(c, 0).Some? {
      MovesStart(c);
    } else if |c| > 0 && (c[0] in "nsewud" || Text.StartsWith(c, "inside") || Text.StartsWith(c, "outside")) {
      PrefixMoves(c);
    }
  }

  /** Where the prefix scan finds a direction word, the command begins with
      one of the letters, or with "inside" or "outside". */
  lemma MovesStart(c: string)
    requires PrefixFrom(c, 0).Some?
    ensures |c| > 0 && (c[0] in "nsewud" || Text.StartsWith(c, "inside") || Text.StartsWith(c, "outside"))
  {
    PrefixFromSound(c, 0);
    var k :| 0 <= k < |DirectionWords| && Text.StartsWith(c, DirectionWords[k].0);
    DirectionWordStart(c, k);
  }

  /** A command beginning with a direction word begins with one of the
      letters, or with "inside" or "outside". */
  lemma DirectionWordStart(c: string, k: nat)
    requires k < |DirectionWords| && Text.StartsWith(c, DirectionWords[k].0)
    ensures |c| > 0 && (c[0] in "nsewud" || Text.StartsWith(c, "inside") || Text.StartsWith(c, "outside"))
  {
    assert c[0] == DirectionWords[k].0[0];
  }

  /** A command beginning with one of the letters, or with "inside" or
      "outside", is a move as written. */
  lemma PrefixMoves(c: string)
    requires |c| > 0 && (c[0] in "nsewud" || Text.StartsWith(c, "inside") || Text.StartsWith(c, "outside"))
    ensures PrefixFrom(c, 0).Some?
  {
    DirectionSpellings();
    if c[0] in "nsewud" {
      assert "nsewud"[0..] == "nsewud";
      LetterFinds(c, 0);
    } else if Text.StartsWith(c, "inside") {
      ScanFinds(c, 0, 12);
    } else {
      ScanFinds(c, 0, 13);
    }
  }

  /** The one-letter direction words are the letters n, s, e, w, u, d in
      that order, followed later by "inside" and "outside". */
  lemma DirectionSpellings()
    ensures forall i :: 0 <= i < 6 ==> DirectionWords[i].0 == ["nsewud"[i]]
    ensures DirectionWords[12].0 == "inside" && DirectionWords[13].0 == "outside"
  {
    LetterSpellings();
  }

  lemma LetterSpellings()
    ensures DirectionWords[0].0 == "n" && DirectionWords[1].0 == "s"
    ensures DirectionWords[2].0 == "e" && DirectionWords[3].0 == "w"
    ensures DirectionWords[4].0 == "u" && DirectionWords[5].0 == "d"
  {
  }

  /** The prefix scan from `i` on finds a direction for a command that
      begins with one of the letters from position `i` of "nsewud" on. */
  lemma {:induction false} LetterFinds(c: string, i: nat)
    requires i < 6 && |c| > 0 && c[0] in "nsewud"[i..]
    ensures PrefixFrom(c, i).Some?
    decreases 6 - i
  {
    DirectionSpellings();
    if c[0] == "nsewud"[i] {
      assert Text.StartsWith(c, DirectionWords[i].0);
    } else {
      assert c[0] in "nsewud"[i + 1..];
      LetterFinds(c, i + 1);
    }
  }

  /** The prefix scan from `i` on finds a direction for a command that
      begins with the direction word `k`. */
  lemma {:induction false} ScanFinds(c: string, i: nat, k: nat)
    requires i <= k < |DirectionWords| && Text.StartsWith(c, DirectionWords[k].0)
    ensures PrefixFrom(c, i).Some?
    decreases k - i
  {
    if i < k && !Text.StartsWith(c, DirectionWords[i].0) {
      ScanFinds(c, i + 1, k);
    }
  }

  /** As written, the one-letter direction words come first, so a command
      beginning with one of those letters moves that way whatever follows. */
  lemma {:induction false} AsWrittenLetter(c: string, k: nat)
    requires k < 6 && |c| > 0 && c[0] == DirectionWords[k].0[0]
    ensures RouteAsWritten(c) == Go(DirectionWords[k].1)
  {
    LetterScan(c, 0, k);
  }

  /** The prefix scan from `i` on reaches the one-letter word `k` first. */
  lemma {:induction false} LetterScan(c: string, i: nat, k: nat)
    requires i <= k < 6 && |c| > 0 && c[0] == DirectionWords[k].0[0]
    ensures PrefixFrom(c, i) == Some(DirectionWords[k].1)
    decreases k - i
  {
    if i == k {
      assert c[..1] == DirectionWords[k].0;
    } else {
      assert DirectionWords[i].0[0] != c[0];
      LetterScan(c, i + 1, k);
    }
  }

  /** Commands the direction table as written sends the wrong way: verbs
      that begin with a direction letter become moves, and "enter" and
      "exit" both go east. */
  lemma ShadowedVerbs()
    ensures RouteAsWritten("use") == Go(Up) && RouteAsWritten("drop") == Go(Down)
    ensures RouteAsWritten("examine") == Go(East) && RouteAsWritten("speak") == Go(South)
    ensures RouteAsWritten("enter") == Go(East) && RouteAsWritten("exit") == Go(East)
  {
    AsWrittenLetter("use", 4);
    AsWrittenLetter("drop", 5);
    AsWrittenLetter("examine", 2);
    AsWrittenLetter("speak", 1);
    AsWrittenLetter("enter", 2);
    AsWrittenLetter("exit", 2);
  }

  /** The first-word routing sends the same verbs to their commands. */
  lemma VerbsRouted()
    ensures RouteOf("use") == Do(Use, "") && RouteOf("drop") == Do(Drop, "")
    ensures RouteOf("examine") == Do(Look, "") && RouteOf("speak") == Do(Talk, "")
  {
    UseRouted();
    DropRouted();
    ExamineRouted();
    SpeakRouted();
  }

  /** "use" is routed to `Use`. */
  lemma UseRouted()
    ensures RouteOf("use") == Do(Use, "")
  {
    FirstWordIs("use", "use");
    UseRoutedWord();
    RouteOfVerb("use", "use", Use);
  }

  lemma UseRoutedWord()
    ensures WordFrom("use", 0).None? && VerbOf("use") == Some(Use)
  {
    assert WordFrom("use", 8).None?;
  }

  /** "drop" is routed to `Drop`. */
  lemma DropRouted()
    ensures RouteOf("drop") == Do(Drop, "")
  {
    FirstWordIs("drop", "drop");
    DropRoutedWord();
    RouteOfVerb("drop", "drop", Drop);
  }

  lemma DropRoutedWord()
    ensures WordFrom("drop", 0).None? && VerbOf("drop") == Some(Drop)
  {
    assert WordFrom("drop", 8).None?;
  }

  /** "examine" is routed to `Look`. */
  lemma ExamineRouted()
    ensures RouteOf("examine") == Do(Look, "")
  {
    FirstWordIs("examine", "examine");
    ExamineRoutedWord();
    RouteOfVerb("examine", "examine", Look);
  }

  lemma ExamineRoutedWord()
    ensures WordFrom("examine", 0).None? && VerbOf("examine") == Some(Look)
  {
    assert WordFrom("examine", 8).None?;
  }

  /** "speak" is routed to `Talk`. */
  lemma SpeakRouted()
    ensures RouteOf("speak") == Do(Talk, "")
  {
    FirstWordIs("speak", "speak");
    SpeakRoutedWord();
    RouteOfVerb("speak", "speak", Talk);
  }

  lemma SpeakRoutedWord()
    ensures WordFrom("speak", 0).None? && VerbOf("speak") == Some(Talk)
  {
    assert WordFrom("speak", 8).None?;
  }

  /** A command whose first word names a command and no direction. */
  lemma RouteOfVerb(c: string, w: string, v: Verb)
    requires Text.FirstToken(c) == Some(w) && WordFrom(w, 0).None? && VerbOf(w) == Some(v)
    ensures RouteOf(c) == Do(v, Text.Strip(c[|w|..]))
  {
  }

  /** The first-word routing sends "enter" in and "exit" out. */
  lemma DirectionsRouted()
    ensures RouteOf("enter") == Go(In) && RouteOf("exit") == Go(Out)
  {
    EnterRouted();
    ExitRouted();
  }

  /** "enter" is a move in. */
  lemma EnterRouted()
    ensures RouteOf("enter") == Go(In)
  {
    FirstWordIs("enter", "enter");
    EnterRoutedWord();
    RouteOfDirection("enter", "enter", In);
  }

  lemma EnterRoutedWord()
    ensures WordFrom("enter", 0) == Some(In)
  {
    assert WordFrom("enter", 8) == Some(In);
  }

  /** "exit" is a move out. */
  lemma ExitRouted()
    ensures RouteOf("exit") == Go(Out)
  {
    FirstWordIs("exit", "exit");
    ExitRoutedWord();
    RouteOfDirection("exit", "exit", Out);
  }

  lemma ExitRoutedWord()
    ensures WordFrom("exit", 0) == Some(Out)
  {
    assert WordFrom("exit", 8) == Some(Out);
  }

  /** A command whose first word is a direction word. */
  lemma RouteOfDirection(c: string, w: string, d: Direction)
    requires Text.FirstToken(c) == Some(w) && WordFrom(w, 0) == Some(d)
    ensures RouteOf(c) == Go(d)
  {
  }

  /** The first word of a command that begins with the word `w` and then
      a space or nothing. */
  lemma FirstWordIs(c: string, w: string)
    requires |w| > 0 && Text.NoSpace(w) && Text.StartsWith(c, w)
    requires |c| == |w| || Text.IsSpace(c[|w|])
    ensures Text.FirstToken(c) == Some(w)
  {
    assert !Text.IsSpace(c[0]);
  }

  /** Where no direction word begins the command, both routings agree. */
  lemma RoutesAgree(c: string)
    requires |c| > 0 && !Text.IsSpace(c[0]) && PrefixFrom(c, 0).None?
    ensures RouteAsWritten(c) == RouteOf(c)
  {
    var w := Text.TakeWord(c);
    PrefixFromSound(c, 0);
    WordFromSound(w, 0);
    if WordFrom(w, 0).Some? {
      var k :| 0 <= k < |DirectionWords| && DirectionWords[k] == (w, WordFrom(w, 0).value);
      assert Text.StartsWith(c, DirectionWords[k].0);
      assert false;
    }
  }

  // ---------------------------------------------------------------------
  // The dispatcher on the game state

  /** The direction table searched, in order, for a word the command
      starts with. */
  method FindDirection(c: string) returns (d: Option<Direction>)
    ensures d == PrefixFrom(c, 0)
  {
    for i := 0 to |DirectionWords|
      invariant PrefixFrom(c, 0) == PrefixFrom(c, i)
    {
      if Text.StartsWith(c, DirectionWords[i].0) {
        return Some(DirectionWords[i].1);
      }
    }
    return None;
  }

  /** The command table searched for the first word. */
  method FindVerb(w: string) returns (v: Option<Verb>)
    ensures v == VerbOf(w)
  {
    for i := 0 to |VerbWords|
      invariant VerbOf(w) == VerbFrom(w, i)
    {
      if w in VerbWords[i].1 {
        return Some(VerbWords[i].0);
      }
    }
    return None;
  }

  /** The handler of the command `v` run on the game state, as written. */
  method RunVerb(gs: GameState, v: Verb, obj: string, env: Env) returns (reply: Reply)
    modifies gs
    ensures var r := Handle(old(Snapshot(gs)), v, obj, env, AsWritten);
            Snapshot(gs) == r.state && reply == r.reply
    ensures KeepsMeta(gs)
  {
    if v == Use {
      reply := ItemCommands.UseCommand(gs, obj, env.search);
      return;
    }
    if v == Grammar {
      reply := GrammarChallenges.GrammarChallengeCommandAsWritten(gs, obj);
      return;
    }
    var text: string;
    match v {
    case Look => text := ItemCommands.LookCommand(gs, obj, env.now);
    case Take => text := ItemCommands.TakeCommand(gs, obj, env.search);
    case Drop => text := ItemCommands.DropCommand(gs, obj, env.search);
    case Inventory => text := ItemCommands.InventoryCommand(gs);
    case Talk => text := Conversation.TalkCommand(gs, obj, env.search, env.now);
    case Help => text := HelpText;
    case Quests => text := QuestHandler.GetQuestInfo(gs.questLog, if obj != "" then Some(Text.Strip(obj)) else None);
    }
    reply := Said(text);
  }

  /** The route of a normalised command as written: the direction words the
      command may start with, then the first word among the command
      words. */
  method RouteCommand(c: string) returns (route: Route)
    ensures route == RouteAsWritten(c)
  {
    var d := FindDirection(c);
    if d.Some? {
      return Go(d.value);
    }
    var first := Text.FirstToken(c);
    if first.None? {
      return NoWord;
    }
    var w := first.value;
    var v := FindVerb(w);
    if v.Some? {
      return Do(v.value, Text.Strip(c[|w|..]));
    }
    return Other;
  }

  /** What follows the routing, on the game state, as written. */
  method RespondOn(gs: GameState, c: string, route: Route, env: Env) returns (reply: Reply)
    modifies gs
    ensures var r := Respond(old(Snapshot(gs)), c, route, env, AsWritten);
            Snapshot(gs) == r.state && reply == r.reply
    ensures KeepsMeta(gs)
  {
    match route {
    case Go(d) =>
      var text := Movement.MovePlayer(gs, d, env.search);
      reply := Said(text);
    case Do(v, obj) =>
      reply := RunVerb(gs, v, obj, env);
    case NoWord =>
      reply := Raised(IndexError);
    case Other =>
      if gs.activeGrammarChallenge.Some? {
        var text := GrammarChallenges.ProcessGrammarAnswer(gs, c, env.search);
        reply := Said(text);
      } else {
        reply := Said("I don't understand '" + c + "'. Type 'help' for a list of commands.");
      }
    }
  }

  /** `process_command` on the game state, as written. */
  method ProcessCommandOn(gs: GameState, command: string, env: Env) returns (reply: Reply)
    modifies gs
    ensures var r := ProcessCommand(old(Snapshot(gs)), command, env, AsWritten);
            Snapshot(gs) == r.state && reply == r.reply
    ensures KeepsMeta(gs)
  {
    if command == "" {
      return Said(Prompt);
    }
    var c := Normalize(command);
    ghost var recorded := Record(Snapshot(gs), c, env.now);
    gs.player := gs.player.(stats := gs.player.stats.(moves := gs.player.stats.moves + 1),
                            lastCommand := c, lastCommandTime := env.now);
    assert Snapshot(gs) == recorded;
    var route := RouteCommand(c);
    assert route == RouteIn(AsWritten, c);
    reply := RespondOn(gs, c, route, env);
  }
}
