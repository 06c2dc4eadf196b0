/** Grammar challenges: listing the open grammar objectives of the active
    quests, starting one, and answering the one started. */
module GrammarChallenges {

  import opened Wrappers
  import Dicts
  import Text
  import opened QuestModels
  import opened GameModels
  import QuestHandler
  import opened EngineState

  /** An open grammar objective together with the key and title of the
      active quest it belongs to. */
  datatype Challenge = Challenge(questId: string, title: string, objective: QuestObjective)

  /** A grammar objective not yet completed. */
  predicate Open(o: QuestObjective) {
    o.objType == GrammarChallenge && !o.completed
  }

  /** The open grammar objectives among the first `n` objectives of the
      quest `questId`, in order. */
  function Opens(questId: string, title: string, objectives: seq<QuestObjective>, n: nat): seq<Challenge>
    requires n <= |objectives|
  {
    if n == 0 then []
    else
      var rest := Opens(questId, title, objectives, n - 1);
      var o := objectives[n - 1];
      if Open(o) then rest + [Challenge(questId, title, o)] else rest
  }

  /** The open grammar objectives of the first `n` active quests, quest by
      quest in the order of the active bucket. */
  function Pending(active: Dicts.Dict<string, Quest>, n: nat): seq<Challenge>
    requires n <= |active.keys|
  {
    if n == 0 then []
    else
      var rest := Pending(active, n - 1);
      var k := active.keys[n - 1];
      if k in active.vals then
        var q := active.vals[k];
        rest + Opens(k, q.title, q.objectives, |q.objectives|)
      else rest
  }

  /** All open grammar objectives of the active quests. */
  function AllPending(log: QuestLog): seq<Challenge> {
    Pending(log.active, |log.active.keys|)
  }

  /** The first challenge in `cs` whose target is `id`. */
  function FirstFor(cs: seq<Challenge>, id: string): (r: Option<Challenge>)
    ensures r.None? <==> forall c :: c in cs ==> c.objective.targetId != id
    ensures r.Some? ==> r.value in cs && r.value.objective.targetId == id
  {
    if cs == [] then None
    else if cs[0].objective.targetId == id then Some(cs[0])
    else FirstFor(cs[1..], id)
  }

  const NoChallenges := "You don't have any active grammar challenges."

  /** The two lines listing the `i`-th challenge. */
  function Entry(i: nat, c: Challenge): string {
    Text.NatToString(i) + ". " + c.objective.description + " (Quest: " + c.title + ")\n"
    + "   Type 'grammar " + c.objective.targetId + "' to start\n"
  }

  /** The entries of the first `n` challenges, numbered from one. */
  function Entries(cs: seq<Challenge>, n: nat): string
    requires n <= |cs|
  {
    if n == 0 then "" else Entries(cs, n - 1) + Entry(n, cs[n - 1])
  }

  /** The prompt of an objective, or a stock one. */
  function Prompt(o: QuestObjective): string {
    if o.properties.prompt.Some? then o.properties.prompt.value else "Complete the grammar challenge"
  }

  /** The reference recorded when the challenge `c` is started. */
  function RefTo(c: Challenge): GrammarChallengeRef {
    GrammarChallengeRef(c.questId, c.objective.id, c.objective.targetId)
  }

  /** `grammar_challenge_command` as it is meant to work: with no id, the
      list of open challenges; with an id, the first open challenge with
      that target is started. Nothing else changes. */
  function Grammar(s: State, id: string): Answer {
    var cs := AllPending(s.log);
    if id == "" then
      Answer(if cs == [] then NoChallenges else "Available grammar challenges:\n" + Entries(cs, |cs|), s)
    else
      match FirstFor(cs, id)
      case Some(c) =>
        Answer("Grammar Challenge: " + c.objective.description + "\n\n" + Prompt(c.objective),
               s.(challenge := Some(RefTo(c))))
      case None => Answer("Grammar challenge '" + id + "' not found or already completed.", s)
  }

  /** Some active quest has at least one objective. */
  predicate AnyObjective(active: Dicts.Dict<string, Quest>) {
    exists i :: 0 <= i < |active.keys| && active.keys[i] in active.vals
                && |active.vals[active.keys[i]].objectives| > 0
  }

  /** `grammar_challenge_command` as written: the objective type it
      compares with is not imported in its module, so the comparison with
      the first objective of any active quest raises NameError. Without any
      objective in reach only the two empty-handed answers remain. */
  function GrammarAsWritten(s: State, id: string): (r: Response)
    ensures r.state == s
  {
    if AnyObjective(s.log.active) then Response(Raised(NameError), s)
    else if id == "" then Response(Said(NoChallenges), s)
    else Response(Said("Grammar challenge '" + id + "' not found or already completed."), s)
  }

  // ---------------------------------------------------------------------
  // Properties

  /** Only open grammar objectives of active quests are pending, each with
      its quest's key and title. */
  lemma {:induction false} PendingSound(active: Dicts.Dict<string, Quest>, n: nat)
    requires n <= |active.keys|
    ensures forall c :: c in Pending(active, n) ==>
              c.questId in active.keys[..n] && c.questId in active.vals
              && c.title == active.vals[c.questId].title && Open(c.objective)
              && c.objective in active.vals[c.questId].objectives
  {
    if n > 0 {
      PendingSound(active, n - 1);
      assert active.keys[..n] == active.keys[..n - 1] + [active.keys[n - 1]];
      var k := active.keys[n - 1];
      if k in active.vals {
        var q := active.vals[k];
        OpensSound(k, q.title, q.objectives, |q.objectives|);
        assert q.objectives[..|q.objectives|] == q.objectives;
      }
    }
  }

  lemma {:induction false} OpensSound(questId: string, title: string, objectives: seq<QuestObjective>, n: nat)
    requires n <= |objectives|
    ensures forall c :: c in Opens(questId, title, objectives, n) ==>
              c.questId == questId && c.title == title && Open(c.objective) && c.objective in objectives[..n]
  {
    if n > 0 {
      OpensSound(questId, title, objectives, n - 1);
      assert objectives[..n] == objectives[..n - 1] + [objectives[n - 1]];
    }
  }

  /** Every open grammar objective of an active quest is pending. */
  lemma {:induction false} PendingComplete(active: Dicts.Dict<string, Quest>, n: nat, i: nat, j: nat)
    requires n <= |active.keys| && i < n && active.keys[i] in active.vals
    requires j < |active.vals[active.keys[i]].objectives| && Open(active.vals[active.keys[i]].objectives[j])
    ensures var q := active.vals[active.keys[i]];
            Challenge(active.keys[i], q.title, q.objectives[j]) in Pending(active, n)
  {
    if i < n - 1 {
      PendingComplete(active, n - 1, i, j);
    } else {
      var q := active.vals[active.keys[i]];
      OpensComplete(active.keys[i], q.title, q.objectives, |q.objectives|, j);
    }
  }

  lemma {:induction false} OpensComplete(questId: string, title: string, objectives: seq<QuestObjective>, n: nat, j: nat)
    requires n <= |objectives| && j < n && Open(objectives[j])
    ensures Challenge(questId, title, objectives[j]) in Opens(questId, title, objectives, n)
  {
    if j < n - 1 {
      OpensComplete(questId, title, objectives, n - 1, j);
    }
  }

  /** The pending challenges of fewer quests come first. */
  lemma {:induction false} PendingPrefix(active: Dicts.Dict<string, Quest>, i: nat, n: nat)
    requires i <= n <= |active.keys|
    ensures Pending(active, i) <= Pending(active, n)
    decreases n - i
  {
    if i < n {
      PendingPrefix(active, i, n - 1);
    }
  }

  lemma {:induction false} OpensPrefix(questId: string, title: string, objectives: seq<QuestObjective>, i: nat, n: nat)
    requires i <= n <= |objectives|
    ensures Opens(questId, title, objectives, i) <= Opens(questId, title, objectives, n)
    decreases n - i
  {
    if i < n {
      OpensPrefix(questId, title, objectives, i, n - 1);
    }
  }

  /** The first match in a list is the first match of any longer list it
      begins. */
  lemma {:induction false} FirstForPrefix(xs: seq<Challenge>, ys: seq<Challenge>, id: string)
    requires xs <= ys && FirstFor(xs, id).Some?
    ensures FirstFor(ys, id) == FirstFor(xs, id)
  {
    if xs[0].objective.targetId != id {
      assert xs[1..] <= ys[1..];
      FirstForPrefix(xs[1..], ys[1..], id);
    }
  }

  /** A list whose only match is its last element finds that element. */
  lemma {:induction false} FirstForLast(xs: seq<Challenge>, c: Challenge, id: string)
    requires forall x :: x in xs ==> x.objective.targetId != id
    requires c.objective.targetId == id
    ensures FirstFor(xs + [c], id) == Some(c)
  {
    if xs != [] {
      assert (xs + [c])[1..] == xs[1..] + [c];
      FirstForLast(xs[1..], c, id);
    }
  }

  /** Nothing in front without a match: the first match is the one after
      it. */
  lemma {:induction false} FirstForAfter(xs: seq<Challenge>, ys: seq<Challenge>, id: string)
    requires forall x :: x in xs ==> x.objective.targetId != id
    ensures FirstFor(xs + ys, id) == FirstFor(ys, id)
  {
    if xs != [] {
      assert (xs + ys)[0] == xs[0] && (xs + ys)[1..] == xs[1..] + ys;
      assert xs[0] in xs;
      forall x | x in xs[1..] ensures x.objective.targetId != id {
        assert x in xs;
      }
      FirstForAfter(xs[1..], ys, id);
    } else {
      assert xs + ys == ys;
    }
  }

  /** The numbered list holds the start instruction of every challenge. */
  lemma {:induction false} EntriesMention(cs: seq<Challenge>, n: nat, k: nat)
    requires k < n <= |cs|
    ensures Text.Contains(Entries(cs, n), "   Type 'grammar " + cs[k].objective.targetId + "' to start\n")
  {
    var line := "   Type 'grammar " + cs[k].objective.targetId + "' to start\n";
    if k < n - 1 {
      EntriesMention(cs, n - 1, k);
      Text.ContainsConcat(Entries(cs, n - 1), Entry(n, cs[n - 1]), line);
    } else {
      var c := cs[k];
      var head := Text.NatToString(n) + ". " + c.objective.description + " (Quest: " + c.title + ")\n";
      assert Entry(n, c) == head + line;
      Text.ContainsSelf(line);
      Text.ContainsConcat(head, line, line);
      Text.ContainsConcat(Entries(cs, n - 1), Entry(n, c), line);
    }
  }

  /** Listing: nothing changes; the answer is the no-challenges message
      exactly when no active quest has an open grammar objective, and
      otherwise tells how to start each of them. */
  lemma GrammarLists(s: State)
    ensures var r := Grammar(s, "");
            r.state == s
            && (r.text == NoChallenges <==> AllPending(s.log) == [])
            && forall c :: c in AllPending(s.log) ==>
                 Text.Contains(r.text, "   Type 'grammar " + c.objective.targetId + "' to start\n")
  {
    var cs := AllPending(s.log);
    var r := Grammar(s, "");
    if cs != [] {
      assert r.text == "Available grammar challenges:\n" + Entries(cs, |cs|);
      assert r.text[0] == 'A';
      forall c | c in cs
        ensures Text.Contains(r.text, "   Type 'grammar " + c.objective.targetId + "' to start\n")
      {
        var k :| 0 <= k < |cs| && cs[k] == c;
        var line := "   Type 'grammar " + c.objective.targetId + "' to start\n";
        EntriesMention(cs, |cs|, k);
        Text.ContainsConcat("Available grammar challenges:\n", Entries(cs, |cs|), line);
      }
    }
  }

  /** Starting: a challenge is recorded exactly when an active quest has an
      open grammar objective with that target, and the record names that
      quest and objective; nothing else changes. */
  lemma GrammarStarts(s: State, id: string)
    requires id != ""
    ensures var r := Grammar(s, id);
            r.state == s.(challenge := r.state.challenge)
            && (r.state.challenge != s.challenge || FirstFor(AllPending(s.log), id).Some? ==>
                  r.state.challenge.Some?
                  && var ref := r.state.challenge.value;
                     ref.targetId == id && ref.questId in s.log.active.vals
                     && exists o :: o in s.log.active.vals[ref.questId].objectives
                                    && Open(o) && o.id == ref.objectiveId && o.targetId == id)
            && (FirstFor(AllPending(s.log), id).Some? <==>
                  exists i, j :: 0 <= i < |s.log.active.keys| && s.log.active.keys[i] in s.log.active.vals
                                 && 0 <= j < |s.log.active.vals[s.log.active.keys[i]].objectives|
                                 && Open(s.log.active.vals[s.log.active.keys[i]].objectives[j])
                                 && s.log.active.vals[s.log.active.keys[i]].objectives[j].targetId == id)
  {
    var active := s.log.active;
    var cs := AllPending(s.log);
    PendingSound(active, |active.keys|);
    if FirstFor(cs, id).Some? {
      var c := FirstFor(cs, id).value;
      assert c.questId in active.keys[..|active.keys|];
      var i :| 0 <= i < |active.keys| && active.keys[i] == c.questId;
      var j :| 0 <= j < |active.vals[c.questId].objectives| && active.vals[c.questId].objectives[j] == c.objective;
    } else {
      forall i, j | 0 <= i < |active.keys| && active.keys[i] in active.vals
                    && 0 <= j < |active.vals[active.keys[i]].objectives| && Open(active.vals[active.keys[i]].objectives[j])
        ensures active.vals[active.keys[i]].objectives[j].targetId != id
      {
        PendingComplete(active, |active.keys|, i, j);
      }
    }
  }

  /** The source as written raises NameError whenever an active quest has
      an objective at all, so any open grammar challenge makes it raise
      where the intended command lists or starts it; with no objective in
      reach the two agree. */
  lemma GrammarNameError(s: State, id: string)
    ensures AllPending(s.log) != [] ==> GrammarAsWritten(s, id).reply == Raised(NameError)
    ensures !AnyObjective(s.log.active) ==>
              GrammarAsWritten(s, id) == Response(Said(Grammar(s, id).text), Grammar(s, id).state)
  {
    var active := s.log.active;
    var cs := AllPending(s.log);
    if cs != [] {
      PendingSound(active, |active.keys|);
      var c := cs[0];
      assert c.questId in active.keys[..|active.keys|];
      var i :| 0 <= i < |active.keys| && active.keys[i] == c.questId;
      assert |active.vals[active.keys[i]].objectives| > 0;
    }
    if !AnyObjective(active) {
      NoObjectivesNoPending(active, |active.keys|);
    }
  }

  lemma {:induction false} NoObjectivesNoPending(active: Dicts.Dict<string, Quest>, n: nat)
    requires n <= |active.keys| && !AnyObjective(active)
    ensures Pending(active, n) == []
  {
    if n > 0 {
      NoObjectivesNoPending(active, n - 1);
      var k := active.keys[n - 1];
      if k in active.vals {
        assert |active.vals[k].objectives| == 0;
      }
    }
  }

  // ---------------------------------------------------------------------
  // Answers

  /** One of the messages tells that a grammar challenge was completed. */
  predicate Completes(messages: seq<string>) {
    exists i :: 0 <= i < |messages| && Text.Contains(messages[i], "Grammar challenge completed")
  }

  /** `process_grammar_answer`: the answer is passed to the quest progress
      of the started challenge's target; the challenge is dropped once a
      message says it was completed; the reply is the messages one per
      line. */
  function GrammarAnswer(s: State, answer: string, search: QuestHandler.Search): Answer {
    if s.challenge.None? then Answer("No active grammar challenge.", s)
    else
      var p := Progresses(s, QuestHandler.GrammarAction, s.challenge.value.targetId, Some(answer), search);
      var r := if p.messages != [] && Completes(p.messages) then p.state.(challenge := None) else p.state;
      Answer(if p.messages != [] then Text.Join("\n", p.messages) else "No response from the challenge.", r)
  }

  /** Answering keeps the started challenge unless a message reports it
      completed, and then drops it; the quest progress sees the answer; the
      state evolves. */
  lemma GrammarAnswerSteps(s: State, answer: string, search: QuestHandler.Search)
    requires Good(s)
    ensures var r := GrammarAnswer(s, answer, search);
            Evolves(s, r.state) && KeepsCommand(s, r.state)
            && (s.challenge.None? ==> r == Answer("No active grammar challenge.", s))
            && (s.challenge.Some? ==>
                  var p := Progresses(s, QuestHandler.GrammarAction, s.challenge.value.targetId, Some(answer), search);
                  (r.state.challenge.None? <==> Completes(p.messages))
                  && (r.state.challenge.Some? ==> r.state.challenge == s.challenge)
                  && r.state.log == p.state.log
                  && (p.messages == [] ==> r.text == "No response from the challenge.")
                  && (p.messages != [] ==> Text.StartsWith(r.text, p.messages[0])))
  {
    if s.challenge.Some? {
      var p := Progresses(s, QuestHandler.GrammarAction, s.challenge.value.targetId, Some(answer), search);
      ProgressesEvolve(s, QuestHandler.GrammarAction, s.challenge.value.targetId, Some(answer), search);
      QuestHandler.QuestProgressFacts(s.log, s.world, s.player, QuestHandler.GrammarAction,
                                      s.challenge.value.targetId, Some(answer), search);
      if p.messages != [] {
        Text.JoinStartsWith("\n", p.messages);
      }
    }
  }

  // ---------------------------------------------------------------------
  // On the game state

  /** The open grammar objectives of the active quests, gathered quest by
      quest. */
  method CollectChallenges(active: Dicts.Dict<string, Quest>) returns (cs: seq<Challenge>)
    ensures cs == Pending(active, |active.keys|)
  {
    cs := [];
    for i := 0 to |active.keys|
      invariant cs == Pending(active, i)
    {
      var k := active.keys[i];
      if k in active.vals {
        var q := active.vals[k];
        for j := 0 to |q.objectives|
          invariant cs == Pending(active, i) + Opens(k, q.title, q.objectives, j)
        {
          var o := q.objectives[j];
          if o.objType == GrammarChallenge && !o.completed {
            cs := cs + [Challenge(k, q.title, o)];
          }
        }
      }
    }
  }

  /** The first open grammar objective with target `id`, searched quest by
      quest. */
  method FindChallenge(active: Dicts.Dict<string, Quest>, id: string) returns (found: Option<Challenge>)
    ensures found == FirstFor(Pending(active, |active.keys|), id)
  {
    for i := 0 to |active.keys|
      invariant FirstFor(Pending(active, i), id).None?
    {
      var k := active.keys[i];
      PendingNext(active, i, id);
      if k in active.vals {
        var q := active.vals[k];
        found := FindInQuest(k, q.title, q.objectives, id);
        if found.Some? {
          PendingFound(active, i + 1, id);
          return;
        }
      }
    }
    return None;
  }

  /** With no match among the first `i` quests, the first match among the
      first `i + 1` is the first match in quest `i`. */
  lemma PendingNext(active: Dicts.Dict<string, Quest>, i: nat, id: string)
    requires i < |active.keys| && FirstFor(Pending(active, i), id).None?
    ensures var k := active.keys[i];
            FirstFor(Pending(active, i + 1), id)
            == if k in active.vals
               then FirstFor(Opens(k, active.vals[k].title, active.vals[k].objectives, |active.vals[k].objectives|), id)
               else None
  {
    var k := active.keys[i];
    if k in active.vals {
      var q := active.vals[k];
      FirstForAfter(Pending(active, i), Opens(k, q.title, q.objectives, |q.objectives|), id);
    }
  }

  /** A match among the first `i` quests is the first match of all. */
  lemma PendingFound(active: Dicts.Dict<string, Quest>, i: nat, id: string)
    requires i <= |active.keys| && FirstFor(Pending(active, i), id).Some?
    ensures FirstFor(Pending(active, |active.keys|), id) == FirstFor(Pending(active, i), id)
  {
    PendingPrefix(active, i, |active.keys|);
    FirstForPrefix(Pending(active, i), Pending(active, |active.keys|), id);
  }

  /** The first open grammar objective with target `id` among the
      objectives of one quest. */
  method FindInQuest(questId: string, title: string, objectives: seq<QuestObjective>, id: string)
    returns (found: Option<Challenge>)
    ensures found == FirstFor(Opens(questId, title, objectives, |objectives|), id)
  {
    for j := 0 to |objectives|
      invariant forall c :: c in Opens(questId, title, objectives, j) ==> c.objective.targetId != id
    {
      var o := objectives[j];
      if o.objType == GrammarChallenge && o.targetId == id && !o.completed {
        var c := Challenge(questId, title, o);
        FirstForLast(Opens(questId, title, objectives, j), c, id);
        OpensPrefix(questId, title, objectives, j + 1, |objectives|);
        FirstForPrefix(Opens(questId, title, objectives, j + 1), Opens(questId, title, objectives, |objectives|), id);
        return Some(c);
      }
    }
    return None;
  }

  /** `grammar_challenge_command` on the game state, as intended. */
  method GrammarChallengeCommand(gs: GameState, id: string) returns (text: string)
    modifies gs
    ensures var r := Grammar(old(Snapshot(gs)), id);
            Snapshot(gs) == r.state && text == r.text
    ensures KeepsMeta(gs)
  {
    if id == "" {
      var cs := CollectChallenges(gs.questLog.active);
      if cs == [] {
        return NoChallenges;
      }
      var listing := "";
      for i := 0 to |cs|
        invariant listing == Entries(cs, i)
      {
        listing := listing + Entry(i + 1, cs[i]);
      }
      return "Available grammar challenges:\n" + listing;
    }
    var found := FindChallenge(gs.questLog.active, id);
    if found.Some? {
      var c := found.value;
      gs.activeGrammarChallenge := Some(GrammarChallengeRef(c.questId, c.objective.id, c.objective.targetId));
      var prompt := if c.objective.properties.prompt.Some? then c.objective.properties.prompt.value
                    else "Complete the grammar challenge";
      return "Grammar Challenge: " + c.objective.description + "\n\n" + prompt;
    }
    return "Grammar challenge '" + id + "' not found or already completed.";
  }

  /** `grammar_challenge_command` on the game state, as written: the first
      objective met in the active quests has its type compared with a name
      that is not in scope, which raises NameError whether or not an id was
      given. Nothing of the state changes. */
  method GrammarChallengeCommandAsWritten(gs: GameState, id: string) returns (reply: Reply)
    ensures reply == GrammarAsWritten(Snapshot(gs), id).reply
  {
    var active := gs.questLog.active;
    for i := 0 to |active.keys|
      invariant forall j :: 0 <= j < i && active.keys[j] in active.vals ==> |active.vals[active.keys[j]].objectives| == 0
    {
      var k := active.keys[i];
      if k in active.vals && |active.vals[k].objectives| > 0 {
        return Raised(NameError);
      }
    }
    if id == "" {
      return Said(NoChallenges);
    }
    return Said("Grammar challenge '" + id + "' not found or already completed.");
  }

  /** `process_grammar_answer` on the game state. */
  method ProcessGrammarAnswer(gs: GameState, answer: string, search: QuestHandler.Search) returns (text: string)
    modifies gs
    ensures var r := GrammarAnswer(old(Snapshot(gs)), answer, search);
            Snapshot(gs) == r.state && text == r.text
    ensures KeepsMeta(gs)
  {
    if gs.activeGrammarChallenge.None? {
      return "No active grammar challenge.";
    }
    var target := gs.activeGrammarChallenge.value.targetId;
    var messages := RunProgress(gs, QuestHandler.GrammarAction, target, Some(answer), search);
    if messages != [] {
      var wasCompleted := false;
      for i := 0 to |messages|
        invariant wasCompleted <==> exists m :: 0 <= m < i && Text.Contains(messages[m], "Grammar challenge completed")
      {
        if Text.Contains(messages[i], "Grammar challenge completed") {
          wasCompleted := true;
          break;
        }
      }
      if wasCompleted {
        gs.activeGrammarChallenge := None;
      }
      return Text.Join("\n", messages);
    }
    return "No response from the challenge.";
  }
}
