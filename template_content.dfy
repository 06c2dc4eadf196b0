/** `LLMService.add_template_content`: the step that adds the template
    quests, quest items and hidden locations to a generated world, makes
    sure a `start` location exists with the village-map trigger and four
    default exits, creates every location the start leads to, and gives the
    elder and the priest their quest and its dialogue.

    The world is a shallow copy: its lists are the caller's lists, so what
    the step appends and the dictionaries it changes are seen through the
    caller's world too (`SharedInput`). */
module TemplateContent {

  import opened Wrappers
  import Dicts
  import Text
  import WorldValidator

  /** One line of quest dialogue with its Japanese version. */
  datatype Line = Line(response: string, japanese: string)

  /** What a character says about a quest while it runs and once it is done. */
  datatype QuestLines = QuestLines(inProgress: Line, completed: Line)

  /** A location dictionary: its "id" if it has one, its texts (names and
      descriptions), its "quest_triggers" list and its "connections"
      dictionary, each `None` when the key is missing. */
  datatype Loc = Loc(
    id: Option<string>,
    text: map<string, string>,
    triggers: Option<seq<string>>,
    exits: Option<Dicts.Dict<string, string>>)

  /** A character dictionary: its "id", "quest_ids" and "quest_dialogues". */
  datatype Char = Char(
    id: Option<string>,
    questIds: Option<seq<string>>,
    dialogues: Option<Dicts.Dict<string, QuestLines>>)

  /** The world data: its "quests" and "items" (by id), "locations" and
      "characters" lists, each `None` when the key is missing. */
  datatype WorldData = WorldData(
    quests: Option<seq<string>>,
    items: Option<seq<string>>,
    locations: Option<seq<Loc>>,
    characters: Option<seq<Char>>)

  /** The template quests, quest items and hidden locations. */
  datatype Templates = Templates(quests: seq<string>, items: seq<string>, hidden: seq<Loc>)

  const MapQuest := "quest_village_map"
  const ElderQuest := "quest_talk_to_elder"
  const PriestQuest := "quest_shrine_offering"

  /** The exits a start location without any receives. */
  function StartExits(): Dicts.Dict<string, string> {
    Dicts.Dict(["north", "east", "west", "south"],
               map["north" := "forest", "east" := "shop", "west" := "house", "south" := "river"])
  }

  /** The start location created when the world has none. */
  function VillageSquare(): Loc {
    Loc(Some("start"),
        SquareText,
        Some([MapQuest]), Some(StartExits()))
  }

  const SquareText: map<string, string> := map["name" := "Village Square", "japanese_name" := "村の広場",
            "description" := "A peaceful village square where your adventure begins. Cherry blossom trees line the edges, and a small fountain stands in the center.",
            "japanese_description" := "あなたの冒険が始まる平和な村の広場です。桜の木が周りに並び、中央に小さな噴水があります。"]

  const ElderLines := QuestLines(
    Line("Ah, you wish to learn about our village's history? There is an old path through the forest that few know about. It leads to sacred grounds deep in the mountains.",
         "ああ、村の歴史について学びたいですか？森を通る古い道があり、それを知る人はほとんどいません。山の奥にある神聖な場所へ続いています。"),
    Line("Remember to tread carefully on your journey. The mountains hold many secrets.",
         "旅の途中で気をつけてください。山には多くの秘密があります。"))

  const PriestLines := QuestLines(
    Line("Have you brought an offering for the shrine? Traditional offerings include rice, sake, or fresh fruits.",
         "神社へのお供えを持ってきましたか？伝統的なお供えには、お米、お酒、新鮮な果物などがあります。"),
    Line("Thank you for your offering. Please accept this protective charm as a token of the shrine's blessing.",
         "お供えをありがとうございます。神社の祝福の印として、このお守りをお受け取りください。"))

  // ---------------------------------------------------------------------
  // The steps, as functions

  /** A list extended by the templates, an empty one when the key is missing. */
  function Extended<T>(xs: Option<seq<T>>, extra: seq<T>): seq<T> {
    (if xs.None? then [] else xs.value) + extra
  }

  predicate IsStart(l: Loc) {
    l.id == Some("start")
  }

  /** Some location is a start location. */
  predicate HasStart(locs: seq<Loc>) {
    exists i :: 0 <= i < |locs| && IsStart(locs[i])
  }

  /** The connections are missing or empty. */
  predicate NoExits(l: Loc) {
    l.exits.None? || l.exits.value.vals == map[]
  }

  /** A start location with the village-map trigger added unless present,
      and the default exits when it has none. */
  function MarkStart(l: Loc): Loc {
    var t := if l.triggers.None? then [] else l.triggers.value;
    l.(triggers := Some(if MapQuest in t then t else t + [MapQuest]),
       exits := if NoExits(l) then Some(StartExits()) else l.exits)
  }

  /** The first pass: every start location marked. */
  function MarkStarts(locs: seq<Loc>): (r: seq<Loc>)
    ensures |r| == |locs|
  {
    seq(|locs|, i requires 0 <= i < |locs| => if IsStart(locs[i]) then MarkStart(locs[i]) else locs[i])
  }

  /** The position of the first location without an id, from `i` on. */
  function FirstAnonymous(locs: seq<Loc>, i: nat): (r: Option<nat>)
    requires i <= |locs|
    decreases |locs| - i
  {
    if i == |locs| then None
    else if locs[i].id.None? then Some(i)
    else FirstAnonymous(locs, i + 1)
  }

  /** The second pass: the first location without an id becomes the start. */
  function NameStart(locs: seq<Loc>): (r: seq<Loc>)
    ensures |r| == |locs|
  {
    match FirstAnonymous(locs, 0)
    case None => locs
    case Some(k) =>
      assert k < |locs| by { FirstAnonymousSound(locs, 0); }
      locs[k := MarkStart(locs[k].(id := Some("start")))]
  }

  /** The start passes as written: a world without a start location gets
      both its first anonymous location named "start" and a new Village
      Square, because naming one does not count as having found one. */
  function StartPassesAsWritten(locs: seq<Loc>): seq<Loc> {
    var l1 := MarkStarts(locs);
    if HasStart(l1) then l1 else NameStart(l1) + [VillageSquare()]
  }

  /** The start passes as intended: the Village Square is added only when
      there is neither a start location nor an anonymous one to name. */
  function StartPasses(locs: seq<Loc>): seq<Loc> {
    var l1 := MarkStarts(locs);
    if HasStart(l1) then l1
    else if FirstAnonymous(l1, 0).Some? then NameStart(l1)
    else l1 + [VillageSquare()]
  }

  /** The first start location, from `i` on. */
  function FirstStart(locs: seq<Loc>, i: nat): (r: Option<Loc>)
    requires i <= |locs|
    decreases |locs| - i
  {
    if i == |locs| then None
    else if IsStart(locs[i]) then Some(locs[i])
    else FirstStart(locs, i + 1)
  }

  /** Some location has the id `t`. */
  predicate HasId(locs: seq<Loc>, t: string) {
    exists i :: 0 <= i < |locs| && locs[i].id == Some(t)
  }

  /** The location created for a missing target, with the reverse of the
      direction that leads to it as its one exit back to the start. */
  function Area(t: string, dir: string): Loc {
    Loc(Some(t),
        map["name" := Text.Capitalize(t) + " Area", "japanese_name" := Text.Capitalize(t) + "エリア",
            "description" := "A " + t + " area connected to the village square.",
            "japanese_description" := "村の広場につながる" + t + "エリアです。"],
        None, Some(Dicts.Empty<string, string>().Put(WorldValidator.Opposite(dir), "start")))
  }

  /** The start's first `n` connections, in order, each creating its
      target when no location has that id yet. */
  function AddTargets(locs: seq<Loc>, conns: Dicts.Dict<string, string>, n: nat): (r: seq<Loc>)
    requires n <= |conns.keys|
  {
    if n == 0 then locs
    else
      var prev := AddTargets(locs, conns, n - 1);
      var dir := conns.keys[n - 1];
      if dir !in conns.vals || HasId(prev, conns.vals[dir]) then prev
      else prev + [Area(conns.vals[dir], dir)]
  }

  /** The targets pass: run over the first start location's connections. */
  function TargetsPass(locs: seq<Loc>): seq<Loc> {
    match FirstStart(locs, 0)
    case Some(s) =>
      if s.exits.Some? then AddTargets(locs, s.exits.value, |s.exits.value.keys|) else locs
    case None => locs
  }

  /** The character with id `who` given the quest and its dialogue unless
      it already has them. */
  function GiveQuest(c: Char, who: string, quest: string, lines: QuestLines): Char {
    if c.id != Some(who) then c
    else
      var ids := if c.questIds.None? then [] else c.questIds.value;
      var dl := if c.dialogues.None? then Dicts.Empty<string, QuestLines>() else c.dialogues.value;
      c.(questIds := Some(if quest in ids then ids else ids + [quest]),
         dialogues := Some(if quest in dl.vals then dl else dl.Put(quest, lines)))
  }

  /** The character passes: the elder's quest, then the priest's. */
  function CharactersPass(cs: seq<Char>): (r: seq<Char>)
    ensures |r| == |cs|
  {
    seq(|cs|, i requires 0 <= i < |cs| =>
      GiveQuest(GiveQuest(cs[i], "elder", ElderQuest, ElderLines), "priest", PriestQuest, PriestLines))
  }

  /** `add_template_content`, with the start passes as intended. */
  function AddTemplate(w: WorldData, t: Templates): WorldData {
    var locs := Extended(w.locations, t.hidden);
    WorldData(
      Some(Extended(w.quests, t.quests)),
      Some(Extended(w.items, t.items)),
      Some(TargetsPass(StartPasses(locs))),
      if w.characters.None? then None else Some(CharactersPass(w.characters.value)))
  }

  /** `add_template_content` as written. */
  function AddTemplateAsWritten(w: WorldData, t: Templates): WorldData {
    var locs := Extended(w.locations, t.hidden);
    WorldData(
      Some(Extended(w.quests, t.quests)),
      Some(Extended(w.items, t.items)),
      Some(TargetsPass(StartPassesAsWritten(locs))),
      if w.characters.None? then None else Some(CharactersPass(w.characters.value)))
  }

  /** The caller's world after the call: `copy()` is shallow, so each list
      the caller's world had is the very list the result holds. */
  function SharedInput(w: WorldData, r: WorldData): WorldData {
    WorldData(
      if w.quests.Some? then r.quests else None,
      if w.items.Some? then r.items else None,
      if w.locations.Some? then r.locations else None,
      if w.characters.Some? then r.characters else None)
  }

  // ---------------------------------------------------------------------
  // What the passes guarantee

  /** The scan finds the first anonymous location, and none only when
      every location has an id. */
  lemma {:induction false} FirstAnonymousSound(locs: seq<Loc>, i: nat)
    requires i <= |locs|
    ensures var r := FirstAnonymous(locs, i);
            (r.None? <==> forall k :: i <= k < |locs| ==> locs[k].id.Some?)
            && (r.Some? ==> i <= r.value < |locs| && locs[r.value].id.None?
                            && forall k :: i <= k < r.value ==> locs[k].id.Some?)
    decreases |locs| - i
  {
    if i < |locs| && locs[i].id.Some? {
      FirstAnonymousSound(locs, i + 1);
    }
  }

  /** The scan finds the first start location, and none only when there
      is none. */
  lemma {:induction false} FirstStartSound(locs: seq<Loc>, i: nat)
    requires i <= |locs|
    ensures var r := FirstStart(locs, i);
            (r.None? <==> forall k :: i <= k < |locs| ==> !IsStart(locs[k]))
            && (r.Some? ==> exists k :: i <= k < |locs| && locs[k] == r.value && IsStart(r.value))
    decreases |locs| - i
  {
    if i < |locs| && !IsStart(locs[i]) {
      FirstStartSound(locs, i + 1);
    }
  }

  /** A marked start location has the village-map trigger and at least one
      exit; what it had is kept. */
  lemma MarkStartGood(l: Loc)
    ensures var m := MarkStart(l);
            m.id == l.id && m.text == l.text
            && m.triggers.Some? && MapQuest in m.triggers.value
            && (l.triggers.Some? ==> l.triggers.value <= m.triggers.value)
            && |m.triggers.value| <= (if l.triggers.None? then 0 else |l.triggers.value|) + 1
            && m.exits.Some? && m.exits.value.vals != map[]
            && (!NoExits(l) ==> m.exits == l.exits)
  {
    assert "north" in StartExits().vals;
  }

  /** Marking twice is marking once. */
  lemma MarkStartIdempotent(l: Loc)
    ensures MarkStart(MarkStart(l)) == MarkStart(l)
  {
    MarkStartGood(l);
  }

  /** There is a start location, and every start location has the
      village-map trigger and an exit. */
  predicate StartsMarked(r: seq<Loc>) {
    HasStart(r)
    && forall i :: 0 <= i < |r| && IsStart(r[i]) ==>
         r[i].triggers.Some? && MapQuest in r[i].triggers.value
         && r[i].exits.Some? && r[i].exits.value.vals != map[]
  }

  /** After the intended start passes there is a start location, and every
      start location has the village-map trigger and an exit. */
  lemma StartPassesGood(locs: seq<Loc>)
    ensures StartsMarked(StartPasses(locs))
  {
    var l1 := MarkStarts(locs);
    forall i | 0 <= i < |l1| && IsStart(l1[i])
      ensures l1[i].triggers.Some? && MapQuest in l1[i].triggers.value && l1[i].exits.Some? && l1[i].exits.value.vals != map[]
    {
      MarkStartGood(locs[i]);
    }
    if !HasStart(l1) {
      FirstAnonymousSound(l1, 0);
      match FirstAnonymous(l1, 0)
      case Some(k) =>
        MarkStartGood(l1[k].(id := Some("start")));
        assert IsStart(NameStart(l1)[k]);
      case None =>
        MarkStartGood(VillageSquare());
        assert IsStart((l1 + [VillageSquare()])[|l1|]);
    }
  }

  /** The passes as written differ from the intended ones only for a world
      with no start location but with a location without an id: they
      append the Village Square after naming that location "start". */
  lemma StartPassesCompared(locs: seq<Loc>)
    ensures StartPassesAsWritten(locs) ==
            if !HasStart(locs) && FirstAnonymous(locs, 0).Some? then StartPasses(locs) + [VillageSquare()]
            else StartPasses(locs)
  {
    MarkStartsKeepStart(locs);
    MarkStartsAnonymous(locs, 0);
  }

  /** The first pass keeps every id, so the anonymous locations stay where
      they were. */
  lemma {:induction false} MarkStartsAnonymous(locs: seq<Loc>, i: nat)
    requires i <= |locs|
    ensures FirstAnonymous(MarkStarts(locs), i) == FirstAnonymous(locs, i)
    decreases |locs| - i
  {
    if i < |locs| {
      assert MarkStarts(locs)[i].id == locs[i].id;
      MarkStartsAnonymous(locs, i + 1);
    }
  }

  /** As written the passes still leave a start location, and every start
      location, the Village Square included, has the village-map trigger
      and an exit. */
  lemma StartPassesAsWrittenGood(locs: seq<Loc>)
    ensures StartsMarked(StartPassesAsWritten(locs))
  {
    StartPassesGood(locs);
    StartPassesCompared(locs);
    var p := StartPasses(locs);
    var r := StartPassesAsWritten(locs);
    if r != p {
      assert r == p + [VillageSquare()];
      assert "north" in StartExits().vals;
      var k :| 0 <= k < |p| && IsStart(p[k]);
      assert IsStart(r[k]);
      forall i | 0 <= i < |r| && IsStart(r[i])
        ensures r[i].triggers.Some? && MapQuest in r[i].triggers.value
                && r[i].exits.Some? && r[i].exits.value.vals != map[]
      {
        if i < |p| {
          assert r[i] == p[i];
        }
      }
    }
  }

  /** A world without a start location comes out of the intended passes
      with exactly one. */
  lemma StartPassesOneStart(locs: seq<Loc>)
    requires !HasStart(locs)
    ensures var r := StartPasses(locs);
            exists k :: 0 <= k < |r| && IsStart(r[k]) && forall j :: 0 <= j < |r| && j != k ==> !IsStart(r[j])
  {
    var l1 := MarkStarts(locs);
    assert forall i :: 0 <= i < |l1| ==> l1[i] == locs[i];
    MarkStartsKeepStart(locs);
    FirstAnonymousSound(l1, 0);
    match FirstAnonymous(l1, 0)
    case Some(k) =>
      var r := NameStart(l1);
      assert r == StartPasses(locs);
      assert IsStart(r[k]);
      assert forall j :: 0 <= j < |r| && j != k ==> r[j] == locs[j];
    case None =>
      var r := l1 + [VillageSquare()];
      assert r == StartPasses(locs);
      assert IsStart(r[|l1|]);
      assert forall j :: 0 <= j < |l1| ==> r[j] == locs[j];
  }

  /** As written, a world with no start location but with a location
      without an id ends up with two start locations: the named one and
      the Village Square. */
  lemma StartPassesAsWrittenTwoStarts(locs: seq<Loc>, k: nat)
    requires !HasStart(locs) && k < |locs| && locs[k].id.None?
    ensures var r := StartPassesAsWritten(locs);
            exists a, b :: 0 <= a < b < |r| && IsStart(r[a]) && IsStart(r[b])
  {
    var l1 := MarkStarts(locs);
    assert forall i :: 0 <= i < |l1| ==> l1[i] == locs[i];
    FirstAnonymousSound(l1, 0);
    var a := FirstAnonymous(l1, 0).value;
    var r := StartPassesAsWritten(locs);
    assert IsStart(r[a]) && IsStart(r[|l1|]);
  }

  /** A concrete world showing it: one location without an id. */
  lemma AsWrittenDuplicatesStart()
    ensures var r := StartPassesAsWritten([Loc(None, map[], None, None)]);
            |r| == 2 && IsStart(r[0]) && IsStart(r[1])
  {
    var locs := [Loc(None, map[], None, None)];
    StartPassesAsWrittenTwoStarts(locs, 0);
  }

  /** The targets pass only appends, and afterwards every connection of the
      first `n` names an existing location. */
  lemma {:induction false} AddTargetsGood(locs: seq<Loc>, conns: Dicts.Dict<string, string>, n: nat)
    requires n <= |conns.keys|
    ensures var r := AddTargets(locs, conns, n);
            locs <= r
            && forall j :: 0 <= j < n && conns.keys[j] in conns.vals ==> HasId(r, conns.vals[conns.keys[j]])
  {
    if n > 0 {
      AddTargetsGood(locs, conns, n - 1);
      var prev := AddTargets(locs, conns, n - 1);
      var r := AddTargets(locs, conns, n);
      assert prev <= r;
      forall j | 0 <= j < n && conns.keys[j] in conns.vals
        ensures HasId(r, conns.vals[conns.keys[j]])
      {
        var t := conns.vals[conns.keys[j]];
        if j < n - 1 {
          var i :| 0 <= i < |prev| && prev[i].id == Some(t);
          assert r[i] == prev[i];
        } else if !HasId(prev, t) {
          assert r[|prev|].id == Some(t);
        }
      }
    }
  }

  /** Every location created for a target leads back to the start. */
  lemma {:induction false} AddTargetsBackToStart(locs: seq<Loc>, conns: Dicts.Dict<string, string>, n: nat)
    requires n <= |conns.keys|
    ensures var r := AddTargets(locs, conns, n);
            |locs| <= |r|
            && forall i :: |locs| <= i < |r| ==>
                 r[i].exits.Some? && "start" in r[i].exits.value.vals.Values
  {
    if n > 0 {
      AddTargetsBackToStart(locs, conns, n - 1);
      var prev := AddTargets(locs, conns, n - 1);
      var r := AddTargets(locs, conns, n);
      var dir := conns.keys[n - 1];
      if dir in conns.vals && !HasId(prev, conns.vals[dir]) {
        var a := Area(conns.vals[dir], dir);
        assert WorldValidator.Opposite(dir) in a.exits.value.vals;
        assert a.exits.value.vals[WorldValidator.Opposite(dir)] == "start";
        assert r == prev + [a];
        forall i | |locs| <= i < |r|
          ensures r[i].exits.Some? && "start" in r[i].exits.value.vals.Values
        {
          if i < |prev| {
            assert r[i] == prev[i];
          }
        }
      }
    }
  }

  /** The targets pass keeps a well-marked first start location first, and
      afterwards every connection it has names an existing location. */
  lemma TargetsPassGood(locs: seq<Loc>)
    requires FirstStart(locs, 0).Some?
    ensures var r := TargetsPass(locs);
            var s := FirstStart(locs, 0).value;
            FirstStart(r, 0) == Some(s)
            && (s.exits.Some? ==>
                  forall d :: d in s.exits.value.keys && d in s.exits.value.vals ==> HasId(r, s.exits.value.vals[d]))
  {
    var s := FirstStart(locs, 0).value;
    if s.exits.Some? {
      var conns := s.exits.value;
      AddTargetsGood(locs, conns, |conns.keys|);
      var r := AddTargets(locs, conns, |conns.keys|);
      FirstStartPrefix(locs, r, 0);
      forall d | d in conns.keys && d in conns.vals
        ensures HasId(r, conns.vals[d])
      {
        var j :| 0 <= j < |conns.keys| && conns.keys[j] == d;
      }
    }
  }

  /** What the step guarantees of its result `r`: the lists are extended
      by the templates; there is a start location, the first one has the
      village-map trigger and an exit, and every connection it has names an
      existing location. */
  predicate TemplateGood(w: WorldData, t: Templates, r: WorldData) {
    r.quests == Some(Extended(w.quests, t.quests))
    && r.items == Some(Extended(w.items, t.items))
    && r.locations.Some?
    && var s := FirstStart(r.locations.value, 0);
       s.Some? && s.value.triggers.Some? && MapQuest in s.value.triggers.value
       && s.value.exits.Some? && s.value.exits.value.vals != map[]
       && forall d :: d in s.value.exits.value.keys && d in s.value.exits.value.vals ==>
            HasId(r.locations.value, s.value.exits.value.vals[d])
  }

  /** The whole step as written meets `TemplateGood`: the duplicate start
      comes after the named one, so the first start is still well marked. */
  lemma AddTemplateAsWrittenGood(w: WorldData, t: Templates)
    ensures TemplateGood(w, t, AddTemplateAsWritten(w, t))
  {
    var l2 := StartPassesAsWritten(Extended(w.locations, t.hidden));
    StartPassesAsWrittenGood(Extended(w.locations, t.hidden));
    TargetsAfterStarts(l2);
  }

  /** The whole step as intended meets `TemplateGood` too. */
  lemma AddTemplateGood(w: WorldData, t: Templates)
    ensures TemplateGood(w, t, AddTemplate(w, t))
  {
    var l2 := StartPasses(Extended(w.locations, t.hidden));
    StartPassesGood(Extended(w.locations, t.hidden));
    TargetsAfterStarts(l2);
  }

  /** After start passes that leave the starts marked, the targets pass
      leaves the first start well marked and its connections existing. */
  lemma TargetsAfterStarts(l2: seq<Loc>)
    requires StartsMarked(l2)
    ensures var r := TargetsPass(l2);
            var s := FirstStart(r, 0);
            s.Some? && s.value.triggers.Some? && MapQuest in s.value.triggers.value
            && s.value.exits.Some? && s.value.exits.value.vals != map[]
            && forall d :: d in s.value.exits.value.keys && d in s.value.exits.value.vals ==>
                 HasId(r, s.value.exits.value.vals[d])
  {
    FirstStartSound(l2, 0);
    TargetsPassGood(l2);
  }

  /** Appending after a start location does not change which is first. */
  lemma {:induction false} FirstStartPrefix(a: seq<Loc>, b: seq<Loc>, i: nat)
    requires a <= b && i <= |a| && FirstStart(a, i).Some?
    ensures FirstStart(b, i) == FirstStart(a, i)
    decreases |a| - i
  {
    if !IsStart(a[i]) {
      FirstStartPrefix(a, b, i + 1);
    }
  }

  /** The elder and the priest end up with their quests and dialogues;
      every other character is left as it was. */
  lemma CharactersPassGood(cs: seq<Char>)
    ensures var r := CharactersPass(cs);
            forall i :: 0 <= i < |cs| ==>
              (cs[i].id == Some("elder") ==> r[i].questIds.Some? && ElderQuest in r[i].questIds.value
                                             && r[i].dialogues.Some? && ElderQuest in r[i].dialogues.value.vals)
              && (cs[i].id == Some("priest") ==> r[i].questIds.Some? && PriestQuest in r[i].questIds.value
                                                 && r[i].dialogues.Some? && PriestQuest in r[i].dialogues.value.vals)
              && (cs[i].id != Some("elder") && cs[i].id != Some("priest") ==> r[i] == cs[i])
  {
  }

  /** A character that already has the quest and its dialogue is left as
      it is, so the character passes are idempotent. */
  lemma CharactersPassIdempotent(cs: seq<Char>)
    ensures CharactersPass(CharactersPass(cs)) == CharactersPass(cs)
  {
  }

  /** Because the copy is shallow, calling the step twice on the same
      world, as the fallbacks do with the default world, appends the
      template items and hidden locations to it twice. */
  lemma RepeatedTemplates(w: WorldData, t: Templates)
    requires w.items.Some? && w.quests.Some? && w.locations.Some?
    ensures var w1 := SharedInput(w, AddTemplateAsWritten(w, t));
            var w2 := SharedInput(w1, AddTemplateAsWritten(w1, t));
            w2.items == Some(w.items.value + t.items + t.items)
            && w2.quests == Some(w.quests.value + t.quests + t.quests)
            && w2.locations.Some? && |w2.locations.value| >= |w.locations.value| + 2 * |t.hidden|
  {
    var w1 := SharedInput(w, AddTemplateAsWritten(w, t));
    LocationsGrow(w, t);
    LocationsGrow(w1, t);
  }

  /** The hidden locations follow the first `n0` locations of `r` in their
      order, each with its text, and one with an id other than "start"
      exactly as given. */
  ghost predicate HiddenAfter(r: seq<Loc>, n0: nat, hidden: seq<Loc>) {
    |r| >= n0 + |hidden|
    && forall i :: 0 <= i < |hidden| ==>
         r[n0 + i].text == hidden[i].text
         && (hidden[i].id.Some? && !IsStart(hidden[i]) ==> r[n0 + i] == hidden[i])
  }

  /** The locations only grow, as written and as intended: by the hidden
      locations at least. Each hidden location stays at its place after
      the world's own, with its text; one with an id other than "start" is
      left exactly as the template gave it. */
  lemma LocationsGrow(w: WorldData, t: Templates)
    ensures var r := AddTemplateAsWritten(w, t);
            var n0 := if w.locations.None? then 0 else |w.locations.value|;
            r.locations.Some? && |r.locations.value| >= n0 + |t.hidden|
            && HiddenAfter(r.locations.value, n0, t.hidden)
    ensures var r := AddTemplate(w, t);
            var n0 := if w.locations.None? then 0 else |w.locations.value|;
            r.locations.Some? && |r.locations.value| >= n0 + |t.hidden|
            && HiddenAfter(r.locations.value, n0, t.hidden)
  {
    var locs := Extended(w.locations, t.hidden);
    var n0 := if w.locations.None? then 0 else |w.locations.value|;
    assert |locs| == n0 + |t.hidden| && forall i :: 0 <= i < |t.hidden| ==> locs[n0 + i] == t.hidden[i];
    StartPassesKeep(locs);
    TargetsGrow(StartPasses(locs));
    TargetsGrow(StartPassesAsWritten(locs));
    assert AddTemplate(w, t).locations == Some(TargetsPass(StartPasses(locs)));
    assert AddTemplateAsWritten(w, t).locations == Some(TargetsPass(StartPassesAsWritten(locs)));
    HiddenKept(locs, StartPasses(locs), TargetsPass(StartPasses(locs)), n0, t.hidden);
    HiddenKept(locs, StartPassesAsWritten(locs), TargetsPass(StartPassesAsWritten(locs)), n0, t.hidden);
  }

  /** Passes that keep each location's place and text, and leave alone one
      with an id other than "start", keep the hidden locations so. */
  lemma HiddenKept(locs: seq<Loc>, passed: seq<Loc>, r: seq<Loc>, n0: nat, hidden: seq<Loc>)
    requires |locs| == n0 + |hidden| && forall i :: 0 <= i < |hidden| ==> locs[n0 + i] == hidden[i]
    requires |passed| >= |locs| && forall j :: 0 <= j < |locs| ==> passed[j].text == locs[j].text
    requires forall j :: 0 <= j < |locs| && locs[j].id.Some? && !IsStart(locs[j]) ==> passed[j] == locs[j]
    requires passed <= r
    ensures HiddenAfter(r, n0, hidden)
  {
    forall i | 0 <= i < |hidden|
      ensures r[n0 + i].text == hidden[i].text
              && (hidden[i].id.Some? && !IsStart(hidden[i]) ==> r[n0 + i] == hidden[i])
    {
      assert r[n0 + i] == passed[n0 + i];
    }
  }

  /** Both versions of the start passes keep every location in its place
      with its text, and leave alone one whose id is neither missing nor
      "start". */
  lemma StartPassesKeep(locs: seq<Loc>)
    ensures |StartPasses(locs)| >= |locs| && |StartPassesAsWritten(locs)| >= |locs|
    ensures forall j :: 0 <= j < |locs| ==>
              StartPasses(locs)[j].text == locs[j].text && StartPassesAsWritten(locs)[j].text == locs[j].text
    ensures forall j :: 0 <= j < |locs| && locs[j].id.Some? && !IsStart(locs[j]) ==>
              StartPasses(locs)[j] == locs[j] && StartPassesAsWritten(locs)[j] == locs[j]
  {
    var l1 := MarkStarts(locs);
    var l2 := NameStart(l1);
    assert forall j :: 0 <= j < |locs| ==> l1[j].text == locs[j].text && l1[j].id == locs[j].id;
    assert forall j :: 0 <= j < |locs| && !IsStart(locs[j]) ==> l1[j] == locs[j];
    assert forall j :: 0 <= j < |locs| ==>
             l2[j].text == locs[j].text && (locs[j].id.Some? && !IsStart(locs[j]) ==> l2[j] == locs[j]) by {
      match FirstAnonymous(l1, 0)
      case None =>
      case Some(k) =>
        FirstAnonymousSound(l1, 0);
    }
    StartPassesCompared(locs);
  }

  /** The targets pass never removes or changes a location: it only
      appends. */
  lemma TargetsGrow(l2: seq<Loc>)
    ensures l2 <= TargetsPass(l2)
  {
    match FirstStart(l2, 0)
    case Some(s) =>
      if s.exits.Some? {
        AddTargetsGood(l2, s.exits.value, |s.exits.value.keys|);
      }
    case None =>
  }

  // ---------------------------------------------------------------------
  // The step as its loops run

  /** The first pass over the locations. */
  method MarkStartsLoop(locs: seq<Loc>) returns (r: seq<Loc>, found: bool)
    ensures r == MarkStarts(locs) && found == HasStart(locs)
  {
    ghost var marked := MarkStarts(locs);
    r := locs;
    found := false;
    for i := 0 to |locs|
      invariant |r| == |locs|
      invariant forall k :: 0 <= k < i ==> r[k] == marked[k]
      invariant forall k :: i <= k < |locs| ==> r[k] == locs[k]
      invariant found <==> exists k :: 0 <= k < i && IsStart(locs[k])
    {
      if locs[i].id == Some("start") {
        found := true;
        r := r[i := MarkStart(r[i])];
      }
    }
    assert r == marked;
  }

  /** The second pass: the scan for a location without an id, stopped at
      the first one, which becomes the start. */
  method NameStartLoop(locs: seq<Loc>) returns (r: seq<Loc>, named: bool)
    ensures r == NameStart(locs) && named == FirstAnonymous(locs, 0).Some?
  {
    r := locs;
    named := false;
    var i := 0;
    while i < |locs|
      invariant 0 <= i <= |locs|
      invariant FirstAnonymous(locs, 0) == FirstAnonymous(locs, i)
    {
      if locs[i].id.None? {
        r := locs[i := MarkStart(locs[i].(id := Some("start")))];
        named := true;
        break;
      }
      i := i + 1;
    }
  }

  /** The start passes with their loops, as written: naming a location
      "start" does not set the flag, so the Village Square is appended
      whenever the first pass found no start. */
  method StartPassesLoop(locs: seq<Loc>) returns (r: seq<Loc>)
    ensures r == StartPassesAsWritten(locs)
  {
    var found;
    r, found := MarkStartsLoop(locs);
    MarkStartsKeepStart(locs);
    if !found {
      var named;
      r, named := NameStartLoop(r);
      r := r + [VillageSquare()];
    }
  }

  /** The first pass finds a start location exactly when there is one. */
  lemma MarkStartsKeepStart(locs: seq<Loc>)
    ensures HasStart(MarkStarts(locs)) == HasStart(locs)
  {
    var l1 := MarkStarts(locs);
    assert forall i :: 0 <= i < |locs| ==> l1[i].id == locs[i].id;
  }

  /** Whether some location has the id `t`: Python's `any(...)`. */
  method AnyHasId(locs: seq<Loc>, t: string) returns (b: bool)
    ensures b == HasId(locs, t)
  {
    b := false;
    for i := 0 to |locs|
      invariant b <==> exists k :: 0 <= k < i && locs[k].id == Some(t)
    {
      if locs[i].id == Some(t) {
        b := true;
      }
    }
  }

  /** The targets pass with its loop over the start's connections. */
  method TargetsPassLoop(locs: seq<Loc>) returns (r: seq<Loc>)
    ensures r == TargetsPass(locs)
  {
    r := locs;
    var start := FirstStart(locs, 0);
    if start.Some? && start.value.exits.Some? {
      var conns := start.value.exits.value;
      for n := 0 to |conns.keys|
        invariant r == AddTargets(locs, conns, n)
      {
        var dir := conns.keys[n];
        if dir in conns.vals {
          var exists_ := AnyHasId(r, conns.vals[dir]);
          if !exists_ {
            r := r + [Area(conns.vals[dir], dir)];
          }
        }
      }
    }
  }

  /** The two character passes, each a loop over the characters. */
  method CharactersLoop(cs: seq<Char>) returns (r: seq<Char>)
    ensures r == CharactersPass(cs)
  {
    r := cs;
    for i := 0 to |r|
      invariant |r| == |cs|
      invariant forall k :: 0 <= k < i ==> r[k] == GiveQuest(cs[k], "elder", ElderQuest, ElderLines)
      invariant forall k :: i <= k < |r| ==> r[k] == cs[k]
    {
      r := r[i := GiveQuest(r[i], "elder", ElderQuest, ElderLines)];
    }
    for i := 0 to |r|
      invariant |r| == |cs|
      invariant forall k :: 0 <= k < i ==> r[k] == CharactersPass(cs)[k]
      invariant forall k :: i <= k < |r| ==> r[k] == GiveQuest(cs[k], "elder", ElderQuest, ElderLines)
    {
      r := r[i := GiveQuest(r[i], "priest", PriestQuest, PriestLines)];
    }
  }

  /** `add_template_content`: the result, and the caller's world as the
      shallow copy leaves it. */
  method AddTemplateContent(w: WorldData, t: Templates) returns (r: WorldData, caller: WorldData)
    ensures r == AddTemplateAsWritten(w, t) && caller == SharedInput(w, r)
  {
    var locs := StartPassesLoop(Extended(w.locations, t.hidden));
    locs := TargetsPassLoop(locs);
    var cs: Option<seq<Char>> := None;
    if w.characters.Some? {
      var fixed := CharactersLoop(w.characters.value);
      cs := Some(fixed);
    }
    r := WorldData(Some(Extended(w.quests, t.quests)), Some(Extended(w.items, t.items)), Some(locs), cs);
    caller := SharedInput(w, r);
  }
}
