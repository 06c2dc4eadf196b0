/** The description of the player's location: its name and descriptions,
    the exits to existing visible locations, the visible items and the
    characters present, one part per line. */
module LocationView {

  import opened Wrappers
  import Dicts
  import Text
  import opened GameModels
  import opened EngineState

  /** The answer when the player's location is missing from the world. */
  const Void := "You are lost in a void. Something is terribly wrong."

  const NoExits := "There are no obvious exits."

  /** The exit `dir` of a connection table leads to an existing location
      that is not hidden. */
  predicate VisibleExit(locs: Dicts.Dict<string, Location>, conns: Dicts.Dict<string, string>, dir: string) {
    dir in conns.vals && conns.vals[dir] in locs.vals && !locs.vals[conns.vals[dir]].hidden
  }

  /** An exit: the capitalised direction and the target's name, or its id
      when the name is empty. */
  function ExitLabel(locs: Dicts.Dict<string, Location>, conns: Dicts.Dict<string, string>, dir: string): string
    requires VisibleExit(locs, conns, dir)
  {
    var id := conns.vals[dir];
    var name := locs.vals[id].name;
    Text.Capitalize(dir) + " (" + (if name != "" then name else id) + ")"
  }

  /** The labels of the visible exits among the first `n` directions, in
      the table's order. */
  function ExitLabels(locs: Dicts.Dict<string, Location>, conns: Dicts.Dict<string, string>, n: int): (r: seq<string>)
    requires 0 <= n <= |conns.keys|
    ensures |r| <= n
  {
    if n == 0 then []
    else
      var dir := conns.keys[n - 1];
      ExitLabels(locs, conns, n - 1) + (if VisibleExit(locs, conns, dir) then [ExitLabel(locs, conns, dir)] else [])
  }

  /** There is no exit label exactly when none of the directions leads to
      an existing visible location. */
  lemma {:induction false} ExitLabelsEmpty(locs: Dicts.Dict<string, Location>, conns: Dicts.Dict<string, string>, n: int)
    requires 0 <= n <= |conns.keys|
    ensures ExitLabels(locs, conns, n) == [] <==> forall i :: 0 <= i < n ==> !VisibleExit(locs, conns, conns.keys[i])
  {
    if n > 0 {
      ExitLabelsEmpty(locs, conns, n - 1);
    }
  }

  /** The item `id` exists and is not hidden. */
  predicate VisibleItem(items: map<string, Item>, id: string) {
    id in items && !items[id].hidden
  }

  /** The names of the visible items among the first `n` ids. */
  function ItemLabels(items: map<string, Item>, ids: seq<string>, n: int): (r: seq<string>)
    requires 0 <= n <= |ids|
    ensures |r| <= n
  {
    if n == 0 then []
    else
      var id := ids[n - 1];
      ItemLabels(items, ids, n - 1)
      + (if VisibleItem(items, id) then [WithJapanese(items[id].name, items[id].japaneseName)] else [])
  }

  /** There is no item label exactly when none of the ids names a visible
      item. */
  lemma {:induction false} ItemLabelsEmpty(items: map<string, Item>, ids: seq<string>, n: int)
    requires 0 <= n <= |ids|
    ensures ItemLabels(items, ids, n) == [] <==> forall i :: 0 <= i < n ==> !VisibleItem(items, ids[i])
  {
    if n > 0 {
      ItemLabelsEmpty(items, ids, n - 1);
    }
  }

  /** The names of the existing characters among the first `n` ids. */
  function CharacterLabels(chars: map<string, Character>, ids: seq<string>, n: int): (r: seq<string>)
    requires 0 <= n <= |ids|
    ensures |r| <= n
  {
    if n == 0 then []
    else
      var id := ids[n - 1];
      CharacterLabels(chars, ids, n - 1)
      + (if id in chars then [WithJapanese(chars[id].name, chars[id].japaneseName)] else [])
  }

  /** There is no character label exactly when none of the ids names a
      character. */
  lemma {:induction false} CharacterLabelsEmpty(chars: map<string, Character>, ids: seq<string>, n: int)
    requires 0 <= n <= |ids|
    ensures CharacterLabels(chars, ids, n) == [] <==> forall i :: 0 <= i < n ==> ids[i] !in chars
  {
    if n > 0 {
      CharacterLabelsEmpty(chars, ids, n - 1);
    }
  }

  function Header(loc: Location): string {
    "You are in " + WithJapanese(loc.name, loc.japaneseName) + "."
  }

  /** The exits line: the visible exits, or the no-exits sentence when
      there is none. */
  function ExitsLine(locs: Dicts.Dict<string, Location>, loc: Location): (r: string)
    ensures r == NoExits <==> forall i :: 0 <= i < |loc.connections.keys| ==> !VisibleExit(locs, loc.connections, loc.connections.keys[i])
  {
    var exits := ExitLabels(locs, loc.connections, |loc.connections.keys|);
    ExitLabelsEmpty(locs, loc.connections, |loc.connections.keys|);
    if exits != [] then
      assert ("Exits: " + Text.Join(", ", exits) + ".")[0] == 'E';
      "Exits: " + Text.Join(", ", exits) + "."
    else NoExits
  }

  /** The parts of a location's description, in order: the header, the
      description, the Japanese description in parentheses when there is
      one, the exits line, then the visible items and the characters when
      there are any. */
  function Parts(world: World, loc: Location): seq<string> {
    var items := ItemLabels(world.items, loc.items, |loc.items|);
    var chars := CharacterLabels(world.characters, loc.characters, |loc.characters|);
    [Header(loc), loc.description]
    + (if loc.japaneseDescription != "" then ["(" + loc.japaneseDescription + ")"] else [])
    + [ExitsLine(world.locations, loc)]
    + (if items != [] then ["You see: " + Text.Join(", ", items) + "."] else [])
    + (if chars != [] then ["Characters: " + Text.Join(", ", chars) + "."] else [])
  }

  /** `get_location_description`: the parts joined by a backslash and an
      `n` (the two characters, not a line break), or the void message when
      the player's location is missing. */
  function Describe(world: World, player: Player): string {
    match world.locations.Get(player.currentLocation)
    case None => Void
    case Some(loc) => Text.Join("\\n", Parts(world, loc))
  }

  /** The description is the void message exactly when the player's
      location is missing; otherwise it opens with the location's header,
      and its exits part is the no-exits sentence exactly when no exit
      leads to an existing visible location. */
  lemma DescribeFacts(world: World, player: Player)
    ensures Describe(world, player) == Void <==> player.currentLocation !in world.locations.vals
    ensures player.currentLocation in world.locations.vals ==>
              var loc := world.locations.vals[player.currentLocation];
              var parts := Parts(world, loc);
              Text.StartsWith(Describe(world, player), Header(loc))
              && parts[0] == Header(loc) && parts[1] == loc.description
              && parts[if loc.japaneseDescription != "" then 3 else 2] == ExitsLine(world.locations, loc)
  {
    if player.currentLocation in world.locations.vals {
      var loc := world.locations.vals[player.currentLocation];
      var r := Describe(world, player);
      Text.JoinStartsWith("\\n", Parts(world, loc));
      assert r[8] == 'i' && Void[8] == 'l';
    }
  }

  /** Builds a location's exit labels. */
  method BuildExits(locs: Dicts.Dict<string, Location>, conns: Dicts.Dict<string, string>) returns (exits: seq<string>)
    ensures exits == ExitLabels(locs, conns, |conns.keys|)
  {
    exits := [];
    for i := 0 to |conns.keys|
      invariant exits == ExitLabels(locs, conns, i)
    {
      var dir := conns.keys[i];
      if dir in conns.vals {
        var id := conns.vals[dir];
        if id in locs.vals && !locs.vals[id].hidden {
          var name := if locs.vals[id].name != "" then locs.vals[id].name else id;
          exits := exits + [Text.Capitalize(dir) + " (" + name + ")"];
        }
      }
    }
  }

  /** Builds the labels of the visible items among `ids`. */
  method BuildItemLabels(items: map<string, Item>, ids: seq<string>) returns (labels: seq<string>)
    ensures labels == ItemLabels(items, ids, |ids|)
  {
    labels := [];
    for i := 0 to |ids|
      invariant labels == ItemLabels(items, ids, i)
    {
      if ids[i] in items && !items[ids[i]].hidden {
        labels := labels + [WithJapanese(items[ids[i]].name, items[ids[i]].japaneseName)];
      }
    }
  }

  /** Builds the labels of the characters among `ids`. */
  method BuildCharacterLabels(chars: map<string, Character>, ids: seq<string>) returns (labels: seq<string>)
    ensures labels == CharacterLabels(chars, ids, |ids|)
  {
    labels := [];
    for i := 0 to |ids|
      invariant labels == CharacterLabels(chars, ids, i)
    {
      if ids[i] in chars {
        labels := labels + [WithJapanese(chars[ids[i]].name, chars[ids[i]].japaneseName)];
      }
    }
  }

  /** `get_location_description` on the game state. */
  method GetLocationDescription(gs: GameState) returns (desc: string)
    ensures desc == Describe(gs.world, gs.player)
  {
    var found := gs.world.locations.Get(gs.player.currentLocation);
    if found.None? {
      return Void;
    }
    var loc := found.value;
    var parts := [Header(loc), loc.description];
    if loc.japaneseDescription != "" {
      parts := parts + ["(" + loc.japaneseDescription + ")"];
    }
    var exits := BuildExits(gs.world.locations, loc.connections);
    if exits != [] {
      parts := parts + ["Exits: " + Text.Join(", ", exits) + "."];
    } else {
      parts := parts + [NoExits];
    }
    var items := BuildItemLabels(gs.world.items, loc.items);
    if items != [] {
      parts := parts + ["You see: " + Text.Join(", ", items) + "."];
    }
    var chars := BuildCharacterLabels(gs.world.characters, loc.characters);
    if chars != [] {
      parts := parts + ["Characters: " + Text.Join(", ", chars) + "."];
    }
    assert parts == Parts(gs.world, loc);
    desc := Text.Join("\\n", parts);
  }
}
