/** The world validator: six repair passes over the location table that
    leave every connection pointing at an existing location, a wired
    `start` location, every location with an exit, and location contents
    that name existing items and characters. The passes never fail. */
module WorldValidator {

  import opened Wrappers
  import Dicts
  import Text
  import opened GameModels

  type Locs = Dicts.Dict<string, Location>

  // ---------------------------------------------------------------------
  // Opposite directions

  /** The table of opposites, keyed by direction value. */
  const Opposites: map<string, string> := map[
    "north" := "south", "south" := "north", "east" := "west", "west" := "east",
    "up" := "down", "down" := "up", "in" := "out", "out" := "in"]

  /** The reverse of a connection key: the opposite of one of the eight
      directions, and "south" for any other string. */
  function Opposite(dir: string): string {
    if dir in Opposites then Opposites[dir] else "south"
  }

  /** The table is keyed by exactly the eight direction values; on them
      Opposite undoes itself and never maps one to itself, and every other
      string goes to "south". */
  lemma OppositeInvolution(dir: string)
    ensures dir in Opposites <==> ParseDirection(dir).Some?
    ensures dir in Opposites ==> Opposite(dir) in Opposites && Opposite(Opposite(dir)) == dir && Opposite(dir) != dir
    ensures dir !in Opposites ==> Opposite(dir) == "south"
  {
  }

  // ---------------------------------------------------------------------
  // Slots and the predicates the passes establish

  /** `locations[b].connections.get(slot)`; None also when `b` is missing. */
  function Slot(locs: Locs, b: string, slot: string): Option<string> {
    if b in locs.vals && slot in locs.vals[b].connections.vals
    then Some(locs.vals[b].connections.vals[slot])
    else None
  }

  /** Every connection of every location leads to a location of the table. */
  ghost predicate Closed(locs: Locs) {
    forall k, d :: k in locs.vals && d in locs.vals[k].connections.vals ==>
      locs.vals[k].connections.vals[d] in locs.vals
  }

  /** Every location records its own key as its id. */
  ghost predicate IdsMatch(locs: Locs) {
    forall k :: k in locs.vals ==> locs.vals[k].id == k
  }

  ghost predicate NamesSet(locs: Locs) {
    forall k :: k in locs.vals ==> locs.vals[k].name != ""
  }

  /** `b` lists the same locations as `a`, in the same order, and they
      differ at most in their connection tables. */
  ghost predicate SameButConnections(a: Locs, b: Locs) {
    a.keys == b.keys && a.vals.Keys == b.vals.Keys
    && forall k :: k in a.vals ==> b.vals[k] == a.vals[k].(connections := b.vals[k].connections)
  }

  /** Every exit of `a` is still an exit, possibly retargeted, in `b`. */
  ghost predicate ExitsKept(a: Locs, b: Locs) {
    forall k, d :: k in a.vals && d in a.vals[k].connections.vals ==>
      k in b.vals && d in b.vals[k].connections.vals
  }

  lemma SameButConnectionsTrans(a: Locs, b: Locs, c: Locs)
    requires SameButConnections(a, b) && SameButConnections(b, c)
    ensures SameButConnections(a, c)
  {
  }

  lemma ExitsKeptTrans(a: Locs, b: Locs, c: Locs)
    requires ExitsKept(a, b) && ExitsKept(b, c)
    ensures ExitsKept(a, c)
  {
  }

  /** Every location of `a` is still in `b`, changed at most in its
      connection table. */
  ghost predicate ConnectionsOnly(a: Locs, b: Locs) {
    a.vals.Keys <= b.vals.Keys
    && forall k :: k in a.vals ==> b.vals[k] == a.vals[k].(connections := b.vals[k].connections)
  }

  lemma ConnectionsOnlyTrans(a: Locs, b: Locs, c: Locs)
    requires ConnectionsOnly(a, b) && ConnectionsOnly(b, c)
    ensures ConnectionsOnly(a, c)
  {
  }

  lemma SameButConnectionsKeeps(a: Locs, b: Locs)
    requires SameButConnections(a, b)
    ensures IdsMatch(a) ==> IdsMatch(b)
    ensures NamesSet(a) ==> NamesSet(b)
  {
  }

  lemma PutLocation(locs: Locs, k: string, loc: Location)
    requires LocationsValid(locs) && loc.connections.Valid()
    ensures LocationsValid(locs.Put(k, loc))
  {
  }

  /** `locations[target].connections[slot] = value`, for a target in the
      table; a missing target is left alone. */
  function SetSlot(locs: Locs, target: string, slot: string, value: string): (r: Locs)
    ensures r.keys == locs.keys && r.vals.Keys == locs.vals.Keys
  {
    if target in locs.vals then
      var loc := locs.vals[target];
      locs.Put(target, loc.(connections := loc.connections.Put(slot, value)))
    else locs
  }

  /** After the write, the slot holds the value and every other slot of the
      table reads as before. */
  lemma SetSlotReads(locs: Locs, target: string, slot: string, value: string, b: string, s: string)
    ensures Slot(SetSlot(locs, target, slot, value), b, s)
            == if b == target && s == slot && target in locs.vals then Some(value) else Slot(locs, b, s)
  {
  }

  /** A write changes one connection table and drops no exit; a write of an
      existing location keeps the table closed. */
  lemma SetSlotKeeps(locs: Locs, target: string, slot: string, value: string)
    ensures var r := SetSlot(locs, target, slot, value);
            (LocationsValid(locs) ==> LocationsValid(r))
            && SameButConnections(locs, r) && ExitsKept(locs, r)
            && (Closed(locs) && value in locs.vals ==> Closed(r))
  {
    var r := SetSlot(locs, target, slot, value);
    if Closed(locs) && value in locs.vals {
      forall k, d | k in r.vals && d in r.vals[k].connections.vals
        ensures r.vals[k].connections.vals[d] in r.vals
      {
        SetSlotReads(locs, target, slot, value, k, d);
        assert Slot(r, k, d).Some?;
      }
    }
  }

  /** Well-formed tables, every connection leading to a location of the
      table, ids matching keys and every name set. */
  ghost predicate Sound(locs: Locs) {
    LocationsValid(locs) && Closed(locs) && IdsMatch(locs) && NamesSet(locs)
  }

  /** The location `k` has at least one exit. */
  ghost predicate HasExit(locs: Locs, k: string) {
    k in locs.vals && locs.vals[k].connections.vals != map[]
  }

  /** What a run of writes that adds locations and sets slots keeps, at the
      location `k` and slot `d`: an old location keeps every field but its
      connections, and a well-formed connection table stays well-formed; a
      new location has a well-formed connection table, its key as id and a
      name; the slot is unchanged or holds a location of `b`. */
  ghost predicate RewiredAt(a: Locs, b: Locs, k: string, d: string) {
    (k in a.vals ==>
      k in b.vals && b.vals[k] == a.vals[k].(connections := b.vals[k].connections)
      && (a.vals[k].connections.Valid() ==> b.vals[k].connections.Valid()))
    && (k in b.vals && k !in a.vals ==>
          b.vals[k].connections.Valid() && b.vals[k].id == k && b.vals[k].name != "")
    && (Slot(b, k, d) == Slot(a, k, d) || (Slot(b, k, d).Some? && Slot(b, k, d).value in b.vals))
  }

  lemma RewiredAtTrans(a: Locs, b: Locs, c: Locs, k: string, d: string)
    requires b.vals.Keys <= c.vals.Keys
    ensures RewiredAt(a, b, k, d) && RewiredAt(b, c, k, d) ==> RewiredAt(a, c, k, d)
  {
  }

  /** Writes that keep every location and slot as RewiredAt says change the
      old locations' connection tables only, drop no exit, and keep a sound
      table sound. */
  lemma RewiredKeeps(a: Locs, b: Locs)
    requires a.vals.Keys <= b.vals.Keys && (a.Valid() ==> b.Valid())
    requires forall k, d :: RewiredAt(a, b, k, d)
    ensures LocationsValid(a) ==> LocationsValid(b)
    ensures Closed(a) ==> Closed(b)
    ensures IdsMatch(a) ==> IdsMatch(b)
    ensures NamesSet(a) ==> NamesSet(b)
    ensures forall k :: k in a.vals ==> b.vals[k] == a.vals[k].(connections := b.vals[k].connections)
    ensures ExitsKept(a, b)
  {
    forall k | k in b.vals
      ensures k in a.vals ==> b.vals[k] == a.vals[k].(connections := b.vals[k].connections)
      ensures k in a.vals ==> a.vals[k].connections.Valid() ==> b.vals[k].connections.Valid()
      ensures k !in a.vals ==> b.vals[k].connections.Valid() && b.vals[k].id == k && b.vals[k].name != ""
    {
      assert RewiredAt(a, b, k, "");
    }
    forall k, d | k in a.vals && d in a.vals[k].connections.vals
      ensures d in b.vals[k].connections.vals
    {
      assert RewiredAt(a, b, k, d);
    }
    if Closed(a) {
      forall k, d | k in b.vals && d in b.vals[k].connections.vals
        ensures b.vals[k].connections.vals[d] in b.vals
      {
        assert RewiredAt(a, b, k, d);
      }
    }
  }

  /** A write of an existing location keeps every location and slot as
      RewiredAt says. */
  lemma SetSlotRewired(locs: Locs, target: string, slot: string, value: string, k: string, d: string)
    requires value in locs.vals
    ensures RewiredAt(locs, SetSlot(locs, target, slot, value), k, d)
  {
    SetSlotReads(locs, target, slot, value, k, d);
  }

  /** Adding a new location without exits, its key as id and a name, keeps
      every location and slot as RewiredAt says. */
  lemma PutNewRewired(locs: Locs, id: string, loc: Location, k: string, d: string)
    requires id !in locs.vals && loc.connections == Dicts.Empty() && loc.id == id && loc.name != ""
    ensures RewiredAt(locs, locs.Put(id, loc), k, d)
  {
  }

  // ---------------------------------------------------------------------
  // Step 1: ids and names

  /** A location filed under `key`: its id set to the key and an empty name
      replaced by "Unnamed Area (<key>)"; nothing else changes. */
  function FixIdentity(key: string, loc: Location): (r: Location)
    ensures r.id == key && r.name != ""
    ensures loc.name != "" ==> r.name == loc.name
    ensures r.(id := loc.id, name := loc.name) == loc
  {
    var l := loc.(id := key);
    if l.name == "" then l.(name := "Unnamed Area (" + key + ")") else l
  }

  /** Step 1 over the snapshot of the table taken before the pass. */
  method FixIdentities(locs: Locs) returns (r: Locs)
    requires LocationsValid(locs)
    ensures LocationsValid(r) && r.keys == locs.keys && r.vals.Keys == locs.vals.Keys
    ensures forall k :: k in locs.vals ==> r.vals[k] == FixIdentity(k, locs.vals[k])
  {
    r := locs;
    for i := 0 to |locs.keys|
      invariant LocationsValid(r) && r.keys == locs.keys && r.vals.Keys == locs.vals.Keys
      invariant forall j :: 0 <= j < i ==> r.vals[locs.keys[j]] == FixIdentity(locs.keys[j], locs.vals[locs.keys[j]])
    {
      var k := locs.keys[i];
      var loc := FixIdentity(k, locs.vals[k]);
      PutLocation(r, k, loc);
      r := r.Put(k, loc);
    }
  }

  /** After step 1 every id matches its key and every name is set. */
  lemma FixIdentitiesResult(locs: Locs, r: Locs)
    requires r.vals.Keys == locs.vals.Keys
    requires forall k :: k in locs.vals ==> r.vals[k] == FixIdentity(k, locs.vals[k])
    ensures IdsMatch(r) && NamesSet(r)
  {
  }

  // ---------------------------------------------------------------------
  // Step 2: placeholders for missing targets

  /** Every location id some connection refers to. */
  function Referenced(locs: Locs): (r: set<string>)
    ensures forall k, d :: k in locs.vals && d in locs.vals[k].connections.vals ==>
              locs.vals[k].connections.vals[d] in r
  {
    set k, d | k in locs.vals && d in locs.vals[k].connections.vals :: locs.vals[k].connections.vals[d]
  }

  /** The stand-in for a location that is referenced but missing. */
  function Placeholder(id: string): Location {
    NewLocation(id, "Unknown Area (" + id + ")", "不明なエリア (" + id + ")",
                "This area seems incomplete or lost to time.",
                "不完全か、時の流れに失われたようなエリアです。")
  }

  /** What the placeholders added so far, `missing - todo`, have done to
      the table. */
  ghost predicate PlaceholdersSoFar(locs: Locs, missing: set<string>, todo: set<string>, r: Locs) {
    todo <= missing
    && LocationsValid(r) && r.vals.Keys == locs.vals.Keys + (missing - todo)
    && (forall k :: k in locs.vals ==> r.vals[k] == locs.vals[k])
    && (forall m :: m in missing - todo ==> r.vals[m] == Placeholder(m))
  }

  lemma PlaceholderStep(locs: Locs, missing: set<string>, todo: set<string>, r: Locs, m: string)
    requires missing !! locs.vals.Keys && PlaceholdersSoFar(locs, missing, todo, r) && m in todo
    ensures PlaceholdersSoFar(locs, missing, todo - {m}, r.Put(m, Placeholder(m)))
    ensures r.Put(m, Placeholder(m)).keys == r.keys + [m]
  {
    PutLocation(r, m, Placeholder(m));
  }

  /** Step 2: a placeholder for each missing id, taken from the set in an
      unspecified order and added after the existing locations. */
  method AddPlaceholders(locs: Locs, missing: set<string>) returns (r: Locs)
    requires LocationsValid(locs) && missing !! locs.vals.Keys
    ensures LocationsValid(r) && r.vals.Keys == locs.vals.Keys + missing
    ensures locs.keys <= r.keys
    ensures forall k :: k in locs.vals ==> r.vals[k] == locs.vals[k]
    ensures forall m :: m in missing ==> r.vals[m] == Placeholder(m)
  {
    r := locs;
    var todo := missing;
    ghost var added: seq<string> := [];
    while todo != {}
      invariant PlaceholdersSoFar(locs, missing, todo, r)
      invariant r.keys == locs.keys + added
      decreases todo
    {
      var m :| m in todo;
      PlaceholderStep(locs, missing, todo, r, m);
      r := r.Put(m, Placeholder(m));
      added := added + [m];
      todo := todo - {m};
    }
  }

  /** Placeholders for exactly the missing targets close the table, and
      they keep ids matching keys and every name set. */
  lemma PlaceholdersClose(locs: Locs, r: Locs)
    requires IdsMatch(locs) && NamesSet(locs)
    requires r.vals.Keys == locs.vals.Keys + (Referenced(locs) - locs.vals.Keys)
    requires forall k :: k in locs.vals ==> r.vals[k] == locs.vals[k]
    requires forall m :: m in Referenced(locs) - locs.vals.Keys ==> r.vals[m] == Placeholder(m)
    ensures Closed(r) && IdsMatch(r) && NamesSet(r)
  {
  }

  // ---------------------------------------------------------------------
  // Step 3: reverse edges

  /** The first `n` edges of the turn of the source `src`, over the
      snapshot `snap` of its connections: for each edge `d -> t`,
      `t.connections[opposite(d)]` is set to `src`, whether it was missing
      or pointed elsewhere. */
  function ReverseEdges(locs: Locs, src: string, snap: Dicts.Dict<string, string>, n: int): (r: Locs)
    requires 0 <= n <= |snap.keys|
    ensures r.keys == locs.keys && r.vals.Keys == locs.vals.Keys
  {
    if n == 0 then locs
    else
      var before := ReverseEdges(locs, src, snap, n - 1);
      var d := snap.keys[n - 1];
      if d in snap.vals then SetSlot(before, snap.vals[d], Opposite(d), src) else before
  }

  /** A turn keeps every location and slot as RewiredAt says. */
  lemma {:induction false} ReverseEdgesRewired(locs: Locs, src: string, snap: Dicts.Dict<string, string>, n: int, k: string, d: string)
    requires 0 <= n <= |snap.keys| && src in locs.vals
    ensures RewiredAt(locs, ReverseEdges(locs, src, snap, n), k, d)
  {
    if n > 0 {
      var before := ReverseEdges(locs, src, snap, n - 1);
      ReverseEdgesRewired(locs, src, snap, n - 1, k, d);
      var e := snap.keys[n - 1];
      var r := ReverseEdges(locs, src, snap, n);
      if e in snap.vals {
        assert r == SetSlot(before, snap.vals[e], Opposite(e), src);
        SetSlotRewired(before, snap.vals[e], Opposite(e), src, k, d);
        RewiredAtTrans(locs, before, r, k, d);
      } else {
        assert r == before;
      }
    }
  }

  /** The turn of the source `src` over the snapshot of its connections
      taken as the turn starts. */
  function Turn(locs: Locs, src: string): (r: Locs)
    ensures r.keys == locs.keys && r.vals.Keys == locs.vals.Keys
  {
    if src in locs.vals then
      var snap := locs.vals[src].connections;
      ReverseEdges(locs, src, snap, |snap.keys|)
    else locs
  }

  /** The turns of the first `n` sources of `order`. */
  function ReversePass(locs: Locs, order: seq<string>, n: int): (r: Locs)
    requires 0 <= n <= |order|
    ensures r.keys == locs.keys && r.vals.Keys == locs.vals.Keys
  {
    if n == 0 then locs else Turn(ReversePass(locs, order, n - 1), order[n - 1])
  }

  lemma {:induction false} ReversePassRewired(locs: Locs, order: seq<string>, n: int, k: string, d: string)
    requires 0 <= n <= |order|
    ensures RewiredAt(locs, ReversePass(locs, order, n), k, d)
  {
    if n > 0 {
      var before := ReversePass(locs, order, n - 1);
      ReversePassRewired(locs, order, n - 1, k, d);
      var src := order[n - 1];
      var r := ReversePass(locs, order, n);
      assert r == Turn(before, src);
      if src in before.vals {
        var snap := before.vals[src].connections;
        ReverseEdgesRewired(before, src, snap, |snap.keys|, k, d);
        RewiredAtTrans(locs, before, r, k, d);
      } else {
        assert r == before;
      }
    }
  }

  /** Step 3 changes connection tables only, drops no exit and keeps the
      tables well-formed and closed. */
  lemma ReversePassKeeps(locs: Locs, order: seq<string>, n: int)
    requires 0 <= n <= |order|
    ensures var r := ReversePass(locs, order, n);
            (LocationsValid(locs) ==> LocationsValid(r)) && SameButConnections(locs, r) && ExitsKept(locs, r)
            && (Closed(locs) ==> Closed(r)) && (Sound(locs) ==> Sound(r))
  {
    var r := ReversePass(locs, order, n);
    forall k, d
      ensures RewiredAt(locs, r, k, d)
    {
      ReversePassRewired(locs, order, n, k, d);
    }
    RewiredKeeps(locs, r);
  }

  /** The turn of one source in step 3: the edges of its snapshot in
      order. */
  method RepairFrom(locs: Locs, src: string) returns (r: Locs)
    requires src in locs.vals && locs.vals[src].connections.Valid()
    ensures r == Turn(locs, src)
  {
    var snap := locs.vals[src].connections;
    r := locs;
    for j := 0 to |snap.keys|
      invariant r == ReverseEdges(locs, src, snap, j)
    {
      var dir := snap.keys[j];
      var target := snap.vals[dir];
      // Adding a missing reverse edge and correcting a wrong one are the
      // same assignment.
      r := SetSlot(r, target, Opposite(dir), src);
    }
  }

  /** Step 3: every location in table order, over a snapshot of its
      connections. The table is closed when the pass starts, so the branch
      that drops a connection to a missing target is never taken. */
  method RepairReverseEdges(locs: Locs) returns (r: Locs)
    requires LocationsValid(locs) && Closed(locs)
    ensures r == ReversePass(locs, locs.keys, |locs.keys|)
  {
    r := locs;
    for i := 0 to |locs.keys|
      invariant r == ReversePass(locs, locs.keys, i)
    {
      TurnReady(locs, i);
      r := RepairFrom(r, locs.keys[i]);
    }
  }

  /** The `i`-th location is still in the table when its turn comes, with a
      well-formed connection table. */
  lemma TurnReady(locs: Locs, i: int)
    requires LocationsValid(locs) && 0 <= i < |locs.keys|
    ensures var before := ReversePass(locs, locs.keys, i);
            locs.keys[i] in before.vals && before.vals[locs.keys[i]].connections.Valid()
  {
    ReversePassRewired(locs, locs.keys, i, locs.keys[i], "");
  }

  /** Every slot the turn of `src` writes ends up naming `src`. */
  lemma {:induction false} PassWritesReverse(locs: Locs, src: string, snap: Dicts.Dict<string, string>, n: int, k: int)
    requires 0 <= k < n <= |snap.keys|
    requires snap.keys[k] in snap.vals && snap.vals[snap.keys[k]] in locs.vals
    ensures Slot(ReverseEdges(locs, src, snap, n), snap.vals[snap.keys[k]], Opposite(snap.keys[k])) == Some(src)
  {
    var before := ReverseEdges(locs, src, snap, n - 1);
    var d := snap.keys[n - 1];
    var r := ReverseEdges(locs, src, snap, n);
    var b := snap.vals[snap.keys[k]];
    var slot := Opposite(snap.keys[k]);
    if k < n - 1 {
      PassWritesReverse(locs, src, snap, n - 1, k);
      assert Slot(before, b, slot) == Some(src);
    }
    if d in snap.vals {
      assert r == SetSlot(before, snap.vals[d], Opposite(d), src);
      SetSlotReads(before, snap.vals[d], Opposite(d), src, b, slot);
    } else {
      assert r == before;
    }
  }

  /** Some edge of the table `conns` makes a turn write `b.connections[slot]`. */
  ghost predicate WritesSlot(conns: Dicts.Dict<string, string>, b: string, slot: string) {
    exists d :: d in conns.vals && conns.vals[d] == b && Opposite(d) == slot
  }

  /** The turn of `src` leaves alone every slot that no edge of its
      snapshot aims at. */
  lemma {:induction false} PassFrame(locs: Locs, src: string, snap: Dicts.Dict<string, string>, n: int, b: string, slot: string)
    requires 0 <= n <= |snap.keys| && !WritesSlot(snap, b, slot)
    ensures Slot(ReverseEdges(locs, src, snap, n), b, slot) == Slot(locs, b, slot)
  {
    var r := ReverseEdges(locs, src, snap, n);
    if n > 0 {
      var before := ReverseEdges(locs, src, snap, n - 1);
      PassFrame(locs, src, snap, n - 1, b, slot);
      var d := snap.keys[n - 1];
      if d in snap.vals {
        assert r == SetSlot(before, snap.vals[d], Opposite(d), src);
        SetSlotReads(before, snap.vals[d], Opposite(d), src, b, slot);
      } else {
        assert r == before;
      }
    } else {
      assert r == locs;
    }
  }

  /** The connections of the `i`-th source as its turn in the pass starts. */
  ghost function Snapshot(locs: Locs, order: seq<string>, i: int): Dicts.Dict<string, string>
    requires 0 <= i < |order|
  {
    var before := ReversePass(locs, order, i);
    if order[i] in before.vals then before.vals[order[i]].connections else Dicts.Empty()
  }

  /** The turn of a source writes its own id into the reverse slot of
      every edge of its snapshot. */
  lemma TurnWrites(locs: Locs, src: string, d: string)
    requires src in locs.vals && locs.vals[src].connections.Valid()
    requires d in locs.vals[src].connections.vals && locs.vals[src].connections.vals[d] in locs.vals
    ensures Slot(Turn(locs, src), locs.vals[src].connections.vals[d], Opposite(d)) == Some(src)
  {
    var snap := locs.vals[src].connections;
    var k :| 0 <= k < |snap.keys| && snap.keys[k] == d;
    PassWritesReverse(locs, src, snap, |snap.keys|, k);
  }

  /** One of the sources `order[i+1..n]` had, in the snapshot of its turn,
      an edge writing `b.connections[slot]`. */
  ghost predicate WrittenLater(locs: Locs, order: seq<string>, i: int, n: int, b: string, slot: string)
    requires 0 <= i < n <= |order|
    decreases n
  {
    n - 1 > i && (WritesSlot(Snapshot(locs, order, n - 1), b, slot) || WrittenLater(locs, order, i, n - 1, b, slot))
  }

  /** The turn of the `i`-th source writes its id into the reverse slot of
      every edge of its snapshot. */
  lemma OwnTurnWrites(locs: Locs, order: seq<string>, i: int, d: string)
    requires LocationsValid(locs) && Closed(locs) && 0 <= i < |order|
    requires order[i] in locs.vals
    requires d in Snapshot(locs, order, i).vals
    ensures Slot(ReversePass(locs, order, i + 1), Snapshot(locs, order, i).vals[d], Opposite(d)) == Some(order[i])
  {
    var before := ReversePass(locs, order, i);
    assert ReversePass(locs, order, i + 1) == Turn(before, order[i]);
    ReversePassRewired(locs, order, i, order[i], d);
    assert Slot(before, order[i], d) == Some(Snapshot(locs, order, i).vals[d]);
    TurnWrites(before, order[i], d);
  }

  /** A later turn leaves a slot alone unless its snapshot has an edge
      writing it. */
  lemma LaterTurnFrame(locs: Locs, order: seq<string>, n: int, b: string, slot: string)
    requires 0 < n <= |order|
    ensures Slot(ReversePass(locs, order, n), b, slot) == Slot(ReversePass(locs, order, n - 1), b, slot)
            || WritesSlot(Snapshot(locs, order, n - 1), b, slot)
  {
    var before := ReversePass(locs, order, n - 1);
    var src := order[n - 1];
    assert ReversePass(locs, order, n) == Turn(before, src);
    if src in before.vals {
      var snap := before.vals[src].connections;
      if !WritesSlot(snap, b, slot) {
        PassFrame(before, src, snap, |snap.keys|, b, slot);
      }
    }
  }

  /** Last writer wins. For every edge `d -> b` in the snapshot of the
      `i`-th source, after the turns of the first `n` sources
      `b.connections[opposite(d)]` names that source, unless a source after
      it also had an edge writing that same slot. */
  lemma {:induction false} ReverseEdgeLastWriterWins(locs: Locs, order: seq<string>, n: int, i: int, d: string)
    requires LocationsValid(locs) && Closed(locs) && 0 <= i < n <= |order|
    requires order[i] in locs.vals
    requires d in Snapshot(locs, order, i).vals
    ensures var b := Snapshot(locs, order, i).vals[d];
            Slot(ReversePass(locs, order, n), b, Opposite(d)) == Some(order[i])
            || WrittenLater(locs, order, i, n, b, Opposite(d))
  {
    if i == n - 1 {
      OwnTurnWrites(locs, order, i, d);
    } else {
      ReverseEdgeLastWriterWins(locs, order, n - 1, i, d);
      LaterTurnFrame(locs, order, n, Snapshot(locs, order, i).vals[d], Opposite(d));
    }
  }

  /** Every edge `a -d-> b` already has its reverse `b -opposite(d)-> a`. */
  ghost predicate Symmetric(locs: Locs) {
    forall a, d :: a in locs.vals && d in locs.vals[a].connections.vals ==>
      Slot(locs, locs.vals[a].connections.vals[d], Opposite(d)) == Some(a)
  }

  /** Writing into a slot the value it already holds changes nothing. */
  lemma SetSlotSame(locs: Locs, target: string, slot: string, value: string)
    requires LocationsValid(locs) && Slot(locs, target, slot) == Some(value)
    ensures SetSlot(locs, target, slot, value) == locs
  {
    var conns := locs.vals[target].connections;
    Dicts.PutSame(conns, slot);
    Dicts.PutSame(locs, target);
  }

  /** A source whose every edge already has its reverse is left as it is
      by its own turn. */
  lemma {:induction false} ReverseEdgesSymmetric(locs: Locs, src: string, snap: Dicts.Dict<string, string>, n: int)
    requires LocationsValid(locs) && snap.Valid() && 0 <= n <= |snap.keys|
    requires forall d :: d in snap.vals ==> Slot(locs, snap.vals[d], Opposite(d)) == Some(src)
    ensures ReverseEdges(locs, src, snap, n) == locs
  {
    if n > 0 {
      ReverseEdgesSymmetric(locs, src, snap, n - 1);
      var d := snap.keys[n - 1];
      assert d in snap.vals;
      ReverseEdgeSame(locs, src, snap, n, d, snap.vals[d]);
    }
  }

  /** An edge whose reverse is already in place is not written again. */
  lemma ReverseEdgeSame(locs: Locs, src: string, snap: Dicts.Dict<string, string>, n: int, d: string, b: string)
    requires LocationsValid(locs) && 0 < n <= |snap.keys| && ReverseEdges(locs, src, snap, n - 1) == locs
    requires d == snap.keys[n - 1] && d in snap.vals && snap.vals[d] == b
    requires Slot(locs, b, Opposite(d)) == Some(src)
    ensures ReverseEdges(locs, src, snap, n) == locs
  {
    SetSlotSame(locs, b, Opposite(d), src);
  }

  /** On a table whose edges all have their reverse, the reverse-edge pass
      changes nothing. */
  lemma {:induction false} ReversePassSymmetric(locs: Locs, order: seq<string>, n: int)
    requires LocationsValid(locs) && Symmetric(locs) && 0 <= n <= |order|
    ensures ReversePass(locs, order, n) == locs
  {
    if n > 0 {
      ReversePassSymmetric(locs, order, n - 1);
      var src := order[n - 1];
      assert ReversePass(locs, order, n) == Turn(locs, src);
      if src in locs.vals {
        var snap := locs.vals[src].connections;
        forall d | d in snap.vals
          ensures Slot(locs, snap.vals[d], Opposite(d)) == Some(src)
        {
        }
        ReverseEdgesSymmetric(locs, src, snap, |snap.keys|);
      }
    }
  }

  // ---------------------------------------------------------------------
  // Step 4: the start location

  /** The start location created when the table has none. */
  function DefaultStart(): Location {
    NewLocation("start", "Starting Point", "開始地点", "The beginning of your adventure.", "冒険の始まり。")
  }

  /** The exits given to a start location that has none, in order. */
  const DefaultExits: seq<(string, string)> :=
    [("north", "forest"), ("east", "shop"), ("west", "house"), ("south", "river")]

  /** The stand-in for a default exit target that does not exist. */
  function ExitPlaceholder(id: string): Location {
    NewLocation(id, Text.Capitalize(id), "", "The " + id + " area.", "")
  }

  /** One default exit `start -dir-> target`: the target is created if
      missing, the start gets the exit, and the target gets the reverse exit
      only if that slot is still free. */
  function AddDefaultExit(locs: Locs, dir: string, target: string): (r: Locs)
    ensures r.vals.Keys == locs.vals.Keys + {target}
    ensures r.keys == if target in locs.vals then locs.keys else locs.keys + [target]
  {
    var l1 := if target in locs.vals then locs else locs.Put(target, ExitPlaceholder(target));
    var l2 := SetSlot(l1, "start", dir, target);
    var opp := Opposite(dir);
    if Slot(l2, target, opp).None? then SetSlot(l2, target, opp, "start") else l2
  }

  /** A default exit gives the start the exit `dir` to the target, and the
      target an exit in the opposite direction; the start's other exits are
      untouched. */
  lemma AddDefaultExitWrites(locs: Locs, dir: string, target: string)
    requires "start" in locs.vals
    ensures var r := AddDefaultExit(locs, dir, target);
            Slot(r, "start", dir) == Some(target) && Slot(r, target, Opposite(dir)).Some?
  {
    var l1 := if target in locs.vals then locs else locs.Put(target, ExitPlaceholder(target));
    var l2 := SetSlot(l1, "start", dir, target);
    var opp := Opposite(dir);
    OppositeInvolution(dir);
    assert opp != dir;
    SetSlotReads(l1, "start", dir, target, "start", dir);
    assert Slot(l2, "start", dir) == Some(target);
    if Slot(l2, target, opp).None? {
      SetSlotReads(l2, target, opp, "start", "start", dir);
      SetSlotReads(l2, target, opp, "start", target, opp);
    }
  }

  /** A default exit to another location adds exactly that exit to the
      start's connection table. */
  lemma AddDefaultExitStartTable(locs: Locs, dir: string, target: string)
    requires "start" in locs.vals && target != "start"
    ensures AddDefaultExit(locs, dir, target).vals["start"].connections
            == locs.vals["start"].connections.Put(dir, target)
  {
  }

  /** A default exit keeps every location and slot as RewiredAt says. */
  lemma AddDefaultExitRewired(locs: Locs, dir: string, target: string, k: string, d: string)
    requires "start" in locs.vals && target != ""
    ensures RewiredAt(locs, AddDefaultExit(locs, dir, target), k, d)
  {
    var l1 := if target in locs.vals then locs else locs.Put(target, ExitPlaceholder(target));
    if target !in locs.vals {
      PutNewRewired(locs, target, ExitPlaceholder(target), k, d);
    }
    assert RewiredAt(locs, l1, k, d);
    var l2 := SetSlot(l1, "start", dir, target);
    SetSlotRewired(l1, "start", dir, target, k, d);
    RewiredAtTrans(locs, l1, l2, k, d);
    var opp := Opposite(dir);
    if Slot(l2, target, opp).None? {
      SetSlotRewired(l2, target, opp, "start", k, d);
      RewiredAtTrans(locs, l2, SetSlot(l2, target, opp, "start"), k, d);
    }
  }

  /** A default exit never removes a connection. */
  lemma AddDefaultExitKeepsSlot(locs: Locs, dir: string, target: string, k: string, d: string)
    ensures Slot(locs, k, d).Some? ==> Slot(AddDefaultExit(locs, dir, target), k, d).Some?
  {
    var l1 := if target in locs.vals then locs else locs.Put(target, ExitPlaceholder(target));
    var l2 := SetSlot(l1, "start", dir, target);
    SetSlotReads(l1, "start", dir, target, k, d);
    SetSlotReads(l2, target, Opposite(dir), "start", k, d);
  }

  /** The first `n` default exits added one after the other. */
  function AddDefaultExits(locs: Locs, n: int): (r: Locs)
    requires 0 <= n <= |DefaultExits|
    ensures locs.vals.Keys <= r.vals.Keys
    ensures locs.keys <= r.keys
    ensures locs.Valid() ==> r.Valid()
  {
    if n == 0 then locs
    else
      var before := AddDefaultExits(locs, n - 1);
      var r := AddDefaultExit(before, DefaultExits[n - 1].0, DefaultExits[n - 1].1);
      r
  }

  lemma {:induction false} AddDefaultExitsRewired(locs: Locs, n: int, k: string, d: string)
    requires "start" in locs.vals && 0 <= n <= |DefaultExits|
    ensures RewiredAt(locs, AddDefaultExits(locs, n), k, d)
  {
    if n > 0 {
      AddDefaultExitsRewired(locs, n - 1, k, d);
      var before := AddDefaultExits(locs, n - 1);
      AddDefaultExitRewired(before, DefaultExits[n - 1].0, DefaultExits[n - 1].1, k, d);
      RewiredAtTrans(locs, before, AddDefaultExits(locs, n), k, d);
    }
  }

  /** Step 4 on a table that has a start: a start without exits gets the
      default ones. */
  function StartExits(locs: Locs): Locs {
    if "start" in locs.vals && locs.vals["start"].connections.vals == map[]
    then AddDefaultExits(locs, |DefaultExits|) else locs
  }

  /** The table before the default exits: a start is created if missing. */
  function WithStart(locs: Locs): (r: Locs)
    ensures "start" in r.vals
  {
    if "start" in locs.vals then locs else locs.Put("start", DefaultStart())
  }

  /** Step 4: a `start` location is created if missing, and a start
      without exits gets the default ones. */
  method WireStart(locs: Locs) returns (r: Locs)
    ensures r == StartExits(WithStart(locs))
  {
    r := locs;
    if "start" !in r.vals {
      r := r.Put("start", DefaultStart());
    }
    assert r == WithStart(locs);
    if r.vals["start"].connections.vals == map[] {
      r := WireDefaultExits(r);
    }
  }

  /** The default-exit loop of step 4. */
  method WireDefaultExits(s: Locs) returns (r: Locs)
    ensures r == AddDefaultExits(s, |DefaultExits|)
  {
    r := s;
    for i := 0 to |DefaultExits|
      invariant r == AddDefaultExits(s, i)
    {
      r := WireExit(r, DefaultExits[i].0, DefaultExits[i].1);
    }
  }

  /** The body of the default-exit loop of step 4. */
  method WireExit(locs: Locs, dir: string, target: string) returns (r: Locs)
    ensures r == AddDefaultExit(locs, dir, target)
  {
    r := locs;
    if target !in r.vals {
      r := r.Put(target, ExitPlaceholder(target));
    }
    r := SetSlot(r, "start", dir, target);
    var opp := Opposite(dir);
    if opp !in r.vals[target].connections.vals {
      r := SetSlot(r, target, opp, "start");
    }
  }

  /** Adding a missing start keeps a sound table sound, with the old
      locations first in the order. */
  lemma WithStartSound(locs: Locs)
    requires Sound(locs)
    ensures var s := WithStart(locs);
            Sound(s) && ExitsKept(locs, s) && ConnectionsOnly(locs, s) && locs.keys <= s.keys
  {
    var s := WithStart(locs);
    if "start" !in locs.vals {
      forall k, d
        ensures RewiredAt(locs, s, k, d)
      {
        PutNewRewired(locs, "start", DefaultStart(), k, d);
      }
      RewiredKeeps(locs, s);
    }
  }

  /** The default exits keep a sound table sound, give the start an exit and
      keep the old locations first in the order. */
  lemma AddDefaultExitsSound(s: Locs)
    requires Sound(s) && "start" in s.vals
    ensures var r := AddDefaultExits(s, |DefaultExits|);
            Sound(r) && HasExit(r, "start") && ExitsKept(s, r) && ConnectionsOnly(s, r)
  {
    var r := AddDefaultExits(s, |DefaultExits|);
    forall k, d
      ensures RewiredAt(s, r, k, d)
    {
      AddDefaultExitsRewired(s, |DefaultExits|, k, d);
    }
    RewiredKeeps(s, r);
    AddDefaultExitWrites(AddDefaultExits(s, 3), "south", "river");
  }

  /** Step 4 leaves a sound table sound, with a start that has an exit and
      the old locations first in the order. */
  lemma StartExitsSound(locs: Locs)
    requires Sound(locs)
    ensures var r := StartExits(WithStart(locs));
            Sound(r) && HasExit(r, "start") && ExitsKept(locs, r) && ConnectionsOnly(locs, r)
            && locs.keys <= r.keys
  {
    var s := WithStart(locs);
    WithStartSound(locs);
    if s.vals["start"].connections.vals == map[] {
      AddDefaultExitsSound(s);
      var r := StartExits(s);
      ExitsKeptTrans(locs, s, r);
      ConnectionsOnlyTrans(locs, s, r);
    }
  }

  /** The connection table that the first `n` default exits give a start
      without exits. */
  function ExitTable(n: int): (t: Dicts.Dict<string, string>)
    requires 0 <= n <= |DefaultExits|
    ensures t.Valid()
  {
    if n == 0 then Dicts.Empty()
    else ExitTable(n - 1).Put(DefaultExits[n - 1].0, DefaultExits[n - 1].1)
  }

  /** No default exit leads back to the start. */
  lemma DefaultTargetNotStart(i: int)
    requires 0 <= i < |DefaultExits|
    ensures DefaultExits[i].1 != "start" && DefaultExits[i].1 != ""
  {
  }

  lemma {:induction false} StartGetsExitTable(s: Locs, n: int)
    requires "start" in s.vals && s.vals["start"].connections == Dicts.Empty()
    requires 0 <= n <= |DefaultExits|
    ensures AddDefaultExits(s, n).vals["start"].connections == ExitTable(n)
  {
    if n > 0 {
      StartGetsExitTable(s, n - 1);
      DefaultTargetNotStart(n - 1);
      AddDefaultExitStartTable(AddDefaultExits(s, n - 1), DefaultExits[n - 1].0, DefaultExits[n - 1].1);
    }
  }

  /** Once the default exit `i` is added, its target keeps an exit in the
      opposite direction. */
  lemma {:induction false} DefaultExitReversed(s: Locs, n: int, i: int)
    requires "start" in s.vals && 0 <= i < n <= |DefaultExits|
    ensures Slot(AddDefaultExits(s, n), DefaultExits[i].1, Opposite(DefaultExits[i].0)).Some?
  {
    var before := AddDefaultExits(s, n - 1);
    if i == n - 1 {
      AddDefaultExitWrites(before, DefaultExits[i].0, DefaultExits[i].1);
    } else {
      DefaultExitReversed(s, n - 1, i);
      AddDefaultExitKeepsSlot(before, DefaultExits[n - 1].0, DefaultExits[n - 1].1,
                              DefaultExits[i].1, Opposite(DefaultExits[i].0));
    }
  }

  /** The default exits and their reverse directions, spelled out. */
  lemma DefaultExitsSpelled()
    ensures DefaultExits[0] == ("north", "forest") && Opposite("north") == "south"
    ensures DefaultExits[1] == ("east", "shop") && Opposite("east") == "west"
    ensures DefaultExits[2] == ("west", "house") && Opposite("west") == "east"
    ensures DefaultExits[3] == ("south", "river") && Opposite("south") == "north"
    ensures ExitTable(|DefaultExits|)
            == Dicts.Dict(["north", "east", "west", "south"],
                          map["north" := "forest", "east" := "shop", "west" := "house", "south" := "river"])
  {
    ExitTableFour();
  }

  lemma ExitTableTwo()
    ensures ExitTable(2) == Dicts.Dict(["north", "east"], map["north" := "forest", "east" := "shop"])
  {
    assert ExitTable(1) == Dicts.Dict(["north"], map["north" := "forest"]);
  }

  lemma ExitTableThree()
    ensures ExitTable(3) == Dicts.Dict(["north", "east", "west"],
                                       map["north" := "forest", "east" := "shop", "west" := "house"])
  {
    ExitTableTwo();
  }

  lemma ExitTableFour()
    ensures ExitTable(4) == Dicts.Dict(["north", "east", "west", "south"],
                                       map["north" := "forest", "east" := "shop", "west" := "house", "south" := "river"])
  {
    ExitTableThree();
  }

  /** A start without exits leaves step 4 with exactly the four default
      exits north -> forest, east -> shop, west -> house, south -> river, in
      that order, and each of the four targets has an exit back in the
      opposite direction (to `start`, unless that slot was already taken). */
  lemma DefaultExitsResult(s: Locs)
    requires "start" in s.vals && s.vals["start"].connections == Dicts.Empty()
    ensures var r := AddDefaultExits(s, |DefaultExits|);
            r.vals["start"].connections
              == Dicts.Dict(["north", "east", "west", "south"],
                            map["north" := "forest", "east" := "shop", "west" := "house", "south" := "river"])
            && Slot(r, "forest", "south").Some? && Slot(r, "shop", "west").Some?
            && Slot(r, "house", "east").Some? && Slot(r, "river", "north").Some?
  {
    DefaultExitsSpelled();
    StartGetsExitTable(s, 4);
    DefaultExitReversed(s, 4, 0);
    DefaultExitReversed(s, 4, 1);
    DefaultExitReversed(s, 4, 2);
    DefaultExitReversed(s, 4, 3);
  }

  // ---------------------------------------------------------------------
  // Step 5: item and character references

  /** The ids of `ids` that are in `known`, in their order. */
  function KeepKnown(ids: seq<string>, known: set<string>): (r: seq<string>)
    ensures forall x :: x in r <==> x in ids && x in known
    ensures |r| <= |ids|
    ensures (forall x :: x in ids ==> x in known) ==> r == ids
  {
    if |ids| == 0 then []
    else if ids[0] in known then [ids[0]] + KeepKnown(ids[1..], known)
    else KeepKnown(ids[1..], known)
  }

  /** A location without the items and characters that do not exist;
      nothing else changes. */
  function FilterContents(loc: Location, itemIds: set<string>, characterIds: set<string>): (r: Location)
    ensures r == loc.(items := r.items, characters := r.characters)
    ensures forall x :: x in r.items <==> x in loc.items && x in itemIds
    ensures forall x :: x in r.characters <==> x in loc.characters && x in characterIds
  {
    loc.(items := KeepKnown(loc.items, itemIds), characters := KeepKnown(loc.characters, characterIds))
  }

  /** Step 5 applied to every location. */
  function FilterAll(locs: Locs, itemIds: set<string>, characterIds: set<string>): (r: Locs)
    ensures r.keys == locs.keys && r.vals.Keys == locs.vals.Keys
  {
    Dicts.Dict(locs.keys, map k | k in locs.vals :: FilterContents(locs.vals[k], itemIds, characterIds))
  }

  /** Step 5: every location, in table order, loses the references to items
      and characters that do not exist. */
  method FilterPlacements(locs: Locs, itemIds: set<string>, characterIds: set<string>) returns (r: Locs)
    requires locs.Valid()
    ensures r == FilterAll(locs, itemIds, characterIds)
  {
    r := locs;
    for i := 0 to |locs.keys|
      invariant r.keys == locs.keys && r.vals.Keys == locs.vals.Keys
      invariant forall k :: k in locs.vals ==>
                  r.vals[k] == if k in locs.keys[..i] then FilterContents(locs.vals[k], itemIds, characterIds) else locs.vals[k]
    {
      var k := locs.keys[i];
      assert locs.keys[..i + 1] == locs.keys[..i] + [k];
      r := r.Put(k, FilterContents(r.vals[k], itemIds, characterIds));
    }
    assert locs.keys[..|locs.keys|] == locs.keys;
  }

  /** Every location lists only the given items and characters. */
  ghost predicate ContentsIn(locs: Locs, itemIds: set<string>, characterIds: set<string>) {
    forall k :: k in locs.vals ==>
      (forall x :: x in locs.vals[k].items ==> x in itemIds)
      && (forall x :: x in locs.vals[k].characters ==> x in characterIds)
  }

  /** After step 5 every location lists only existing items and characters,
      and the connections, so soundness and exits, are untouched. */
  lemma FilterAllSound(locs: Locs, itemIds: set<string>, characterIds: set<string>)
    ensures var r := FilterAll(locs, itemIds, characterIds);
            ContentsIn(r, itemIds, characterIds)
            && (forall k :: k in locs.vals ==> r.vals[k].connections == locs.vals[k].connections)
            && (Sound(locs) ==> Sound(r)) && ExitsKept(locs, r)
  {
    var r := FilterAll(locs, itemIds, characterIds);
    assert forall k :: k in locs.vals ==>
      r.vals[k].connections == locs.vals[k].connections && r.vals[k].id == locs.vals[k].id
      && r.vals[k].name == locs.vals[k].name;
  }

  /** A table whose locations list only existing items and characters is
      left unchanged by step 5. */
  lemma FilterAllKnown(locs: Locs, itemIds: set<string>, characterIds: set<string>)
    requires ContentsIn(locs, itemIds, characterIds)
    ensures FilterAll(locs, itemIds, characterIds) == locs
  {
    var r := FilterAll(locs, itemIds, characterIds);
    forall k | k in locs.vals
      ensures r.vals[k] == locs.vals[k]
    {
      var loc := locs.vals[k];
      assert KeepKnown(loc.items, itemIds) == loc.items;
      assert KeepKnown(loc.characters, characterIds) == loc.characters;
    }
    assert r.vals == locs.vals;
  }

  // ---------------------------------------------------------------------
  // Step 6: orphans

  /** The turn of the location `k` in step 6: a location other than start
      without any exit gets the exit south to start, and start's exit in the
      opposite direction, north, is pointed at it, overwriting whatever it
      held. */
  function AttachOne(locs: Locs, k: string): (r: Locs)
    ensures r.keys == locs.keys && r.vals.Keys == locs.vals.Keys
  {
    if k in locs.vals && locs.vals[k].id != "start" && locs.vals[k].connections.vals == map[] then
      SetSlot(SetSlot(locs, k, "south", "start"), "start", Opposite("south"), locs.vals[k].id)
    else locs
  }

  /** The turns of the first `n` locations of `order`. */
  function AttachPass(locs: Locs, order: seq<string>, n: int): (r: Locs)
    requires 0 <= n <= |order|
    ensures r.keys == locs.keys && r.vals.Keys == locs.vals.Keys
  {
    if n == 0 then locs else AttachOne(AttachPass(locs, order, n - 1), order[n - 1])
  }

  /** Step 6: every location in table order. Each is read as it stands when
      its turn comes, so a start exit written by an earlier turn is seen. */
  method AttachOrphans(locs: Locs) returns (r: Locs)
    requires locs.Valid()
    ensures r == AttachPass(locs, locs.keys, |locs.keys|)
  {
    r := locs;
    for i := 0 to |locs.keys|
      invariant r == AttachPass(locs, locs.keys, i)
    {
      var k := locs.keys[i];
      var loc := r.vals[k];
      if loc.id != "start" && loc.connections.vals == map[] {
        r := SetSlot(r, k, "south", "start");
        if "start" in r.vals {
          r := SetSlot(r, "start", Opposite("south"), loc.id);
        }
      }
    }
  }

  lemma AttachOneRewired(locs: Locs, k: string, j: string, d: string)
    requires "start" in locs.vals && (k in locs.vals ==> locs.vals[k].id == k)
    ensures RewiredAt(locs, AttachOne(locs, k), j, d)
  {
    if k in locs.vals && locs.vals[k].id != "start" && locs.vals[k].connections.vals == map[] {
      var l1 := SetSlot(locs, k, "south", "start");
      SetSlotRewired(locs, k, "south", "start", j, d);
      SetSlotRewired(l1, "start", Opposite("south"), k, j, d);
      RewiredAtTrans(locs, l1, AttachOne(locs, k), j, d);
    }
  }

  lemma {:induction false} AttachPassRewired(locs: Locs, order: seq<string>, n: int, j: string, d: string)
    requires IdsMatch(locs) && "start" in locs.vals && 0 <= n <= |order|
    ensures RewiredAt(locs, AttachPass(locs, order, n), j, d)
  {
    if n > 0 {
      var before := AttachPass(locs, order, n - 1);
      var k := order[n - 1];
      AttachPassRewired(locs, order, n - 1, j, d);
      AttachPassRewired(locs, order, n - 1, k, "");
      AttachOneRewired(before, k, j, d);
      RewiredAtTrans(locs, before, AttachPass(locs, order, n), j, d);
    }
  }

  /** Step 6 changes connection tables only, drops no exit and keeps a
      sound table sound. */
  lemma AttachPassKeeps(locs: Locs, order: seq<string>, n: int)
    requires IdsMatch(locs) && "start" in locs.vals && 0 <= n <= |order|
    ensures var r := AttachPass(locs, order, n);
            SameButConnections(locs, r) && ExitsKept(locs, r) && (Sound(locs) ==> Sound(r))
  {
    var r := AttachPass(locs, order, n);
    forall j, d
      ensures RewiredAt(locs, r, j, d)
    {
      AttachPassRewired(locs, order, n, j, d);
    }
    RewiredKeeps(locs, r);
  }

  /** The only exit an orphan is given. */
  const SouthToStart: Dicts.Dict<string, string> := Dicts.Dict(["south"], map["south" := "start"])

  /** The turns of step 6 keep every id. */
  lemma {:induction false} AttachPassIds(locs: Locs, order: seq<string>, n: int)
    requires IdsMatch(locs) && 0 <= n <= |order|
    ensures IdsMatch(AttachPass(locs, order, n))
  {
    if n > 0 {
      AttachPassIds(locs, order, n - 1);
    }
  }

  /** The turn of `e` gives `e`, when it is an orphan, the exit south to
      start and no other exit, and changes no other location than `e` and
      start. */
  lemma AttachOneAt(locs: Locs, e: string, k: string)
    requires k in locs.vals && k != "start" && locs.vals[k].connections.Valid()
    requires e in locs.vals ==> locs.vals[e].id == e
    ensures AttachOne(locs, e).vals[k].connections
            == if e == k && locs.vals[k].connections.vals == map[] then SouthToStart
               else locs.vals[k].connections
  {
    if e == k && locs.vals[k].connections.vals == map[] {
      Dicts.EmptyOrder(locs.vals[k].connections);
    }
  }

  /** After the turns of the first `n` locations, a location other than
      start that had no exit has exactly the exit south to start if its turn
      has come, and still none otherwise; any other location other than
      start keeps its connections. */
  lemma {:induction false} OrphanAttached(locs: Locs, order: seq<string>, n: int, k: string)
    requires IdsMatch(locs) && 0 <= n <= |order|
    requires k in locs.vals && k != "start" && locs.vals[k].connections.Valid()
    ensures AttachPass(locs, order, n).vals[k].connections
            == if locs.vals[k].connections.vals == map[] && k in order[..n] then SouthToStart
               else locs.vals[k].connections
  {
    if n > 0 {
      var before := AttachPass(locs, order, n - 1);
      assert order[..n] == order[..n - 1] + [order[n - 1]];
      assert k in order[..n] <==> k in order[..n - 1] || k == order[n - 1];
      OrphanAttached(locs, order, n - 1, k);
      AttachPassIds(locs, order, n - 1);
      AttachOneAt(before, order[n - 1], k);
    }
  }

  /** The turn of `e` gives `e`, unless it is start, an exit, and takes no
      exit away. */
  lemma AttachOneExit(locs: Locs, e: string, k: string)
    requires e in locs.vals ==> locs.vals[e].id == e
    ensures var r := AttachOne(locs, e);
            (e == k && k in locs.vals && k != "start" ==> HasExit(r, k))
            && (HasExit(locs, k) ==> HasExit(r, k))
  {
    if e in locs.vals && locs.vals[e].id != "start" && locs.vals[e].connections.vals == map[] {
      var l1 := SetSlot(locs, e, "south", "start");
      SetSlotReads(locs, e, "south", "start", k, "south");
      SetSlotReads(l1, "start", Opposite("south"), e, k, "south");
      if HasExit(locs, k) {
        var d :| d in locs.vals[k].connections.vals;
        SetSlotReads(locs, e, "south", "start", k, d);
        SetSlotReads(l1, "start", Opposite("south"), e, k, d);
      }
    }
  }

  /** After the turns of the first `n` locations, each of them other than
      start has an exit, and every location that had an exit still has
      one. */
  lemma {:induction false} AttachPassExit(locs: Locs, order: seq<string>, n: int, k: string)
    requires IdsMatch(locs) && 0 <= n <= |order|
    ensures var r := AttachPass(locs, order, n);
            (k in order[..n] && k in locs.vals && k != "start" ==> HasExit(r, k))
            && (HasExit(locs, k) ==> HasExit(r, k))
  {
    if n > 0 {
      AttachPassExit(locs, order, n - 1, k);
      AttachPassIds(locs, order, n - 1);
      AttachOneExit(AttachPass(locs, order, n - 1), order[n - 1], k);
      assert order[..n] == order[..n - 1] + [order[n - 1]];
    }
  }

  // ---------------------------------------------------------------------
  // The whole validator

  /** Every location has at least one exit. */
  ghost predicate AllHaveExits(locs: Locs) {
    forall k :: k in locs.vals ==> HasExit(locs, k)
  }

  /** After step 6 every location has an exit when start had one. */
  lemma AttachPassAllExits(locs: Locs)
    requires locs.Valid() && IdsMatch(locs) && HasExit(locs, "start")
    ensures AllHaveExits(AttachPass(locs, locs.keys, |locs.keys|))
  {
    var r := AttachPass(locs, locs.keys, |locs.keys|);
    forall k | k in r.vals
      ensures HasExit(r, k)
    {
      AttachPassExit(locs, locs.keys, |locs.keys|, k);
      assert locs.keys[..|locs.keys|] == locs.keys;
    }
  }

  /** Step 6 on the table step 5 leaves: it stays sound, every location
      ends with an exit, and the contents are untouched. */
  lemma OrphansStepSound(locs: Locs, itemIds: set<string>, characterIds: set<string>)
    requires Sound(locs) && HasExit(locs, "start") && ContentsIn(locs, itemIds, characterIds)
    ensures var r := AttachPass(locs, locs.keys, |locs.keys|);
            Sound(r) && AllHaveExits(r) && ContentsIn(r, itemIds, characterIds) && ExitsKept(locs, r)
  {
    var r := AttachPass(locs, locs.keys, |locs.keys|);
    AttachPassKeeps(locs, locs.keys, |locs.keys|);
    AttachPassAllExits(locs);
    assert forall k :: k in locs.vals ==>
      r.vals[k].items == locs.vals[k].items && r.vals[k].characters == locs.vals[k].characters;
  }

  /** After the whole of step 6, a location other than start that had no
      exit has exactly the exit south to start, and any other keeps its
      connections. */
  lemma OrphansAttached(locs: Locs, k: string)
    requires Sound(locs) && k in locs.vals && k != "start"
    ensures AttachPass(locs, locs.keys, |locs.keys|).vals[k].connections
            == if locs.vals[k].connections.vals == map[] then SouthToStart else locs.vals[k].connections
  {
    OrphanAttached(locs, locs.keys, |locs.keys|, k);
    assert locs.keys[..|locs.keys|] == locs.keys;
  }

  /** Step 1 touches no connection: the targets referenced and the exits
      stay the same. */
  lemma FixedExits(locs: Locs, fixed: Locs)
    requires fixed.vals.Keys == locs.vals.Keys
    requires forall k :: k in locs.vals ==> fixed.vals[k] == FixIdentity(k, locs.vals[k])
    ensures Referenced(fixed) == Referenced(locs) && ExitsKept(locs, fixed)
  {
    assert forall k :: k in locs.vals ==> fixed.vals[k].connections == locs.vals[k].connections;
  }

  /** Through steps 3 to 6 an old location changes only in its connections
      and, at step 5, in its items and characters. */
  lemma ContentsThrough(locs: Locs, placed: Locs, paired: Locs, started: Locs, filtered: Locs, attached: Locs,
                        itemIds: set<string>, characterIds: set<string>)
    requires forall k :: k in locs.vals ==> k in placed.vals && placed.vals[k] == FixIdentity(k, locs.vals[k])
    requires SameButConnections(placed, paired) && ConnectionsOnly(paired, started)
    requires filtered == FilterAll(started, itemIds, characterIds)
    requires SameButConnections(filtered, attached)
    ensures forall k :: k in locs.vals ==>
              attached.vals[k]
              == FilterContents(FixIdentity(k, locs.vals[k]), itemIds, characterIds)
                   .(connections := attached.vals[k].connections)
  {
    forall k | k in locs.vals
      ensures attached.vals[k]
              == FilterContents(FixIdentity(k, locs.vals[k]), itemIds, characterIds)
                   .(connections := attached.vals[k].connections)
    {
      var loc := FixIdentity(k, locs.vals[k]);
      assert started.vals[k] == loc.(connections := started.vals[k].connections);
      assert filtered.vals[k] == FilterContents(started.vals[k], itemIds, characterIds);
    }
  }

  /** Step 6 run on the table step 5 makes of `started`: every location of
      `started` other than start ends as `OrphansAttached` says. */
  lemma OrphansThrough(started: Locs, itemIds: set<string>, characterIds: set<string>)
    requires Sound(FilterAll(started, itemIds, characterIds))
    ensures var filtered := FilterAll(started, itemIds, characterIds);
            forall k :: k in started.vals && k != "start" ==>
              AttachPass(filtered, filtered.keys, |filtered.keys|).vals[k].connections
              == if started.vals[k].connections.vals == map[] then SouthToStart else started.vals[k].connections
  {
    var filtered := FilterAll(started, itemIds, characterIds);
    forall k | k in started.vals && k != "start"
      ensures AttachPass(filtered, filtered.keys, |filtered.keys|).vals[k].connections
              == if started.vals[k].connections.vals == map[] then SouthToStart else started.vals[k].connections
    {
      assert filtered.vals[k].connections == started.vals[k].connections;
      OrphansAttached(filtered, k);
    }
  }

  /** `validate_world_structure`: the six passes in order. Afterwards the
      old locations come first and in their order, `start` exists, every
      connection leads to a location of the table, every location has an
      exit, its key as id and a name, and the locations list only existing
      items and characters; the rest of the world is unchanged.

      Each old location keeps every exit it had (possibly retargeted), its
      descriptions, and the items and characters that exist, in their
      order; its id becomes its key and a missing name is filled in.
      `closed` is the table after steps 1 and 2 (every target present), on
      which the reverse pass of step 3 runs in table order, and `wired` is
      the table after step 4; a location of `wired` other than start that
      had no exit ends with the exit south to start and no other, and every
      other location other than start ends with the exits of `wired`. */
  method ValidateWorld(world: World) returns (r: World, ghost closed: Locs, ghost wired: Locs)
    requires world.Valid()
    ensures Sound(r.locations) && "start" in r.locations.vals && AllHaveExits(r.locations)
    ensures ContentsIn(r.locations, r.items.Keys, r.characters.Keys)
    ensures world.locations.keys <= r.locations.keys
    ensures r == world.(locations := r.locations)
    ensures ExitsKept(world.locations, r.locations)
    ensures forall k :: k in world.locations.vals ==>
              r.locations.vals[k]
              == FilterContents(FixIdentity(k, world.locations.vals[k]), world.items.Keys, world.characters.Keys)
                   .(connections := r.locations.vals[k].connections)
    ensures Sound(closed) && closed.vals.Keys == world.locations.vals.Keys + Referenced(world.locations)
    ensures forall k :: k in world.locations.vals ==> closed.vals[k] == FixIdentity(k, world.locations.vals[k])
    ensures forall m :: m in closed.vals && m !in world.locations.vals ==> closed.vals[m] == Placeholder(m)
    ensures wired == StartExits(WithStart(ReversePass(closed, closed.keys, |closed.keys|)))
    ensures wired.keys == r.locations.keys && wired.vals.Keys == r.locations.vals.Keys
    ensures forall k :: k in wired.vals && k != "start" ==>
              r.locations.vals[k].connections
              == if wired.vals[k].connections.vals == map[] then SouthToStart else wired.vals[k].connections
  {
    // Step 1: ids and names.
    var fixed := FixIdentities(world.locations);
    FixIdentitiesResult(world.locations, fixed);
    FixedExits(world.locations, fixed);
    // Step 2: placeholders for missing targets.
    var missing := Referenced(fixed) - fixed.vals.Keys;
    var placed := AddPlaceholders(fixed, missing);
    PlaceholdersClose(fixed, placed);
    assert placed.vals.Keys == world.locations.vals.Keys + Referenced(world.locations) by {
      assert fixed.vals.Keys + (Referenced(fixed) - fixed.vals.Keys) == fixed.vals.Keys + Referenced(fixed);
    }
    closed := placed;
    // Step 3: reverse edges.
    var paired := RepairReverseEdges(placed);
    ReversePassKeeps(placed, placed.keys, |placed.keys|);
    // Step 4: the start location.
    var started := WireStart(paired);
    StartExitsSound(paired);
    wired := started;
    // Step 5: item and character references.
    var filtered := FilterPlacements(started, world.items.Keys, world.characters.Keys);
    FilterAllSound(started, world.items.Keys, world.characters.Keys);
    // Step 6: orphans.
    var attached := AttachOrphans(filtered);
    OrphansStepSound(filtered, world.items.Keys, world.characters.Keys);
    AttachPassKeeps(filtered, filtered.keys, |filtered.keys|);
    r := world.(locations := attached);
    ExitsKeptTrans(world.locations, fixed, placed);
    ExitsKeptTrans(world.locations, placed, paired);
    ExitsKeptTrans(world.locations, paired, started);
    ExitsKeptTrans(world.locations, started, filtered);
    ExitsKeptTrans(world.locations, filtered, attached);
    ContentsThrough(world.locations, placed, paired, started, filtered, attached,
                    world.items.Keys, world.characters.Keys);
    OrphansThrough(started, world.items.Keys, world.characters.Keys);
  }
}
