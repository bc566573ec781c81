/**
 * Rooms and exits of the automapper (MapNode.swift): what an exit costs to
 * walk, which exits lead somewhere, the compass exits of a room, and
 * whether a room fits what the game just showed.  A room is a value here;
 * its colour, position and transfer-map lookup are left out.
 */
module MapNodes {
  import opened Wrappers
  import opened Strs
  import opened StringExt
  import opened Seqs

  /** `cardinalDirs`. */
  const CardinalDirs: seq<string> :=
    ["north", "south", "east", "west", "northeast", "northwest",
     "southeast", "southwest", "out", "up", "down"]

  /** The movements that cost most: swimming, climbing webs, waiting for roundtime. */
  const SlowMoves: seq<string> := ["muck", "pull", "rt", "slow", "swim", "wait", "web"]

  datatype MapArc = MapArc(exit: string, move: string, destination: string, hidden: bool)

  datatype MapNode = MapNode(
    id: string,
    name: string,
    descriptions: seq<string>,
    notes: Option<string>,
    arcs: seq<MapArc>)

  // ---------------------------------------------------------------------------
  // Exits
  // ---------------------------------------------------------------------------

  /** `hasDestination`. */
  predicate HasDestination(a: MapArc) {
    |a.destination| > 0
  }

  /** `destinationValue`: the destination room's number, 0 when it is not a number. */
  function DestinationValue(a: MapArc): int {
    ParseInt(a.destination).GetOr(0)
  }

  /** An exit leading nowhere has the value 0; a numbered destination has its number. */
  lemma DestinationValues(a: MapArc, n: int)
    requires IntMin <= n <= IntMax
    ensures !HasDestination(a) ==> DestinationValue(a) == 0
    ensures a.destination == IntToString(n) ==> HasDestination(a) && DestinationValue(a) == n
  {
    if a.destination == IntToString(n) {
      ParseIntToString(n);
    }
  }

  /** The cost of the kind of movement, before hiding and scaling. */
  function BaseCost(move: string): (r: int)
    ensures r == 5 || r == 20 || r == 50 || r == 100
  {
    if StartsWithAny(move, CardinalDirs) then 5
    else if StartsWithAny(move, ["go"]) then 20
    else if StartsWithAny(move, SlowMoves) then 100
    else 50
  }

  /** `moveCost`: ten times the base cost, with 50 more for a hidden exit. */
  function MoveCost(a: MapArc): (r: int)
    ensures r % 10 == 0 && 50 <= r <= 1500
  {
    var cost := BaseCost(a.move) + (if a.hidden then 50 else 0);
    cost * 10
  }

  /** Hiding an exit adds 500 to its cost. */
  lemma HiddenCostsMore(a: MapArc)
    ensures MoveCost(a.(hidden := true)) == MoveCost(a.(hidden := false)) + 500
  {
  }

  /** A compass move is the cheapest of all moves equally hidden. */
  lemma CompassMovesCheapest(a: MapArc, b: MapArc)
    requires StartsWithAny(a.move, CardinalDirs) && a.hidden == b.hidden
    ensures MoveCost(a) <= MoveCost(b)
    ensures MoveCost(a) == (if a.hidden then 550 else 50)
  {
  }

  /** The order `filteredArcs` sorts by. */
  predicate CostLe(a: MapArc, b: MapArc) {
    MoveCost(a) <= MoveCost(b)
  }

  /** `filteredArcs`: the exits that lead somewhere, cheapest first. */
  function FilteredArcs(node: MapNode): seq<MapArc> {
    Sort(Filter(node.arcs, HasDestination), CostLe)
  }

  /**
   * `filteredArcs` holds exactly the exits with a destination, each as
   * often as in the room, in non-decreasing cost.
   */
  lemma FilteredArcsSpec(node: MapNode)
    ensures var f := FilteredArcs(node);
            && multiset(f) == multiset(Filter(node.arcs, HasDestination))
            && (forall a :: a in f <==> a in node.arcs && HasDestination(a))
            && (forall i, j :: 0 <= i <= j < |f| ==> MoveCost(f[i]) <= MoveCost(f[j]))
  {
    var g := Filter(node.arcs, HasDestination);
    var f := FilteredArcs(node);
    SortPermutes(g, CostLe);
    SortSorted(g, CostLe);
    forall a | a in node.arcs && HasDestination(a) ensures a in f {
      FilterKeeps(node.arcs, HasDestination, a);
      assert a in multiset(g);
    }
    forall a | a in f ensures a in node.arcs && HasDestination(a) {
      assert a in multiset(g);
    }
    forall i, j | 0 <= i <= j < |f| ensures MoveCost(f[i]) <= MoveCost(f[j]) {
      SortedPairs(f, CostLe, i, j);
    }
  }

  /** `arc(with:)`: the first exit leading to the room `id`. */
  function ArcTo(arcs: seq<MapArc>, id: string): (r: Option<MapArc>)
    ensures r.Some? <==> exists k :: 0 <= k < |arcs| && arcs[k].destination == id
    ensures r.Some? ==> r.value.destination == id
                        && exists k :: 0 <= k < |arcs| && arcs[k] == r.value
                                       && forall j :: 0 <= j < k ==> arcs[j].destination != id
  {
    if arcs == [] then None
    else if arcs[0].destination == id then Some(arcs[0])
    else
      var r := ArcTo(arcs[1..], id);
      if r.Some? then
        var k :| 0 <= k < |arcs| - 1 && arcs[1..][k] == r.value
                 && forall j :: 0 <= j < k ==> arcs[1..][j].destination != id;
        assert arcs[k + 1] == r.value;
        r
      else r
  }

  function ArcWith(node: MapNode, id: string): Option<MapArc> {
    ArcTo(node.arcs, id)
  }

  // ---------------------------------------------------------------------------
  // Compass exits
  // ---------------------------------------------------------------------------

  predicate IsCardinal(a: MapArc) {
    a.exit in CardinalDirs
  }

  predicate IsNonCardinal(a: MapArc) {
    a.exit !in CardinalDirs
  }

  function ExitOf(a: MapArc): string {
    a.exit
  }

  /** `nonCardinalExists`: the exits that are not compass directions, in order. */
  function NonCardinalExits(node: MapNode): seq<MapArc> {
    Filter(node.arcs, IsNonCardinal)
  }

  /** `cardinalExits`: the compass directions out of the room, sorted. */
  function CardinalExits(node: MapNode): seq<string> {
    Sort(Map(Filter(node.arcs, IsCardinal), ExitOf), LexLe)
  }

  /** The compass exits and the other exits share out the room's exits between them. */
  lemma ExitsPartition(node: MapNode)
    ensures multiset(Filter(node.arcs, IsCardinal)) + multiset(NonCardinalExits(node)) == multiset(node.arcs)
  {
    FilterPartition(node.arcs, IsCardinal, IsNonCardinal);
  }

  /**
   * `cardinalExits` is sorted, each of its names is a compass direction,
   * and it names the exit of every compass arc, as often as there are
   * such arcs.
   */
  lemma CardinalExitsSpec(node: MapNode)
    ensures var c := CardinalExits(node);
            && multiset(c) == multiset(Map(Filter(node.arcs, IsCardinal), ExitOf))
            && (forall i, j :: 0 <= i <= j < |c| ==> LexLe(c[i], c[j]))
            && (forall i :: 0 <= i < |c| ==> c[i] in CardinalDirs)
            && (forall a :: a in node.arcs && IsCardinal(a) ==> a.exit in c)
  {
    var cards := Filter(node.arcs, IsCardinal);
    var m := Map(cards, ExitOf);
    var c := CardinalExits(node);
    SortPermutes(m, LexLe);
    assert Total(LexLe) by {
      forall a, b ensures LexLe(a, b) || LexLe(b, a) {
        LexTotal(a, b);
      }
    }
    SortSorted(m, LexLe);
    forall a, b, d | LexLe(a, b) && LexLe(b, d) ensures LexLe(a, d) {
      LexTransitive(a, b, d);
    }
    forall a ensures LexLe(a, a) {
      LexTotal(a, a);
    }
    forall i, j | 0 <= i <= j < |c| ensures LexLe(c[i], c[j]) {
      SortedPairs(c, LexLe, i, j);
    }
    forall i | 0 <= i < |c| ensures c[i] in CardinalDirs {
      assert c[i] in multiset(m);
      var k :| 0 <= k < |m| && m[k] == c[i];
      assert IsCardinal(cards[k]);
    }
    forall a | a in node.arcs && IsCardinal(a) ensures a.exit in c {
      FilterKeeps(node.arcs, IsCardinal, a);
      var k :| 0 <= k < |cards| && cards[k] == a;
      assert m[k] == a.exit;
      assert a.exit in multiset(m);
    }
  }

  /** `matchesExits`: the sorted compass exits are exactly the given list. */
  predicate MatchesExits(node: MapNode, exits: seq<string>) {
    CardinalExits(node) == exits
  }

  // ---------------------------------------------------------------------------
  // Matching a room
  // ---------------------------------------------------------------------------

  /** `isTransfer`: the notes name another map file. */
  predicate IsTransfer(node: MapNode) {
    node.notes.Some? && Contains(node.notes.value, ".xml")
  }

  /** The description the game showed, with double quotes and semicolons taken out. */
  function StrippedQuery(description: string): string {
    ReplaceAll(ReplaceAll(description, "\"", ""), ";", "")
  }

  /** Some stored description of the room starts with the stripped query. */
  predicate MatchingDescription(node: MapNode, description: string) {
    exists i :: 0 <= i < |node.descriptions| && StrippedQuery(description) <= node.descriptions[i]
  }

  /** `hasMatchingDescription`: a scan of the stored descriptions that stops at the first match. */
  method HasMatchingDescription(node: MapNode, description: string) returns (r: bool)
    ensures r == MatchingDescription(node, description)
  {
    var mod := ReplaceAll(ReplaceAll(description, "\"", ""), ";", "");
    for i := 0 to |node.descriptions|
      invariant forall j :: 0 <= j < i ==> !(mod <= node.descriptions[j])
    {
      if mod <= node.descriptions[i] {
        return true;
      }
    }
    return false;
  }

  /** The stripped query has no semicolon, and a query without quotes or semicolons is used as it is. */
  lemma StrippedQuerySpec(description: string)
    ensures ';' !in StrippedQuery(description)
    ensures '"' !in description && ';' !in description ==> StrippedQuery(description) == description
  {
    RemoveChar(ReplaceAll(description, "\"", ""), ';');
    if '"' !in description && ';' !in description {
      WithoutFirstChar(description, "\"");
      ReplaceAbsent(description, "\"", "");
      WithoutFirstChar(description, ";");
      ReplaceAbsent(description, ";", "");
    }
  }

  /** A query of nothing but quotes and semicolons fits any room that has a description. */
  lemma EmptyQueryMatchesAny(node: MapNode, description: string)
    requires StrippedQuery(description) == []
    ensures MatchingDescription(node, description) <==> node.descriptions != []
  {
    if node.descriptions != [] {
      assert StrippedQuery(description) <= node.descriptions[0];
    }
  }

  /** `matches(name:description:exits:ignoreTransfers:)`. */
  predicate Matches(node: MapNode, name: string, description: string, exits: seq<string>, ignoreTransfers: bool) {
    if ignoreTransfers && IsTransfer(node) then false
    else if |exits| > 0 then
      MatchesExits(node, exits) && node.name == name && MatchingDescription(node, description)
    else node.name == name && MatchingDescription(node, description)
  }

  /**
   * A room matches when it is not a transfer being skipped, has the name,
   * has a description starting with the stripped query, and, when exits
   * are given, has exactly those sorted compass exits.
   */
  lemma MatchesSpec(node: MapNode, name: string, description: string, exits: seq<string>, ignoreTransfers: bool)
    ensures Matches(node, name, description, exits, ignoreTransfers) <==>
      && !(ignoreTransfers && IsTransfer(node))
      && node.name == name
      && (exists i :: 0 <= i < |node.descriptions| && StrippedQuery(description) <= node.descriptions[i])
      && (exits == [] || CardinalExits(node) == exits)
  {
  }

  /** A room matched with a list of exits also matches when the list is not given. */
  lemma MatchesWithoutExits(node: MapNode, name: string, description: string, exits: seq<string>, ignoreTransfers: bool)
    requires Matches(node, name, description, exits, ignoreTransfers)
    ensures Matches(node, name, description, [], ignoreTransfers)
    ensures Matches(node, name, description, exits, false)
  {
  }

  /**
   * Ignoring transfers rules out exactly the rooms whose notes name another
   * map; any other room matches as it would with transfers allowed.
   */
  lemma TransfersSkipped(node: MapNode, name: string, description: string, exits: seq<string>)
    ensures IsTransfer(node) ==> !Matches(node, name, description, exits, true)
    ensures !IsTransfer(node) ==> Matches(node, name, description, exits, true) == Matches(node, name, description, exits, false)
    ensures node.notes.None? ==> !IsTransfer(node)
  {
  }
}
