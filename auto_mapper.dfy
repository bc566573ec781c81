/**
 * The automapper plugin (AutoMapperPlugin.swift): it watches the game's
 * XML for a room change (`<nav`) and a compass (`<compass`), and at the
 * next prompt looks the room up in the map and announces its exits that
 * are not compass directions.  The room search over a zone is modelled
 * here; the search across all zones, the switch to another map file and
 * the room title come from outside, as the room the lookup settled on.
 */
module AutoMapper {
  import opened Wrappers
  import opened Strs
  import opened Seqs
  import opened MapNodes

  // ---------------------------------------------------------------------------
  // Finding a room in a zone
  // ---------------------------------------------------------------------------

  /**
   * A map zone: its rooms in order, and `room(id:)`, the room with an id
   * (MapZone.swift is not part of this model, so the lookup is a
   * parameter).
   */
  datatype MapZone = MapZone(rooms: seq<MapNode>, room: string -> Option<MapNode>)

  /** `findRoom`: the first room of the zone that matches. */
  function FindRoom(zone: MapZone, name: string, description: string, exits: seq<string>, ignoreTransfers: bool): Option<MapNode> {
    match FirstIndex(zone.rooms, n => Matches(n, name, description, exits, ignoreTransfers))
    case None => None
    case Some(i) => Some(zone.rooms[i])
  }

  /** `findRoom` gives a room of the zone that matches, or nothing when none does. */
  lemma FindRoomSpec(zone: MapZone, name: string, description: string, exits: seq<string>, ignoreTransfers: bool)
    ensures var r := FindRoom(zone, name, description, exits, ignoreTransfers);
            && (r.Some? ==> exists i :: 0 <= i < |zone.rooms| && zone.rooms[i] == r.value
                                 && Matches(r.value, name, description, exits, ignoreTransfers)
                                 && forall j :: 0 <= j < i ==> !Matches(zone.rooms[j], name, description, exits, ignoreTransfers))
            && (r.None? <==> forall n :: n in zone.rooms ==> !Matches(n, name, description, exits, ignoreTransfers))
  {
    var p := n => Matches(n, name, description, exits, ignoreTransfers);
    var f := FirstIndex(zone.rooms, p);
    if f.Some? {
      assert p(zone.rooms[f.value]);
      forall j | 0 <= j < f.value ensures !Matches(zone.rooms[j], name, description, exits, ignoreTransfers) {
        assert !p(zone.rooms[j]);
      }
    } else {
      forall n | n in zone.rooms ensures !Matches(n, name, description, exits, ignoreTransfers) {
        var j :| 0 <= j < |zone.rooms| && zone.rooms[j] == n;
        assert !p(zone.rooms[j]);
      }
    }
  }

  /** The room an exit leads to, if the zone has it. */
  function Neighbour(zone: MapZone, a: MapArc): Option<MapNode> {
    zone.room(a.destination)
  }

  /** The exit leads to a room of the zone that matches. */
  predicate LeadsToMatch(zone: MapZone, a: MapArc, name: string, description: string, exits: seq<string>, ignoreTransfers: bool) {
    Neighbour(zone, a).Some? && Matches(Neighbour(zone, a).value, name, description, exits, ignoreTransfers)
  }

  /** The room behind the first exit, in exit order, that leads to a match. */
  function ArcMatch(zone: MapZone, arcs: seq<MapArc>, name: string, description: string, exits: seq<string>, ignoreTransfers: bool): Option<MapNode> {
    match FirstIndex(arcs, a => LeadsToMatch(zone, a, name, description, exits, ignoreTransfers))
    case None => None
    case Some(k) => Neighbour(zone, arcs[k])
  }

  /**
   * `findRoomFuzyFrom`: the first matching room one exit away from the
   * previous room, and otherwise the first matching room of the zone.
   */
  function FuzzyFrom(zone: MapZone, previousRoomId: Option<string>, name: string, description: string, exits: seq<string>, ignoreTransfers: bool): Option<MapNode> {
    match zone.room(previousRoomId.GetOr(""))
    case None => FindRoom(zone, name, description, exits, ignoreTransfers)
    case Some(previous) =>
      match ArcMatch(zone, previous.arcs, name, description, exits, ignoreTransfers)
      case Some(next) => Some(next)
      case None => FindRoom(zone, name, description, exits, ignoreTransfers)
  }

  /** The scan over the previous room's exits of `findRoomFuzyFrom`. */
  method FindRoomFuzyFrom(zone: MapZone, previousRoomId: Option<string>, name: string, description: string, exits: seq<string>, ignoreTransfers: bool)
    returns (r: Option<MapNode>)
    ensures r == FuzzyFrom(zone, previousRoomId, name, description, exits, ignoreTransfers)
  {
    var previousRoom := zone.room(previousRoomId.GetOr(""));
    if previousRoom.None? {
      return FindRoom(zone, name, description, exits, ignoreTransfers);
    }

    ghost var p := a => LeadsToMatch(zone, a, name, description, exits, ignoreTransfers);
    var arcs := previousRoom.value.arcs;
    for i := 0 to |arcs|
      invariant forall j :: 0 <= j < i ==> !p(arcs[j])
    {
      var nextRoom := zone.room(arcs[i].destination);
      if nextRoom.None? {
        continue;
      }

      if Matches(nextRoom.value, name, description, exits, ignoreTransfers) {
        assert p(arcs[i]);
        assert FirstIndex(arcs, p) == Some(i);
        return nextRoom;
      }
    }

    assert FirstIndex(arcs, p) == None;
    return FindRoom(zone, name, description, exits, ignoreTransfers);
  }

  /**
   * When some exit of the previous room leads
   * to a match, it is the room behind the first such exit; otherwise it
   * is the zone's first match.
   */
  lemma FuzzyFromSpec(zone: MapZone, previousRoomId: Option<string>, name: string, description: string, exits: seq<string>, ignoreTransfers: bool)
    ensures var previous := zone.room(previousRoomId.GetOr(""));
            var r := FuzzyFrom(zone, previousRoomId, name, description, exits, ignoreTransfers);
            previous.Some? ==>
              if exists k :: 0 <= k < |previous.value.arcs| && LeadsToMatch(zone, previous.value.arcs[k], name, description, exits, ignoreTransfers)
              then exists k :: 0 <= k < |previous.value.arcs| && Neighbour(zone, previous.value.arcs[k]) == r
                      && LeadsToMatch(zone, previous.value.arcs[k], name, description, exits, ignoreTransfers)
                      && forall j :: 0 <= j < k ==> !LeadsToMatch(zone, previous.value.arcs[j], name, description, exits, ignoreTransfers)
              else r == FindRoom(zone, name, description, exits, ignoreTransfers)
  {
    var previous := zone.room(previousRoomId.GetOr(""));
    if previous.Some? {
      var arcs := previous.value.arcs;
      var p := a => LeadsToMatch(zone, a, name, description, exits, ignoreTransfers);
      match FirstIndex(arcs, p)
      case None =>
        forall k | 0 <= k < |arcs| ensures !LeadsToMatch(zone, arcs[k], name, description, exits, ignoreTransfers) {
          assert !p(arcs[k]);
        }
      case Some(k) =>
        assert p(arcs[k]);
        forall j | 0 <= j < k ensures !LeadsToMatch(zone, arcs[j], name, description, exits, ignoreTransfers) {
          assert !p(arcs[j]);
        }
    }
  }

  /** Whatever room `findRoomFuzyFrom` gives matches. */
  lemma FuzzyFromMatches(zone: MapZone, previousRoomId: Option<string>, name: string, description: string, exits: seq<string>, ignoreTransfers: bool)
    ensures var r := FuzzyFrom(zone, previousRoomId, name, description, exits, ignoreTransfers);
            r.Some? ==> Matches(r.value, name, description, exits, ignoreTransfers)
  {
    FindRoomSpec(zone, name, description, exits, ignoreTransfers);
    var previous := zone.room(previousRoomId.GetOr(""));
    if previous.Some? {
      var p := a => LeadsToMatch(zone, a, name, description, exits, ignoreTransfers);
      var f := FirstIndex(previous.value.arcs, p);
      if f.Some? {
        assert p(previous.value.arcs[f.value]);
      }
    }
  }

  /** With no previous room known, `findRoomFuzyFrom` is `findRoom`. */
  lemma FuzzyFromUnknown(zone: MapZone, previousRoomId: Option<string>, name: string, description: string, exits: seq<string>, ignoreTransfers: bool)
    requires zone.room(previousRoomId.GetOr("")).None?
    ensures FuzzyFrom(zone, previousRoomId, name, description, exits, ignoreTransfers)
         == FindRoom(zone, name, description, exits, ignoreTransfers)
  {
  }

  // ---------------------------------------------------------------------------
  // The plugin
  // ---------------------------------------------------------------------------

  /** `parse(input:)`: commands typed by the player pass through. */
  function ParseInput(input: string): string {
    input
  }

  /** `parse(text:)`: game text passes through. */
  function ParseText(text: string): string {
    text
  }

  function MoveOf(a: MapArc): string {
    a.move
  }

  /** The movements of the room's exits that are not compass directions, comma-separated. */
  function ExitList(room: MapNode): string {
    Join(Map(NonCardinalExits(room), MoveOf), ", ")
  }

  /** The line announcing the room's other exits. */
  function PresetTag(exits: string): string {
    "<preset id='automapper'>Mapped exits: " + exits + "</preset>\n"
  }

  /**
   * What one call of `parse(xml:)` does: the text it returns, the two
   * flags afterwards, and the room id it sets as the `roomid` variable.
   */
  datatype XmlStep = XmlStep(output: string, movedRooms: bool, showAfterPrompt: bool, roomId: Option<string>)

  /**
   * `parse(xml:)` as a function of the flags, whether the plugin has a
   * game context, and the room the lookup settled on (after switching
   * maps), if any.
   */
  function ParsedXml(xml: string, movedRooms: bool, showAfterPrompt: bool, hasContext: bool, located: Option<MapNode>): XmlStep {
    if "<nav" <= xml then XmlStep(xml, true, showAfterPrompt, None)
    else if "<compass" <= xml then XmlStep(xml, movedRooms, true, None)
    else if !movedRooms || !showAfterPrompt || IndexOf(xml, "<prompt").None? || !hasContext then
      XmlStep(xml, movedRooms, showAfterPrompt, None)
    else match located
      case None => XmlStep(xml, false, false, None)
      case Some(room) =>
        var exits := ExitList(room);
        var i := IndexOf(xml, "<prompt").value;
        if |exits| == 0 then XmlStep(xml, false, false, Some(room.id))
        else XmlStep(xml[..i] + PresetTag(exits) + xml[i..], false, false, Some(room.id))
  }

  /**
   * The text is either returned as it is, or has the exits line inserted
   * at the (first, by `FirstPrompt`) `<prompt`, and only when the room has
   * exits that are not compass directions.
   */
  lemma ParsedXmlInserts(xml: string, movedRooms: bool, showAfterPrompt: bool, hasContext: bool, located: Option<MapNode>)
    ensures var s := ParsedXml(xml, movedRooms, showAfterPrompt, hasContext, located);
            s.output == xml ||
            (&& located.Some? && NonCardinalExits(located.value) != []
             && IndexOf(xml, "<prompt").Some?
             && s.output == xml[..IndexOf(xml, "<prompt").value] + PresetTag(ExitList(located.value))
                              + xml[IndexOf(xml, "<prompt").value..])
  {
    var s := ParsedXml(xml, movedRooms, showAfterPrompt, hasContext, located);
    if s.output != xml {
      NoOtherExitsNoList(located.value);
    }
  }

  /** Text inserted just before an occurrence can be taken out again and leaves the occurrence after it. */
  lemma InsertedBefore(xml: string, t: string, tag: string, i: nat)
    requires OccursAt(xml, t, i)
    ensures var out := xml[..i] + tag + xml[i..];
            && out[..i] + out[i + |tag|..] == xml
            && OccursAt(out, t, i + |tag|)
  {
    var out := xml[..i] + tag + xml[i..];
    assert out[..i] == xml[..i];
    assert out[i + |tag|..] == xml[i..];
    forall k | 0 <= k < |t| ensures out[i + |tag| + k] == t[k] {
      assert out[i + |tag| + k] == xml[i + k];
    }
    assert xml[..i] + xml[i..] == xml;
  }

  /** A room whose exits are all compass directions has an empty list of other exits. */
  lemma NoOtherExitsNoList(room: MapNode)
    ensures NonCardinalExits(room) == [] ==> ExitList(room) == ""
  {
    if NonCardinalExits(room) == [] {
      assert Map(NonCardinalExits(room), MoveOf) == [];
    }
  }

  /** The prompt found is the first one. */
  lemma FirstPrompt(xml: string, i: nat)
    requires IndexOf(xml, "<prompt") == Some(i)
    ensures OccursAt(xml, "<prompt", i)
    ensures forall j :: 0 <= j < i ==> !OccursAt(xml, "<prompt", j)
  {
    forall j | 0 <= j < i ensures !OccursAt(xml, "<prompt", j) {
      if OccursAt(xml, "<prompt", j) {
        IndexFromFirst(xml, "<prompt", 0, j);
      }
    }
  }

  /**
   * The flags: `<nav` raises the moved flag, `<compass` the compass flag;
   * both are lowered, and the room id is set, only when both were raised,
   * a prompt arrived and there is a game context, whether or not a room
   * is found.  Otherwise they stay as they were.
   */
  lemma ParsedXmlFlags(xml: string, movedRooms: bool, showAfterPrompt: bool, hasContext: bool, located: Option<MapNode>)
    ensures var s := ParsedXml(xml, movedRooms, showAfterPrompt, hasContext, located);
            var fires := !("<nav" <= xml) && !("<compass" <= xml) && movedRooms && showAfterPrompt
                         && Contains(xml, "<prompt") && hasContext;
            && ("<nav" <= xml ==> s == XmlStep(xml, true, showAfterPrompt, None))
            && (!("<nav" <= xml) && "<compass" <= xml ==> s == XmlStep(xml, movedRooms, true, None))
            && (fires ==> !s.movedRooms && !s.showAfterPrompt && (located.Some? ==> s.roomId == Some(located.value.id)))
            && (!fires ==> s.output == xml && s.roomId == None
                           && s.movedRooms == (movedRooms || "<nav" <= xml)
                           && s.showAfterPrompt == (showAfterPrompt || (!("<nav" <= xml) && "<compass" <= xml)))
            && (s.roomId.Some? ==> located.Some?)
  {
  }

  /** Input and game text are never changed by the plugin. */
  lemma PassThrough(input: string, text: string)
    ensures ParseInput(input) == input && ParseText(text) == text
  {
  }

  class AutoMapperPlugin {
    var movedRooms: bool
    var showAfterPrompt: bool
    /** Whether the plugin was created with a game context. */
    const hasContext: bool
    /** Whether `initialize(host:)` has given the plugin its host; until then the `roomid` assignment goes nowhere. */
    var hasHost: bool
    /** The values the plugin has set the `roomid` variable to, oldest first. */
    var assignedRoomIds: seq<string>
    /** The commands the plugin has sent to the host, oldest first. */
    var sentCommands: seq<string>

    /** `init(context:)` when `hasContext`, `init()` otherwise; there is no host yet. */
    constructor (hasContext: bool)
      ensures !movedRooms && !showAfterPrompt && this.hasContext == hasContext && !hasHost
      ensures assignedRoomIds == [] && sentCommands == []
    {
      movedRooms := false;
      showAfterPrompt := false;
      this.hasContext := hasContext;
      hasHost := false;
      assignedRoomIds := [];
      sentCommands := [];
    }

    /** `initialize(host:)`: keeps the host and asks it to reload the map. */
    method Initialize()
      modifies this
      ensures hasHost && sentCommands == old(sentCommands) + ["#mapper reload"]
      ensures movedRooms == old(movedRooms) && showAfterPrompt == old(showAfterPrompt)
      ensures assignedRoomIds == old(assignedRoomIds)
    {
      hasHost := true;
      sentCommands := sentCommands + ["#mapper reload"];
    }

    /** `parse(xml:)`; `located` is the room the map lookup settles on, if any. */
    method ParseXml(xml: string, located: Option<MapNode>) returns (result: string)
      modifies this
      ensures var s := ParsedXml(xml, old(movedRooms), old(showAfterPrompt), hasContext, located);
              && result == s.output
              && movedRooms == s.movedRooms && showAfterPrompt == s.showAfterPrompt
              && assignedRoomIds == old(assignedRoomIds) + (if hasHost && s.roomId.Some? then [s.roomId.value] else [])
              && hasHost == old(hasHost) && sentCommands == old(sentCommands)
    {
      if "<nav" <= xml {
        movedRooms := true;
        return xml;
      }

      if "<compass" <= xml {
        showAfterPrompt := true;
        return xml;
      }

      var insertionIdx := IndexOf(xml, "<prompt");
      if !movedRooms || !showAfterPrompt || insertionIdx.None? {
        return xml;
      }

      if !hasContext {
        return xml;
      }

      var assignRoom := movedRooms;

      showAfterPrompt := false;
      movedRooms := false;

      if located.None? {
        return xml;
      }
      var swapped := located.value;

      var exits := ExitList(swapped);
      if assignRoom && hasHost {
        assignedRoomIds := assignedRoomIds + [swapped.id];
      }

      if |exits| == 0 {
        return xml;
      }

      var tag := PresetTag(exits);
      var i := insertionIdx.value;
      result := xml[..i] + tag + xml[i..];
    }
  }
}
