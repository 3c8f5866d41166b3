/** The room colour tables and the `colorMap` getter that picks one by map style. */
module Palette {
  import opened Wrappers
  import Maps
  import Geometry

  /** A colour by its red, green, blue and alpha components. */
  datatype Color = Rgba(r: int, g: int, b: int, a: int)

  /** The room types (`roomHash`) that key the colour tables. */
  const Spawn := 0
  const Normal := 1
  const Puzzle := 2
  const Miniboss := 3
  const Fairy := 4
  const Blood := 5
  const Unknown := 6
  const Trap := 7
  /** For wither doors. */
  const Black := 8
  /** For connections between normal rooms. */
  const NormalConnection := 9

  const RoomTypes: set<int> := {
    Spawn, Normal, Puzzle, Miniboss, Fairy, Blood, Unknown, Trap, Black, NormalConnection
  }

  /** The `set` calls that fill the hypixel table, in program order. */
  const HypixelColorEntries: seq<(int, Color)> := [
    (Spawn, Rgba(0, 124, 0, 255)),
    (Normal, Rgba(114, 67, 27, 255)),
    (NormalConnection, Rgba(114, 67, 27, 255)),
    (Puzzle, Rgba(178, 76, 216, 255)),
    (Miniboss, Rgba(229, 229, 51, 255)),
    (Fairy, Rgba(242, 127, 165, 255)),
    (Blood, Rgba(255, 0, 0, 255)),
    (Trap, Rgba(216, 127, 51, 255)),
    (Unknown, Rgba(65, 65, 65, 255)),
    (Black, Rgba(0, 0, 0, 255))
  ]

  /** The `set` calls that fill the legal map table, in program order. */
  const LegalColorEntries: seq<(int, Color)> := [
    (Spawn, Rgba(20, 133, 0, 255)),
    (Normal, Rgba(107, 58, 17, 255)),
    (NormalConnection, Rgba(92, 52, 14, 255)),
    (Puzzle, Rgba(117, 0, 133, 255)),
    (Miniboss, Rgba(254, 223, 0, 255)),
    (Fairy, Rgba(224, 0, 255, 255)),
    (Blood, Rgba(255, 0, 0, 255)),
    (Trap, Rgba(216, 127, 51, 255)),
    (Unknown, Rgba(65, 65, 65, 255)),
    (Black, Rgba(0, 0, 0, 255))
  ]

  const HypixelColorMap: map<int, Color> := Maps.FromEntries(HypixelColorEntries)
  const LegalMapColorMap: map<int, Color> := Maps.FromEntries(LegalColorEntries)

  /** The keys set by a list of colour entries that names each room type at one of its
      first ten positions and only room types anywhere. */
  lemma EntryKeysAreRoomTypes(entries: seq<(int, Color)>)
    requires |entries| == 10
    requires forall e :: e in entries ==> e.0 in RoomTypes
    requires entries[0].0 == Spawn && entries[1].0 == Normal && entries[2].0 == NormalConnection
    requires entries[3].0 == Puzzle && entries[4].0 == Miniboss && entries[5].0 == Fairy
    requires entries[6].0 == Blood && entries[7].0 == Trap && entries[8].0 == Unknown
    requires entries[9].0 == Black
    ensures Maps.FromEntries(entries).Keys == RoomTypes
  {
    Maps.FromEntriesKeys(entries);
    var keys := set e | e in entries :: e.0;
    forall t | t in RoomTypes ensures t in keys {
      var i := if t == Spawn then 0 else if t == Normal then 1 else if t == NormalConnection then 2
        else if t == Puzzle then 3 else if t == Miniboss then 4 else if t == Fairy then 5
        else if t == Blood then 6 else if t == Trap then 7 else if t == Unknown then 8 else 9;
      assert entries[i] in entries;
    }
  }

  /** Both tables give a colour to every room type, and to nothing else. */
  lemma ColorTablesComplete()
    ensures HypixelColorMap.Keys == RoomTypes
    ensures LegalMapColorMap.Keys == RoomTypes
  {
    EntryKeysAreRoomTypes(HypixelColorEntries);
    EntryKeysAreRoomTypes(LegalColorEntries);
  }

  /** Each room type has the colour its `set` call gives it. */
  lemma ColorTableEntries(i: nat)
    requires i < 10
    ensures HypixelColorEntries[i].0 in HypixelColorMap && LegalColorEntries[i].0 in LegalMapColorMap
    ensures HypixelColorMap[HypixelColorEntries[i].0] == HypixelColorEntries[i].1
    ensures LegalMapColorMap[LegalColorEntries[i].0] == LegalColorEntries[i].1
  {
    Maps.FromEntriesLookup(HypixelColorEntries, i);
    Maps.FromEntriesLookup(LegalColorEntries, i);
  }

  /** `colorMap`: the legal map table for "legalmap", the hypixel table for "hypixelmap" and
      for "teniosmap" (which has no table of its own), nothing for any other style. */
  function ColorMap(mapStyle: string): (r: Option<map<int, Color>>)
    ensures r.Some? <==> mapStyle in Geometry.MapStyles
    ensures r.Some? ==> r.value.Keys == RoomTypes
  {
    ColorTablesComplete();
    if mapStyle == "legalmap" then Some(LegalMapColorMap)
    else if mapStyle == "hypixelmap" then Some(HypixelColorMap)
    else if mapStyle == "teniosmap" then Some(HypixelColorMap)
    else None
  }

  /** The tenios map shares the hypixel table; the legal map's table differs from it, though
      the two agree on blood, trap, unknown and black rooms. */
  lemma ColorMapSharing()
    ensures ColorMap("legalmap") == Some(LegalMapColorMap)
    ensures ColorMap("hypixelmap") == Some(HypixelColorMap)
    ensures ColorMap("teniosmap") == ColorMap("hypixelmap")
    ensures ColorMap("legalmap") != ColorMap("hypixelmap")
    ensures ColorMap("legalmap").value[Spawn] == Rgba(20, 133, 0, 255)
    ensures ColorMap("hypixelmap").value[Spawn] == Rgba(0, 124, 0, 255)
    ensures forall t :: t in {Blood, Trap, Unknown, Black} ==> LegalMapColorMap[t] == HypixelColorMap[t]
  {
    ColorTablesComplete();
    ColorTableEntries(0);
    ColorTableEntries(6);
    ColorTableEntries(7);
    ColorTableEntries(8);
    ColorTableEntries(9);
  }
}
