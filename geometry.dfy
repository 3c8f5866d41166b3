/** The room geometry each map style selects (the `roomGap`, `roomSize`, `blockSize` and
    `doorWidth` getters). A style outside the three known ones yields no value. */
module Geometry {
  import opened Wrappers

  const MapStyles: set<string> := {"legalmap", "hypixelmap", "teniosmap"}

  /** The sizes a map style is documented to give, in pixels. */
  datatype StyleGeometry = StyleGeometry(roomSize: int, roomGap: int, doorWidth: int)

  const Documented: map<string, StyleGeometry> := map[
    "legalmap" := StyleGeometry(24, 8, 8),
    "hypixelmap" := StyleGeometry(24, 6, 10),
    "teniosmap" := StyleGeometry(24, 6, 15)
  ]

  /** `roomGap`: the space between two rooms. */
  function RoomGap(mapStyle: string): (r: Option<int>)
    ensures r == if mapStyle in Documented then Some(Documented[mapStyle].roomGap) else None
  {
    if mapStyle == "legalmap" then Some(8)
    else if mapStyle == "hypixelmap" then Some(6)
    else if mapStyle == "teniosmap" then Some(6)
    else None
  }

  /** `roomSize`: the side of one room. */
  function RoomSize(mapStyle: string): (r: Option<int>)
    ensures r == if mapStyle in Documented then Some(Documented[mapStyle].roomSize) else None
    ensures r.Some? ==> r.value == 24
  {
    if mapStyle == "legalmap" then Some(24)
    else if mapStyle == "hypixelmap" then Some(24)
    else if mapStyle == "teniosmap" then Some(24)
    else None
  }

  /** `doorWidth`: the width of a door between two rooms. */
  function DoorWidth(mapStyle: string): (r: Option<int>)
    ensures r == if mapStyle in Documented then Some(Documented[mapStyle].doorWidth) else None
  {
    if mapStyle == "legalmap" then Some(8)
    else if mapStyle == "hypixelmap" then Some(10)
    else if mapStyle == "teniosmap" then Some(15)
    else None
  }

  /** `blockSize`: the span of one room cell with its gap. For an unknown style the source
      adds two `undefined`s, which gives NaN; no value stands for that here. */
  function BlockSize(mapStyle: string): (r: Option<int>)
    ensures r.Some? <==> mapStyle in MapStyles
    ensures r.Some? ==> r.value == Documented[mapStyle].roomSize + Documented[mapStyle].roomGap
  {
    var size, gap := RoomSize(mapStyle), RoomGap(mapStyle);
    if size.Some? && gap.Some? then Some(size.value + gap.value) else None
  }

  /** Whatever the style, every getter yields a value exactly for the three known styles. */
  lemma KnownStylesOnly(mapStyle: string)
    ensures RoomGap(mapStyle).Some? <==> mapStyle in MapStyles
    ensures RoomSize(mapStyle).Some? <==> mapStyle in MapStyles
    ensures DoorWidth(mapStyle).Some? <==> mapStyle in MapStyles
  {
  }

  /** A block is 32 pixels on the legal map and 30 on the hypixel and tenios maps. */
  lemma BlockSizes()
    ensures BlockSize("legalmap") == Some(32)
    ensures BlockSize("hypixelmap") == Some(30)
    ensures BlockSize("teniosmap") == Some(30)
  {
  }
}
