/** The tick images drawn over rooms and their sizes, both picked by tick style
    (`getImage` and `getIconSize`). */
module Ticks {
  import opened Wrappers
  import Maps

  /** An image resource: the file it is cached under and the address it is fetched from. */
  datatype Asset = Asset(file: string, url: string)

  /** The tick styles that have images; "secrets" is a declared tick style that has none. */
  const TickStyles: set<string> := {"default", "hypixel"}

  /** The kinds of icon every tick table holds. */
  const IconKinds: set<string> := {"greenCheck", "whiteCheck", "failedRoom", "questionMark"}

  /** The `set` calls that fill the hypixel tick table, in program order. */
  const HypixelTickEntries: seq<(string, Asset)> := [
    ("greenCheck", Asset("greenCheckVanilla.png", "https://i.imgur.com/h2WM1LO.png")),
    ("whiteCheck", Asset("whiteCheckVanilla.png", "https://i.imgur.com/hwEAcnI.png")),
    ("failedRoom", Asset("failedRoomVanilla.png", "https://i.imgur.com/WqW69z3.png")),
    ("questionMark", Asset("questionMarkVanilla.png", "https://i.imgur.com/1jyxH9I.png"))
  ]

  /** The `set` calls that fill the legal map tick table, in program order. */
  const LegalTickEntries: seq<(string, Asset)> := [
    ("greenCheck", Asset("BloomMapGreenCheck.png", "https://i.imgur.com/GQfTfmp.png")),
    ("whiteCheck", Asset("BloomMapWhiteCheck.png", "https://i.imgur.com/9cZ28bJ.png")),
    ("failedRoom", Asset("BloomMapFailedRoom.png", "https://i.imgur.com/qAb4O9H.png")),
    ("questionMark", Asset("BloomMapQuestionMark.png", "https://i.imgur.com/kp92Inw.png"))
  ]

  const HypixelTicksOld: map<string, Asset> := Maps.FromEntries(HypixelTickEntries)
  const LegalMapTicks: map<string, Asset> := Maps.FromEntries(LegalTickEntries)

  /** Both tick tables hold exactly the four icon kinds. */
  lemma TickTablesComplete()
    ensures HypixelTicksOld.Keys == IconKinds
    ensures LegalMapTicks.Keys == IconKinds
  {
    Maps.FromEntriesKeys(HypixelTickEntries);
    Maps.FromEntriesKeys(LegalTickEntries);
    assert HypixelTickEntries[0] in HypixelTickEntries && HypixelTickEntries[1] in HypixelTickEntries;
    assert HypixelTickEntries[2] in HypixelTickEntries && HypixelTickEntries[3] in HypixelTickEntries;
    assert LegalTickEntries[0] in LegalTickEntries && LegalTickEntries[1] in LegalTickEntries;
    assert LegalTickEntries[2] in LegalTickEntries && LegalTickEntries[3] in LegalTickEntries;
  }

  /** `Map.get`: the value under `key`, or nothing when the key was never set. */
  function Lookup(m: map<string, Asset>, key: string): (r: Option<Asset>)
    ensures r.Some? <==> key in m
    ensures r.Some? ==> r.value == m[key]
  {
    if key in m then Some(m[key]) else None
  }

  /** `getImage`: the image of an icon kind in the table of the tick style. There is one
      exactly when both the style and the kind are known, and it is the image the table's
      `set` call put under that kind. */
  function GetImage(tickStyle: string, kind: string): (r: Option<Asset>)
    ensures r.Some? <==> tickStyle in TickStyles && kind in IconKinds
    ensures r.Some? && tickStyle == "default" ==> (kind, r.value) in LegalTickEntries
    ensures r.Some? && tickStyle == "hypixel" ==> (kind, r.value) in HypixelTickEntries
  {
    TickTablesComplete();
    TickEntriesStored(LegalTickEntries);
    TickEntriesStored(HypixelTickEntries);
    if tickStyle == "default" then Lookup(LegalMapTicks, kind)
    else if tickStyle == "hypixel" then Lookup(HypixelTicksOld, kind)
    else None
  }

  /** Every image of a tick table lies in it under the kind its `set` call names. */
  lemma TickEntriesStored(entries: seq<(string, Asset)>)
    requires |entries| == 4
    requires entries[0].0 == "greenCheck" && entries[1].0 == "whiteCheck"
    requires entries[2].0 == "failedRoom" && entries[3].0 == "questionMark"
    ensures forall k :: k in Maps.FromEntries(entries) ==> (k, Maps.FromEntries(entries)[k]) in entries
  {
    var m := Maps.FromEntries(entries);
    Maps.FromEntriesKeys(entries);
    forall k | k in m ensures (k, m[k]) in entries {
      var i :| 0 <= i < 4 && entries[i].0 == k;
      Maps.FromEntriesLookup(entries, i);
      assert (k, m[k]) == entries[i];
    }
  }

  /** A base size, in pixels at icon scale 8, scaled by `iconScale / 8`. */
  function Scaled(width: int, height: int, iconScale: real): (real, real)
  {
    ((width as real) * iconScale / 8.0, (height as real) * iconScale / 8.0)
  }

  /** The sizes of the "hypixel" case of `getIconSize`. */
  function HypixelIconSize(kind: string, iconScale: real): (r: Option<(real, real)>)
    ensures r.Some? <==> kind in IconKinds
  {
    if kind == "questionMark" then Some(Scaled(10, 16, iconScale))
    else if kind == "whiteCheck" || kind == "greenCheck" then Some(Scaled(10, 10, iconScale))
    else if kind == "failedRoom" then Some(Scaled(14, 14, iconScale))
    else None
  }

  /** `getIconSize`: width and height of an icon. A kind that the "default" case does not
      match falls through into the "hypixel" case. */
  function IconSize(tickStyle: string, kind: string, iconScale: real): (r: Option<(real, real)>)
    ensures r.Some? <==> GetImage(tickStyle, kind).Some?
  {
    if tickStyle == "default" then
      if kind == "questionMark" then Some(Scaled(16, 16, iconScale))
      else if kind == "whiteCheck" || kind == "greenCheck" then Some(Scaled(16, 16, iconScale))
      else if kind == "failedRoom" then Some(Scaled(16, 16, iconScale))
      else HypixelIconSize(kind, iconScale)
    else if tickStyle == "hypixel" then HypixelIconSize(kind, iconScale)
    else None
  }

  /** The hand-tuned base sizes, in pixels at icon scale 8. */
  const BaseSizes: map<(string, string), (int, int)> := map[
    ("default", "questionMark") := (16, 16),
    ("default", "whiteCheck") := (16, 16),
    ("default", "greenCheck") := (16, 16),
    ("default", "failedRoom") := (16, 16),
    ("hypixel", "questionMark") := (10, 16),
    ("hypixel", "whiteCheck") := (10, 10),
    ("hypixel", "greenCheck") := (10, 10),
    ("hypixel", "failedRoom") := (14, 14)
  ]

  /** At icon scale 8 an icon has its base size. */
  lemma IconSizeAtScaleEight(tickStyle: string, kind: string)
    ensures IconSize(tickStyle, kind, 8.0).Some? <==> (tickStyle, kind) in BaseSizes
    ensures (tickStyle, kind) in BaseSizes ==>
      var (w, h) := BaseSizes[(tickStyle, kind)];
      IconSize(tickStyle, kind, 8.0) == Some((w as real, h as real))
  {
  }

  /** Icon sizes are linear in the icon scale: scaling it by `c` scales both sides by `c`. */
  lemma IconSizeLinear(tickStyle: string, kind: string, iconScale: real, c: real)
    ensures IconSize(tickStyle, kind, c * iconScale).Some? == IconSize(tickStyle, kind, iconScale).Some?
    ensures IconSize(tickStyle, kind, iconScale).Some? ==>
      var size, scaled := IconSize(tickStyle, kind, iconScale).value, IconSize(tickStyle, kind, c * iconScale).value;
      scaled.0 == c * size.0 && scaled.1 == c * size.1
  {
    if tickStyle == "default" && kind in IconKinds {
      ScaledLinear(16, 16, iconScale, c);
    } else {
      HypixelIconSizeLinear(kind, iconScale, c);
    }
  }

  /** Every icon size is its base size scaled by `iconScale / 8`, and there is none for a
      tick style and kind without a base size. */
  lemma IconSizeFromBase(tickStyle: string, kind: string, iconScale: real)
    ensures IconSize(tickStyle, kind, iconScale) ==
      if (tickStyle, kind) in BaseSizes then
        var (w, h) := BaseSizes[(tickStyle, kind)];
        Some(Scaled(w, h, iconScale))
      else None
  {
  }

  lemma HypixelIconSizeLinear(kind: string, iconScale: real, c: real)
    ensures HypixelIconSize(kind, c * iconScale).Some? == HypixelIconSize(kind, iconScale).Some?
    ensures HypixelIconSize(kind, iconScale).Some? ==>
      var size, scaled := HypixelIconSize(kind, iconScale).value, HypixelIconSize(kind, c * iconScale).value;
      scaled.0 == c * size.0 && scaled.1 == c * size.1
  {
    ScaledLinear(10, 16, iconScale, c);
    ScaledLinear(10, 10, iconScale, c);
    ScaledLinear(14, 14, iconScale, c);
  }

  lemma ScaledLinear(width: int, height: int, iconScale: real, c: real)
    ensures Scaled(width, height, c * iconScale).0 == c * Scaled(width, height, iconScale).0
    ensures Scaled(width, height, c * iconScale).1 == c * Scaled(width, height, iconScale).1
  {
  }

  /** At icon scale 8 a base size is used as it is. */
  lemma ScaledAtEight(width: int, height: int)
    ensures Scaled(width, height, 8.0).0 == width as real
    ensures Scaled(width, height, 8.0).1 == height as real
  {
  }
}
