/** The settings record of a render context and `addMissing`, which fills a partial settings
    object in with defaults. */
module ContextSettings {

  /** A JavaScript value as it can stand in the object handed to `setSettings`. */
  datatype Value = Undefined | Str(s: string) | Num(n: real) | Bool(b: bool)

  /** The fourteen settings a context knows, by the name of their property. */
  datatype Field =
    | MapStyle | PosX | PosY | Size | HeadScale | IconScale | TickStyle | PuzzleNames
    | HeadBorder | PlayerNames | CurrentRoomInfo | ScoreInfoUnderMap | ForcePaul | DevInfo

  const AllFields: set<Field> := {
    MapStyle, PosX, PosY, Size, HeadScale, IconScale, TickStyle, PuzzleNames,
    HeadBorder, PlayerNames, CurrentRoomInfo, ScoreInfoUnderMap, ForcePaul, DevInfo
  }

  /** The property names of the fourteen settings. */
  const SettingNames: set<string> := {
    "mapStyle", "posX", "posY", "size", "headScale", "iconScale", "tickStyle", "puzzleNames",
    "headBorder", "playerNames", "currentRoomInfo", "scoreInfoUnderMap", "forcePaul", "devInfo"
  }

  /** A property name that is not one of the fourteen settings. */
  type OtherName = n: string | n !in SettingNames witness "other"

  /** A property name: one of the fourteen settings, or any other name. */
  datatype Key = Setting(field: Field) | Other(name: OtherName)

  /** A JavaScript object, by its properties. */
  type JsObject = map<Key, Value>

  /** Reading a property: an absent one reads as `undefined`. */
  function Get(o: JsObject, key: Key): Value
  {
    if key in o then o[key] else Undefined
  }

  /** A destructuring default applies exactly when the property reads as `undefined`. */
  predicate Given(o: JsObject, f: Field)
  {
    Get(o, Setting(f)) != Undefined
  }

  /** The JavaScript type of a setting. */
  datatype Kind = StrKind | NumKind | BoolKind

  predicate HasKind(v: Value, k: Kind)
  {
    match k
    case StrKind => v.Str?
    case NumKind => v.Num?
    case BoolKind => v.Bool?
  }

  /** The type the ContextSettings typedef declares for each setting. */
  function KindOf(f: Field): Kind
  {
    match f
    case MapStyle | TickStyle | PuzzleNames | CurrentRoomInfo | ScoreInfoUnderMap => StrKind
    case PosX | PosY | Size | HeadScale | IconScale => NumKind
    case HeadBorder | PlayerNames | ForcePaul | DevInfo => BoolKind
  }

  /** The documented default of every setting. */
  function Default(f: Field): (v: Value)
    ensures HasKind(v, KindOf(f))
  {
    match f
    case MapStyle => Str("legalmap")
    case PosX => Num(0.0)
    case PosY => Num(0.0)
    case Size => Num(100.0)
    case HeadScale => Num(8.0)
    case IconScale => Num(8.0)
    case TickStyle => Str("default")
    case PuzzleNames => Str("none")
    case HeadBorder => Bool(false)
    case PlayerNames => Bool(true)
    case CurrentRoomInfo => Str("none")
    case ScoreInfoUnderMap => Str("simplified")
    case ForcePaul => Bool(false)
    case DevInfo => Bool(false)
  }

  /** Every one of the fourteen settings that is given holds a value of its declared type;
      other properties may hold anything. Values are not checked against the enumerations. */
  predicate WellTyped(o: JsObject)
  {
    forall f :: Given(o, f) ==> HasKind(Get(o, Setting(f)), KindOf(f))
  }

  /** A fully populated settings record. */
  datatype Settings = Settings(
    mapStyle: string,
    posX: real,
    posY: real,
    size: real,
    headScale: real,
    iconScale: real,
    tickStyle: string,
    puzzleNames: string,
    headBorder: bool,
    playerNames: bool,
    currentRoomInfo: string,
    scoreInfoUnderMap: string,
    forcePaul: bool,
    devInfo: bool)

  /** Reading one setting of a normalised record, as the value its property holds. */
  function Read(s: Settings, f: Field): (v: Value)
    ensures HasKind(v, KindOf(f))
  {
    match f
    case MapStyle => Str(s.mapStyle)
    case PosX => Num(s.posX)
    case PosY => Num(s.posY)
    case Size => Num(s.size)
    case HeadScale => Num(s.headScale)
    case IconScale => Num(s.iconScale)
    case TickStyle => Str(s.tickStyle)
    case PuzzleNames => Str(s.puzzleNames)
    case HeadBorder => Bool(s.headBorder)
    case PlayerNames => Bool(s.playerNames)
    case CurrentRoomInfo => Str(s.currentRoomInfo)
    case ScoreInfoUnderMap => Str(s.scoreInfoUnderMap)
    case ForcePaul => Bool(s.forcePaul)
    case DevInfo => Bool(s.devInfo)
  }

  /** The settings record as the JavaScript object `addMissing` returns: the fourteen
      settings, none of them `undefined`, and no other property. */
  function ToObject(s: Settings): (o: JsObject)
    ensures forall key :: key in o <==> key.Setting?
    ensures forall f :: o[Setting(f)] == Read(s, f) && o[Setting(f)] != Undefined
  {
    AllFieldsComplete();
    map f: Field | f in AllFields :: Setting(f) := Read(s, f)
  }

  lemma AllFieldsComplete()
    ensures forall f :: f in AllFields
  {
    forall f ensures f in AllFields {
      match f
      case MapStyle =>
      case PosX =>
      case PosY =>
      case Size =>
      case HeadScale =>
      case IconScale =>
      case TickStyle =>
      case PuzzleNames =>
      case HeadBorder =>
      case PlayerNames =>
      case CurrentRoomInfo =>
      case ScoreInfoUnderMap =>
      case ForcePaul =>
      case DevInfo =>
    }
  }

  /** The value a setting ends up with: the given one, or its default. */
  function Pick(o: JsObject, f: Field): (v: Value)
    requires WellTyped(o)
    ensures HasKind(v, KindOf(f))
  {
    if Given(o, f) then Get(o, Setting(f)) else Default(f)
  }

  /** The picked value of a string, number or boolean setting, as that type. */
  function PickStr(o: JsObject, f: Field): string
    requires WellTyped(o) && KindOf(f) == StrKind
  {
    Pick(o, f).s
  }

  function PickNum(o: JsObject, f: Field): real
    requires WellTyped(o) && KindOf(f) == NumKind
  {
    Pick(o, f).n
  }

  function PickBool(o: JsObject, f: Field): bool
    requires WellTyped(o) && KindOf(f) == BoolKind
  {
    Pick(o, f).b
  }

  /** `addMissing`: each of the fourteen settings keeps the given value, unvalidated, or takes
      its default when it reads as `undefined`; every other property is dropped. */
  function AddMissing(o: JsObject): (r: Settings)
    requires WellTyped(o)
    ensures forall f :: Read(r, f) == if Given(o, f) then Get(o, Setting(f)) else Default(f)
  {
    PicksRead(o);
    Picked(o)
  }

  /** The record of the fourteen picked settings. */
  function Picked(o: JsObject): Settings
    requires WellTyped(o)
  {
    Settings(
      mapStyle := PickStr(o, MapStyle),
      posX := PickNum(o, PosX),
      posY := PickNum(o, PosY),
      size := PickNum(o, Size),
      headScale := PickNum(o, HeadScale),
      iconScale := PickNum(o, IconScale),
      tickStyle := PickStr(o, TickStyle),
      puzzleNames := PickStr(o, PuzzleNames),
      headBorder := PickBool(o, HeadBorder),
      playerNames := PickBool(o, PlayerNames),
      currentRoomInfo := PickStr(o, CurrentRoomInfo),
      scoreInfoUnderMap := PickStr(o, ScoreInfoUnderMap),
      forcePaul := PickBool(o, ForcePaul),
      devInfo := PickBool(o, DevInfo))
  }

  /** The record of the picked settings reads, setting by setting, as those picks. */
  lemma PicksRead(o: JsObject)
    requires WellTyped(o)
    ensures forall f :: Read(Picked(o), f) == Pick(o, f)
  {
    forall f ensures Read(Picked(o), f) == Pick(o, f) {
      match f
      case MapStyle =>
      case PosX =>
      case PosY =>
      case Size =>
      case HeadScale =>
      case IconScale =>
      case TickStyle =>
      case PuzzleNames =>
      case HeadBorder =>
      case PlayerNames =>
      case CurrentRoomInfo =>
      case ScoreInfoUnderMap =>
      case ForcePaul =>
      case DevInfo =>
    }
  }

  /** The defaults as an object: what an empty object normalises to. */
  lemma EmptyGivesDefaults()
    ensures forall f :: Read(AddMissing(map[]), f) == Default(f)
  {
  }

  /** The object of a record is one `addMissing` accepts. */
  lemma ToObjectWellTyped(s: Settings)
    ensures WellTyped(ToObject(s))
  {
  }

  /** A fully populated record passes through normalisation unchanged, so handing a
      context its own settings again changes nothing. */
  lemma NormalisedIsFixedPoint(s: Settings)
    ensures WellTyped(ToObject(s))
    ensures AddMissing(ToObject(s)) == s
  {
    ToObjectWellTyped(s);
    var o := ToObject(s);
    var r := AddMissing(o);
    assert r.mapStyle == s.mapStyle by { assert o[Setting(MapStyle)] == Read(s, MapStyle); }
    assert r.posX == s.posX by { assert o[Setting(PosX)] == Read(s, PosX); }
    assert r.posY == s.posY by { assert o[Setting(PosY)] == Read(s, PosY); }
    assert r.size == s.size by { assert o[Setting(Size)] == Read(s, Size); }
    assert r.headScale == s.headScale by { assert o[Setting(HeadScale)] == Read(s, HeadScale); }
    assert r.iconScale == s.iconScale by { assert o[Setting(IconScale)] == Read(s, IconScale); }
    assert r.tickStyle == s.tickStyle by { assert o[Setting(TickStyle)] == Read(s, TickStyle); }
    assert r.puzzleNames == s.puzzleNames by { assert o[Setting(PuzzleNames)] == Read(s, PuzzleNames); }
    assert r.headBorder == s.headBorder by { assert o[Setting(HeadBorder)] == Read(s, HeadBorder); }
    assert r.playerNames == s.playerNames by { assert o[Setting(PlayerNames)] == Read(s, PlayerNames); }
    assert r.currentRoomInfo == s.currentRoomInfo by {
      assert o[Setting(CurrentRoomInfo)] == Read(s, CurrentRoomInfo);
    }
    assert r.scoreInfoUnderMap == s.scoreInfoUnderMap by {
      assert o[Setting(ScoreInfoUnderMap)] == Read(s, ScoreInfoUnderMap);
    }
    assert r.forcePaul == s.forcePaul by { assert o[Setting(ForcePaul)] == Read(s, ForcePaul); }
    assert r.devInfo == s.devInfo by { assert o[Setting(DevInfo)] == Read(s, DevInfo); }
  }

  /** Normalising twice is normalising once. */
  lemma AddMissingIdempotent(o: JsObject)
    requires WellTyped(o)
    ensures AddMissing(ToObject(AddMissing(o))) == AddMissing(o)
  {
    NormalisedIsFixedPoint(AddMissing(o));
  }

  /** The result depends only on what the fourteen settings' properties read as. */
  lemma AddMissingReadsOnlySettings(o1: JsObject, o2: JsObject)
    requires WellTyped(o1) && WellTyped(o2)
    requires forall f :: Get(o1, Setting(f)) == Get(o2, Setting(f))
    ensures AddMissing(o1) == AddMissing(o2)
  {
  }

  /** Properties outside the fourteen settings do not affect the result. */
  lemma OtherKeysDropped(o: JsObject, name: OtherName, v: Value)
    requires WellTyped(o)
    ensures WellTyped(o[Other(name) := v])
    ensures AddMissing(o[Other(name) := v]) == AddMissing(o)
  {
  }

  /** A setting explicitly set to `undefined` is treated as if it were absent. */
  lemma UndefinedIsAbsent(o: JsObject, f: Field)
    requires WellTyped(o)
    ensures WellTyped(o[Setting(f) := Undefined]) && WellTyped(o - {Setting(f)})
    ensures AddMissing(o[Setting(f) := Undefined]) == AddMissing(o - {Setting(f)})
  {
    var set', removed := o[Setting(f) := Undefined], o - {Setting(f)};
    assert forall g :: Get(set', Setting(g)) == Get(removed, Setting(g));
    AddMissingReadsOnlySettings(set', removed);
  }

  /** The record `getMapDimensions` returns. */
  datatype Dimensions = Dimensions(x: real, y: real, size: real, headScale: real)

  /** `getMapDimensions`: the position, size and head scale, read from the settings. */
  function MapDimensions(s: Settings): (d: Dimensions)
    ensures Read(s, PosX) == Num(d.x) && Read(s, PosY) == Num(d.y)
    ensures Read(s, Size) == Num(d.size) && Read(s, HeadScale) == Num(d.headScale)
  {
    Dimensions(s.posX, s.posY, s.size, s.headScale)
  }

  /** The map dimensions of a normalised object: the given numbers, else 0, 0, 100 and 8. */
  lemma MapDimensionsOfInput(o: JsObject)
    requires WellTyped(o)
    ensures var d := MapDimensions(AddMissing(o));
      && d.x == (if Given(o, PosX) then o[Setting(PosX)].n else 0.0)
      && d.y == (if Given(o, PosY) then o[Setting(PosY)].n else 0.0)
      && d.size == (if Given(o, Size) then o[Setting(Size)].n else 100.0)
      && d.headScale == (if Given(o, HeadScale) then o[Setting(HeadScale)].n else 8.0)
  {
  }
}
