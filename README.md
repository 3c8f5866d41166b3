# RenderContext of the dungeon map overlay, in Dafny

`RenderContext` holds the settings of a dungeon minimap overlay and derives what the
renderer needs from them: room geometry and a colour table picked by map style, tick
images and icon sizes picked by tick style, and the map position and scale. It also owns
the cached map image, the time that image was last drawn, and a list of hooks to run when
the context is torn down.

The project models that class and proves what it promises:

- `settings.dfy` (`ContextSettings`): the partial settings object (a JavaScript object whose
  properties are either one of the fourteen settings or any other name), the normalisation
  `addMissing` with its fourteen defaults, the record it returns, and `getMapDimensions`.
  A property whose value is `undefined`, or that is absent, takes its default. A given value
  is kept as it is, with no check against the setting's enumeration. Any other property is
  dropped.
- `geometry.dfy` (`Geometry`): `roomGap`, `roomSize`, `doorWidth` and `blockSize` for the
  three map styles "legalmap", "hypixelmap" and "teniosmap". Any other style gives no value.
- `palette.dfy` (`Palette`): the two room-type colour tables, filled in program order, and
  `colorMap`. The tenios map shares the hypixel table.
- `ticks.dfy` (`Ticks`): the two tick image tables, `getImage` and `getIconSize`. A size is
  a base size scaled by `iconScale / 8`. Only the tick styles "default" and "hypixel" have
  images. A kind that the "default" case does not know falls through into the "hypixel"
  case, which does not know it either.
- `context.dfy` (`Context`): the `RenderContext` class with the fields its constructor sets,
  `getImageSize`, `setSettings`, `markReRender`, `onDestroy` and `destroy`. The method
  `HooksRunInRegistrationOrder` is a client scenario. It registers hooks A, B and C, tears
  the context down twice, and each time gets the hooks run in the order A, B, C.
- `maps.dfy` (`Maps`): a JavaScript `Map` filled by a sequence of `set` calls, with the
  lemmas that give its keys and its lookups.
- `wrappers.dfy` (`Wrappers`): `Option`. `None` stands for the `undefined` a switch with no
  matching case returns.

The written description of this component asks for some things the code does not do. It
says unknown icon kinds should be rejected, and that a second `destroy` should do nothing.
The model follows the code. An unknown kind gives no value. A second `destroy` runs every
hook again, because the hook list is never cleared.

## Model

| member | source | states |
|---|---|---|
| ContextSettings.AddMissing | Render/RenderContext.js:188-219 | every setting of the result is the given value, unchecked against its enumeration, when the property does not read as `undefined`, and the setting's documented default when it does |
| ContextSettings.Pick | Render/RenderContext.js:188-202 | the value a destructuring default leaves for one setting of an accepted object has the type declared for that setting |
| ContextSettings.Default | Render/RenderContext.js:189-202 | each default has the type the settings typedef declares for its setting |
| ContextSettings.Read | Render/RenderContext.js:204-219 | every setting of a normalised record holds a value of its declared type, so none is `undefined` |
| ContextSettings.ToObject | Render/RenderContext.js:204-219 | the returned object has exactly the fourteen settings as properties and no other, none of them `undefined` |
| ContextSettings.EmptyGivesDefaults | Render/RenderContext.js:188-203 | an empty object normalises to the defaults: "legalmap", 0, 0, 100, 8, 8, "default", "none", false, true, "none", "simplified", false, false |
| ContextSettings.ToObjectWellTyped | Render/RenderContext.js:204-219 | a normalised record, seen as an object, is accepted by the normalisation |
| ContextSettings.NormalisedIsFixedPoint | Render/RenderContext.js:184-220 | normalising a fully populated record gives back the same record |
| ContextSettings.AddMissingIdempotent | Render/RenderContext.js:184-220 | normalising twice gives the same record as normalising once |
| ContextSettings.AddMissingReadsOnlySettings | Render/RenderContext.js:188-203 | two objects whose fourteen settings read alike normalise to the same record |
| ContextSettings.OtherKeysDropped | Render/RenderContext.js:188-219 | adding any property outside the fourteen settings does not change the result |
| ContextSettings.UndefinedIsAbsent | Render/RenderContext.js:188-203 | a setting explicitly set to `undefined` normalises as if it were absent |
| ContextSettings.MapDimensions | Render/RenderContext.js:248-255 | x, y, size and headScale are the values of posX, posY, size and headScale in the settings |
| ContextSettings.MapDimensionsOfInput | Render/RenderContext.js:248-255 | after normalisation the map dimensions are the given numbers, else 0, 0, 100 and 8 |
| Geometry.RoomGap | Render/RenderContext.js:103-112 | 8 for legalmap, 6 for hypixelmap and teniosmap, no value for any other style |
| Geometry.RoomSize | Render/RenderContext.js:114-123 | 24 for all three known styles, no value for any other style |
| Geometry.DoorWidth | Render/RenderContext.js:129-138 | 8 for legalmap, 10 for hypixelmap, 15 for teniosmap, no value for any other style |
| Geometry.BlockSize | Render/RenderContext.js:125-127 | has a value exactly for the known styles, and it is the room size plus the room gap |
| Geometry.KnownStylesOnly | Render/RenderContext.js:103-138 | roomGap, roomSize and doorWidth each have a value exactly when the style is one of the three known ones |
| Geometry.BlockSizes | Render/RenderContext.js:114-127 | a block is 32 pixels on the legal map and 30 on the hypixel and tenios maps |
| Palette.ColorTablesComplete | Render/RenderContext.js:275-298 | both colour tables have exactly the ten room types 0 to 9 as keys |
| Palette.ColorTableEntries | Render/RenderContext.js:275-298 | each room type maps to the colour its `set` call gives it, in both tables |
| Palette.ColorMap | Render/RenderContext.js:92-101 | gives a table exactly for the three known styles, and that table covers every room type |
| Palette.ColorMapSharing | Render/RenderContext.js:92-101 | legalmap gets the legal map table and hypixelmap the hypixel table; teniosmap gets the same table as hypixelmap; legalmap gets a different one, which agrees with it on blood, trap, unknown and black rooms |
| Maps.FromEntries | Render/RenderContext.js:275-310 | after a run of `set` calls the key of the last call is in the map and holds the value of that call |
| Maps.FromEntriesKeys | Render/RenderContext.js:300-304 | a map filled by `set` calls has exactly the keys that were set |
| Maps.FromEntriesLookup | Render/RenderContext.js:306-310 | when every key is set once, looking a key up gives the value it was set to |
| Ticks.TickTablesComplete | Render/RenderContext.js:300-310 | both tick tables have exactly the keys greenCheck, whiteCheck, failedRoom and questionMark |
| Ticks.TickEntriesStored | Render/RenderContext.js:300-310 | every image in a tick table is the one its `set` call stores under that kind |
| Ticks.Lookup | Render/RenderContext.js:148-150 | `Map.get` gives a value exactly for a key the map holds, and it is the value held under that key |
| Ticks.GetImage | Render/RenderContext.js:145-152 | gives an image exactly when the tick style is "default" or "hypixel" and the kind is one of the four, and it is the image the legal or the hypixel table stores under that kind |
| Ticks.IconSize | Render/RenderContext.js:159-182 | gives a size exactly for the tick styles and kinds that have an image, so "secrets" and unknown kinds give none |
| Ticks.HypixelIconSize | Render/RenderContext.js:171-180 | the "hypixel" case gives a size exactly for the four kinds questionMark, whiteCheck, greenCheck and failedRoom |
| Ticks.IconSizeFromBase | Render/RenderContext.js:159-182 | every icon size is the base size from the table of hand-tuned sizes scaled by `iconScale / 8`, and a style and kind with no base size have no size |
| Ticks.IconSizeAtScaleEight | Render/RenderContext.js:159-182 | at icon scale 8 every icon has its base size: 16 by 16 for every "default" kind; 10 by 16, 10 by 10, 10 by 10 and 14 by 14 for the "hypixel" question mark, white check, green check and failed room |
| Ticks.IconSizeLinear | Render/RenderContext.js:159-182 | multiplying the icon scale by any factor multiplies both sides of every icon by that factor |
| Ticks.HypixelIconSizeLinear | Render/RenderContext.js:171-180 | the same linearity for the "hypixel" sizes that the "default" case falls through to |
| Ticks.ScaledLinear | Render/RenderContext.js:164 | a base size times `iconScale / 8` is linear in the icon scale |
| Ticks.ScaledAtEight | Render/RenderContext.js:164 | at icon scale 8 a base size is used unchanged |
| Context.RenderContext.constructor | Render/RenderContext.js:21-36 | settings are the normalised input; no image, last update 0, paddings 0, border width 2, no hooks |
| Context.RenderContext.ImageSize | Render/RenderContext.js:38-40 | has a value exactly for the known styles, and it is twice the left padding plus six rooms and seven gaps, whatever the floor |
| Context.ImageSizeOfNewContext | Render/RenderContext.js:30-40 | with the constructor's left padding of 0 the image is 200 pixels for legalmap and 186 for hypixelmap and teniosmap |
| Context.RenderContext.SetSettings | Render/RenderContext.js:184-186 | settings become the normalised input; the image, its last update time and the hooks cannot change |
| Context.RenderContext.MarkReRender | Render/RenderContext.js:226-228 | the last update time becomes 0 whatever it was, and nothing else can change |
| Context.RenderContext.OnDestroy | Render/RenderContext.js:230-232 | the hook is appended to the end of the list, with no deduplication; nothing else can change |
| Context.RenderContext.Destroy | Render/RenderContext.js:237-242 | the image is gone and every registered hook runs once, in registration order; the hook list stays as it was |

## Left out

- ContextSettings.AddMissing: requires every given setting to hold the JavaScript type the settings typedef declares (string, number or boolean). The code copies any value, `null` included, and a wrongly typed value would reach the getters.
- ContextSettings.AddMissing: the argument must be an object. With no argument the code throws while destructuring. Properties inherited through the prototype chain are not modelled.
- Ticks.Scaled: carries no postcondition of its own. What it promises is stated by the lemmas `ScaledAtEight` and `ScaledLinear`, because a postcondition on it puts nonlinear real arithmetic into every proof about icon sizes.
- Geometry.BlockSize: for an unknown style the code adds two `undefined`s and gets NaN. The model gives no value, the same as for the getters that return `undefined`.
- Context.RenderContext.ImageSize: for an unknown style the code returns NaN. The model gives no value.
- Numbers are exact reals and integers. JavaScript's floating point, including the rounding of `iconScale / 8`, is not modelled.
- Colours are their red, green, blue and alpha components. Building `java.awt.Color` objects through the host is a foreign call.
- Tick images are descriptors: the cache file name and the address. Loading them from disk or the network is I/O.
- Context.RenderContext.Destroy: deleting the image's GL texture is a native call and is left out; the image is only present or absent. A hook runs as a record of its name. What a hook does is left out, including a hook that registers another hook while the list is being run.
- `null`, which the constructor stores, and `undefined`, which `destroy` stores, are both "no image".
- The renderer that draws the image and sets its last update time is not part of this model. Its writes are assignments to the public fields `image` and `imageLastUpdate`.
- The one-line getters `posX` to `devInfo` read one setting each. They are the fields of the `Settings` record.
- Use after `destroy` is not guarded in the code, and the model does not guard it either.
