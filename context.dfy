/** The render context object: its settings, the cached map image with its last update time,
    the padding it lays the map out with, and the hooks run when it is torn down. */
module Context {
  import opened Wrappers
  import opened ContextSettings
  import Geometry

  /** A destroy hook, by the name it is registered under; running it is recorded by name. */
  type Callback = string

  /** A handle on the cached map image; the texture behind it is not modelled. */
  datatype Bitmap = Bitmap(handle: nat)

  class RenderContext {
    var settings: Settings
    /** The cached map image; the external renderer fills it in. */
    var image: Option<Bitmap>
    /** When the image was last drawn; 0 asks the renderer to draw it again. */
    var imageLastUpdate: int
    var paddingTop: int
    var paddingLeft: int
    var borderWidth: int
    var onDestroys: seq<Callback>

    /** A context with normalised settings, no image, no hooks and no padding. */
    constructor (input: JsObject)
      requires WellTyped(input)
      ensures settings == AddMissing(input)
      ensures image == None && imageLastUpdate == 0
      ensures paddingTop == 0 && paddingLeft == 0 && borderWidth == 2
      ensures onDestroys == []
    {
      settings := AddMissing(input);
      image := None;
      imageLastUpdate := 0;
      paddingTop := 0;
      paddingLeft := 0;
      borderWidth := 2;
      onDestroys := [];
    }

    /** `getImageSize`: the side of the whole map image, the same for every floor. There is
        one exactly when the map style is known. */
    function ImageSize(floor: int): (r: Option<int>)
      reads this
      ensures r.Some? <==> settings.mapStyle in Geometry.MapStyles
      ensures r.Some? ==>
        var g := Geometry.Documented[settings.mapStyle];
        r.value == 2 * paddingLeft + 6 * g.roomSize + 7 * g.roomGap
    {
      var block, gap := Geometry.BlockSize(settings.mapStyle), Geometry.RoomGap(settings.mapStyle);
      if block.Some? && gap.Some? then Some(paddingLeft * 2 + block.value * 6 + gap.value) else None
    }

    /** `setSettings`: normalise the input and make it the settings; the image, its update
        time and the hooks are left alone. */
    method SetSettings(input: JsObject)
      requires WellTyped(input)
      modifies this`settings
      ensures settings == AddMissing(input)
    {
      settings := AddMissing(input);
    }

    /** `markReRender`: have the image drawn again on the next frame. */
    method MarkReRender()
      modifies this`imageLastUpdate
      ensures imageLastUpdate == 0
    {
      imageLastUpdate := 0;
    }

    /** `onDestroy`: register a hook at the end of the list, duplicates included. */
    method OnDestroy(callback: Callback)
      modifies this`onDestroys
      ensures onDestroys == old(onDestroys) + [callback]
    {
      onDestroys := onDestroys + [callback];
    }

    /** `destroy`: drop the image, then run every registered hook once, in registration
        order; `calls` lists the hooks run. The hooks stay registered. */
    method Destroy() returns (calls: seq<Callback>)
      modifies this`image
      ensures image == None
      ensures calls == onDestroys
    {
      image := None;
      calls := [];
      var i := 0;
      while i < |onDestroys|
        invariant 0 <= i <= |onDestroys|
        invariant calls == onDestroys[..i]
      {
        calls := calls + [onDestroys[i]];
        i := i + 1;
      }
    }
  }

  /** The image of a fresh context is 200 pixels on the legal map and 186 on the hypixel
      and tenios maps, whatever the floor. */
  lemma ImageSizeOfNewContext(ctx: RenderContext, floor: int)
    requires ctx.paddingLeft == 0
    ensures ctx.settings.mapStyle == "legalmap" ==> ctx.ImageSize(floor) == Some(200)
    ensures ctx.settings.mapStyle == "hypixelmap" ==> ctx.ImageSize(floor) == Some(186)
    ensures ctx.settings.mapStyle == "teniosmap" ==> ctx.ImageSize(floor) == Some(186)
    ensures ctx.settings.mapStyle !in Geometry.MapStyles ==> ctx.ImageSize(floor) == None
  {
  }

  /** Hooks registered one after another run, on teardown, in the order they were
      registered; a second teardown runs them all again. */
  method HooksRunInRegistrationOrder()
  {
    var ctx := new RenderContext(map[]);
    ctx.OnDestroy("A");
    ctx.OnDestroy("B");
    ctx.OnDestroy("C");
    assert ctx.onDestroys == ["A", "B", "C"];
    ctx.MarkReRender();
    var calls := ctx.Destroy();
    assert calls == ["A", "B", "C"];
    assert ctx.image == None;
    calls := ctx.Destroy();
    assert calls == ["A", "B", "C"];
  }
}
