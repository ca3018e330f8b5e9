/** The render/interaction engine of the doll viewport (components/Scene.tsx), with
    geometry abstracted away: the pick protocol that turns a quick press/release over the
    doll into one new pin, the reactions that push a state snapshot into the scene (face
    map, name label, pin entities), and listener registration and teardown. */
module Scene {
  import opened Types
  import BloodText

  // ---- the pick protocol ----

  /** A release later than this many milliseconds after the press is a drag, not a click. */
  const ClickThresholdMs: int := 200

  /** The press time the interaction starts from, before any press was seen. */
  const InitialPressTime: int := 0

  /** One ray/surface intersection: the world-space point, the struck face's local normal
      when the hit has a face, and the struck object's identifier (its `uuid`). */
  datatype Hit = Hit(point: Vec3, faceNormal: Option<Vec3>, objectId: string)

  /** The local up axis, the normal used when a hit has no face. */
  const Up: Vec3 := Vec3(0.0, 1.0, 0.0)

  /** A release at `upTime` after a press at `downTime` counts as a click. */
  predicate IsQuickRelease(downTime: int, upTime: int)
  {
    !(upTime - downTime > ClickThresholdMs)
  }

  /** The hue of a pin's colour from one `Math.random` draw: a reddish hue below 20. */
  function PinColor(hueDraw: real): Color
  {
    Hsl(hueDraw * 20.0, 90, 40)
  }

  /** The pin the source builds from the nearest hit. `toWorld(o, v)` stands for rotating `v`
      by the world rotation of the object with identifier `o`. */
  function PinFromHit(hit: Hit, id: string, hueDraw: real, toWorld: (string, Vec3) -> Vec3): PinData
  {
    var localNormal := match hit.faceNormal case Some(n) => n case None => Up;
    PinData(id, hit.point, toWorld(hit.objectId, localNormal), PinColor(hueDraw), hit.objectId)
  }

  /** The outcome of a release at `upTime`, given the press time and the hit list sorted
      nearest first: no pin for a slow release or an empty hit list, otherwise exactly one,
      built from the first hit. */
  function Pick(downTime: int, upTime: int, hits: seq<Hit>, id: string, hueDraw: real,
                toWorld: (string, Vec3) -> Vec3): (r: Option<PinData>)
    ensures r.Some? <==> IsQuickRelease(downTime, upTime) && |hits| > 0
    ensures r.Some? ==>
      && r.value.id == id
      && r.value.position == hits[0].point
      && r.value.targetName == hits[0].objectId
    ensures r.Some? && hits[0].faceNormal.None? ==> r.value.normal == toWorld(hits[0].objectId, Up)
    ensures r.Some? && hits[0].faceNormal.Some? ==>
      r.value.normal == toWorld(hits[0].objectId, hits[0].faceNormal.value)
    ensures r.Some? && 0.0 <= hueDraw < 1.0 ==>
      0.0 <= r.value.color.hue < 20.0 && r.value.color.saturation == 90 && r.value.color.lightness == 40
  {
    if upTime - downTime > ClickThresholdMs then None
    else if |hits| > 0 then Some(PinFromHit(hits[0], id, hueDraw, toWorld))
    else None
  }

  /** Since the press time starts at 0, a release later than 200 with no press before it
      places nothing, whatever it hits. */
  lemma ReleaseWithoutPressIsIgnored(upTime: int, hits: seq<Hit>, id: string, hueDraw: real,
                                     toWorld: (string, Vec3) -> Vec3)
    requires upTime > ClickThresholdMs
    ensures Pick(InitialPressTime, upTime, hits, id, hueDraw, toWorld) == None
  {
  }

  // ---- scene entities ----

  /** Where a texture's pixels come from. */
  datatype TextureSource =
    | FromCanvas(canvas: BloodText.Canvas)
    | FromImage(url: string)

  /** A GPU texture resource; `disposed` records that its resources were released. */
  class Texture {
    const source: TextureSource
    var disposed: bool

    constructor (source: TextureSource)
      ensures this.source == source && !disposed
    {
      this.source := source;
      disposed := false;
    }

    method Dispose()
      modifies this
      ensures disposed
    {
      disposed := true;
    }
  }

  /** `createBloodTextTexture`: null without a 2D context, otherwise a new texture over the
      label canvas. */
  method CreateBloodTextTexture(text: string, hasContext: bool, textWidth: real, random: seq<real>)
    returns (tex: Texture?)
    requires BloodText.ValidDraws(random)
    ensures tex == null <==> !hasContext
    ensures tex != null ==>
      && fresh(tex) && !tex.disposed
      && tex.source == FromCanvas(BloodText.Canvas(BloodText.CanvasWidth, BloodText.CanvasHeight,
                                    BloodText.BloodTextCommands(text, textWidth, random)))
  {
    var canvas := BloodText.PaintBloodText(text, hasContext, textWidth, random);
    if canvas.None? {
      return null;
    }
    tex := new Texture(FromCanvas(canvas.value));
  }

  datatype Shape = Cylinder(radiusTop: real, radiusBottom: real, height: real) | Sphere(radius: real)

  /** A material colour: a hex constant or a pin's own colour. */
  datatype Paint = Hex(rgb: nat) | PinPaint(color: Color)

  /** A child mesh of a pin entity, placed at height `y` along the pin's up axis. */
  datatype Mesh = Mesh(shape: Shape, y: real, paint: Paint, shininess: nat)

  /** A pin entity in the pins container: placed at `position`, its up axis turned onto
      `alignedTo`, with the shaft and the head as children. */
  datatype PinObject = PinObject(position: Vec3, alignedTo: Vec3, children: seq<Mesh>)

  const Shaft: Mesh := Mesh(Cylinder(0.012, 0.005, 0.65), 0.325, Hex(0xaaaaaa), 50)

  function PinHead(color: Color): Mesh
  {
    Mesh(Sphere(0.065), 0.65, PinPaint(color), 100)
  }

  function PinObjectOf(pin: PinData): PinObject
  {
    PinObject(pin.position, pin.normal, [Shaft, PinHead(pin.color)])
  }

  /** The window listeners the viewport registers. */
  datatype Listener = MouseDown | MouseUp | Resize

  const SetupListeners: set<Listener> := {MouseDown, MouseUp, Resize}

  /** The persistent scene behind the viewport: the handles the reactions write to, the
      press time of the pick gesture and the registered listeners. The `has...` flags say
      whether the face plaque, name plaque and pins container exist yet (they are made by
      the one-time setup). */
  class DollScene {
    var hasFacePlaque: bool
    var hasNamePlaque: bool
    var hasPinsContainer: bool
    var pinObjects: seq<PinObject>
    var mouseDownTime: int
    var nameMap: Texture?
    var nameNeedsUpdate: bool
    var faceMap: Texture?
    var faceNeedsUpdate: bool
    var listeners: set<Listener>
    var canvasAttached: bool

    /** No texture bound to a plaque has been disposed, and the two plaques never share one. */
    ghost predicate Valid()
      reads this, nameMap, faceMap
    {
      && (nameMap != null ==> !nameMap.disposed)
      && (faceMap != null ==> !faceMap.disposed)
      && (nameMap != null && faceMap != null ==> nameMap != faceMap)
    }

    /** The component before its setup effect has run: no handles, no listeners. */
    constructor ()
      ensures Valid()
      ensures !hasFacePlaque && !hasNamePlaque && !hasPinsContainer && pinObjects == []
      ensures mouseDownTime == InitialPressTime
      ensures nameMap == null && faceMap == null && !nameNeedsUpdate && !faceNeedsUpdate
      ensures listeners == {} && !canvasAttached
    {
      hasFacePlaque, hasNamePlaque, hasPinsContainer := false, false, false;
      pinObjects := [];
      mouseDownTime := InitialPressTime;
      nameMap, faceMap := null, null;
      nameNeedsUpdate, faceNeedsUpdate := false, false;
      listeners := {};
      canvasAttached := false;
    }

    /** The one-time setup: without a mount element nothing happens; otherwise it builds the
        plaques (with fresh materials, so no map is bound) and an empty pins container,
        resets the press time, attaches the drawing surface and registers the three
        listeners. */
    method Setup(hasMount: bool)
      requires Valid()
      modifies this
      ensures Valid()
      ensures !hasMount ==> unchanged(this)
      ensures hasMount ==>
        && hasFacePlaque && hasNamePlaque && hasPinsContainer && pinObjects == []
        && mouseDownTime == InitialPressTime
        && nameMap == null && faceMap == null
        && !nameNeedsUpdate && !faceNeedsUpdate
        && listeners == old(listeners) + SetupListeners
        && canvasAttached
    {
      if !hasMount {
        return;
      }
      hasFacePlaque, hasNamePlaque, hasPinsContainer := true, true, true;
      nameMap, faceMap := null, null;
      nameNeedsUpdate, faceNeedsUpdate := false, false;
      pinObjects := [];
      mouseDownTime := InitialPressTime;
      canvasAttached := true;
      listeners := listeners + {MouseDown};
      listeners := listeners + {MouseUp};
      listeners := listeners + {Resize};
    }

    /** The cleanup of the setup effect: removes exactly the three listeners it registered
        and detaches the drawing surface when the mount element is still there. */
    method Teardown(hasMount: bool)
      modifies this`listeners, this`canvasAttached
      ensures listeners == old(listeners) - SetupListeners
      ensures canvasAttached == (old(canvasAttached) && !hasMount)
    {
      listeners := listeners - {MouseDown};
      listeners := listeners - {MouseUp};
      listeners := listeners - {Resize};
      if hasMount {
        canvasAttached := false;
      }
    }

    /** `onMouseDown`: records the press time. */
    method OnMouseDown(now: int)
      modifies this`mouseDownTime
      ensures mouseDownTime == now
    {
      mouseDownTime := now;
    }

    /** `onMouseUp`: the pin it proposes to the state container, if any. It changes no
        scene state. */
    method OnMouseUp(now: int, hits: seq<Hit>, id: string, hueDraw: real,
                     toWorld: (string, Vec3) -> Vec3)
      returns (emitted: Option<PinData>)
      ensures emitted == Pick(mouseDownTime, now, hits, id, hueDraw, toWorld)
    {
      if now - mouseDownTime > ClickThresholdMs {
        return None;
      }
      emitted := None;
      if |hits| > 0 {
        var hit := hits[0];
        var normal := if hit.faceNormal.Some? then hit.faceNormal.value else Up;
        var worldNormal := toWorld(hit.objectId, normal);
        emitted := Some(PinData(id, hit.point, worldNormal, PinColor(hueDraw), hit.objectId));
      }
    }

    /** The face reaction: the image source whose loading it starts, if any. A missing face
        plaque, an absent source or an empty one makes it a no-op. */
    method FaceEffect(faceImageUrl: Option<string>) returns (load: Option<string>)
      ensures load.Some? <==> hasFacePlaque && faceImageUrl.Some? && faceImageUrl.value != ""
      ensures load.Some? ==> load == faceImageUrl
    {
      if !hasFacePlaque || faceImageUrl.None? || faceImageUrl.value == "" {
        return None;
      }
      load := faceImageUrl;
    }

    /** The loader's completion callback for `url`: the decoded texture becomes the face
        material's map and the material is marked for update. The previous face map is not
        released. */
    method OnFaceLoaded(url: string)
      requires Valid() && hasFacePlaque
      modifies this`faceMap, this`faceNeedsUpdate
      ensures Valid()
      ensures faceMap != null && fresh(faceMap) && faceMap.source == FromImage(url)
      ensures faceNeedsUpdate
      ensures old(faceMap) != null ==> !old(faceMap).disposed
    {
      var tex := new Texture(FromImage(url));
      faceMap := tex;
      faceNeedsUpdate := true;
    }

    /** The name reaction: when the name plaque exists and the synthesiser produces a
        texture, the previously bound map (if any) is disposed and the new texture is bound
        and marked for update; otherwise nothing changes. */
    method UpdateNameLabel(name: string, hasContext: bool, textWidth: real, random: seq<real>)
      requires Valid() && BloodText.ValidDraws(random)
      modifies this`nameMap, this`nameNeedsUpdate, nameMap
      ensures Valid()
      ensures !(hasNamePlaque && hasContext) ==>
        && nameMap == old(nameMap) && nameNeedsUpdate == old(nameNeedsUpdate)
        && (nameMap != null ==> unchanged(nameMap))
      ensures hasNamePlaque && hasContext ==>
        && nameMap != null && fresh(nameMap) && nameNeedsUpdate
        && nameMap.source == FromCanvas(BloodText.Canvas(BloodText.CanvasWidth, BloodText.CanvasHeight,
                                          BloodText.BloodTextCommands(name, textWidth, random)))
        && (old(nameMap) != null ==> old(nameMap).disposed)
    {
      if !hasNamePlaque {
        return;
      }
      var tex := CreateBloodTextTexture(name, hasContext, textWidth, random);
      if tex != null {
        if nameMap != null {
          nameMap.Dispose();
        }
        nameMap := tex;
        nameNeedsUpdate := true;
      }
    }

    /** The pins reaction: empties the pins container one child at a time, then adds one
        entity per pin, in the order of `pins`. Without a container it does nothing. */
    method RebuildPins(pins: seq<PinData>)
      modifies this`pinObjects
      ensures !hasPinsContainer ==> pinObjects == old(pinObjects)
      ensures hasPinsContainer ==>
        && |pinObjects| == |pins|
        && forall i :: 0 <= i < |pins| ==> pinObjects[i] == PinObjectOf(pins[i])
    {
      if !hasPinsContainer {
        return;
      }
      while |pinObjects| > 0
        decreases |pinObjects|
      {
        pinObjects := pinObjects[1..];
      }
      for i := 0 to |pins|
        invariant |pinObjects| == i
        invariant forall k :: 0 <= k < i ==> pinObjects[k] == PinObjectOf(pins[k])
      {
        pinObjects := pinObjects + [PinObjectOf(pins[i])];
      }
    }
  }

  /** Every entity the rebuild makes stands at its pin's position, is aligned with its
      pin's normal, and has two children: the grey shaft centred at 0.325 and a head at
      0.65 in the pin's colour. */
  lemma PinObjectShape(pin: PinData)
    ensures PinObjectOf(pin).position == pin.position
    ensures PinObjectOf(pin).alignedTo == pin.normal
    ensures |PinObjectOf(pin).children| == 2
    ensures PinObjectOf(pin).children[0].y == 0.325 && PinObjectOf(pin).children[0].shape.Cylinder?
    ensures PinObjectOf(pin).children[1].y == 0.65 && PinObjectOf(pin).children[1].shape.Sphere?
    ensures PinObjectOf(pin).children[1].paint == PinPaint(pin.color)
  {
  }
}
