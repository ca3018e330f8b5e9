# Voodoo doll: a Dafny model of the state container and the scene synchroniser

The application lets a user name a 3D doll, put a face image on it and stick pins into
it by clicking its surface. This project models its sequential logic with the geometry
abstracted away:

- **The state container** (`App.tsx`, module `App` in `app.dfy`). The doll state
  `{name, faceImageUrl, pins}` (`types.ts`, module `Types` in `types.dfy`) starts as
  `{"Unknown Victim", null, []}` and changes through four functional update rules: set
  the name, set the face source, append one pin, clear all pins. Each rule is a pure
  function. A fold `ApplyAll` runs any sequence of updates, and lemmas relate it to
  independent descriptions: the pins since the last clear, and the fields that updates
  leave alone.
- **The label synthesiser** (`createBloodTextTexture`, module `BloodText` in
  `blood_text.dfy`). The canvas is the sequence of draw commands issued on its 2D
  context. `PaintBloodText` keeps the source's two `for` loops and is proved equal to a
  specification function. The lemmas state the label's fixed structure: a clear, 25
  drips (each a stroke with its drop), the upper-cased text, 20 splatters. They also
  state the bounds of every random quantity.
- **The scene** (`components/Scene.tsx`, module `Scene` in `scene.dfy`).
  - The pick protocol is a pure function `Pick` (click/drag threshold, first hit, the
    default normal).
  - The class `DollScene` holds the mutable scene state: plaque handles, the pins
    container, `mouseDownTime`, the name and face texture slots and the window
    listeners.
  - Its methods are the setup and teardown of the viewport, the two mouse handlers and
    the three reactions to state changes.
  - `Texture` objects carry a `disposed` flag. The invariant `DollScene.Valid` says that
    no texture bound to a plaque has been disposed.
- **The interaction loop** (module `Interaction` in `interaction.dfy`). A stream of
  presses and releases goes through `Pick` and `App.AddPin`. The pin list grows by one
  for each quick release that hits the doll, and by nothing for any other event.

Inputs that come from the platform are parameters:
- the clock (`Date.now()`);
- the raycaster's hit list, already sorted nearest first;
- the struck object's world rotation, a function `toWorld(objectId, v)`;
- `Math.random` values, each in `[0, 1)`;
- the text width reported by `measureText`;
- whether a 2D context is available.

In these places the code does less than one might expect, and the model follows the code:
- A superseded face texture is never disposed (`DollScene.OnFaceLoaded`). Only the
  name texture is released when it is replaced.
- The face-load callback has no stale-plaque guard. It dereferences the plaque
  unconditionally, so the model requires the plaque to exist.
- Pin ids are random and are never checked for uniqueness. Normals are never checked
  for unit length. Neither is claimed.
- An empty face source string counts as absent, like `null` (a falsy check).

## Model

| member | source | states |
|---|---|---|
| `App.NameChange` | App.tsx:14-16 | the name becomes the given one; face source and pins are unchanged |
| `App.FaceUpload` | App.tsx:18-20 | the face source becomes present with the given URL; name and pins are unchanged |
| `App.AddPin` | App.tsx:22-27 | the pin list grows by exactly one, the old pins are an unchanged prefix and the new pin is last; name and face are unchanged |
| `App.ClearPins` | App.tsx:29-31 | the pin list becomes empty whatever its previous length; name and face are unchanged |
| `App.ClearIdempotent` | App.tsx:29-31 | clearing twice gives the same state as clearing once |
| `App.DistinctFieldsCommute` | App.tsx:14-31 | two updates that write different fields give the same state in either order |
| `App.PinsWithoutClear` | App.tsx:22-31 | after updates with no clear, the pins are the old pins followed by the added ones, in order |
| `App.PinsAfterLastClear` | App.tsx:22-31 | after updates whose last clear is at index k, the pins are exactly those added after k, in order, whatever the state before |
| `App.NameKeptWithoutSetName` | App.tsx:14-31 | updates other than a name change never change the name |
| `App.FaceKeptWithoutSetFace` | App.tsx:14-31 | updates other than a face upload never change the face source |
| `App.FromInitial` | App.tsx:8-31 | from the initial state, the name is "Unknown Victim" until one is set and the face is absent until one is uploaded; the pins are those added since the last clear, and the pin count the panel shows equals the number of pins added since the last clear |
| `App.PinCountAfterUpdate` | App.tsx:60 | the pin count the control panel shows goes up by exactly one when a pin is added, drops to zero on a clear, and is unchanged by name and face updates |
| `App.LastClearEnd` | App.tsx:29-31 | the index just past the most recent clear: no clear follows it, and the update before it is a clear |
| `BloodText.PaintBloodText` | components/Scene.tsx:23-85 | no canvas exactly when no 2D context is available; otherwise a 512x256 canvas holding exactly the label's command sequence |
| `BloodText.UpperCaseProperties` | components/Scene.tsx:48 | upper-casing keeps the length, leaves no lower-case ASCII letter and is idempotent |
| `BloodText.DripIsWellFormed` | components/Scene.tsx:58-73 | each drip is a stroke from the anchor line at an x inside the text's extent, of length in [15, 105) and thickness in [2, 7), followed by a drop of radius 1.3 times the thickness at its tail |
| `BloodText.DripsShape` | components/Scene.tsx:58-73 | n drips give 2n commands, and pair i is drip i's stroke followed by its drop |
| `BloodText.SplattersShape` | components/Scene.tsx:79-85 | n splatters give n filled circles, each centred on the canvas with radius in [0, 4) |
| `BloodText.BloodTextLayout` | components/Scene.tsx:31-85 | the label is a clear, then 25 well-formed drips, then one fillText of the upper-cased text at the anchor, then 20 splatters: 72 commands in all |
| `Scene.Pick` | components/Scene.tsx:196-217 | a release emits a pin exactly when it comes at most 200 ms after the press and the hit list is non-empty; the pin takes the first hit's point and object id, and its normal is the world rotation of the hit face's normal, or of (0,1,0) when there is no face; its hue lies in [0, 20) at 90% saturation and 40% lightness |
| `Scene.ReleaseWithoutPressIsIgnored` | components/Scene.tsx:193-197 | with the press time still at its initial 0, a release later than 200 emits nothing |
| `Scene.CreateBloodTextTexture` | components/Scene.tsx:23-89 | null exactly when no 2D context is available; otherwise a fresh, undisposed texture over the label canvas |
| `Scene.Texture.constructor` | components/Scene.tsx:87 | a new texture is not disposed |
| `Scene.Texture.Dispose` | components/Scene.tsx:265 | the texture is disposed afterwards |
| `Scene.DollScene.constructor` | components/Scene.tsx:13-20 | before setup no plaque or container exists, no map is bound and no listener is registered |
| `Scene.DollScene.Setup` | components/Scene.tsx:91-240 | without a mount element nothing changes; otherwise plaques and an empty pins container exist, no map is bound, the press time is 0, the drawing surface is attached and the three listeners are added |
| `Scene.DollScene.Teardown` | components/Scene.tsx:242-247 | removes exactly the mousedown, mouseup and resize listeners and detaches the drawing surface when the mount element exists |
| `Scene.DollScene.OnMouseDown` | components/Scene.tsx:195 | records the press time and changes nothing else |
| `Scene.DollScene.OnMouseUp` | components/Scene.tsx:196-222 | the proposed pin is `Pick` of the recorded press time and the release; no scene state changes |
| `Scene.DollScene.FaceEffect` | components/Scene.tsx:250-257 | a load starts exactly when the face plaque exists and the face source is present and non-empty, and it loads that source |
| `Scene.DollScene.OnFaceLoaded` | components/Scene.tsx:253-256 | the new texture becomes the face map and the material is marked for update; the previous face map is left undisposed; no bound texture is disposed |
| `Scene.DollScene.UpdateNameLabel` | components/Scene.tsx:259-270 | without the name plaque or a 2D context the map is untouched; otherwise the previous map, if any, is disposed, the new label texture is bound and marked for update, and no bound texture is ever disposed |
| `Scene.DollScene.RebuildPins` | components/Scene.tsx:272-301 | the removal loop empties the container, which then holds exactly one entity per pin, in the order of the pins; without a container nothing changes |
| `Scene.PinObjectShape` | components/Scene.tsx:279-299 | each pin entity sits at its pin's position, is aligned with its normal, and has two children: a cylinder shaft at y=0.325 and a sphere head at y=0.65 in the pin's colour |
| `Interaction.PinsGrowOncePerClick` | components/Scene.tsx:193-217 | over any stream of presses and releases fed through `App.AddPin`, the pin count grows by exactly one per quick release that hits the doll; existing pins stay in front; name and face are untouched |
| `Interaction.PrefixAgrees` | components/Scene.tsx:195-197 | helper fact about the reference definitions used by `PinsGrowOncePerClick`: the latest press time before event i and the count of pin-placing releases so far depend only on the first i events |

## Left out

- Geometry and floating point are opaque:
  - NDC conversion, raycasting and nearest-hit sorting (components/Scene.tsx:199-203);
    the hit list is an input.
  - The quaternion rotation of the normal (components/Scene.tsx:209) is the parameter
    `toWorld`.
  - The shortest-arc orientation of a pin entity (components/Scene.tsx:296-298) is
    recorded only as the normal the entity is aligned to.
- The construction of the camera, renderer, controls, lights, body meshes and plaque
  meshes (components/Scene.tsx:95-188) is library set-up without branches. It is
  represented only by the handles `Setup` makes available.
- The render loop and the resize handler (components/Scene.tsx:228-240) are frame
  scheduling and platform I/O. The resize listener appears only as a registration.
  Teardown does not cancel the animation frame, so no "loop stops" property is stated.
- Pixel content, colours, font, shadow and text alignment of the label canvas
  (components/Scene.tsx:33-45) are not modelled; only the command sequence is.
  `measureText` and `Math.random` are inputs.
- `BloodText.UpperCaseProperties`: `toUpperCase` is modelled on ASCII letters only; full
  Unicode case mapping, which can change the length, is left out.
- The pin colour is kept as its hue, saturation and lightness numbers; formatting the
  CSS `hsl(...)` string is left out.
- The pin id generator (`Math.random().toString(36).substr(2, 9)`) is an input string.
- The 100 ms scale pulse on the struck part (components/Scene.tsx:219-220) is a
  cosmetic timer that is never cancelled.
- Asynchronous texture loading (components/Scene.tsx:253) is modelled only through its
  completion callback `OnFaceLoaded`. A failed load is a callback that never runs.
- Pin entities are values, not objects. Object identity, parent links and the
  geometries and materials of removed entities (which the source does not dispose
  either) are not modelled.
- React's effect scheduling (which reaction runs after which state change, and how
  often) is not modelled. Each reaction is a method the caller invokes with the current
  snapshot.
- Mouse coordinates are not modelled: they matter only to the raycast.
- components/Controls.tsx is UI markup plus `FileReader` I/O. It only forwards values
  to the four handlers of the state container.
