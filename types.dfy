/** The value types shared by the state container and the scene: a pin record and the
    doll's state snapshot (types.ts). World-space vectors are kept as opaque triples of
    reals; nothing here depends on their geometry. */
module Types {

  datatype Option<+T> = None | Some(value: T)

  /** A world-space 3-vector, the `[number, number, number]` tuple of the source. */
  datatype Vec3 = Vec3(x: real, y: real, z: real)

  /** The pin colour `hsl(<hue>, <saturation>%, <lightness>%)`, kept as its three numbers
      rather than as the CSS text. */
  datatype Color = Hsl(hue: real, saturation: nat, lightness: nat)

  datatype PinData = PinData(
    id: string,
    position: Vec3,
    normal: Vec3,
    color: Color,
    targetName: string)

  /** The immutable snapshot the state container owns; `faceImageUrl` is absent (`null`)
      until a face is uploaded. */
  datatype DollState = DollState(
    name: string,
    faceImageUrl: Option<string>,
    pins: seq<PinData>)
}
