/** The top-level state container (App.tsx): the initial doll state and the four
    functional update rules the handlers hand to the state setter. Every rule builds a new
    record from the previous one; none mutates anything. */
module App {
  import opened Types

  /** The state the container is created with. */
  const Initial: DollState := DollState("Unknown Victim", None, [])

  /** `handleNameChange`: only the name is replaced. */
  function NameChange(prev: DollState, name: string): (s: DollState)
    ensures s.name == name
    ensures s.faceImageUrl == prev.faceImageUrl && s.pins == prev.pins
  {
    prev.(name := name)
  }

  /** `handleFaceUpload`: the face source becomes present; name and pins are kept. */
  function FaceUpload(prev: DollState, url: string): (s: DollState)
    ensures s.faceImageUrl == Some(url)
    ensures s.name == prev.name && s.pins == prev.pins
  {
    prev.(faceImageUrl := Some(url))
  }

  /** `handleAddPin`: the pin list grows by exactly one, the old pins stay in front and the
      new pin is last. */
  function AddPin(prev: DollState, pin: PinData): (s: DollState)
    ensures |s.pins| == |prev.pins| + 1
    ensures s.pins[..|prev.pins|] == prev.pins && s.pins[|prev.pins|] == pin
    ensures s.name == prev.name && s.faceImageUrl == prev.faceImageUrl
  {
    prev.(pins := prev.pins + [pin])
  }

  /** `handleClearPins`: the pin list is emptied whatever its length; nothing else moves. */
  function ClearPins(prev: DollState): (s: DollState)
    ensures s.pins == []
    ensures s.name == prev.name && s.faceImageUrl == prev.faceImageUrl
  {
    prev.(pins := [])
  }

  /** Clearing twice is clearing once. */
  lemma ClearIdempotent(s: DollState)
    ensures ClearPins(ClearPins(s)) == ClearPins(s)
  {
  }

  /** The number the control panel shows as the pin count. */
  function PinCount(s: DollState): nat
  {
    |s.pins|
  }

  /** One call of a handler, as the state container sees it. */
  datatype Update =
    | SetName(name: string)
    | SetFace(url: string)
    | Pin(pin: PinData)
    | Clear

  /** The field of the snapshot an update writes. */
  datatype Field = NameField | FaceField | PinsField

  function Writes(u: Update): Field
  {
    match u
    case SetName(_) => NameField
    case SetFace(_) => FaceField
    case Pin(_) => PinsField
    case Clear => PinsField
  }

  function Apply(s: DollState, u: Update): DollState
  {
    match u
    case SetName(n) => NameChange(s, n)
    case SetFace(url) => FaceUpload(s, url)
    case Pin(p) => AddPin(s, p)
    case Clear => ClearPins(s)
  }

  /** The state after the updates of `us`, applied in order. */
  function ApplyAll(s: DollState, us: seq<Update>): DollState
    decreases |us|
  {
    if us == [] then s else Apply(ApplyAll(s, us[..|us| - 1]), us[|us| - 1])
  }

  /** Updates that write different fields can be applied in either order. */
  lemma DistinctFieldsCommute(s: DollState, u: Update, v: Update)
    requires Writes(u) != Writes(v)
    ensures Apply(Apply(s, u), v) == Apply(Apply(s, v), u)
  {
    match u
    case SetName(_) =>
    case SetFace(_) =>
    case Pin(_) =>
    case Clear =>
  }

  /** The pins carried by the `Pin` updates of `us`, in order. */
  function AddedPins(us: seq<Update>): seq<PinData>
    decreases |us|
  {
    if us == [] then []
    else AddedPins(us[..|us| - 1]) + (if us[|us| - 1].Pin? then [us[|us| - 1].pin] else [])
  }

  /** The index just past the most recent `Clear` of `us`, or 0 when there is none. */
  function LastClearEnd(us: seq<Update>): (k: nat)
    ensures k <= |us|
    ensures Clear !in us[k..]
    ensures k > 0 ==> us[k - 1] == Clear
    decreases |us|
  {
    if us == [] then 0
    else if us[|us| - 1] == Clear then |us|
    else
      var k := LastClearEnd(us[..|us| - 1]);
      assert us[k..] == us[..|us| - 1][k..] + [us[|us| - 1]];
      k
  }

  /** Without a clear, the updates only append: the old pins are followed by the added ones. */
  lemma {:induction false} PinsWithoutClear(s: DollState, us: seq<Update>)
    requires Clear !in us
    ensures ApplyAll(s, us).pins == s.pins + AddedPins(us)
    decreases |us|
  {
    if us != [] {
      var init := us[..|us| - 1];
      assert Clear !in init by {
        forall i | 0 <= i < |init| ensures init[i] != Clear {
          assert init[i] == us[i];
        }
      }
      PinsWithoutClear(s, init);
    }
  }

  /** After the most recent clear (at index `k`), the pins are exactly those added since,
      in order, whatever the state was before. */
  lemma {:induction false} PinsAfterLastClear(s: DollState, us: seq<Update>, k: nat)
    requires k < |us| && us[k] == Clear && Clear !in us[k + 1..]
    ensures ApplyAll(s, us).pins == AddedPins(us[k + 1..])
    decreases |us|
  {
    var last := |us| - 1;
    var init := us[..last];
    if k == last {
      assert us[k + 1..] == [];
    } else {
      assert us[last] in us[k + 1..];
      assert us[k + 1..] == init[k + 1..] + [us[last]];
      assert Clear !in init[k + 1..];
      PinsAfterLastClear(s, init, k);
      assert us[k + 1..][..|us[k + 1..]| - 1] == init[k + 1..];
    }
  }

  /** The pin count the panel shows follows every update: one more after a pin is added,
      zero after a clear, and unchanged by a name or face update. */
  lemma PinCountAfterUpdate(s: DollState, u: Update)
    ensures u.Pin? ==> PinCount(Apply(s, u)) == PinCount(s) + 1
    ensures u.Clear? ==> PinCount(Apply(s, u)) == 0
    ensures Writes(u) != PinsField ==> PinCount(Apply(s, u)) == PinCount(s)
  {
    match u
    case SetName(_) =>
    case SetFace(_) =>
    case Pin(_) =>
    case Clear =>
  }

  /** Updates other than `SetName` leave the name as it was. */
  lemma {:induction false} NameKeptWithoutSetName(s: DollState, us: seq<Update>)
    requires forall i :: 0 <= i < |us| ==> !us[i].SetName?
    ensures ApplyAll(s, us).name == s.name
    decreases |us|
  {
    if us != [] {
      NameKeptWithoutSetName(s, us[..|us| - 1]);
    }
  }

  /** Updates other than `SetFace` leave the face source as it was. */
  lemma {:induction false} FaceKeptWithoutSetFace(s: DollState, us: seq<Update>)
    requires forall i :: 0 <= i < |us| ==> !us[i].SetFace?
    ensures ApplyAll(s, us).faceImageUrl == s.faceImageUrl
    decreases |us|
  {
    if us != [] {
      FaceKeptWithoutSetFace(s, us[..|us| - 1]);
    }
  }

  /** From the initial state, after any updates: the name reads "Unknown Victim" until a
      name is set, the face stays absent until one is uploaded, and the pins, and so the
      pin count the panel shows, are the pins added since the most recent clear, in order. */
  lemma FromInitial(us: seq<Update>)
    ensures (forall i :: 0 <= i < |us| ==> !us[i].SetName?) ==>
      ApplyAll(Initial, us).name == "Unknown Victim"
    ensures (forall i :: 0 <= i < |us| ==> !us[i].SetFace?) ==>
      ApplyAll(Initial, us).faceImageUrl == None
    ensures ApplyAll(Initial, us).pins == AddedPins(us[LastClearEnd(us)..])
    ensures PinCount(ApplyAll(Initial, us)) == |AddedPins(us[LastClearEnd(us)..])|
  {
    if forall i :: 0 <= i < |us| ==> !us[i].SetName? {
      NameKeptWithoutSetName(Initial, us);
    }
    if forall i :: 0 <= i < |us| ==> !us[i].SetFace? {
      FaceKeptWithoutSetFace(Initial, us);
    }
    var k := LastClearEnd(us);
    if k == 0 {
      assert us[k..] == us;
      PinsWithoutClear(Initial, us);
    } else {
      PinsAfterLastClear(Initial, us, k - 1);
    }
  }
}
