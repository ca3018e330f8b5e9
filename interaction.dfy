/** The loop between the viewport and the state container: pointer presses and releases
    go to the pick protocol (components/Scene.tsx), and every pin it proposes is appended by
    `handleAddPin` (App.tsx). */
module Interaction {
  import opened Types
  import App
  import Scene

  /** A press, or a release with the hit list the raycaster reports for it and the random
      values the source would draw for a new pin. */
  datatype PointerEvent =
    | Press(time: int)
    | Release(time: int, hits: seq<Scene.Hit>, id: string, hueDraw: real)

  /** What persists between events: the recorded press time and the doll state. */
  datatype Session = Session(pressTime: int, doll: DollState)

  function Step(s: Session, e: PointerEvent, toWorld: (string, Vec3) -> Vec3): Session
  {
    match e
    case Press(t) => s.(pressTime := t)
    case Release(t, hits, id, hue) =>
      match Scene.Pick(s.pressTime, t, hits, id, hue, toWorld)
      case None => s
      case Some(pin) => s.(doll := App.AddPin(s.doll, pin))
  }

  /** The session after the events of `events`, handled in order. */
  function Run(s: Session, events: seq<PointerEvent>, toWorld: (string, Vec3) -> Vec3): Session
    decreases |events|
  {
    if events == [] then s
    else Step(Run(s, events[..|events| - 1], toWorld), events[|events| - 1], toWorld)
  }

  /** The press time in force before event `i`: that of the latest press among the first
      `i` events, or `initial` when there is none. */
  function PressTimeBefore(events: seq<PointerEvent>, i: nat, initial: int): int
    requires i <= |events|
  {
    if i == 0 then initial
    else if events[i - 1].Press? then events[i - 1].time
    else PressTimeBefore(events, i - 1, initial)
  }

  /** Event `i` is a release that hits the doll soon enough after the press in force. */
  predicate PlacesPin(events: seq<PointerEvent>, i: nat, initial: int)
    requires i < |events|
  {
    && events[i].Release?
    && |events[i].hits| > 0
    && Scene.IsQuickRelease(PressTimeBefore(events, i, initial), events[i].time)
  }

  /** How many of the first `n` events place a pin. */
  function CountPlacing(events: seq<PointerEvent>, n: nat, initial: int): nat
    requires n <= |events|
  {
    if n == 0 then 0
    else CountPlacing(events, n - 1, initial) + (if PlacesPin(events, n - 1, initial) then 1 else 0)
  }

  /** Adding events at the end does not change what the earlier ones count for. */
  lemma {:induction false} PrefixAgrees(events: seq<PointerEvent>, m: nat, i: nat, initial: int)
    requires i <= m <= |events|
    ensures PressTimeBefore(events[..m], i, initial) == PressTimeBefore(events, i, initial)
    ensures CountPlacing(events[..m], i, initial) == CountPlacing(events, i, initial)
  {
    if i > 0 {
      PrefixAgrees(events, m, i - 1, initial);
      assert events[..m][i - 1] == events[i - 1];
    }
  }

  /** Over any stream of presses and releases, the pin list grows by exactly one for each
      release that is quick and hits the doll, and by nothing for every other event; the
      pins already there stay in front, and name and face are untouched. */
  lemma {:induction false} PinsGrowOncePerClick(s: Session, events: seq<PointerEvent>,
                                                toWorld: (string, Vec3) -> Vec3)
    ensures |Run(s, events, toWorld).doll.pins| == |s.doll.pins| + CountPlacing(events, |events|, s.pressTime)
    ensures Run(s, events, toWorld).doll.pins[..|s.doll.pins|] == s.doll.pins
    ensures Run(s, events, toWorld).doll.name == s.doll.name
    ensures Run(s, events, toWorld).doll.faceImageUrl == s.doll.faceImageUrl
    ensures Run(s, events, toWorld).pressTime == PressTimeBefore(events, |events|, s.pressTime)
    decreases |events|
  {
    if events != [] {
      var n := |events| - 1;
      var init := events[..n];
      PinsGrowOncePerClick(s, init, toWorld);
      PrefixAgrees(events, n, n, s.pressTime);
      var mid := Run(s, init, toWorld);
      assert mid.doll.pins[..|s.doll.pins|] == s.doll.pins;
      var after := Step(mid, events[n], toWorld);
      assert after.doll.pins[..|mid.doll.pins|] == mid.doll.pins;
      assert after.doll.pins[..|s.doll.pins|] == mid.doll.pins[..|s.doll.pins|];
    }
  }
}
