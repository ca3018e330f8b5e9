/** The procedural "blood label" synthesiser (`createBloodTextTexture`, components/Scene.tsx).
    The canvas is modelled by the sequence of draw commands issued on its 2D context, not by
    its pixels; font metrics and `Math.random` are inputs: `textWidth` is what `measureText`
    reports for the upper-cased text, and `random` holds the values `Math.random` returns, in
    the order the source draws them. */
module BloodText {
  import opened Types

  const CanvasWidth: nat := 512
  const CanvasHeight: nat := 256
  const DripCount: nat := 25
  const SplatterCount: nat := 20

  /** Random draws per drip (x, length, thickness) and per splatter (x, y, radius). */
  const DrawsPerShape: nat := 3
  const RandomDraws: nat := (DripCount + SplatterCount) * DrawsPerShape

  /** The anchor the text is centred on and the drips hang from. */
  const CenterX: real := 256.0
  const CenterY: real := 256.0 / 3.0

  /** The drop at a drip's tail has this many times the stroke's width as its radius. */
  const DropScale: real := 1.3

  datatype DrawCommand =
    | ClearRect(width: nat, height: nat)
    | StrokeLine(x: real, fromY: real, toY: real, lineWidth: real)
    | FillArc(cx: real, cy: real, radius: real)
    | FillText(text: string, x: real, y: real)

  datatype Canvas = Canvas(width: nat, height: nat, commands: seq<DrawCommand>)

  /** What `Math.random` can return. */
  predicate IsDraw(r: real)
  {
    0.0 <= r < 1.0
  }

  predicate ValidDraws(random: seq<real>)
  {
    |random| == RandomDraws && forall i :: 0 <= i < |random| ==> IsDraw(random[i])
  }

  /** `toUpperCase` on the ASCII letters. */
  function UpperChar(c: char): char
  {
    if 'a' <= c <= 'z' then (c as int - 32) as char else c
  }

  function UpperCase(s: string): string
  {
    seq(|s|, i requires 0 <= i < |s| => UpperChar(s[i]))
  }

  /** Upper-casing keeps the length, leaves no lower-case ASCII letter, and changes
      nothing a second time. */
  lemma UpperCaseProperties(s: string)
    ensures |UpperCase(s)| == |s|
    ensures forall i :: 0 <= i < |s| ==> !('a' <= UpperCase(s)[i] <= 'z')
    ensures UpperCase(UpperCase(s)) == UpperCase(s)
  {
  }

  /** The left edge of the upper-cased text once centred on `CenterX`. */
  function StartX(textWidth: real): real
  {
    CenterX - textWidth / 2.0
  }

  /** The two commands of drip `i`: a vertical stroke down from the anchor line and the drop
      at its tail. */
  function Drip(i: nat, textWidth: real, random: seq<real>): seq<DrawCommand>
    requires ValidDraws(random) && i < DripCount
  {
    var x := StartX(textWidth) + random[DrawsPerShape * i] * textWidth;
    var length := 15.0 + random[DrawsPerShape * i + 1] * 90.0;
    var thickness := 2.0 + random[DrawsPerShape * i + 2] * 5.0;
    [StrokeLine(x, CenterY, CenterY + length, thickness),
     FillArc(x, CenterY + length, thickness * DropScale)]
  }

  /** The commands of the first `n` drips. */
  function Drips(n: nat, textWidth: real, random: seq<real>): seq<DrawCommand>
    requires ValidDraws(random) && n <= DripCount
  {
    if n == 0 then [] else Drips(n - 1, textWidth, random) + Drip(n - 1, textWidth, random)
  }

  /** Splatter `j`: a small filled circle anywhere on the canvas. */
  function Splatter(j: nat, random: seq<real>): DrawCommand
    requires ValidDraws(random) && j < SplatterCount
  {
    var k := DrawsPerShape * (DripCount + j);
    FillArc(random[k] * CanvasWidth as real, random[k + 1] * CanvasHeight as real, random[k + 2] * 4.0)
  }

  /** The first `n` splatters. */
  function Splatters(n: nat, random: seq<real>): seq<DrawCommand>
    requires ValidDraws(random) && n <= SplatterCount
  {
    if n == 0 then [] else Splatters(n - 1, random) + [Splatter(n - 1, random)]
  }

  /** Everything drawn on the canvas, in order: clear, the drips, the text, the splatters. */
  function BloodTextCommands(text: string, textWidth: real, random: seq<real>): seq<DrawCommand>
    requires ValidDraws(random)
  {
    [ClearRect(CanvasWidth, CanvasHeight)]
    + Drips(DripCount, textWidth, random)
    + [FillText(UpperCase(text), CenterX, CenterY)]
    + Splatters(SplatterCount, random)
  }

  /** Draws the label onto a fresh 512x256 canvas; without a 2D context there is nothing to
      draw on and the result is absent. */
  method PaintBloodText(text: string, hasContext: bool, textWidth: real, random: seq<real>)
    returns (canvas: Option<Canvas>)
    requires ValidDraws(random)
    ensures canvas.None? <==> !hasContext
    ensures canvas.Some? ==>
      canvas.value == Canvas(CanvasWidth, CanvasHeight, BloodTextCommands(text, textWidth, random))
  {
    if !hasContext {
      return None;
    }
    var commands := [ClearRect(CanvasWidth, CanvasHeight)];
    var upperText := UpperCase(text);
    var startX := CenterX - textWidth / 2.0;

    for i := 0 to DripCount
      invariant commands == [ClearRect(CanvasWidth, CanvasHeight)] + Drips(i, textWidth, random)
    {
      var x := startX + random[DrawsPerShape * i] * textWidth;
      var length := 15.0 + random[DrawsPerShape * i + 1] * 90.0;
      var thickness := 2.0 + random[DrawsPerShape * i + 2] * 5.0;
      commands := commands + [StrokeLine(x, CenterY, CenterY + length, thickness)];
      commands := commands + [FillArc(x, CenterY + length, thickness * DropScale)];
    }

    commands := commands + [FillText(upperText, CenterX, CenterY)];
    ghost var head := commands;

    for j := 0 to SplatterCount
      invariant commands == head + Splatters(j, random)
    {
      var k := DrawsPerShape * (DripCount + j);
      var sx := random[k] * CanvasWidth as real;
      var sy := random[k + 1] * CanvasHeight as real;
      commands := commands + [FillArc(sx, sy, random[k + 2] * 4.0)];
    }
    canvas := Some(Canvas(CanvasWidth, CanvasHeight, commands));
  }

  // ---- the structure of the label ----

  /** A drip stroke for a text of width `textWidth`: it starts on the anchor line at an x
      inside the text's horizontal extent, is 15 to 105 long and 2 to 7 thick. */
  predicate IsDripStroke(c: DrawCommand, textWidth: real)
  {
    && c.StrokeLine?
    && StartX(textWidth) <= c.x <= StartX(textWidth) + textWidth
    && (textWidth > 0.0 ==> c.x < StartX(textWidth) + textWidth)
    && c.fromY == CenterY
    && 15.0 <= c.toY - c.fromY < 105.0
    && 2.0 <= c.lineWidth < 7.0
  }

  /** The drop that belongs at the tail of a stroke. */
  function DropAfter(c: DrawCommand): DrawCommand
    requires c.StrokeLine?
  {
    FillArc(c.x, c.toY, c.lineWidth * DropScale)
  }

  /** Commands `1 + 2i` and `2 + 2i` are drip `i`'s stroke and its drop. */
  predicate DripPairAt(cmds: seq<DrawCommand>, i: nat, textWidth: real)
  {
    && 2 + 2 * i < |cmds|
    && IsDripStroke(cmds[1 + 2 * i], textWidth)
    && cmds[2 + 2 * i] == DropAfter(cmds[1 + 2 * i])
  }

  /** A splatter: a circle of radius below 4 centred on the canvas. */
  predicate IsSplatter(c: DrawCommand)
  {
    && c.FillArc?
    && 0.0 <= c.cx < CanvasWidth as real
    && 0.0 <= c.cy < CanvasHeight as real
    && 0.0 <= c.radius < 4.0
  }

  predicate SplatterAt(cmds: seq<DrawCommand>, j: nat)
  {
    2 + 2 * DripCount + j < |cmds| && IsSplatter(cmds[2 + 2 * DripCount + j])
  }

  lemma ScaledBelow(r: real, w: real)
    requires IsDraw(r) && w >= 0.0
    ensures 0.0 <= r * w <= w
    ensures w > 0.0 ==> r * w < w
  {
  }

  lemma DripIsWellFormed(i: nat, textWidth: real, random: seq<real>)
    requires ValidDraws(random) && i < DripCount && textWidth >= 0.0
    ensures IsDripStroke(Drip(i, textWidth, random)[0], textWidth)
    ensures Drip(i, textWidth, random)[1] == DropAfter(Drip(i, textWidth, random)[0])
  {
    ScaledBelow(random[DrawsPerShape * i], textWidth);
  }

  lemma {:induction false} DripsShape(n: nat, textWidth: real, random: seq<real>)
    requires ValidDraws(random) && n <= DripCount && textWidth >= 0.0
    ensures |Drips(n, textWidth, random)| == 2 * n
    ensures forall i :: 0 <= i < n ==> DripPairAt([ClearRect(CanvasWidth, CanvasHeight)] + Drips(n, textWidth, random), i, textWidth)
  {
    if n > 0 {
      DripsShape(n - 1, textWidth, random);
      DripIsWellFormed(n - 1, textWidth, random);
      var prev := [ClearRect(CanvasWidth, CanvasHeight)] + Drips(n - 1, textWidth, random);
      var cur := [ClearRect(CanvasWidth, CanvasHeight)] + Drips(n, textWidth, random);
      assert cur == prev + Drip(n - 1, textWidth, random);
      forall i | 0 <= i < n ensures DripPairAt(cur, i, textWidth) {
        if i < n - 1 {
          assert DripPairAt(prev, i, textWidth);
          assert cur[1 + 2 * i] == prev[1 + 2 * i] && cur[2 + 2 * i] == prev[2 + 2 * i];
        } else {
          assert cur[1 + 2 * i] == Drip(n - 1, textWidth, random)[0];
          assert cur[2 + 2 * i] == Drip(n - 1, textWidth, random)[1];
        }
      }
    }
  }

  lemma {:induction false} SplattersShape(n: nat, random: seq<real>)
    requires ValidDraws(random) && n <= SplatterCount
    ensures |Splatters(n, random)| == n
    ensures forall j :: 0 <= j < n ==> IsSplatter(Splatters(n, random)[j])
  {
    if n > 0 {
      SplattersShape(n - 1, random);
      var k := DrawsPerShape * (DripCount + n - 1);
      ScaledBelow(random[k], CanvasWidth as real);
      ScaledBelow(random[k + 1], CanvasHeight as real);
      ScaledBelow(random[k + 2], 4.0);
      assert IsSplatter(Splatter(n - 1, random));
    }
  }

  /** The label always has the same structure whatever the random draws: a clear, 25 drips
      each made of a stroke within the text's extent followed by its drop, one `fillText` of
      the upper-cased text at the anchor, and 20 splatters on the canvas. */
  lemma BloodTextLayout(text: string, textWidth: real, random: seq<real>)
    requires ValidDraws(random) && textWidth >= 0.0
    ensures var cmds := BloodTextCommands(text, textWidth, random);
      && |cmds| == 2 + 2 * DripCount + SplatterCount
      && cmds[0] == ClearRect(CanvasWidth, CanvasHeight)
      && (forall i :: 0 <= i < DripCount ==> DripPairAt(cmds, i, textWidth))
      && cmds[1 + 2 * DripCount] == FillText(UpperCase(text), CenterX, CenterY)
      && (forall j :: 0 <= j < SplatterCount ==> SplatterAt(cmds, j))
  {
    var front := [ClearRect(CanvasWidth, CanvasHeight)] + Drips(DripCount, textWidth, random);
    var tail := [FillText(UpperCase(text), CenterX, CenterY)] + Splatters(SplatterCount, random);
    var cmds := BloodTextCommands(text, textWidth, random);
    assert cmds == front + tail;
    DripsShape(DripCount, textWidth, random);
    SplattersShape(SplatterCount, random);
    forall i | 0 <= i < DripCount ensures DripPairAt(cmds, i, textWidth) {
      assert DripPairAt(front, i, textWidth);
      assert cmds[1 + 2 * i] == front[1 + 2 * i] && cmds[2 + 2 * i] == front[2 + 2 * i];
    }
    forall j | 0 <= j < SplatterCount ensures SplatterAt(cmds, j) {
      assert cmds[2 + 2 * DripCount + j] == Splatters(SplatterCount, random)[j];
    }
  }
}
