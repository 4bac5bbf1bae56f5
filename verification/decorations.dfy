/**
  The decorative balloon and sparkle layers (`initBalloons`, `initSparkles`,
  `handleResize`), reduced to their deterministic part: how many children a
  layer gets, that earlier children are discarded, and which palette colour
  each balloon takes. Each child's random styling is an opaque draw of type
  `D`, supplied per index by `draw`.
 */
module Decorations {

  /** Viewports narrower than this get the smaller layers. */
  const NarrowBelow: int := 640

  /** The balloon colours, in the order they are handed out. */
  const Palette: seq<string> := ["rgba(62, 141, 205, 1)", "rgba(92, 167, 225, 0.91)", "rgba(130, 197, 235, 0.93)"]

  /** A child of a decorative layer. */
  datatype Decoration<D> = Balloon(color: string, draw: D) | Sparkle(draw: D)

  function BalloonCount(width: int): nat {
    if width < NarrowBelow then 8 else 14
  }

  function SparkleCount(width: int): nat {
    if width < NarrowBelow then 46 else 78
  }

  /** Balloon `i` carries colour `i mod 3` of the palette and its own draw. */
  ghost predicate ColoursCycle<D>(layer: seq<Decoration<D>>, draw: nat -> D) {
    forall i :: 0 <= i < |layer| ==> layer[i] == Balloon(Palette[i % |Palette|], draw(i))
  }

  /**
    `initBalloons`: the layer is emptied, then refilled with exactly the
    width-dependent number of balloons, balloon `i` coloured `palette[i % 3]`.
    The old children are never read: `innerHTML = ""` discards them all.
   */
  function InitBalloons<D>(layer: seq<Decoration<D>>, width: int, draw: nat -> D): (r: seq<Decoration<D>>)
    ensures |r| == BalloonCount(width)
    ensures ColoursCycle(r, draw)
  {
    seq(BalloonCount(width), (i: nat) => Balloon(Palette[i % |Palette|], draw(i)))
  }

  /**
    `initSparkles`: the layer is emptied, then refilled with exactly the
    width-dependent number of sparkles, sparkle `i` carrying draw `i`.
    The old children are never read: `innerHTML = ""` discards them all.
   */
  function InitSparkles<D>(layer: seq<Decoration<D>>, width: int, draw: nat -> D): (r: seq<Decoration<D>>)
    ensures |r| == SparkleCount(width)
    ensures forall i :: 0 <= i < |r| ==> r[i] == Sparkle(draw(i))
  {
    seq(SparkleCount(width), (i: nat) => Sparkle(draw(i)))
  }

  /** Regenerating a layer does not depend on what it held: children are replaced, never appended. */
  lemma RegenerationReplaces<D>(old1: seq<Decoration<D>>, old2: seq<Decoration<D>>, width: int, draw: nat -> D)
    ensures InitBalloons(old1, width, draw) == InitBalloons(old2, width, draw)
    ensures InitSparkles(old1, width, draw) == InitSparkles(old2, width, draw)
  {
  }

  /** Both decorative layers. */
  datatype Layers<D> = Layers(balloons: seq<Decoration<D>>, sparkles: seq<Decoration<D>>)

  /**
    `handleResize`: both layers are regenerated for the new width, so a narrow
    viewport ends with 8 balloons and 46 sparkles and a wide one with 14 and
    78, however many children the layers held before.
   */
  function HandleResize<D>(layers: Layers<D>, width: int, balloonDraw: nat -> D, sparkleDraw: nat -> D): (r: Layers<D>)
    ensures width < 640 ==> |r.balloons| == 8 && |r.sparkles| == 46
    ensures width >= 640 ==> |r.balloons| == 14 && |r.sparkles| == 78
    ensures ColoursCycle(r.balloons, balloonDraw)
    ensures forall i :: 0 <= i < |r.sparkles| ==> r.sparkles[i] == Sparkle(sparkleDraw(i))
  {
    Layers(InitBalloons(layers.balloons, width, balloonDraw), InitSparkles(layers.sparkles, width, sparkleDraw))
  }

  /**
    Balloons with cycling colours repeat every three, and no two neighbours
    share a colour; a layer of three or more shows the whole palette.
   */
  lemma PaletteCycles<D>(layer: seq<Decoration<D>>, draw: nat -> D)
    requires ColoursCycle(layer, draw)
    ensures forall i :: 0 <= i < |layer| - 3 ==> layer[i + 3].color == layer[i].color
    ensures forall i :: 0 <= i < |layer| - 1 ==> layer[i + 1].color != layer[i].color
    ensures |layer| >= 3 ==> forall c :: c in Palette ==> exists i :: 0 <= i < |layer| && layer[i].color == c
  {
    if |layer| >= 3 {
      assert layer[0].color == Palette[0] && layer[1].color == Palette[1] && layer[2].color == Palette[2];
    }
  }
}
