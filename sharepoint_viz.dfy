/**
 * `SharePointViz` (src/components/ProjectAnimations.jsx): a 2×2 grid of dashboard tiles laid
 * out by `init` with 20-pixel padding, and a frame counter. The content animation inside each
 * tile is drawing only.
 */
module SharePointViz {

  const Pad: real := 20.0

  datatype TileKind = Graph | List | Text | Pie

  /** One dashboard tile, with its header colour. */
  datatype Tile = Tile(x: real, y: real, w: real, h: real, kind: TileKind, color: string)

  /** Tile width and height for a canvas of `size` pixels: `(size - pad * 3) / 2`. */
  function Cell(size: nat): real {
    (size as real - Pad * 3.0) / 2.0
  }

  /** The tiles `init` pushes: none unless both cell sizes are positive, else four in a 2×2 grid. */
  function Layout(width: nat, height: nat): seq<Tile> {
    var w := Cell(width);
    var h := Cell(height);
    if w > 0.0 && h > 0.0 then
      [ Tile(Pad, Pad, w, h, Graph, "#0078d4"),
        Tile(w + Pad * 2.0, Pad, w, h, List, "#fff"),
        Tile(Pad, h + Pad * 2.0, w, h, Text, "#fff"),
        Tile(w + Pad * 2.0, h + Pad * 2.0, w, h, Pie, "#f3f2f1") ]
    else []
  }

  /** The layout is empty exactly for canvases at most 60 pixels wide or high, and has four tiles otherwise. */
  lemma LayoutSize(width: nat, height: nat)
    ensures Layout(width, height) == [] <==> width <= 60 || height <= 60
    ensures width > 60 && height > 60 ==> |Layout(width, height)| == 4
  {
  }

  /** The four tiles come in the order graph, list, text, pie, all of the same size. */
  lemma LayoutOrder(width: nat, height: nat)
    requires width > 60 && height > 60
    ensures var t := Layout(width, height);
      && |t| == 4
      && t[0].kind == Graph && t[1].kind == List && t[2].kind == Text && t[3].kind == Pie
      && forall i | 0 <= i < 4 :: t[i].w == Cell(width) && t[i].h == Cell(height)
  {
  }

  /** A tile lies inside the canvas with a margin of 20 pixels on every side. */
  predicate InsideMargins(t: Tile, width: nat, height: nat) {
    && t.x >= Pad && t.y >= Pad
    && t.x + t.w <= width as real - Pad && t.y + t.h <= height as real - Pad
  }

  /** Two tiles are apart by at least the 20-pixel gutter, horizontally or vertically. */
  predicate Apart(a: Tile, b: Tile) {
    a.x + a.w + Pad <= b.x || b.x + b.w + Pad <= a.x || a.y + a.h + Pad <= b.y || b.y + b.h + Pad <= a.y
  }

  /**
   * Every tile sits inside the 20-pixel margins, the right column ends exactly 20 pixels from
   * the right edge and the bottom row 20 pixels from the bottom, and any two tiles are separated
   * by the 20-pixel gutter, so none overlap.
   */
  lemma LayoutGeometry(width: nat, height: nat)
    ensures var t := Layout(width, height);
      && (forall i | 0 <= i < |t| :: InsideMargins(t[i], width, height))
      && (|t| == 4 ==> t[1].x + t[1].w == width as real - Pad && t[2].y + t[2].h == height as real - Pad)
      && (forall i, j | 0 <= i < j < |t| :: Apart(t[i], t[j]))
  {
  }

  /** One mounted `SharePointViz`. */
  class Scene {
    var width: nat
    var height: nat
    var modules: seq<Tile>
    var tick: int

    constructor (width: nat, height: nat)
      ensures this.width == width && this.height == height
      ensures modules == Layout(width, height) && tick == 0
    {
      this.width := 0;
      this.height := 0;
      modules := [];
      tick := 0;
      new;
      Init(width, height);
    }

    /** `init` (also the resize handler): empty the tile list, then push the layout for the new size. */
    method Init(w: nat, h: nat)
      modifies this
      ensures width == w && height == h && modules == Layout(w, h) && tick == old(tick)
    {
      width := w;
      height := h;
      var cw := (w as real - Pad * 3.0) / 2.0;
      var ch := (h as real - Pad * 3.0) / 2.0;
      modules := [];
      if cw > 0.0 && ch > 0.0 {
        modules := modules + [Tile(Pad, Pad, cw, ch, Graph, "#0078d4")];
        modules := modules + [Tile(cw + Pad * 2.0, Pad, cw, ch, List, "#fff")];
        modules := modules + [Tile(Pad, ch + Pad * 2.0, cw, ch, Text, "#fff")];
        modules := modules + [Tile(cw + Pad * 2.0, ch + Pad * 2.0, cw, ch, Pie, "#f3f2f1")];
      }
    }

    /** One frame: `tick++`; the tiles are only drawn. */
    method Frame()
      modifies this
      ensures tick == old(tick) + 1
      ensures modules == old(modules) && width == old(width) && height == old(height)
    {
      tick := tick + 1;
    }
  }
}
