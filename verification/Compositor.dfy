/** FfmpegCompositorService: layouts compiled to filter graphs, and SrsService's choice of inputs for them. */
module Compositor {
  import opened Wrappers
  import opened FilterGraph

  datatype Region = Region(sourceIndex: int, x: real, y: real, width: real, height: real, zIndex: real)

  datatype Preset = Full | Pip | SplitH | SplitV | TripleH | Grid4 | Studio | Custom | Other

  datatype Layout = Layout(preset: Preset, outputWidth: Option<int>, outputHeight: Option<int>,
                           regions: Option<seq<Region>>)

  const DEFAULT_W := 1920
  const DEFAULT_H := 1080

  /** JavaScript's Math.round: halves go up. */
  function Round(r: real): int {
    (r + 0.5).Floor
  }

  /** The rectangle a normalised region takes on a W by H output. */
  function TileOf(r: Region, W: int, H: int): Tile {
    Tile(r.sourceIndex, Round(r.x * W as real), Round(r.y * H as real),
         Round(r.width * W as real), Round(r.height * H as real))
  }

  /** The nearest integer; of two equally near ones the greater. */
  predicate Nearest(i: int, r: real) {
    -0.5 < i as real - r <= 0.5
  }

  /** The tile shows the region's source, and each side of it lies within half a pixel of the region's. */
  lemma TileIsNearest(r: Region, W: int, H: int)
    ensures var t := TileOf(r, W, H);
            && t.source == r.sourceIndex
            && Nearest(t.x, r.x * W as real) && Nearest(t.y, r.y * H as real)
            && Nearest(t.w, r.width * W as real) && Nearest(t.h, r.height * H as real)
  {
  }

  /** The corners of a region on a W by H output. */
  function Left(r: Region, W: int): real { r.x * W as real }
  function Top(r: Region, H: int): real { r.y * H as real }
  function Right(r: Region, W: int): real { r.x * W as real + r.width * W as real }
  function Bottom(r: Region, H: int): real { r.y * H as real + r.height * H as real }

  /** Points inside a region are covered and points outside are not, but for a seam of one pixel at most. */
  lemma TileCoversRegion(r: Region, W: int, H: int, px: int, py: int)
    ensures Left(r, W) + 0.5 <= px as real < Right(r, W) - 1.0 && Top(r, H) + 0.5 <= py as real < Bottom(r, H) - 1.0
            ==> TileOf(r, W, H).Covers(px, py)
    ensures px as real <= Left(r, W) - 0.5 || px as real >= Right(r, W) + 1.0
            || py as real <= Top(r, H) - 0.5 || py as real >= Bottom(r, H) + 1.0
            ==> !TileOf(r, W, H).Covers(px, py)
  {
    TileIsNearest(r, W, H);
  }

  // ---------------------------------------------------------------- what a custom layout means

  /** Region i is drawn below region j: lower zIndex, or the same zIndex and earlier in the list. */
  predicate Below(regions: seq<Region>, i: nat, j: nat)
    requires i < |regions| && j < |regions|
  {
    regions[i].zIndex < regions[j].zIndex || (regions[i].zIndex == regions[j].zIndex && i < j)
  }

  /** The topmost of the first n regions that cover a point, found without sorting. */
  function TopRegion(regions: seq<Region>, W: int, H: int, n: nat, px: int, py: int): (top: Option<nat>)
    requires n <= |regions|
    ensures top.None? <==> forall i :: 0 <= i < n ==> !TileOf(regions[i], W, H).Covers(px, py)
    ensures top.Some? ==>
      && top.value < n && TileOf(regions[top.value], W, H).Covers(px, py)
      && forall i :: 0 <= i < n && i != top.value && TileOf(regions[i], W, H).Covers(px, py)
           ==> Below(regions, i, top.value)
  {
    if n == 0 then None
    else
      var best := TopRegion(regions, W, H, n - 1, px, py);
      if TileOf(regions[n - 1], W, H).Covers(px, py)
         && (best.None? || regions[best.value].zIndex <= regions[n - 1].zIndex)
      then Some(n - 1) else best
  }

  function LayoutPixel(regions: seq<Region>, W: int, H: int, px: int, py: int): Pixel {
    match TopRegion(regions, W, H, |regions|, px, py)
    case None => Black
    case Some(i) => TileOf(regions[i], W, H).At(px, py)
  }

  // ---------------------------------------------------------------- the stable sort by zIndex

  ghost predicate IsOrderOf(regions: seq<Region>, n: nat, order: seq<nat>)
    requires n <= |regions|
  {
    |order| == n && Ascending(regions, order) && forall i: nat :: i in order <==> i < n
  }

  predicate Ascending(regions: seq<Region>, order: seq<nat>) {
    && (forall k :: 0 <= k < |order| ==> order[k] < |regions|)
    && (forall a, b :: 0 <= a < b < |order| ==> Below(regions, order[a], order[b]))
  }

  function Insert(regions: seq<Region>, order: seq<nat>, i: nat): (r: seq<nat>)
    requires i < |regions| && Ascending(regions, order)
    requires forall k :: 0 <= k < |order| ==> order[k] < i
    ensures |r| == |order| + 1 && Ascending(regions, r)
    ensures forall j :: j in r <==> j in order || j == i
  {
    if order == [] || regions[order[|order| - 1]].zIndex <= regions[i].zIndex then order + [i]
    else
      var front, last := order[..|order| - 1], order[|order| - 1];
      var r := Insert(regions, front, i);
      assert forall a :: 0 <= a < |r| ==> r[a] in front || r[a] == i;
      r + [last]
  }

  /** Array.prototype.sort by zIndex, which is stable, as positions in the original list. */
  function ZOrder(regions: seq<Region>, n: nat): (order: seq<nat>)
    requires n <= |regions|
    ensures IsOrderOf(regions, n, order)
  {
    if n == 0 then []
    else
      var order := ZOrder(regions, n - 1);
      assert forall k :: 0 <= k < |order| ==> order[k] in order;
      Insert(regions, order, n - 1)
  }

  function SortedTiles(regions: seq<Region>, W: int, H: int): (tiles: seq<Tile>)
    ensures |tiles| == |regions|
  {
    var order := ZOrder(regions, |regions|);
    seq(|regions|, k requires 0 <= k < |regions| => TileOf(regions[order[k]], W, H))
  }

  /** What painting shows is the last tile that covers the point. */
  lemma {:induction false} PaintShowsLast(tiles: seq<Tile>, px: int, py: int, k: nat)
    requires k < |tiles| && tiles[k].Covers(px, py)
    requires forall m :: k < m < |tiles| ==> !tiles[m].Covers(px, py)
    ensures Paint(tiles, px, py) == tiles[k].At(px, py)
  {
    if k < |tiles| - 1 {
      PaintShowsLast(tiles[..|tiles| - 1], px, py, k);
    }
  }

  lemma {:induction false} PaintNothing(tiles: seq<Tile>, px: int, py: int)
    requires forall m :: 0 <= m < |tiles| ==> !tiles[m].Covers(px, py)
    ensures Paint(tiles, px, py) == Black
  {
    if tiles != [] {
      PaintNothing(tiles[..|tiles| - 1], px, py);
    }
  }

  /** Painting in sorted order shows the topmost region of the unsorted layout. */
  lemma PaintMeansLayout(regions: seq<Region>, W: int, H: int, px: int, py: int)
    ensures Paint(SortedTiles(regions, W, H), px, py) == LayoutPixel(regions, W, H, px, py)
  {
    var n := |regions|;
    var order, tiles := ZOrder(regions, n), SortedTiles(regions, W, H);
    match TopRegion(regions, W, H, n, px, py) {
      case None =>
        PaintNothing(tiles, px, py);
      case Some(i) =>
        assert i in order;
        var k :| 0 <= k < n && order[k] == i;
        forall m | k < m < n ensures !tiles[m].Covers(px, py) {
          assert Below(regions, order[k], order[m]);
        }
        PaintShowsLast(tiles, px, py, k);
    }
  }

  // ---------------------------------------------------------------- the overlay chain

  function Scales(tiles: seq<Tile>, n: nat): seq<Filter>
    requires n <= |tiles|
  {
    if n == 0 then []
    else Scales(tiles, n - 1) + [Scale(tiles[n - 1].source, tiles[n - 1].w, tiles[n - 1].h, Scaled(n - 1))]
  }

  /** The link that holds the picture after the first k overlays of n. */
  function Tip(k: nat, n: nat): Label
    requires 1 <= k <= n
  {
    if k == n && 1 < n then Out else Layer(k - 1)
  }

  function Chain(tiles: seq<Tile>, W: int, H: int, k: nat): seq<Filter>
    requires 1 <= k <= |tiles|
  {
    if k == 1 then
      [Color(W, H, Canvas), Overlay(Canvas, Scaled(0), tiles[0].x, tiles[0].y, Layer(0))]
    else
      Chain(tiles, W, H, k - 1) +
      [Overlay(Layer(k - 2), Scaled(k - 1), tiles[k - 1].x, tiles[k - 1].y, Tip(k, |tiles|))]
  }

  function CustomGraph(regions: seq<Region>, W: int, H: int): seq<Filter>
    requires regions != []
  {
    var tiles := SortedTiles(regions, W, H);
    Scales(tiles, |tiles|) + Chain(tiles, W, H, |tiles|)
  }

  /** `buildCustomFilter`: pushes the scale filters, then the canvas, then one overlay for each region. */
  method BuildCustomFilter(regions: seq<Region>, W: int, H: int) returns (parts: seq<Filter>)
    requires regions != []
    ensures parts == CustomGraph(regions, W, H)
  {
    var sorted := SortedTiles(regions, W, H);
    ghost var scales := Scales(sorted, |sorted|);
    parts := [];
    for i := 0 to |sorted|
      invariant parts == Scales(sorted, i)
    {
      parts := parts + [Scale(sorted[i].source, sorted[i].w, sorted[i].h, Scaled(i))];
    }
    parts := parts + [Color(W, H, Canvas)];
    parts := parts + [Overlay(Canvas, Scaled(0), sorted[0].x, sorted[0].y, Layer(0))];
    assert parts == scales + Chain(sorted, W, H, 1);
    for i := 1 to |sorted|
      invariant parts == scales + Chain(sorted, W, H, i)
    {
      var next := if i == |sorted| - 1 then Out else Layer(i);
      parts := parts + [Overlay(Layer(i - 1), Scaled(i), sorted[i].x, sorted[i].y, next)];
      assert parts == scales + Chain(sorted, W, H, i + 1);
    }
  }

  predicate Drawable(t: Tile, inputs: nat) {
    0 <= t.source < inputs && 0 < t.w && 0 < t.h
  }

  predicate AllDrawable(tiles: seq<Tile>, n: nat, inputs: nat)
    requires n <= |tiles|
  {
    forall i :: 0 <= i < n ==> Drawable(tiles[i], inputs)
  }

  function ScaledFrom(k: nat, n: nat): set<Label> {
    set i: nat | k <= i < n :: Scaled(i)
  }

  function LayersTo(k: nat): set<Label> {
    set i: nat | i < k :: Layer(i)
  }

  lemma LabelSets(k: nat, n: nat)
    ensures forall l :: l in ScaledFrom(k, n) <==> l.Scaled? && k <= l.i < n
    ensures forall l :: l in LayersTo(k) <==> l.Layer? && l.i < k
  {
  }

  ghost predicate AfterScales(tiles: seq<Tile>, n: nat, st: Links)
    requires n <= |tiles|
  {
    && st.live.Keys == st.defined == ScaledFrom(0, n)
    && forall i: nat :: i < n ==> st.live[Scaled(i)] == Video(ScaledSource(tiles[i].source, tiles[i].w, tiles[i].h))
  }

  lemma {:induction false} ScalesRun(tiles: seq<Tile>, n: nat, inputs: nat)
    requires n <= |tiles|
    ensures var st := Run(Scales(tiles, n), inputs);
            (st.Some? <==> AllDrawable(tiles, n, inputs)) && (st.Some? ==> AfterScales(tiles, n, st.value))
  {
    if n > 0 {
      var t := tiles[n - 1];
      ScalesRun(tiles, n - 1, inputs);
      RunSnoc(Scales(tiles, n - 1), Scale(t.source, t.w, t.h, Scaled(n - 1)), inputs);
    }
  }

  ghost predicate AfterChain(tiles: seq<Tile>, W: int, H: int, k: nat, st: Links)
    requires 1 <= k <= |tiles|
  {
    var n := |tiles|;
    && st.live.Keys == ScaledFrom(k, n) + {Tip(k, n)}
    && st.defined == ScaledFrom(0, n) + {Canvas} + LayersTo(k - 1) + {Tip(k, n)}
    && (forall i: nat :: k <= i < n ==>
          st.live[Scaled(i)] == Video(ScaledSource(tiles[i].source, tiles[i].w, tiles[i].h)))
    && st.live[Tip(k, n)].Video?
    && Shows(st.live[Tip(k, n)].image, W, H, tiles[..k])
  }

  /** Overlaying one more scaled source adds one tile to the painted picture. */
  lemma OverlayPaints(bg: Image, t: Tile, W: int, H: int, tiles: seq<Tile>)
    requires Shows(bg, W, H, tiles)
    ensures Shows(OverlayImages(bg, ScaledSource(t.source, t.w, t.h), t.x, t.y), W, H, tiles + [t])
  {
  }

  lemma CanvasNeedsSize(W: int, H: int, st: Links, inputs: nat)
    ensures Exec(Color(W, H, Canvas), st, inputs).Some? ==> 0 < W && 0 < H
  {
  }

  lemma BlackShows(W: int, H: int)
    ensures Shows(BlackImage(W, H), W, H, [])
  {
  }

  lemma CanvasRuns(W: int, H: int, st: Links, inputs: nat)
    requires 0 < W && 0 < H && Canvas !in st.defined
    ensures Exec(Color(W, H, Canvas), st, inputs) ==
            Some(Links(st.live[Canvas := Video(BlackImage(W, H))], st.defined + {Canvas}))
  {
    assert st.live - {} == st.live;
  }

  lemma OverlayRuns(st: Links, bg: Label, fg: Label, x: int, y: int, out: Label, inputs: nat)
    requires bg != fg && IsVideo(st, bg) && IsVideo(st, fg) && out !in st.defined
    ensures Exec(Overlay(bg, fg, x, y, out), st, inputs) ==
            Some(Links((st.live - {bg, fg})[out := Video(OverlayImages(st.live[bg].image, st.live[fg].image, x, y))],
                       st.defined + {out}))
  {
  }

  lemma FirstOverlay(tiles: seq<Tile>, W: int, H: int, st: Links, inputs: nat)
    requires tiles != [] && AfterScales(tiles, |tiles|, st) && 0 < W && 0 < H
    ensures var c := Exec(Color(W, H, Canvas), st, inputs);
            c.Some? &&
            var o := Exec(Overlay(Canvas, Scaled(0), tiles[0].x, tiles[0].y, Layer(0)), c.value, inputs);
            o.Some? && AfterChain(tiles, W, H, 1, o.value)
  {
    hide Shows, Exec, ScaledFrom, LayersTo;
    LabelSets(0, |tiles|);
    LabelSets(1, |tiles|);
    CanvasRuns(W, H, st, inputs);
    var c := Exec(Color(W, H, Canvas), st, inputs).value;
    assert Scaled(0) in st.live && Scaled(0) in c.live;
    OverlayRuns(c, Canvas, Scaled(0), tiles[0].x, tiles[0].y, Layer(0), inputs);
    var o := Exec(Overlay(Canvas, Scaled(0), tiles[0].x, tiles[0].y, Layer(0)), c, inputs).value;
    BlackShows(W, H);
    OverlayPaints(BlackImage(W, H), tiles[0], W, H, []);
    assert [] + [tiles[0]] == tiles[..1];
    assert o.live.Keys == ScaledFrom(1, |tiles|) + {Layer(0)};
    assert LayersTo(0) == {};
  }

  lemma NextOverlay(tiles: seq<Tile>, W: int, H: int, k: nat, st: Links, inputs: nat)
    requires 1 < k <= |tiles| && AfterChain(tiles, W, H, k - 1, st)
    ensures var t := tiles[k - 1];
            var o := Exec(Overlay(Layer(k - 2), Scaled(k - 1), t.x, t.y, Tip(k, |tiles|)), st, inputs);
            o.Some? && AfterChain(tiles, W, H, k, o.value)
  {
    hide Shows, Exec, ScaledFrom, LayersTo;
    var t, n := tiles[k - 1], |tiles|;
    LabelSets(k - 1, n);
    LabelSets(k, n);
    LabelSets(k - 2, n);
    LabelSets(0, n);
    assert Scaled(k - 1) in st.live.Keys;
    OverlayRuns(st, Layer(k - 2), Scaled(k - 1), t.x, t.y, Tip(k, n), inputs);
    OverlayPaints(st.live[Layer(k - 2)].image, t, W, H, tiles[..k - 1]);
    assert tiles[..k - 1] + [t] == tiles[..k];
    var o := Exec(Overlay(Layer(k - 2), Scaled(k - 1), t.x, t.y, Tip(k, n)), st, inputs).value;
    assert o.live.Keys == ScaledFrom(k, n) + {Tip(k, n)};
    assert LayersTo(k - 1) == LayersTo(k - 2) + {Layer(k - 2)};
  }

  lemma {:induction false} ChainRun(tiles: seq<Tile>, W: int, H: int, k: nat, inputs: nat)
    requires 1 <= k <= |tiles|
    ensures var st := Run(Scales(tiles, |tiles|) + Chain(tiles, W, H, k), inputs);
            && (st.Some? <==> AllDrawable(tiles, |tiles|, inputs) && 0 < W && 0 < H)
            && (st.Some? ==> AfterChain(tiles, W, H, k, st.value))
  {
    hide Run, Exec, AfterChain, AfterScales;
    var scales := Scales(tiles, |tiles|);
    ScalesRun(tiles, |tiles|, inputs);
    if !AllDrawable(tiles, |tiles|, inputs) {
      FailedPrefix(scales, Chain(tiles, W, H, k), inputs);
    } else if k == 1 {
      var c, o := Color(W, H, Canvas), Overlay(Canvas, Scaled(0), tiles[0].x, tiles[0].y, Layer(0));
      RunSnoc(scales, c, inputs);
      RunSnoc(scales + [c], o, inputs);
      assert scales + Chain(tiles, W, H, 1) == scales + [c] + [o];
      CanvasNeedsSize(W, H, Run(scales, inputs).value, inputs);
      if 0 < W && 0 < H {
        FirstOverlay(tiles, W, H, Run(scales, inputs).value, inputs);
      }
    } else {
      var t := tiles[k - 1];
      var o := Overlay(Layer(k - 2), Scaled(k - 1), t.x, t.y, Tip(k, |tiles|));
      ChainRun(tiles, W, H, k - 1, inputs);
      RunSnoc(scales + Chain(tiles, W, H, k - 1), o, inputs);
      assert scales + Chain(tiles, W, H, k) == scales + Chain(tiles, W, H, k - 1) + [o];
      if 0 < W && 0 < H {
        NextOverlay(tiles, W, H, k, Run(scales + Chain(tiles, W, H, k - 1), inputs).value, inputs);
      }
    }
  }

  predicate RegionsDrawable(regions: seq<Region>, W: int, H: int, inputs: nat) {
    0 < W && 0 < H && forall i :: 0 <= i < |regions| ==> Drawable(TileOf(regions[i], W, H), inputs)
  }

  lemma SortedDrawable(regions: seq<Region>, W: int, H: int, inputs: nat)
    ensures AllDrawable(SortedTiles(regions, W, H), |regions|, inputs) <==>
            forall i :: 0 <= i < |regions| ==> Drawable(TileOf(regions[i], W, H), inputs)
  {
    var order, tiles := ZOrder(regions, |regions|), SortedTiles(regions, W, H);
    if AllDrawable(tiles, |regions|, inputs) {
      forall i | 0 <= i < |regions| ensures Drawable(TileOf(regions[i], W, H), inputs) {
        assert i in order;
        var k :| 0 <= k < |order| && order[k] == i;
        assert Drawable(tiles[k], inputs);
      }
    }
  }

  /**
   A custom graph runs exactly when every region is drawable. It then leaves one link live: every label is
   written once, before it is read, and read once. That link is [out] exactly when there are two regions or
   more, and it shows at each point the topmost region of the layout.
   */
  lemma CustomGraphPaintsLayout(regions: seq<Region>, W: int, H: int, inputs: nat)
    requires regions != []
    ensures var st := Run(CustomGraph(regions, W, H), inputs);
            && (st.Some? <==> RegionsDrawable(regions, W, H, inputs))
            && (st.Some? ==>
                  var last := if |regions| >= 2 then Out else Layer(0);
                  && st.value.live.Keys == {last} && st.value.live[last].Video?
                  && var image := st.value.live[last].image;
                     image.w == W && image.h == H &&
                     forall px, py :: 0 <= px < W && 0 <= py < H ==>
                       image.at(px, py) == LayoutPixel(regions, W, H, px, py))
  {
    var n := |regions|;
    var tiles := SortedTiles(regions, W, H);
    SortedDrawable(regions, W, H, inputs);
    ChainRun(tiles, W, H, n, inputs);
    var st := Run(CustomGraph(regions, W, H), inputs);
    if st.Some? {
      var last := Tip(n, n);
      var image := st.value.live[last].image;
      assert tiles[..n] == tiles;
      forall px, py | 0 <= px < W && 0 <= py < H
        ensures image.at(px, py) == LayoutPixel(regions, W, H, px, py)
      {
        PaintMeansLayout(regions, W, H, px, py);
      }
    }
  }
}
