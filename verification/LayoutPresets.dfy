/**
 FfmpegCompositorService.buildFilter and buildArgs for every preset, and the composite branch of
 SrsService.startHub: which commands FFmpeg can run, and what their output shows.
 */
module LayoutPresets {
  import opened Wrappers
  import opened FilterGraph
  import opened Compositor

  datatype AudioMap = NoAudio | FirstInput | Mixed

  datatype Plan = Plan(graph: Option<seq<Filter>>, audio: AudioMap)

  function StudioGraph(inputs: nat, W: int, H: int, cam: Tile): seq<Filter> {
    [Scale(0, W, H, Bg), Scale(1, cam.w, cam.h, Cam), Overlay(Bg, Cam, cam.x, cam.y, V1)]
    + (if inputs > 2 then [Scale(2, W, H, Over), Overlay(V1, Over, 0, 0, Out)] else [Copy(V1, Out)])
    + (if inputs >= 2 then [AMix(2, AudioOut)] else [])
  }

  function PipGraph(W: int, H: int, fg: Tile): seq<Filter> {
    [Scale(0, W, H, Bg), Scale(1, fg.w, fg.h, Fg), Overlay(Bg, Fg, fg.x, fg.y, Out)]
  }

  /** The camera inset of the studio preset: a quarter of each side, 40 pixels from the corner. */
  function StudioCam(W: int, H: int): Tile {
    var camW, camH := Round(W as real * 0.25), Round(H as real * 0.25);
    Tile(1, W - camW - 40, H - camH - 40, camW, camH)
  }

  function PipInset(W: int, H: int): Tile {
    Tile(1, Round(W as real * 0.72), Round(H as real * 0.66), Round(W as real * 0.27), Round(H as real * 0.27))
  }

  /** The camera has a quarter of each side and stands 40 pixels from the right and from the bottom. */
  lemma StudioCamPlace(W: int, H: int)
    ensures var c := StudioCam(W, H);
            && c.source == 1 && Nearest(c.w, W as real / 4.0) && Nearest(c.h, H as real / 4.0)
            && c.x + c.w == W - 40 && c.y + c.h == H - 40
  {
  }

  /** The inset takes 27 percent of each side, from 72 percent of the width and 66 percent of the height on. */
  lemma PipInsetPlace(W: int, H: int)
    ensures var t := PipInset(W, H);
            && t.source == 1 && Nearest(t.x, W as real * 0.72) && Nearest(t.y, H as real * 0.66)
            && Nearest(t.w, W as real * 0.27) && Nearest(t.h, H as real * 0.27)
  {
  }

  function SplitHGraph(hw: int, H: int): seq<Filter> {
    [Scale(0, hw, H, L), Scale(1, hw, H, R), HStack([L, R], Out), AMix(2, AudioOut)]
  }

  function SplitVGraph(W: int, hh: int): seq<Filter> {
    [Scale(0, W, hh, T), Scale(1, W, hh, B), VStack(T, B, Out), AMix(2, AudioOut)]
  }

  function TripleHGraph(tw: int, H: int): seq<Filter> {
    [Scale(0, tw, H, A), Scale(1, tw, H, B), Scale(2, tw, H, C), HStack([A, B, C], Out), AMix(3, AudioOut)]
  }

  function Grid4Graph(gw: int, gh: int): seq<Filter> {
    [Scale(0, gw, gh, A), Scale(1, gw, gh, B), Scale(2, gw, gh, C), Scale(3, gw, gh, D),
     HStack([A, B], Top), HStack([C, D], Bot), VStack(Top, Bot, Out), AMix(4, AudioOut)]
  }

  /** `buildFilter`. */
  function BuildFilter(layout: Layout, inputs: nat, W: int, H: int): Plan {
    match layout.preset
    case Full => Plan(None, NoAudio)
    case Studio => Plan(Some(StudioGraph(inputs, W, H, StudioCam(W, H))), if inputs >= 2 then Mixed else FirstInput)
    case Pip => Plan(Some(PipGraph(W, H, PipInset(W, H))), FirstInput)
    case SplitH => Plan(Some(SplitHGraph(W / 2, H)), Mixed)
    case SplitV => Plan(Some(SplitVGraph(W, H / 2)), Mixed)
    case TripleH => Plan(Some(TripleHGraph(W / 3, H)), Mixed)
    case Grid4 => Plan(Some(Grid4Graph(W / 2, H / 2)), Mixed)
    case Custom =>
      if layout.regions.None? || layout.regions.value == [] then Plan(None, NoAudio)
      else Plan(Some(CustomGraph(layout.regions.value, W, H)), FirstInput)
    case Other => Plan(None, NoAudio)
  }

  /** What is seen, and how many inputs, counted from the first, are heard in the mix; 0 without a mix. */
  datatype Picture = Picture(w: int, h: int, tiles: seq<Tile>, heard: nat)

  function StudioPicture(inputs: nat, W: int, H: int, cam: Tile): Picture {
    Picture(W, H, [Tile(0, 0, 0, W, H), cam] + if inputs > 2 then [Tile(2, 0, 0, W, H)] else [],
            if inputs >= 2 then 2 else 0)
  }

  function PipPicture(W: int, H: int, fg: Tile): Picture {
    Picture(W, H, [Tile(0, 0, 0, W, H), fg], 0)
  }

  function SplitHPicture(hw: int, H: int): Picture {
    Picture(2 * hw, H, [Tile(0, 0, 0, hw, H), Tile(1, hw, 0, hw, H)], 2)
  }

  function SplitVPicture(W: int, hh: int): Picture {
    Picture(W, 2 * hh, [Tile(0, 0, 0, W, hh), Tile(1, 0, hh, W, hh)], 2)
  }

  function TripleHPicture(tw: int, H: int): Picture {
    Picture(3 * tw, H, [Tile(0, 0, 0, tw, H), Tile(1, tw, 0, tw, H), Tile(2, 2 * tw, 0, tw, H)], 3)
  }

  function Grid4Picture(gw: int, gh: int): Picture {
    Picture(2 * gw, 2 * gh, [Tile(0, 0, 0, gw, gh), Tile(1, gw, 0, gw, gh),
                             Tile(2, 0, gh, gw, gh), Tile(3, gw, gh, gw, gh)], 4)
  }

  predicate IsFixed(preset: Preset) {
    preset in {Studio, Pip, SplitH, SplitV, TripleH, Grid4}
  }

  /** What each fixed preset is meant to show. Halves and thirds are floored, so odd sizes lose a strip. */
  function PresetPicture(preset: Preset, inputs: nat, W: int, H: int): Picture
    requires IsFixed(preset)
  {
    match preset
    case Studio => StudioPicture(inputs, W, H, StudioCam(W, H))
    case Pip => PipPicture(W, H, PipInset(W, H))
    case SplitH => SplitHPicture(W / 2, H)
    case SplitV => SplitVPicture(W, H / 2)
    case TripleH => TripleHPicture(W / 3, H)
    case _ => Grid4Picture(W / 2, H / 2)
  }

  function MappedLinks(audio: AudioMap): set<Label> {
    if audio == Mixed then {Out, AudioOut} else {Out}
  }

  /**
   The program runs, leaves exactly the links the command maps, its [out] shows the picture, and its mix is complete.
   */
  ghost predicate Renders(graph: seq<Filter>, inputs: nat, audio: AudioMap, p: Picture) {
    var st := Run(graph, inputs);
    && st.Some? && st.value.live.Keys == MappedLinks(audio)
    && st.value.live[Out].Video? && Shows(st.value.live[Out].image, p.w, p.h, p.tiles)
    && (audio == Mixed ==> st.value.live[AudioOut] == Audio(p.heard))
  }

  lemma RunPrefix(fs: seq<Filter>, n: nat, inputs: nat)
    requires n < |fs|
    ensures Run(fs[..n + 1], inputs) ==
            match Run(fs[..n], inputs) case None => None case Some(st) => Exec(fs[n], st, inputs)
  {
    RunSnoc(fs[..n], fs[n], inputs);
    assert fs[..n + 1] == fs[..n] + [fs[n]];
  }

  lemma PaintSnoc(tiles: seq<Tile>, t: Tile, px: int, py: int)
    ensures Paint(tiles + [t], px, py) == if t.Covers(px, py) then t.At(px, py) else Paint(tiles, px, py)
  {
  }

  /** One full-size source shows one tile at the origin. */
  lemma ScaledShows(source: int, w: int, h: int)
    ensures Shows(ScaledSource(source, w, h), w, h, [Tile(source, 0, 0, w, h)])
  {
  }

  /** Putting one more source to the right of a picture adds one tile. */
  lemma BesideShows(left: Image, w: int, h: int, tiles: seq<Tile>, source: int, sw: int)
    requires Shows(left, w, h, tiles) && 0 <= w
    requires forall k :: 0 <= k < |tiles| ==> tiles[k].x + tiles[k].w <= w
    ensures Shows(Beside(left, ScaledSource(source, sw, h)), w + sw, h, tiles + [Tile(source, w, 0, sw, h)])
  {
  }

  /** The same tiles moved down. */
  function Lower(tiles: seq<Tile>, dy: int): (r: seq<Tile>)
    ensures |r| == |tiles|
  {
    seq(|tiles|, k requires 0 <= k < |tiles| => tiles[k].(y := tiles[k].y + dy))
  }

  /** A picture below another one adds its tiles, lowered by the height of the upper one. */
  lemma {:induction false} PaintLower(upper: seq<Tile>, lower: seq<Tile>, dy: int, px: int, py: int)
    requires forall k :: 0 <= k < |upper| ==> upper[k].y + upper[k].h <= dy
    requires forall k :: 0 <= k < |lower| ==> 0 <= lower[k].y
    ensures Paint(upper + Lower(lower, dy), px, py) ==
            if py < dy then Paint(upper, px, py) else Paint(lower, px, py - dy)
  {
    if lower == [] {
      assert upper + Lower(lower, dy) == upper;
      if dy <= py {
        PaintNothing(upper, px, py);
      }
    } else {
      var front, last := lower[..|lower| - 1], lower[|lower| - 1];
      hide Paint;
      PaintLower(upper, front, dy, px, py);
      PaintSnoc(upper + Lower(front, dy), last.(y := last.y + dy), px, py);
      PaintSnoc(front, last, px, py);
      assert lower == front + [last];
      assert upper + Lower(lower, dy) == upper + Lower(front, dy) + [last.(y := last.y + dy)];
    }
  }

  lemma AboveShows(top: Image, bottom: Image, w: int, h: int, upper: seq<Tile>, bh: int, lower: seq<Tile>)
    requires Shows(top, w, h, upper) && Shows(bottom, w, bh, lower) && 0 <= h
    requires forall k :: 0 <= k < |upper| ==> upper[k].y + upper[k].h <= h
    requires forall k :: 0 <= k < |lower| ==> 0 <= lower[k].y
    ensures Shows(Above(top, bottom), w, h + bh, upper + Lower(lower, h))
  {
    forall px, py { PaintLower(upper, lower, h, px, py); }
  }

  /** The preset's graph runs exactly when each tile of its picture is drawable, and then renders the picture. */
  ghost predicate Correct(graph: seq<Filter>, inputs: nat, audio: AudioMap, p: Picture) {
    && (Run(graph, inputs).Some? <==> AllDrawable(p.tiles, |p.tiles|, inputs))
    && (Run(graph, inputs).Some? ==> Renders(graph, inputs, audio, p))
  }

  lemma NothingRun(g: seq<Filter>, inputs: nat)
    ensures Run(g[..0], inputs) == Some(NoLinks)
  {
  }

  lemma ScaleStep(f: Filter, st: Links, inputs: nat)
    requires f.Scale? && f.out !in st.defined
    ensures Exec(f, st, inputs) ==
            if 0 <= f.source < inputs && 0 < f.w && 0 < f.h
            then Some(Links(st.live[f.out := Video(ScaledSource(f.source, f.w, f.h))], st.defined + {f.out})) else None
  {
    assert st.live - {} == st.live;
  }

  predicate ScalesFirst(g: seq<Filter>, n: nat) {
    && n <= |g|
    && (forall k :: 0 <= k < n ==> g[k].Scale?)
    && (forall j, k :: 0 <= j < k < n ==> g[j].out != g[k].out)
  }

  /** A prefix of scale filters with different labels runs exactly when each is drawable. */
  lemma {:induction false} SourcesRun(g: seq<Filter>, n: nat, inputs: nat)
    requires ScalesFirst(g, n)
    ensures var st := Run(g[..n], inputs);
            && (st.Some? <==> forall k :: 0 <= k < n ==> 0 <= g[k].source < inputs && 0 < g[k].w && 0 < g[k].h)
            && (st.Some? ==>
                  && st.value.live.Keys == st.value.defined == (set k | 0 <= k < n :: g[k].out)
                  && forall k :: 0 <= k < n ==>
                       st.value.live[g[k].out] == Video(ScaledSource(g[k].source, g[k].w, g[k].h)))
  {
    hide Exec, Run;
    if n == 0 {
      NothingRun(g, inputs);
    } else {
      SourcesRun(g, n - 1, inputs);
      RunPrefix(g, n - 1, inputs);
      if Run(g[..n - 1], inputs).Some? {
        ScaleStep(g[n - 1], Run(g[..n - 1], inputs).value, inputs);
      }
    }
  }

  lemma RowOfTwo(st: Links, a: Label, b: Label)
    requires a != b && IsVideo(st, a) && IsVideo(st, b) && st.live[a].image.h == st.live[b].image.h
    ensures StackRow(st, [a, b]) == Some(Beside(st.live[a].image, st.live[b].image))
  {
  }

  lemma RowOfThree(st: Links, a: Label, b: Label, c: Label)
    requires a != b && b != c && a != c && IsVideo(st, a) && IsVideo(st, b) && IsVideo(st, c)
    requires st.live[a].image.h == st.live[b].image.h == st.live[c].image.h
    ensures StackRow(st, [a, b, c]) ==
            Some(Beside(Beside(st.live[a].image, st.live[b].image), st.live[c].image))
  {
    RowOfTwo(st, a, b);
    assert [a, b, c][..2] == [a, b];
  }

  /**
   A graph that starts with one scale filter for each of n tiles: it fails when one of them is not drawable,
   and otherwise holds exactly the scaled sources after the first n filters.
   */
  lemma SourcesDecide(g: seq<Filter>, n: nat, inputs: nat, tiles: seq<Tile>)
    requires ScalesFirst(g, n) && n <= |tiles|
    requires forall k :: 0 <= k < n ==> g[k].source == tiles[k].source && g[k].w == tiles[k].w && g[k].h == tiles[k].h
    ensures var st := Run(g[..n], inputs);
            && (st.Some? <==> AllDrawable(tiles, n, inputs))
            && (st.None? ==> Run(g, inputs).None?)
            && (st.Some? ==>
                  && st.value.live.Keys == st.value.defined == (set k | 0 <= k < n :: g[k].out)
                  && forall k :: 0 <= k < n ==>
                       st.value.live[g[k].out] == Video(ScaledSource(g[k].source, g[k].w, g[k].h)))
  {
    SourcesRun(g, n, inputs);
    assert forall k :: 0 <= k < n ==>
        Drawable(tiles[k], inputs) == (0 <= g[k].source < inputs && 0 < g[k].w && 0 < g[k].h);
    if Run(g[..n], inputs).None? {
      FailedPrefix(g[..n], g[n..], inputs);
      assert g == g[..n] + g[n..];
    }
  }

  lemma HStackTwo(st: Links, a: Label, b: Label, out: Label, inputs: nat)
    requires a != b && IsVideo(st, a) && IsVideo(st, b) && st.live[a].image.h == st.live[b].image.h
    requires out !in st.defined
    ensures Exec(HStack([a, b], out), st, inputs) ==
            Some(Links((st.live - {a, b})[out := Video(Beside(st.live[a].image, st.live[b].image))],
                       st.defined + {out}))
  {
    RowOfTwo(st, a, b);
    assert (set l | l in [a, b]) == {a, b};
  }

  lemma HStackThree(st: Links, a: Label, b: Label, c: Label, out: Label, inputs: nat)
    requires a != b && b != c && a != c && IsVideo(st, a) && IsVideo(st, b) && IsVideo(st, c)
    requires st.live[a].image.h == st.live[b].image.h == st.live[c].image.h && out !in st.defined
    ensures Exec(HStack([a, b, c], out), st, inputs) ==
            Some(Links((st.live - {a, b, c})
                       [out := Video(Beside(Beside(st.live[a].image, st.live[b].image), st.live[c].image))],
                       st.defined + {out}))
  {
    RowOfThree(st, a, b, c);
    assert (set l | l in [a, b, c]) == {a, b, c};
  }

  /** The graph ends by writing [out] and then the audio mix. */
  lemma FinishMixed(g: seq<Filter>, n: nat, inputs: nat, st: Links, image: Image, m: nat)
    requires |g| == n + 2 && Run(g[..n], inputs) == Some(st) && g[n + 1] == AMix(m, AudioOut) && 0 < m <= inputs
    requires AudioOut !in st.defined
    requires Exec(g[n], st, inputs) == Some(Links(map[Out := Video(image)], st.defined + {Out}))
    ensures EndsWith(g, inputs, m, image)
  {
    hide Run;
    RunPrefix(g, n, inputs);
    RunPrefix(g, n + 1, inputs);
    assert g[..n + 2] == g;
  }

  ghost predicate EndsWith(g: seq<Filter>, inputs: nat, heard: nat, image: Image) {
    var st := Run(g, inputs);
    && st.Some? && st.value.live.Keys == MappedLinks(Mixed)
    && st.value.live[Out] == Video(image) && st.value.live[AudioOut] == Audio(heard)
  }

  // ---------------------------------------------------------------- pip

  lemma PipCorrect(inputs: nat, W: int, H: int, fg: Tile)
    requires fg.source == 1
    ensures Correct(PipGraph(W, H, fg), inputs, FirstInput, PipPicture(W, H, fg))
  {
    hide Run, Shows;
    var g, p := PipGraph(W, H, fg), PipPicture(W, H, fg);
    SourcesDecide(g, 2, inputs, p.tiles);
    if Run(g[..2], inputs).Some? {
      assert Run(g[..2], inputs).value.live.Keys == {g[0].out, g[1].out};
      RunPrefix(g, 2, inputs);
      assert g[..3] == g;
      ScaledShows(0, W, H);
      OverlayPaints(ScaledSource(0, W, H), fg, W, H, [Tile(0, 0, 0, W, H)]);
      assert p.tiles == [Tile(0, 0, 0, W, H)] + [fg];
    }
  }

  // ---------------------------------------------------------------- split-h

  function SplitHImage(hw: int, H: int): Image {
    Beside(ScaledSource(0, hw, H), ScaledSource(1, hw, H))
  }

  lemma SplitHRuns(g: seq<Filter>, inputs: nat, hw: int, H: int, st: Links)
    requires g == SplitHGraph(hw, H) && Run(g[..2], inputs) == Some(st) && 2 <= inputs
    requires st.live.Keys == st.defined == {L, R}
    requires st.live[L] == Video(ScaledSource(0, hw, H)) && st.live[R] == Video(ScaledSource(1, hw, H))
    ensures EndsWith(g, inputs, 2, SplitHImage(hw, H))
  {
    hide Run;
    HStackTwo(st, L, R, Out, inputs);
    assert (st.live - {L, R})[Out := Video(SplitHImage(hw, H))] == map[Out := Video(SplitHImage(hw, H))];
    FinishMixed(g, 2, inputs, st, SplitHImage(hw, H), 2);
  }

  lemma SplitHShows(hw: int, H: int)
    requires 0 < hw
    ensures var p := SplitHPicture(hw, H); Shows(SplitHImage(hw, H), p.w, p.h, p.tiles)
  {
  }

  lemma SplitHCorrect(inputs: nat, hw: int, H: int)
    ensures Correct(SplitHGraph(hw, H), inputs, Mixed, SplitHPicture(hw, H))
  {
    hide Run;
    var g, p := SplitHGraph(hw, H), SplitHPicture(hw, H);
    SourcesDecide(g, 2, inputs, p.tiles);
    if Run(g[..2], inputs).Some? {
      var st := Run(g[..2], inputs).value;
      assert st.live.Keys == {g[0].out, g[1].out};
      SplitHRuns(g, inputs, hw, H, st);
      SplitHShows(hw, H);
    }
  }

  // ---------------------------------------------------------------- split-v

  function SplitVImage(W: int, hh: int): Image {
    Above(ScaledSource(0, W, hh), ScaledSource(1, W, hh))
  }

  lemma SplitVRuns(g: seq<Filter>, inputs: nat, W: int, hh: int, st: Links)
    requires g == SplitVGraph(W, hh) && Run(g[..2], inputs) == Some(st) && 2 <= inputs
    requires st.live.Keys == st.defined == {T, B}
    requires st.live[T] == Video(ScaledSource(0, W, hh)) && st.live[B] == Video(ScaledSource(1, W, hh))
    ensures EndsWith(g, inputs, 2, SplitVImage(W, hh))
  {
    hide Run;
    assert (st.live - {T, B})[Out := Video(SplitVImage(W, hh))] == map[Out := Video(SplitVImage(W, hh))];
    FinishMixed(g, 2, inputs, st, SplitVImage(W, hh), 2);
  }

  lemma SplitVShows(W: int, hh: int)
    requires 0 < hh
    ensures var p := SplitVPicture(W, hh); Shows(SplitVImage(W, hh), p.w, p.h, p.tiles)
  {
  }

  lemma SplitVCorrect(inputs: nat, W: int, hh: int)
    ensures Correct(SplitVGraph(W, hh), inputs, Mixed, SplitVPicture(W, hh))
  {
    hide Run;
    var g, p := SplitVGraph(W, hh), SplitVPicture(W, hh);
    SourcesDecide(g, 2, inputs, p.tiles);
    if Run(g[..2], inputs).Some? {
      var st := Run(g[..2], inputs).value;
      assert st.live.Keys == {g[0].out, g[1].out};
      SplitVRuns(g, inputs, W, hh, st);
      SplitVShows(W, hh);
    }
  }

  // ---------------------------------------------------------------- triple-h

  function TripleHImage(tw: int, H: int): Image {
    Beside(Beside(ScaledSource(0, tw, H), ScaledSource(1, tw, H)), ScaledSource(2, tw, H))
  }

  lemma TripleHRuns(g: seq<Filter>, inputs: nat, tw: int, H: int, st: Links)
    requires g == TripleHGraph(tw, H) && Run(g[..3], inputs) == Some(st) && 3 <= inputs
    requires st.live.Keys == st.defined == {A, B, C}
    requires st.live[A] == Video(ScaledSource(0, tw, H)) && st.live[B] == Video(ScaledSource(1, tw, H))
             && st.live[C] == Video(ScaledSource(2, tw, H))
    ensures EndsWith(g, inputs, 3, TripleHImage(tw, H))
  {
    hide Run;
    HStackThree(st, A, B, C, Out, inputs);
    assert (st.live - {A, B, C})[Out := Video(TripleHImage(tw, H))] == map[Out := Video(TripleHImage(tw, H))];
    FinishMixed(g, 3, inputs, st, TripleHImage(tw, H), 3);
  }

  lemma TripleHShows(tw: int, H: int)
    requires 0 < tw
    ensures var p := TripleHPicture(tw, H); Shows(TripleHImage(tw, H), p.w, p.h, p.tiles)
  {
    var tiles := TripleHPicture(tw, H).tiles;
    ScaledShows(0, tw, H);
    BesideShows(ScaledSource(0, tw, H), tw, H, tiles[..1], 1, tw);
    assert tiles[..2] == tiles[..1] + [tiles[1]];
    BesideShows(Beside(ScaledSource(0, tw, H), ScaledSource(1, tw, H)), 2 * tw, H, tiles[..2], 2, tw);
    assert tiles == tiles[..2] + [tiles[2]];
  }

  lemma TripleHCorrect(inputs: nat, tw: int, H: int)
    ensures Correct(TripleHGraph(tw, H), inputs, Mixed, TripleHPicture(tw, H))
  {
    hide Run, TripleHImage, Shows, Exec;
    var g, p := TripleHGraph(tw, H), TripleHPicture(tw, H);
    SourcesDecide(g, 3, inputs, p.tiles);
    if Run(g[..3], inputs).Some? {
      var st := Run(g[..3], inputs).value;
      assert st.live.Keys == {g[0].out, g[1].out, g[2].out};
      TripleHRuns(g, inputs, tw, H, st);
      TripleHShows(tw, H);
    }
  }

  // ---------------------------------------------------------------- grid-4

  function Grid4Image(gw: int, gh: int): Image {
    Above(Grid4Row(gw, gh, 0), Grid4Row(gw, gh, 2))
  }

  function Grid4Row(gw: int, gh: int, first: int): Image {
    Beside(ScaledSource(first, gw, gh), ScaledSource(first + 1, gw, gh))
  }

  lemma Grid4TopRow(g: seq<Filter>, inputs: nat, gw: int, gh: int, st: Links)
    requires g == Grid4Graph(gw, gh) && Run(g[..4], inputs) == Some(st)
    requires st.live.Keys == st.defined == {A, B, C, D}
    requires st.live[A] == Video(ScaledSource(0, gw, gh)) && st.live[B] == Video(ScaledSource(1, gw, gh))
    requires st.live[C] == Video(ScaledSource(2, gw, gh)) && st.live[D] == Video(ScaledSource(3, gw, gh))
    ensures Run(g[..5], inputs) == Some(Links(
      map[C := Video(ScaledSource(2, gw, gh)), D := Video(ScaledSource(3, gw, gh)), Top := Video(Grid4Row(gw, gh, 0))],
      {A, B, C, D, Top}))
  {
    hide Run;
    HStackTwo(st, A, B, Top, inputs);
    RunPrefix(g, 4, inputs);
    assert st.defined + {Top} == {A, B, C, D, Top};
    assert (st.live - {A, B})[Top := Video(Grid4Row(gw, gh, 0))] ==
      map[C := Video(ScaledSource(2, gw, gh)), D := Video(ScaledSource(3, gw, gh)), Top := Video(Grid4Row(gw, gh, 0))];
  }

  lemma Grid4BottomRow(g: seq<Filter>, inputs: nat, gw: int, gh: int, st: Links)
    requires g == Grid4Graph(gw, gh) && Run(g[..5], inputs) == Some(st) && st.defined == {A, B, C, D, Top}
    requires st.live == map[C := Video(ScaledSource(2, gw, gh)), D := Video(ScaledSource(3, gw, gh)),
                            Top := Video(Grid4Row(gw, gh, 0))]
    ensures Run(g[..6], inputs) == Some(Links(
      map[Top := Video(Grid4Row(gw, gh, 0)), Bot := Video(Grid4Row(gw, gh, 2))], {A, B, C, D, Top, Bot}))
  {
    hide Run;
    HStackTwo(st, C, D, Bot, inputs);
    RunPrefix(g, 5, inputs);
    assert st.defined + {Bot} == {A, B, C, D, Top, Bot};
    assert (st.live - {C, D})[Bot := Video(Grid4Row(gw, gh, 2))] ==
           map[Top := Video(Grid4Row(gw, gh, 0)), Bot := Video(Grid4Row(gw, gh, 2))];
  }

  lemma Grid4Runs(g: seq<Filter>, inputs: nat, gw: int, gh: int, st: Links)
    requires g == Grid4Graph(gw, gh) && Run(g[..6], inputs) == Some(st) && 4 <= inputs
    requires st == Links(map[Top := Video(Grid4Row(gw, gh, 0)), Bot := Video(Grid4Row(gw, gh, 2))],
                         {A, B, C, D, Top, Bot})
    ensures EndsWith(g, inputs, 4, Grid4Image(gw, gh))
  {
    hide Run;
    assert (st.live - {Top, Bot})[Out := Video(Grid4Image(gw, gh))] == map[Out := Video(Grid4Image(gw, gh))];
    FinishMixed(g, 6, inputs, st, Grid4Image(gw, gh), 4);
  }

  lemma Grid4Shows(gw: int, gh: int)
    requires 0 < gw && 0 < gh
    ensures var p := Grid4Picture(gw, gh); Shows(Grid4Image(gw, gh), p.w, p.h, p.tiles)
  {
    var tiles := Grid4Picture(gw, gh).tiles;
    var upper, lower := tiles[..2], [Tile(2, 0, 0, gw, gh), Tile(3, gw, 0, gw, gh)];
    ScaledShows(0, gw, gh);
    ScaledShows(2, gw, gh);
    BesideShows(ScaledSource(0, gw, gh), gw, gh, upper[..1], 1, gw);
    BesideShows(ScaledSource(2, gw, gh), gw, gh, lower[..1], 3, gw);
    assert upper == upper[..1] + [tiles[1]] && lower == lower[..1] + [lower[1]];
    AboveShows(Grid4Row(gw, gh, 0), Grid4Row(gw, gh, 2), 2 * gw, gh, upper, gh, lower);
    assert tiles == upper + Lower(lower, gh);
  }

  lemma Grid4Correct(inputs: nat, gw: int, gh: int)
    ensures Correct(Grid4Graph(gw, gh), inputs, Mixed, Grid4Picture(gw, gh))
  {
    hide Run, Grid4Image, Grid4Row, Shows, Exec;
    var g, p := Grid4Graph(gw, gh), Grid4Picture(gw, gh);
    SourcesDecide(g, 4, inputs, p.tiles);
    if Run(g[..4], inputs).Some? {
      var st := Run(g[..4], inputs).value;
      assert st.live.Keys == {g[0].out, g[1].out, g[2].out, g[3].out};
      Grid4TopRow(g, inputs, gw, gh, st);
      Grid4BottomRow(g, inputs, gw, gh, Run(g[..5], inputs).value);
      Grid4Runs(g, inputs, gw, gh, Run(g[..6], inputs).value);
      Grid4Shows(gw, gh);
    }
  }

  // ---------------------------------------------------------------- studio

  function StudioImage(inputs: nat, W: int, H: int, cam: Tile): Image {
    var v1 := OverlayImages(ScaledSource(0, W, H), ScaledSource(1, cam.w, cam.h), cam.x, cam.y);
    if inputs > 2 then OverlayImages(v1, ScaledSource(2, W, H), 0, 0) else v1
  }

  lemma StudioCamera(g: seq<Filter>, inputs: nat, W: int, H: int, cam: Tile, st: Links)
    requires g == StudioGraph(inputs, W, H, cam) && Run(g[..2], inputs) == Some(st)
    requires st.live.Keys == st.defined == {Bg, Cam}
    requires st.live[Bg] == Video(ScaledSource(0, W, H)) && st.live[Cam] == Video(ScaledSource(1, cam.w, cam.h))
    ensures Run(g[..3], inputs) == Some(Links(map[V1 := Video(StudioImage(2, W, H, cam))], {Bg, Cam, V1}))
  {
    hide Run;
    RunPrefix(g, 2, inputs);
    assert st.defined + {V1} == {Bg, Cam, V1};
    assert (st.live - {Bg, Cam})[V1 := Video(StudioImage(2, W, H, cam))] == map[V1 := Video(StudioImage(2, W, H, cam))];
  }

  lemma StudioCopies(g: seq<Filter>, W: int, H: int, cam: Tile)
    requires g == StudioGraph(2, W, H, cam)
    requires Run(g[..3], 2) == Some(Links(map[V1 := Video(StudioImage(2, W, H, cam))], {Bg, Cam, V1}))
    ensures EndsWith(g, 2, 2, StudioImage(2, W, H, cam))
  {
    hide Run;
    var st, image := Run(g[..3], 2).value, StudioImage(2, W, H, cam);
    assert (st.live - {V1})[Out := Video(image)] == map[Out := Video(image)];
    FinishMixed(g, 3, 2, st, image, 2);
  }

  lemma StudioOverlays(g: seq<Filter>, inputs: nat, W: int, H: int, cam: Tile)
    requires g == StudioGraph(inputs, W, H, cam) && 2 < inputs && 0 < W && 0 < H
    requires Run(g[..3], inputs) == Some(Links(map[V1 := Video(StudioImage(2, W, H, cam))], {Bg, Cam, V1}))
    ensures EndsWith(g, inputs, 2, StudioImage(inputs, W, H, cam))
  {
    hide Run;
    var image := StudioImage(inputs, W, H, cam);
    RunPrefix(g, 3, inputs);
    var st := Run(g[..4], inputs).value;
    assert (st.live - {V1, Over})[Out := Video(image)] == map[Out := Video(image)];
    FinishMixed(g, 4, inputs, st, image, 2);
  }

  lemma StudioShows(inputs: nat, W: int, H: int, cam: Tile)
    requires cam.source == 1
    ensures Shows(StudioImage(inputs, W, H, cam), W, H, StudioPicture(inputs, W, H, cam).tiles)
  {
  }

  lemma StudioCorrect(inputs: nat, W: int, H: int, cam: Tile)
    requires cam.source == 1
    ensures Correct(StudioGraph(inputs, W, H, cam), inputs, if inputs >= 2 then Mixed else FirstInput,
                    StudioPicture(inputs, W, H, cam))
  {
    hide Run;
    var g, p := StudioGraph(inputs, W, H, cam), StudioPicture(inputs, W, H, cam);
    SourcesDecide(g, 2, inputs, p.tiles);
    assert inputs > 2 && Drawable(p.tiles[0], inputs) ==> Drawable(p.tiles[2], inputs);
    if Run(g[..2], inputs).Some? {
      assert Drawable(p.tiles[0], inputs) && Drawable(p.tiles[1], inputs);
      var st := Run(g[..2], inputs).value;
      assert st.live.Keys == {g[0].out, g[1].out};
      StudioCamera(g, inputs, W, H, cam, st);
      if inputs == 2 {
        StudioCopies(g, W, H, cam);
      } else {
        StudioOverlays(g, inputs, W, H, cam);
      }
      StudioShows(inputs, W, H, cam);
    }
  }

  /** Every fixed preset compiles to a graph that runs exactly when its tiles are drawable, and then shows them. */
  lemma PresetsCorrect(layout: Layout, inputs: nat, W: int, H: int)
    requires IsFixed(layout.preset)
    ensures var plan := BuildFilter(layout, inputs, W, H);
            plan.graph.Some? &&
            Correct(plan.graph.value, inputs, plan.audio, PresetPicture(layout.preset, inputs, W, H))
  {
    match layout.preset
    case Studio => StudioCorrect(inputs, W, H, StudioCam(W, H));
    case Pip => PipCorrect(inputs, W, H, PipInset(W, H));
    case SplitH => SplitHCorrect(inputs, W / 2, H);
    case SplitV => SplitVCorrect(inputs, W, H / 2);
    case TripleH => TripleHCorrect(inputs, W / 3, H);
    case Grid4 => Grid4Correct(inputs, W / 2, H / 2);
  }

  // ---------------------------------------------------------------- the FFmpeg command

  datatype InputArg = AtNativeRate | Input(url: string)

  datatype Command = Command(inputArgs: seq<InputArg>, plan: Plan, outputs: seq<string>)

  function InputArgs(urls: seq<string>): seq<InputArg> {
    if urls == [] then [] else InputArgs(urls[..|urls| - 1]) + [AtNativeRate, Input(urls[|urls| - 1])]
  }

  function Width(layout: Layout): int {
    if layout.outputWidth.Some? then layout.outputWidth.value else DEFAULT_W
  }

  function Height(layout: Layout): int {
    if layout.outputHeight.Some? then layout.outputHeight.value else DEFAULT_H
  }

  function CommandFor(layout: Layout, inputUrls: seq<string>, outputUrls: seq<string>): Command {
    Command(InputArgs(inputUrls), BuildFilter(layout, |inputUrls|, Width(layout), Height(layout)), outputUrls)
  }

  /** `buildArgs`. */
  method BuildArgs(layout: Layout, inputUrls: seq<string>, outputUrls: seq<string>) returns (cmd: Command)
    ensures cmd == CommandFor(layout, inputUrls, outputUrls)
  {
    var inputArgs := [];
    for i := 0 to |inputUrls|
      invariant inputArgs == InputArgs(inputUrls[..i])
    {
      inputArgs := inputArgs + [AtNativeRate, Input(inputUrls[i])];
      assert inputUrls[..i + 1][..i] == inputUrls[..i];
    }
    assert inputUrls[..|inputUrls|] == inputUrls;
    cmd := Command(inputArgs, BuildFilter(layout, |inputUrls|, Width(layout), Height(layout)), outputUrls);
  }

  /** The inputs a command reads, in the order FFmpeg numbers them. */
  function InputUrls(args: seq<InputArg>): seq<string> {
    if args == [] then []
    else
      var last := args[|args| - 1];
      InputUrls(args[..|args| - 1]) + if last.Input? then [last.url] else []
  }

  lemma {:induction false} InputsAreNumberedInOrder(urls: seq<string>)
    ensures InputUrls(InputArgs(urls)) == urls
  {
    if urls != [] {
      var front, last := urls[..|urls| - 1], urls[|urls| - 1];
      InputsAreNumberedInOrder(front);
      var args := InputArgs(front) + [AtNativeRate];
      assert InputArgs(urls) == args + [Input(last)];
      assert args[..|args| - 1] == InputArgs(front);
    }
  }

  /**
   The command of a fixed preset reads the inputs in their order and renders the preset's picture at the size the
   layout asks for, by default 1920 by 1080. What is heard is the mix if there is one, and the first input otherwise.
   */
  lemma CommandRenders(layout: Layout, urls: seq<string>, outputs: seq<string>)
    requires IsFixed(layout.preset)
    ensures var cmd := CommandFor(layout, urls, outputs);
            var W := match layout.outputWidth case Some(w) => w case None => 1920;
            var H := match layout.outputHeight case Some(h) => h case None => 1080;
            var picture := PresetPicture(layout.preset, |urls|, W, H);
            && InputUrls(cmd.inputArgs) == urls && cmd.outputs == outputs
            && cmd.plan.graph.Some? && Correct(cmd.plan.graph.value, |urls|, cmd.plan.audio, picture)
            && cmd.plan.audio == if picture.heard > 0 then Mixed else FirstInput
  {
    InputsAreNumberedInOrder(urls);
    PresetsCorrect(layout, |urls|, Width(layout), Height(layout));
    hide Correct, InputUrls, InputArgs;
  }

  /** The command of a custom layout that runs paints the layout, at the size it asks for; the first input is heard. */
  lemma CommandPaintsLayout(layout: Layout, urls: seq<string>, outputs: seq<string>)
    requires layout.preset == Custom && layout.regions.Some? && |layout.regions.value| >= 2
    ensures var cmd := CommandFor(layout, urls, outputs);
            var W := match layout.outputWidth case Some(w) => w case None => 1920;
            var H := match layout.outputHeight case Some(h) => h case None => 1080;
            && cmd.plan.graph.Some? && cmd.plan.audio == FirstInput
            && var st := Run(cmd.plan.graph.value, |urls|);
               && (st.Some? <==> RegionsDrawable(layout.regions.value, W, H, |urls|))
               && (st.Some? ==>
                     && st.value.live.Keys == {Out} && st.value.live[Out].Video?
                     && forall px, py :: 0 <= px < W && 0 <= py < H ==>
                          st.value.live[Out].image.at(px, py) == LayoutPixel(layout.regions.value, W, H, px, py))
  {
    hide CustomGraph, Run, RegionsDrawable, LayoutPixel, InputArgs;
    CustomGraphPaintsLayout(layout.regions.value, Width(layout), Height(layout), |urls|);
  }

  /** The other layouts, and a custom one without regions, pass their first input through. */
  lemma CommandPassesThroughIff(layout: Layout, urls: seq<string>, outputs: seq<string>)
    ensures CommandFor(layout, urls, outputs).plan == Plan(None, NoAudio) <==>
            !IsFixed(layout.preset) && (layout.preset == Custom ==> layout.regions.None? || |layout.regions.value| == 0)
  {
  }

  /**
   FFmpeg accepts the command: there is an input, and a filter graph, if there is one, runs on the command's
   inputs, provides each link the command maps, and leaves no other link unconnected.
   */
  predicate Accepts(cmd: Command) {
    var inputs := |InputUrls(cmd.inputArgs)|;
    match cmd.plan.graph
    case None => inputs > 0
    case Some(graph) =>
      var st := Run(graph, inputs);
      st.Some? && st.value.live.Keys == MappedLinks(cmd.plan.audio)
  }

  /** `defaultSourceKeys`: the stream keys used when the caller names none. */
  method DefaultSourceKeys(layout: Layout, keyOf: nat -> string) returns (keys: seq<string>)
    ensures |keys| == DefaultSources(layout) && forall i :: 0 <= i < |keys| ==> keys[i] == keyOf(i)
  {
    var count := if layout.regions.Some? then |layout.regions.value| else 2;
    if layout.preset == Studio { count := 3; }
    if layout.preset == TripleH { count := 3; }
    if layout.preset == Grid4 { count := 4; }
    keys := seq(count, i requires 0 <= i < count => keyOf(i));
  }

  function DefaultSources(layout: Layout): nat {
    match layout.preset
    case Studio => 3
    case TripleH => 3
    case Grid4 => 4
    case _ => if layout.regions.Some? then |layout.regions.value| else 2
  }

  /**
   The default sources of a fixed preset without regions are one for each tile it can show, in order; the presets that
   do not bring their own number of sources get one for each region.
   */
  lemma DefaultsFillLayout(layout: Layout, more: nat, W: int, H: int)
    requires more >= 3
    ensures layout.preset in {Studio, TripleH, Grid4} || (IsFixed(layout.preset) && layout.regions.None?) ==>
              var tiles := PresetPicture(layout.preset, more, W, H).tiles;
              DefaultSources(layout) == |tiles| && forall k :: 0 <= k < |tiles| ==> tiles[k].source == k
    ensures layout.preset !in {Studio, TripleH, Grid4} && layout.regions.Some? ==>
              DefaultSources(layout) == |layout.regions.value|
    ensures !IsFixed(layout.preset) && layout.regions.None? ==> DefaultSources(layout) == 2
  {
  }

  /** What a caller can check about a layout before starting a hub with the default sources. */
  predicate HubReady(layout: Layout) {
    var W, H := Width(layout), Height(layout);
    match layout.preset
    case Full => layout.regions != Some([])
    case Other => layout.regions != Some([])
    case Custom =>
      layout.regions.None? ||
      (|layout.regions.value| >= 2 && RegionsDrawable(layout.regions.value, W, H, |layout.regions.value|))
    case Studio => W >= 2 && H >= 2
    case TripleH => W >= 3 && H >= 1
    case Grid4 => W >= 2 && H >= 2
    case Pip => W >= 2 && H >= 2 && (layout.regions.None? || |layout.regions.value| >= 2)
    case SplitH => W >= 2 && H >= 1 && (layout.regions.None? || |layout.regions.value| >= 2)
    case SplitV => W >= 1 && H >= 2 && (layout.regions.None? || |layout.regions.value| >= 2)
  }

  /**
   The composite hub started with default sources gets a command FFmpeg accepts exactly when the layout is
   ready. The exceptions are the code's: a custom layout of one region maps an [out] that its graph never
   writes, and a two-source preset that carries fewer than two regions is given too few inputs.
   */
  lemma DefaultHubAccepted(layout: Layout, urls: seq<string>, outputs: seq<string>)
    requires |urls| == DefaultSources(layout)
    ensures Accepts(CommandFor(layout, urls, outputs)) <==> HubReady(layout)
  {
    var W, H, inputs := Width(layout), Height(layout), |urls|;
    InputsAreNumberedInOrder(urls);
    if IsFixed(layout.preset) {
      PresetsCorrect(layout, inputs, W, H);
      FixedDrawable(layout, inputs);
    } else if layout.preset == Custom && layout.regions.Some? && layout.regions.value != [] {
      CustomGraphPaintsLayout(layout.regions.value, W, H, inputs);
    }
  }

  lemma FixedDrawable(layout: Layout, inputs: nat)
    requires IsFixed(layout.preset) && inputs == DefaultSources(layout)
    ensures var tiles := PresetPicture(layout.preset, inputs, Width(layout), Height(layout)).tiles;
            AllDrawable(tiles, |tiles|, inputs) <==> HubReady(layout)
  {
    var W, H := Width(layout), Height(layout);
    var tiles := PresetPicture(layout.preset, inputs, W, H).tiles;
    assert |tiles| >= 2;
    assert AllDrawable(tiles, |tiles|, inputs) ==> Drawable(tiles[0], inputs) && Drawable(tiles[1], inputs);
  }
}
