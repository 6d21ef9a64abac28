/**
 The part of FFmpeg's filter-graph language that the compositor emits, with a meaning: a program is run
 left to right over the links that are live, and every link carries a picture or an audio mix.
 Links are linear. A filter fails when a link it reads is not live, and when a link it writes was written before.
 */
module FilterGraph {
  import opened Wrappers

  /** Link labels, one constructor for each label the compositor writes. */
  datatype Label =
    | Scaled(i: nat) | Canvas | Layer(i: nat) | Out | AudioOut
    | Bg | Fg | Cam | Over | V1 | L | R | T | A | B | C | D | Top | Bot

  datatype Filter =
    | Scale(source: int, w: int, h: int, out: Label)
    | Color(w: int, h: int, out: Label)
    | Overlay(bg: Label, fg: Label, x: int, y: int, out: Label)
    | HStack(ins: seq<Label>, out: Label)
    | VStack(top: Label, bottom: Label, out: Label)
    | Copy(from: Label, out: Label)
    | AMix(sources: nat, out: Label)

  /** Black, or the pixel (x, y) of an input scaled to w by h. */
  datatype Pixel = Black | Sample(source: int, w: int, h: int, x: int, y: int)

  datatype Image = Image(w: int, h: int, at: (int, int) -> Pixel)

  /** An audio link carries the mix of inputs 0 .. sources. */
  datatype Stream = Video(image: Image) | Audio(sources: nat)

  datatype Links = Links(live: map<Label, Stream>, defined: set<Label>)

  const NoLinks := Links(map[], {})

  function ScaledSource(source: int, w: int, h: int): Image {
    Image(w, h, (x, y) => Sample(source, w, h, x, y))
  }

  function BlackImage(w: int, h: int): Image {
    Image(w, h, (x, y) => Black)
  }

  /** The foreground drawn at an offset, clipped to the background. */
  function OverlayImages(bg: Image, fg: Image, ox: int, oy: int): Image {
    Image(bg.w, bg.h, (x, y) =>
      if ox <= x < ox + fg.w && oy <= y < oy + fg.h then fg.at(x - ox, y - oy) else bg.at(x, y))
  }

  function Beside(left: Image, right: Image): Image {
    Image(left.w + right.w, left.h, (x, y) => if x < left.w then left.at(x, y) else right.at(x - left.w, y))
  }

  function Above(top: Image, bottom: Image): Image {
    Image(top.w, top.h + bottom.h, (x, y) => if y < top.h then top.at(x, y) else bottom.at(x, y - top.h))
  }

  predicate IsVideo(st: Links, link: Label) {
    link in st.live && st.live[link].Video?
  }

  function Emit(st: Links, consumed: set<Label>, out: Label, s: Stream): Option<Links> {
    if out in st.defined then None
    else Some(Links((st.live - consumed)[out := s], st.defined + {out}))
  }

  /** One picture from the listed links, left to right; all must be distinct, live and equally high. */
  function StackRow(st: Links, ins: seq<Label>): Option<Image> {
    if ins == [] || !IsVideo(st, ins[|ins| - 1]) then None
    else
      var last := st.live[ins[|ins| - 1]].image;
      if |ins| == 1 then Some(last)
      else
        match StackRow(st, ins[..|ins| - 1])
        case None => None
        case Some(left) =>
          if left.h != last.h || ins[|ins| - 1] in ins[..|ins| - 1] then None else Some(Beside(left, last))
  }

  /** One filter. `inputs` is the number of input files; explicit scale and canvas sizes must be positive. */
  function Exec(f: Filter, st: Links, inputs: nat): Option<Links> {
    match f
    case Scale(k, w, h, out) =>
      if 0 <= k < inputs && 0 < w && 0 < h then Emit(st, {}, out, Video(ScaledSource(k, w, h))) else None
    case Color(w, h, out) =>
      if 0 < w && 0 < h then Emit(st, {}, out, Video(BlackImage(w, h))) else None
    case Overlay(bg, fg, x, y, out) =>
      if bg != fg && IsVideo(st, bg) && IsVideo(st, fg)
      then Emit(st, {bg, fg}, out, Video(OverlayImages(st.live[bg].image, st.live[fg].image, x, y)))
      else None
    case HStack(ins, out) =>
      (match StackRow(st, ins)
       case None => None
       case Some(image) => Emit(st, (set l | l in ins), out, Video(image)))
    case VStack(top, bottom, out) =>
      if top != bottom && IsVideo(st, top) && IsVideo(st, bottom)
         && st.live[top].image.w == st.live[bottom].image.w
      then Emit(st, {top, bottom}, out, Video(Above(st.live[top].image, st.live[bottom].image)))
      else None
    case Copy(from, out) =>
      if IsVideo(st, from) then Emit(st, {from}, out, st.live[from]) else None
    case AMix(sources, out) =>
      if 0 < sources <= inputs then Emit(st, {}, out, Audio(sources)) else None
  }

  /** A whole program, from no links at all. */
  function Run(fs: seq<Filter>, inputs: nat): Option<Links> {
    if fs == [] then Some(NoLinks)
    else
      match Run(fs[..|fs| - 1], inputs)
      case None => None
      case Some(st) => Exec(fs[|fs| - 1], st, inputs)
  }

  lemma RunSnoc(fs: seq<Filter>, f: Filter, inputs: nat)
    ensures Run(fs + [f], inputs) ==
            match Run(fs, inputs) case None => None case Some(st) => Exec(f, st, inputs)
  {
  }

  lemma {:induction false} FailedPrefix(fs: seq<Filter>, gs: seq<Filter>, inputs: nat)
    requires Run(fs, inputs).None?
    ensures Run(fs + gs, inputs).None?
  {
    if gs == [] {
      assert fs + gs == fs;
    } else {
      FailedPrefix(fs, gs[..|gs| - 1], inputs);
      RunSnoc(fs + gs[..|gs| - 1], gs[|gs| - 1], inputs);
      assert fs + gs == fs + gs[..|gs| - 1] + [gs[|gs| - 1]];
    }
  }

  // ---------------------------------------------------------------- what a picture shows

  /** A source scaled to w by h with its top left corner at (x, y). */
  datatype Tile = Tile(source: int, x: int, y: int, w: int, h: int) {
    predicate Covers(px: int, py: int) {
      x <= px < x + w && y <= py < y + h
    }

    function At(px: int, py: int): Pixel {
      Sample(source, w, h, px - x, py - y)
    }
  }

  /** The painter's rule: tiles drawn in order on black, a later tile hiding an earlier one. */
  function Paint(tiles: seq<Tile>, px: int, py: int): Pixel {
    if tiles == [] then Black
    else
      var last := tiles[|tiles| - 1];
      if last.Covers(px, py) then last.At(px, py) else Paint(tiles[..|tiles| - 1], px, py)
  }

  ghost predicate Shows(image: Image, w: int, h: int, tiles: seq<Tile>) {
    image.w == w && image.h == h &&
    forall px, py :: 0 <= px < w && 0 <= py < h ==> image.at(px, py) == Paint(tiles, px, py)
  }
}
