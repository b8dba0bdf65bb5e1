/** The Horizon object: the fields its constructor sets, the stave `px` that
    preparation allocates and `getData` fills from the prepared image, and
    the track `linear` builds from the stave. */
module HorizonModel {
  import opened Config
  import opened NoteMapping

  /** The prepared image as the pixel reader sees it: the red channel of
      the pixel at (x, y). Reading, flipping, resizing and inverting the
      image happen before this and are not modelled. */
  type Picture = (int, int) -> Channel

  /** `new Array(n)` throws a RangeError unless n is a valid array length,
      0 .. 2^32 - 1. */
  predicate ValidArrayLength(n: int)
  {
    0 <= n < 0x1_0000_0000
  }

  /** Allocating staveX columns of staveY cells succeeds. The inner arrays
      are made once per column, so with no columns staveY is never looked at. */
  predicate StaveAllocates(w: int, h: int)
  {
    ValidArrayLength(w) && (w == 0 || ValidArrayLength(h))
  }

  /** The stave `getData` reads from picture p: column x, row y holds the
      red value of pixel (x, y). */
  function PictureGrid(p: Picture, w: nat, h: nat): (g: Grid)
    ensures Shaped(g, w, h)
  {
    seq(w, x requires 0 <= x < w => seq(h, y requires 0 <= y < h => Some(p(x, y))))
  }

  /** The contents of a stave array as a sequence of columns. */
  ghost function StaveOf(a: array2<Option<Channel>>): (g: Grid)
    reads a
    ensures Shaped(g, a.Length0, a.Length1)
  {
    seq(a.Length0, x requires 0 <= x < a.Length0 reads a =>
      seq(a.Length1, y requires 0 <= y < a.Length1 reads a => a[x, y]))
  }

  class Horizon {
    var minVelocity: real
    var octaves: int
    var scale: seq<string>
    var staveX: Option<int>
    var staveY: int
    var timeFactor: int
    var contrast: real
    /** The prepared image; meaningful once Prepare has run. */
    var img: Picture
    /** The stave, indexed [x, y]; null until Prepare allocates it. */
    var px: array2?<Option<Channel>>
    /** The note events added so far. */
    var track: seq<Note>

    /** What the constructor establishes and every method keeps. */
    ghost predicate Valid()
      reads this
    {
      scale == Pentatonic && staveY == octaves * |scale| &&
      timeFactor != 0 && contrast == FixedContrast &&
      (px != null ==>
         staveX.Some? && px.Length0 == staveX.value &&
         px.Length1 == (if staveX.value == 0 then 0 else staveY))
    }

    /** The stave has been allocated: getData and linear may run. */
    ghost predicate Prepared()
      reads this
    {
      Valid() && px != null
    }

    /** The constructor applies the defaults of Config.Derive; construction
        with an unknown scale name fails there instead. */
    constructor (opts: Options)
      requires Derive(opts).Ok?
      ensures Valid() && px == null && track == []
      ensures minVelocity == Derive(opts).value.minVelocity
      ensures octaves == Derive(opts).value.octaves
      ensures scale == Derive(opts).value.scale
      ensures staveX == Derive(opts).value.staveX
      ensures staveY == Derive(opts).value.staveY
      ensures timeFactor == Derive(opts).value.timeFactor
      ensures contrast == Derive(opts).value.contrast
    {
      var s := Derive(opts).value;
      minVelocity := s.minVelocity;
      octaves := s.octaves;
      scale := s.scale;
      staveX := s.staveX;
      staveY := s.octaves * |s.scale|;
      timeFactor := s.timeFactor;
      contrast := FixedContrast;
      img := (x, y) => 0;
      px := null;
      track := [];
    }

    /** The part of preparation that is not image processing: a stave with
        no width takes the width of the source image, then `px` is allocated
        as staveX columns of staveY empty cells (a RangeError, ok == false,
        when a dimension is not a valid array length), and the processed
        image becomes the one `getData` reads. */
    method Prepare(sourceWidth: nat, processed: Picture) returns (ok: bool)
      requires Valid()
      modifies this
      ensures Valid()
      ensures staveX == if old(staveX).None? then Some(sourceWidth) else old(staveX)
      ensures ok <==> StaveAllocates(staveX.value, staveY)
      ensures ok ==> px != null && fresh(px) && img == processed
      ensures ok ==> forall x, y | 0 <= x < px.Length0 && 0 <= y < px.Length1 :: px[x, y] == None
      ensures !ok ==> px == old(px) && img == old(img)
      ensures minVelocity == old(minVelocity) && octaves == old(octaves) && scale == old(scale)
      ensures staveY == old(staveY) && timeFactor == old(timeFactor) && contrast == old(contrast)
      ensures track == old(track)
    {
      if staveX.None? {
        staveX := Some(sourceWidth);
      }
      var w := staveX.value;
      ok := StaveAllocates(w, staveY);
      if ok {
        var h := if w == 0 then 0 else staveY;
        px := new Option<Channel>[w, h]((x, y) => None);
        img := processed;
      }
    }

    /** Fills every cell of the stave with the red value of the pixel at the
        same position; nothing outside the stave exists to be written. */
    method GetData()
      requires Prepared()
      modifies px
      ensures forall x, y | 0 <= x < px.Length0 && 0 <= y < px.Length1 :: px[x, y] == Some(img(x, y))
      ensures StaveOf(px) == PictureGrid(img, px.Length0, px.Length1)
      ensures Prepared()
    {
      for x := 0 to staveX.value
        invariant forall i, j | 0 <= i < x && 0 <= j < px.Length1 :: px[i, j] == Some(img(i, j))
      {
        for y := 0 to staveY
          invariant forall i, j | 0 <= i < x && 0 <= j < px.Length1 :: px[i, j] == Some(img(i, j))
          invariant forall j | 0 <= j < y :: px[x, j] == Some(img(x, j))
        {
          px[x, y] := Some(img(x, y));
        }
      }
      ghost var g, p := StaveOf(px), PictureGrid(img, px.Length0, px.Length1);
      assert forall x | 0 <= x < px.Length0 :: g[x] == p[x];
    }

    /** Builds a fresh track from the stave: scanning slots left to right and
        each slot bottom row first, every cell whose velocity is above the
        threshold adds one note. */
    method Linear()
      requires Prepared()
      modifies this`track
      ensures Prepared()
      ensures track == Track(StaveOf(px), minVelocity, timeFactor)
    {
      ghost var g := StaveOf(px);
      track := [];
      for x := 0 to staveX.value
        invariant track == TrackUpTo(g, x, 0, minVelocity, timeFactor)
      {
        var start := (x + 1) * timeFactor;
        for y := 0 to staveY
          invariant track == TrackUpTo(g, x, y, minVelocity, timeFactor)
        {
          TrackUpToStep(g, x, y, minVelocity, timeFactor);
          match px[x, y]
          case None =>
            // undefined / 255 * 100 is NaN, and NaN > minVelocity is false
          case Some(red) =>
            var velocity := (red as real / 255.0) * 100.0;
            if velocity > minVelocity {
              var pitch := y % |scale|;
              var octave := y / |scale| + 1;
              track := track + [Note(scale[pitch], octave, velocity, timeFactor, start)];
            }
        }
        TrackUpToColumn(g, x, minVelocity, timeFactor);
      }
      assert TrackUpTo(g, |g|, 0, minVelocity, timeFactor) == Track(g, minVelocity, timeFactor);
    }
  }

  /** The notes `linear` has added once it has scanned the first x columns
      and the first y rows of column x. */
  function TrackUpTo(g: Grid, x: nat, y: nat, minVelocity: real, timeFactor: int): (t: seq<Note>)
    requires x <= |g| && (x < |g| ==> y <= |g[x]|) && (x == |g| ==> y == 0)
  {
    GridCellsSound(g, x, minVelocity);
    if x == |g| then Notes(g, GridCells(g, x, minVelocity), timeFactor)
    else
      ColumnCellsSound(g, x, y, minVelocity);
      NotesAppend(g, GridCells(g, x, minVelocity), ColumnCells(g, x, y, minVelocity), timeFactor);
      Notes(g, GridCells(g, x, minVelocity) + ColumnCells(g, x, y, minVelocity), timeFactor)
  }

  /** Scanning cell (x, y) adds its note exactly when it sounds. */
  lemma TrackUpToStep(g: Grid, x: nat, y: nat, minVelocity: real, timeFactor: int)
    requires x < |g| && y < |g[x]|
    ensures TrackUpTo(g, x, y + 1, minVelocity, timeFactor) ==
      TrackUpTo(g, x, y, minVelocity, timeFactor) +
      (if Emits(g[x][y], minVelocity) then [NoteAt(x, y, g[x][y].value, timeFactor)] else [])
  {
  }

  /** Finishing column x is starting column x + 1. */
  lemma TrackUpToColumn(g: Grid, x: nat, minVelocity: real, timeFactor: int)
    requires x < |g|
    ensures TrackUpTo(g, x, |g[x]|, minVelocity, timeFactor) == TrackUpTo(g, x + 1, 0, minVelocity, timeFactor)
  {
  }
}
