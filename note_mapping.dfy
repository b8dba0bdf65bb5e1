/** The pixel-to-note mapping of `linear`: which cells of the stave sound,
    with which pitch, velocity, start tick and duration, and in which order. */
module NoteMapping {
  import opened Config

  /** A red channel value read from the prepared image. */
  type Channel = c: int | 0 <= c <= 255

  /** The stave as `px` holds it, indexed [x][y]: x is the time slot, y the
      pitch row (0 lowest). `None` is a cell never filled (JavaScript
      `undefined`). */
  type Grid = seq<seq<Option<Channel>>>

  datatype Cell = Cell(x: nat, y: nat)

  /** One note event added to the track: pitch letter and octave (the pitch
      string is their concatenation), velocity, duration in ticks (the
      string 'T' followed by this number) and start tick. */
  datatype Note = Note(letter: string, octave: int, velocity: real, durationTicks: int, startTick: int)

  /** The velocity of a cell: its red value as a percentage of 255, unrounded. */
  function Velocity(red: Channel): (v: real)
    ensures 0.0 <= v <= 100.0
    ensures v == 0.0 <==> red == 0
    ensures v == 100.0 <==> red == 255
  {
    red as real / 255.0 * 100.0
  }

  /** Whether a cell produces a note. An unfilled cell gives NaN, and no
      comparison with NaN holds, so it never does. */
  predicate Emits(cell: Option<Channel>, minVelocity: real)
  {
    cell.Some? && Velocity(cell.value) > minVelocity
  }

  /** The threshold test in whole numbers: strictly more than minVelocity
      percent of full red. */
  lemma EmitsIffAbovePercentage(red: Channel, minVelocity: real)
    ensures Emits(Some(red), minVelocity) <==> red as real * 100.0 > minVelocity * 255.0
  {
  }

  /** A black cell is silent under any threshold that is not negative; with a
      threshold of 100 or more, no cell sounds. */
  lemma SilentCells(cell: Option<Channel>, minVelocity: real)
    ensures minVelocity >= 0.0 && cell == Some(0) ==> !Emits(cell, minVelocity)
    ensures minVelocity >= 100.0 ==> !Emits(cell, minVelocity)
  {
  }

  /** The pitch letter of row y: the scale degree y mod 5. */
  function Letter(y: nat): (l: string)
    ensures l in Pentatonic
  {
    Pentatonic[y % |Pentatonic|]
  }

  /** The octave of row y: one more than the number of whole scales below it. */
  function Octave(y: nat): (o: int)
  {
    y / |Pentatonic| + 1
  }

  /** Every row of a stave `octaves` scales high sounds in octave 1 ..
      octaves: the bottom row in octave 1, the top one in octave `octaves`. */
  lemma OctaveRange(y: nat, octaves: int)
    requires y < octaves * |Pentatonic|
    ensures 1 <= Octave(y) <= octaves
    ensures y == 0 ==> Octave(y) == 1
    ensures y == octaves * |Pentatonic| - 1 ==> Octave(y) == octaves
  {
  }

  /** Letter and octave together name the row: no two rows share a pitch. */
  lemma PitchIdentifiesRow(y1: nat, y2: nat)
    requires Letter(y1) == Letter(y2) && Octave(y1) == Octave(y2)
    ensures y1 == y2
  {
  }

  /** The start tick of slot x: slots are numbered from 1, so the first one
      starts at timeFactor rather than 0. */
  function StartTick(x: nat, timeFactor: int): (tick: int)
  {
    (x + 1) * timeFactor
  }

  /** With a nonzero tick factor, the start tick names the slot. */
  lemma StartTickIdentifiesSlot(x1: nat, x2: nat, timeFactor: int)
    requires timeFactor != 0
    requires StartTick(x1, timeFactor) == StartTick(x2, timeFactor)
    ensures x1 == x2
  {
  }

  /** The note cell (x, y) with the given red value produces. */
  function NoteAt(x: nat, y: nat, red: Channel, timeFactor: int): (n: Note)
  {
    Note(Letter(y), Octave(y), Velocity(red), timeFactor, StartTick(x, timeFactor))
  }

  /** `g` is staveX columns of staveY cells each. */
  predicate Shaped(g: Grid, w: nat, h: nat)
  {
    |g| == w && forall x | 0 <= x < w :: |g[x]| == h
  }

  /** Cell c lies in the grid and has been filled. */
  predicate Present(g: Grid, c: Cell)
  {
    c.x < |g| && c.y < |g[c.x]| && g[c.x][c.y].Some?
  }

  /** Cell a comes before cell b in the scan: x ascending, then y ascending. */
  predicate Before(a: Cell, b: Cell)
  {
    a.x < b.x || (a.x == b.x && a.y < b.y)
  }

  /** The sounding cells among rows 0 .. n-1 of column x, bottom row first. */
  function ColumnCells(g: Grid, x: nat, n: nat, minVelocity: real): (cs: seq<Cell>)
    requires x < |g| && n <= |g[x]|
    decreases n
  {
    if n == 0 then []
    else ColumnCells(g, x, n - 1, minVelocity)
         + (if Emits(g[x][n - 1], minVelocity) then [Cell(x, n - 1)] else [])
  }

  /** The sounding cells of columns 0 .. m-1, in scan order. */
  function GridCells(g: Grid, m: nat, minVelocity: real): (cs: seq<Cell>)
    requires m <= |g|
  {
    if m == 0 then []
    else GridCells(g, m - 1, minVelocity) + ColumnCells(g, m - 1, |g[m - 1]|, minVelocity)
  }

  /** Every cell of cs lies in the first m columns, has been filled, and
      sounds. */
  predicate CellsSound(g: Grid, cs: seq<Cell>, m: nat, minVelocity: real)
  {
    forall i | 0 <= i < |cs| ::
      cs[i].x < m && Present(g, cs[i]) && Emits(g[cs[i].x][cs[i].y], minVelocity)
  }

  /** Every cell of the first m columns that sounds is in cs. */
  predicate CellsComplete(g: Grid, cs: seq<Cell>, m: nat, minVelocity: real)
    requires m <= |g|
  {
    forall x, y | 0 <= x < m && 0 <= y < |g[x]| :: Emits(g[x][y], minVelocity) ==> Cell(x, y) in cs
  }

  /** cs is strictly increasing in scan order, so no cell occurs twice. */
  predicate InScanOrder(cs: seq<Cell>)
  {
    forall i, j | 0 <= i < j < |cs| :: Before(cs[i], cs[j])
  }

  /** The sounding cells of rows 0 .. n-1 of column x are exactly the cells
      there that sound, each once, bottom row first. */
  lemma {:induction false} ColumnCellsSound(g: Grid, x: nat, n: nat, minVelocity: real)
    requires x < |g| && n <= |g[x]|
    ensures |ColumnCells(g, x, n, minVelocity)| <= n
    ensures CellsSound(g, ColumnCells(g, x, n, minVelocity), x + 1, minVelocity)
    ensures forall c | c in ColumnCells(g, x, n, minVelocity) :: c.x == x && c.y < n
    ensures InScanOrder(ColumnCells(g, x, n, minVelocity))
    ensures forall y | 0 <= y < n :: Emits(g[x][y], minVelocity) ==> Cell(x, y) in ColumnCells(g, x, n, minVelocity)
  {
    if n > 0 {
      ColumnCellsSound(g, x, n - 1, minVelocity);
    }
  }

  /** The sounding cells of the first m columns are exactly the cells there
      that sound, each once, in scan order. */
  lemma {:induction false} GridCellsSound(g: Grid, m: nat, minVelocity: real)
    requires m <= |g|
    ensures CellsSound(g, GridCells(g, m, minVelocity), m, minVelocity)
    ensures CellsComplete(g, GridCells(g, m, minVelocity), m, minVelocity)
    ensures InScanOrder(GridCells(g, m, minVelocity))
  {
    if m > 0 {
      var prev, col := GridCells(g, m - 1, minVelocity), ColumnCells(g, m - 1, |g[m - 1]|, minVelocity);
      GridCellsSound(g, m - 1, minVelocity);
      ColumnCellsSound(g, m - 1, |g[m - 1]|, minVelocity);
      assert GridCells(g, m, minVelocity) == prev + col;
      forall i, j | 0 <= i < |prev| <= j < |prev + col|
        ensures Before((prev + col)[i], (prev + col)[j])
      {
        assert col[j - |prev|] in col;
      }
    }
  }

  /** At most one note per cell: the first m columns of a stave h rows high
      give at most m * h notes. */
  lemma {:induction false} GridCellsCount(g: Grid, w: nat, h: nat, m: nat, minVelocity: real)
    requires Shaped(g, w, h) && m <= w
    ensures |GridCells(g, m, minVelocity)| <= m * h
  {
    if m > 0 {
      GridCellsCount(g, w, h, m - 1, minVelocity);
      ColumnCellsSound(g, m - 1, h, minVelocity);
      assert (m - 1) * h + h == m * h;
    }
  }

  /** The notes of the given cells, one per cell, in the same order. */
  function Notes(g: Grid, cells: seq<Cell>, timeFactor: int): (t: seq<Note>)
    requires forall i | 0 <= i < |cells| :: Present(g, cells[i])
  {
    seq(|cells|, i requires 0 <= i < |cells| =>
      var c := cells[i];
      assert Present(g, c);
      NoteAt(c.x, c.y, g[c.x][c.y].value, timeFactor))
  }

  lemma NotesAppend(g: Grid, cells: seq<Cell>, more: seq<Cell>, timeFactor: int)
    requires forall i | 0 <= i < |cells| :: Present(g, cells[i])
    requires forall i | 0 <= i < |more| :: Present(g, more[i])
    ensures forall i | 0 <= i < |cells + more| :: Present(g, (cells + more)[i])
    ensures Notes(g, cells + more, timeFactor) == Notes(g, cells, timeFactor) + Notes(g, more, timeFactor)
  {
  }

  /** The track `linear` builds from the whole stave. */
  function Track(g: Grid, minVelocity: real, timeFactor: int): (t: seq<Note>)
  {
    GridCellsSound(g, |g|, minVelocity);
    Notes(g, GridCells(g, |g|, minVelocity), timeFactor)
  }

  /** Note i of track t sounds at cell (x, y): it starts in slot x and has
      the pitch of row y. */
  predicate SoundsAt(t: seq<Note>, i: int, x: nat, y: nat, timeFactor: int)
    requires 0 <= i < |t|
  {
    t[i].startTick == StartTick(x, timeFactor) && t[i].letter == Letter(y) && t[i].octave == Octave(y)
  }

  predicate Sounds(t: seq<Note>, x: nat, y: nat, timeFactor: int)
  {
    exists i | 0 <= i < |t| :: SoundsAt(t, i, x, y, timeFactor)
  }

  /** Every note of t that sounds at (x, y) is n, and at most one does. */
  predicate OnlyNoteAt(t: seq<Note>, x: nat, y: nat, timeFactor: int, n: Note)
  {
    (forall i | 0 <= i < |t| && SoundsAt(t, i, x, y, timeFactor) :: t[i] == n) &&
    (forall i, j | 0 <= i < j < |t| :: !(SoundsAt(t, i, x, y, timeFactor) && SoundsAt(t, j, x, y, timeFactor)))
  }

  /** A note of the track that starts in slot x with the pitch of row y
      comes from cell (x, y). */
  lemma SoundsAtCell(g: Grid, minVelocity: real, timeFactor: int, x: nat, y: nat, i: nat)
    requires timeFactor != 0
    requires i < |Track(g, minVelocity, timeFactor)|
    requires SoundsAt(Track(g, minVelocity, timeFactor), i, x, y, timeFactor)
    ensures i < |GridCells(g, |g|, minVelocity)| && GridCells(g, |g|, minVelocity)[i] == Cell(x, y)
  {
    var cs := GridCells(g, |g|, minVelocity);
    GridCellsSound(g, |g|, minVelocity);
    StartTickIdentifiesSlot(cs[i].x, x, timeFactor);
    PitchIdentifiesRow(cs[i].y, y);
  }

  /** The track holds a note for cell (x, y) if and only if the cell's
      velocity is strictly above the threshold. */
  lemma NoteIffAboveThreshold(g: Grid, minVelocity: real, timeFactor: int, x: nat, y: nat)
    requires x < |g| && y < |g[x]| && timeFactor != 0
    ensures Sounds(Track(g, minVelocity, timeFactor), x, y, timeFactor) <==> Emits(g[x][y], minVelocity)
  {
    var cs := GridCells(g, |g|, minVelocity);
    var t := Track(g, minVelocity, timeFactor);
    GridCellsSound(g, |g|, minVelocity);
    if Sounds(t, x, y, timeFactor) {
      var i :| 0 <= i < |t| && SoundsAt(t, i, x, y, timeFactor);
      SoundsAtCell(g, minVelocity, timeFactor, x, y, i);
    }
    if Emits(g[x][y], minVelocity) {
      var k :| 0 <= k < |cs| && cs[k] == Cell(x, y);
      assert SoundsAt(t, k, x, y, timeFactor);
    }
  }

  /** Whatever note of the track sounds at a filled cell (x, y) is the one
      the cell's value gives, and no second note sounds there. */
  lemma OneNotePerCell(g: Grid, minVelocity: real, timeFactor: int, x: nat, y: nat)
    requires x < |g| && y < |g[x]| && g[x][y].Some? && timeFactor != 0
    ensures OnlyNoteAt(Track(g, minVelocity, timeFactor), x, y, timeFactor, NoteAt(x, y, g[x][y].value, timeFactor))
  {
    var cs := GridCells(g, |g|, minVelocity);
    var t := Track(g, minVelocity, timeFactor);
    GridCellsSound(g, |g|, minVelocity);
    forall i | 0 <= i < |t| && SoundsAt(t, i, x, y, timeFactor)
      ensures t[i] == NoteAt(x, y, g[x][y].value, timeFactor)
    {
      SoundsAtCell(g, minVelocity, timeFactor, x, y, i);
    }
    forall i, j | 0 <= i < j < |t|
      ensures !(SoundsAt(t, i, x, y, timeFactor) && SoundsAt(t, j, x, y, timeFactor))
    {
      if SoundsAt(t, i, x, y, timeFactor) && SoundsAt(t, j, x, y, timeFactor) {
        SoundsAtCell(g, minVelocity, timeFactor, x, y, i);
        SoundsAtCell(g, minVelocity, timeFactor, x, y, j);
      }
    }
  }

  /** What every note of a track for a stave w slots wide and `octaves`
      scales high carries: a scale letter in octave 1 .. octaves, a velocity
      above the threshold and at most 100, the duration of one slot, and the
      start tick of one of the w slots. */
  predicate EventsInRange(t: seq<Note>, w: nat, octaves: int, minVelocity: real, timeFactor: int)
  {
    forall i | 0 <= i < |t| ::
      t[i].letter in Pentatonic &&
      1 <= t[i].octave <= octaves &&
      minVelocity < t[i].velocity <= 100.0 &&
      t[i].durationTicks == timeFactor &&
      exists x: nat | x < w :: t[i].startTick == StartTick(x, timeFactor)
  }

  /** The track of a w by h stave has at most w * h notes, each in range. */
  lemma TrackEvents(g: Grid, w: nat, h: nat, octaves: int, minVelocity: real, timeFactor: int)
    requires Shaped(g, w, h) && h == octaves * |Pentatonic|
    ensures |Track(g, minVelocity, timeFactor)| <= w * h
    ensures EventsInRange(Track(g, minVelocity, timeFactor), w, octaves, minVelocity, timeFactor)
  {
    var cs := GridCells(g, |g|, minVelocity);
    var t := Track(g, minVelocity, timeFactor);
    GridCellsSound(g, w, minVelocity);
    GridCellsCount(g, w, h, w, minVelocity);
    forall i | 0 <= i < |t|
      ensures 1 <= t[i].octave <= octaves
      ensures exists x: nat | x < w :: t[i].startTick == StartTick(x, timeFactor)
    {
      OctaveRange(cs[i].y, octaves);
      assert t[i].startTick == StartTick(cs[i].x, timeFactor);
    }
  }

  /** t is the notes of the cells cs, one each, in the same order. */
  predicate NotesOfCells(g: Grid, cs: seq<Cell>, t: seq<Note>, timeFactor: int)
  {
    |cs| == |t| &&
    forall i | 0 <= i < |cs| ::
      Present(g, cs[i]) && t[i] == NoteAt(cs[i].x, cs[i].y, g[cs[i].x][cs[i].y].value, timeFactor)
  }

  /** The notes come in scan order, one per sounding cell: the track is the
      notes of the sounding cells of the stave, which are every cell above
      the threshold, each once, in strictly increasing (x, y) order. */
  lemma TrackInScanOrder(g: Grid, minVelocity: real, timeFactor: int)
    ensures NotesOfCells(g, GridCells(g, |g|, minVelocity), Track(g, minVelocity, timeFactor), timeFactor)
    ensures CellsSound(g, GridCells(g, |g|, minVelocity), |g|, minVelocity)
    ensures CellsComplete(g, GridCells(g, |g|, minVelocity), |g|, minVelocity)
    ensures InScanOrder(GridCells(g, |g|, minVelocity))
  {
    GridCellsSound(g, |g|, minVelocity);
  }

  /** Slots none of whose cells sounds give no sounding cells; for the whole
      stave, an empty track. */
  lemma {:induction false} NoSoundingCellNoNotes(g: Grid, m: nat, minVelocity: real, timeFactor: int)
    requires m <= |g|
    requires forall x, y | 0 <= x < m && 0 <= y < |g[x]| :: !Emits(g[x][y], minVelocity)
    ensures GridCells(g, m, minVelocity) == []
    ensures m == |g| ==> Track(g, minVelocity, timeFactor) == []
  {
    if m > 0 {
      NoSoundingCellNoNotes(g, m - 1, minVelocity, timeFactor);
      SilentColumn(g, m - 1, |g[m - 1]|, minVelocity);
    }
  }

  lemma {:induction false} SilentColumn(g: Grid, x: nat, n: nat, minVelocity: real)
    requires x < |g| && n <= |g[x]|
    requires forall y | 0 <= y < n :: !Emits(g[x][y], minVelocity)
    ensures ColumnCells(g, x, n, minVelocity) == []
  {
    if n > 0 {
      SilentColumn(g, x, n - 1, minVelocity);
    }
  }

  /** A threshold of 100 or more silences every stave. */
  lemma SilentAtFullThreshold(g: Grid, minVelocity: real, timeFactor: int)
    requires minVelocity >= 100.0
    ensures Track(g, minVelocity, timeFactor) == []
  {
    forall x, y | 0 <= x < |g| && 0 <= y < |g[x]| ensures !Emits(g[x][y], minVelocity) {
      SilentCells(g[x][y], minVelocity);
    }
    NoSoundingCellNoNotes(g, |g|, minVelocity, timeFactor);
  }

  /** A black stave is silent under any threshold that is not negative. */
  lemma BlackStaveSilent(g: Grid, minVelocity: real, timeFactor: int)
    requires minVelocity >= 0.0
    requires forall x, y | 0 <= x < |g| && 0 <= y < |g[x]| :: g[x][y] == Some(0)
    ensures Track(g, minVelocity, timeFactor) == []
  {
    forall x, y | 0 <= x < |g| && 0 <= y < |g[x]| ensures !Emits(g[x][y], minVelocity) {
      SilentCells(g[x][y], minVelocity);
    }
    NoSoundingCellNoNotes(g, |g|, minVelocity, timeFactor);
  }
}
