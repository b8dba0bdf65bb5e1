# midi-horizon: a Dafny model of the image-to-MIDI mapping

midi-horizon turns a picture into a MIDI score. Each column of a prepared,
greyscaled image is a time slot and each row a pitch of a pentatonic scale
(A C D E G) spread over several octaves. `src/Horizon.mjs` holds the whole
mapping in one class, `Horizon`:

- the constructor derives its fields from an options object: defaults through
  JavaScript's `||` (so a zero option falls back to the default), the scale
  looked up by name, a stave `octaves × 5` rows high, a fixed contrast of 0.5;
- `prepare` reads and processes the image, takes the stave width from it when
  none was given, and allocates the stave `px` (`staveX` columns of `staveY`
  cells);
- `getData` fills `px[x][y]` with the red channel of pixel (x, y);
- `linear` scans the stave, slot by slot and within a slot from the bottom
  row up, and adds a note event to a fresh track for every cell whose
  velocity `px / 255 × 100` is strictly greater than `minVelocity`: pitch
  letter `scale[y mod 5]`, octave `floor(y / 5) + 1`, start tick
  `(x + 1) × timeFactor`, duration `'T' + timeFactor`.

The model has three modules:

- `Config` (config.dfy): the options, the scale table and `Derive`, which
  gives the constructor's field values or the TypeError an unknown scale name
  causes.
- `NoteMapping` (note_mapping.dfy): velocity, pitch and start tick of a cell
  as functions; the sounding cells of a stave in scan order (`GridCells`) and
  the track they give (`Track`); the lemmas that say which notes the track
  holds, in what order and within what bounds.
- `HorizonModel` (horizon.dfy): the `Horizon` class with the constructor's
  fields, the stave as an `array2`, and the methods `Prepare` (the stave
  allocation part of `prepare`), `GetData` and `Linear`, each proved against
  the functions above. `Linear` is proved to build exactly
  `Track(stave, minVelocity, timeFactor)`, so every lemma about `Track`
  holds of the track the object ends with.

Of the repository's test files, only src/index.spec.js is written against
this version of the class (it runs `prepare` and `getData`); the others
target other versions. Where they, or other descriptions of the system,
differ from src/Horizon.mjs, the model follows src/Horizon.mjs: the start
tick is `(x + 1) × timeFactor`, not `x × timeFactor`; the velocity is the
unrounded percentage `px × 100 / 255`, not a value floored and scaled to
127; the threshold is strict (`>`); and there is no run merging
("sustain"), highest-note extraction or colour chords, because this version
of the class has none of them.

## Model

| member | source | states |
|---|---|---|
| Config.Derive | src/Horizon.mjs:24-35 | among the modelled options, construction fails exactly when the scale name (after the `'pentatonic'` default) is not in the table; on success the scale is the pentatonic one, `staveY == octaves × 5`, the contrast is 0.5, and octaves, timeFactor, minVelocity and a given staveX are never zero because zero falls back |
| Config.DefaultSettings | src/Horizon.mjs:25-35 | with no option other than the paths: minVelocity 10, 7 octaves, staveX null, staveY 35, timeFactor 25, contrast 0.5 |
| Config.ZeroMeansDefault | src/Horizon.mjs:25-34 | an option given as 0 (or an empty scale name) yields the same object as an absent one |
| Config.TruthyOptionsKept | src/Horizon.mjs:25-35 | with the default scale, each numeric option on its own is kept when nonzero and otherwise replaced by its default (minVelocity 10, octaves 7, staveX null, timeFactor 25), whatever the other options are; staveY is the resulting octaves × 5 and the contrast stays 0.5 |
| NoteMapping.Velocity | src/Horizon.mjs:83 | a cell's velocity lies in 0 .. 100, is 0 exactly for a black cell and 100 exactly for full red |
| NoteMapping.EmitsIffAbovePercentage | src/Horizon.mjs:83-84 | a filled cell sounds iff red × 100 > minVelocity × 255 (strict) |
| NoteMapping.SilentCells | src/Horizon.mjs:83-84 | a black cell never sounds when minVelocity ≥ 0; no cell sounds when minVelocity ≥ 100 |
| NoteMapping.Letter | src/Horizon.mjs:85-89 | the pitch letter of every row is a letter of the scale |
| NoteMapping.OctaveRange | src/Horizon.mjs:86 | the octave of every row of a stave `octaves` scales high is in 1 .. octaves, 1 for the bottom row and `octaves` for the top one |
| NoteMapping.PitchIdentifiesRow | src/Horizon.mjs:85-89 | two rows with the same letter and octave are the same row |
| NoteMapping.StartTickIdentifiesSlot | src/Horizon.mjs:80 | with timeFactor ≠ 0, two slots with the same start tick are the same slot |
| NoteMapping.ColumnCellsSound | src/Horizon.mjs:82-84 | the sounding cells of one slot are exactly the cells there above the threshold, bottom row first, each once, at most one per row |
| NoteMapping.GridCellsSound | src/Horizon.mjs:79-84 | the sounding cells of the first m slots are exactly the cells there above the threshold, in strictly increasing (x, y) order |
| NoteMapping.GridCellsCount | src/Horizon.mjs:79-82 | m slots of a stave h rows high give at most m × h notes |
| NoteMapping.SoundsAtCell | src/Horizon.mjs:80-92 | with timeFactor ≠ 0, a note of the track that starts in slot x with the pitch of row y is the note of cell (x, y) |
| NoteMapping.NoteIffAboveThreshold | src/Horizon.mjs:79-94 | the track has a note starting in slot x with the pitch of row y iff that cell's velocity is strictly above minVelocity |
| NoteMapping.OneNotePerCell | src/Horizon.mjs:79-94 | at most one note of the track sounds at a cell, and it carries the cell's letter, octave, velocity, duration and start tick |
| NoteMapping.TrackEvents | src/Horizon.mjs:79-94 | a staveX × staveY stave gives at most staveX × staveY notes, each with a scale letter, an octave in 1 .. octaves, a velocity in (minVelocity, 100], duration timeFactor and start tick (x + 1) × timeFactor for a slot x < staveX |
| NoteMapping.TrackInScanOrder | src/Horizon.mjs:79-98 | the track is the notes of the sounding cells `GridCells(stave)`, one note per cell, and those cells are exactly the cells above the threshold, each once, in strictly increasing (x, y) order |
| NoteMapping.NoSoundingCellNoNotes | src/Horizon.mjs:79-98 | slots none of whose cells is above the threshold give no sounding cells, and a stave with no such cell gives an empty track |
| NoteMapping.SilentAtFullThreshold | src/Horizon.mjs:83-84 | with minVelocity ≥ 100 the track is empty for every stave |
| NoteMapping.BlackStaveSilent | src/Horizon.mjs:83-84 | an all-black stave gives an empty track under any minVelocity ≥ 0 |
| HorizonModel.Horizon.constructor | src/Horizon.mjs:24-35 | every field is the one `Config.Derive` gives; no stave is allocated and the track is empty |
| HorizonModel.Horizon.Prepare | src/Horizon.mjs:44-48 | a null staveX becomes the image width; the stave is allocated exactly when staveX is a valid array length and, if staveX > 0, staveY is one too (RangeError otherwise); it has staveX × staveY empty cells, and with staveX = 0 it is 0 × 0 and staveY is not looked at; no other field changes |
| HorizonModel.Horizon.GetData | src/Horizon.mjs:64-73 | afterwards every cell (x, y) of the stave holds the red value of pixel (x, y) of the prepared image, and only the stave changed; the object stays prepared |
| HorizonModel.Horizon.Linear | src/Horizon.mjs:75-99 | the track is replaced by exactly `Track(stave, minVelocity, timeFactor)`: one note per cell above the threshold, in (x, y) order; the object stays prepared |

## Left out

- Image processing in `prepare` (src/Horizon.mjs:42-43, 50-61): reading, flipping, contrast, greyscale, resizing, cropping, inverting and writing the image are an external image library; the model takes the source width and the processed image (a total function from (x, y) to a red value in 0 .. 255) as parameters of `Prepare`. The size assertions at lines 60-61 only log, so they are not modelled.
- `save` (src/Horizon.mjs:101-105) and the MIDI writer: the track is modelled as the sequence of note records `linear` adds, not as MIDI bytes.
- The input-file existence check (src/Horizon.mjs:37-39) and the output path handling (src/Horizon.mjs:30-33) are filesystem and path glue. In passing: `replace(/\.mid$/)` with no replacement argument replaces a trailing `.mid` by the text "undefined" rather than removing it.
- Config.Options has no `input` or `outputMidi` path. Construction also throws at src/Horizon.mjs:31 (`undefined.replace` when neither path is given) and at src/Horizon.mjs:37-38 (the input file does not exist), so `Config.Derive`'s success case and `Config.DefaultSettings` describe the fields only for a construction that gets past those path checks.
- NoteMapping.Note: the pitch string `scale[y mod 5] + octave` and the duration string `'T' + timeFactor` are kept as their parts (letter and octave; the tick count).
- Floating point: the velocity is the exact rational `red × 100 / 255` and start ticks are exact integers, so rounding at the threshold boundary is not modelled.
- Options are modelled as absent, a whole number (a real for minVelocity) or a string; NaN, fractional counts, other JavaScript types and inherited keys of the scale table (such as `constructor`) are not.
- HorizonModel.Horizon.constructor: requires that `Config.Derive` succeeds; the TypeError an unknown scale name throws is modelled by `Derive` returning `UnknownScale`, since a Dafny constructor cannot fail.
- HorizonModel.Horizon.Prepare: after a RangeError the image field keeps its old value, whereas the object would already hold the unprocessed image.
- HorizonModel.Horizon.GetData: requires a prepared object; called before `prepare` the source throws on the missing `px` (or does nothing while staveX is null).
- HorizonModel.Horizon.Linear: requires a prepared object for the same reason.
- The run-merging, highest-note, colour-chord, velocity-normalising and directory methods that the test files call do not exist in this version of src/Horizon.mjs and are not modelled.
