/** Option handling of the Horizon constructor: which fields a conversion run
    starts with, given the options object the caller passes in. */
module Config {

  datatype Option<T> = None | Some(value: T)

  datatype Result<T, E> = Ok(value: T) | Err(error: E)

  /** The only entry of the scale table: a pentatonic scale starting on A. */
  const Pentatonic: seq<string> := ["A", "C", "D", "E", "G"]

  const DefaultScaleName: string := "pentatonic"
  const DefaultMinVelocity: real := 10.0
  const DefaultOctaves: int := 7
  const DefaultTimeFactor: int := 25
  /** The contrast handed to the image pipeline; no option changes it. */
  const FixedContrast: real := 0.5

  /** The options a caller may pass. `None` is an absent property. Numbers are
      whole except the velocity threshold. */
  datatype Options = Options(
    minVelocity: Option<real>,
    octaves: Option<int>,
    scale: Option<string>,
    x: Option<int>,
    timeFactor: Option<int>)

  const NoOptions: Options := Options(None, None, None, None, None)

  /** The fields a successfully constructed Horizon holds. `staveX` is `None`
      where the object holds `null` (take the width from the image later). */
  datatype Settings = Settings(
    minVelocity: real,
    octaves: int,
    scale: seq<string>,
    staveX: Option<int>,
    staveY: int,
    timeFactor: int,
    contrast: real)

  /** Looking up an unknown scale name yields `undefined`, whose `length`
      then throws a TypeError. */
  datatype ConfigError = UnknownScale(name: string)

  /** JavaScript truthiness of an optional number or string. */
  predicate TruthyInt(o: Option<int>) { o.Some? && o.value != 0 }
  predicate TruthyReal(o: Option<real>) { o.Some? && o.value != 0.0 }
  predicate TruthyString(o: Option<string>) { o.Some? && o.value != "" }

  /** `option || fallback` for a numeric option. */
  function IntOr(o: Option<int>, fallback: int): (r: int)
  {
    if TruthyInt(o) then o.value else fallback
  }

  function RealOr(o: Option<real>, fallback: real): (r: real)
  {
    if TruthyReal(o) then o.value else fallback
  }

  /** The scale name the constructor looks up. */
  function ScaleName(opts: Options): (name: string)
  {
    if TruthyString(opts.scale) then opts.scale.value else DefaultScaleName
  }

  /** The scale table, keyed by name. */
  function Scales(name: string): (scale: Option<seq<string>>)
  {
    if name == DefaultScaleName then Some(Pentatonic) else None
  }

  /** The field values the constructor assigns, or the error it throws. */
  function Derive(opts: Options): (r: Result<Settings, ConfigError>)
    ensures r.Ok? <==> ScaleName(opts) == DefaultScaleName
    ensures r.Err? ==> r.error == UnknownScale(ScaleName(opts))
    ensures r.Ok? ==> r.value.scale == Pentatonic
    ensures r.Ok? ==> r.value.staveY == r.value.octaves * |r.value.scale|
    ensures r.Ok? ==> r.value.contrast == FixedContrast
    // every falsy option was replaced, so none of these fields is zero
    ensures r.Ok? ==> r.value.octaves != 0 && r.value.timeFactor != 0 && r.value.minVelocity != 0.0
    ensures r.Ok? ==> (r.value.staveX.Some? ==> r.value.staveX.value != 0)
  {
    match Scales(ScaleName(opts))
    case None => Err(UnknownScale(ScaleName(opts)))
    case Some(scale) =>
      var octaves := IntOr(opts.octaves, DefaultOctaves);
      Ok(Settings(
        minVelocity := RealOr(opts.minVelocity, DefaultMinVelocity),
        octaves := octaves,
        scale := scale,
        staveX := if TruthyInt(opts.x) then Some(opts.x.value) else None,
        staveY := octaves * |scale|,
        timeFactor := IntOr(opts.timeFactor, DefaultTimeFactor),
        contrast := FixedContrast))
  }

  /** With no options at all: threshold 10, seven octaves of five notes (a
      stave 35 rows high), 25 ticks per slot, width from the image. */
  lemma DefaultSettings()
    ensures Derive(NoOptions) == Ok(Settings(10.0, 7, Pentatonic, None, 35, 25, 0.5))
  {
  }

  /** An option given as zero (or the empty scale name) behaves exactly as an
      absent one. */
  lemma ZeroMeansDefault(opts: Options)
    ensures Derive(opts.(minVelocity := Some(0.0))) == Derive(opts.(minVelocity := None))
    ensures Derive(opts.(octaves := Some(0))) == Derive(opts.(octaves := None))
    ensures Derive(opts.(x := Some(0))) == Derive(opts.(x := None))
    ensures Derive(opts.(timeFactor := Some(0))) == Derive(opts.(timeFactor := None))
    ensures Derive(opts.(scale := Some(""))) == Derive(opts.(scale := None))
  {
  }

  /** Each option is looked at on its own: a truthy one is taken as it is,
      any other gives way to its default, whatever the other options are. The
      contrast is 0.5 whatever the options say. */
  lemma TruthyOptionsKept(opts: Options)
    requires ScaleName(opts) == DefaultScaleName
    ensures Derive(opts).Ok?
    ensures Derive(opts).value.minVelocity ==
      (if TruthyReal(opts.minVelocity) then opts.minVelocity.value else DefaultMinVelocity)
    ensures Derive(opts).value.octaves ==
      (if TruthyInt(opts.octaves) then opts.octaves.value else DefaultOctaves)
    ensures Derive(opts).value.staveX ==
      (if TruthyInt(opts.x) then Some(opts.x.value) else None)
    ensures Derive(opts).value.staveY == Derive(opts).value.octaves * 5
    ensures Derive(opts).value.timeFactor ==
      (if TruthyInt(opts.timeFactor) then opts.timeFactor.value else DefaultTimeFactor)
    ensures Derive(opts).value.scale == Pentatonic
    ensures Derive(opts).value.contrast == FixedContrast
  {
  }
}
