/** The stimulus descriptions the programs generate and the renderers draw:
    every stimulus has a type tag, a lifespan in seconds, a background colour
    and free-form metadata; some types carry more. */
module Stimuli {

  /** A metadata value: a string (a group or cohort id, a label, a class), a
      flag (`block: true`), or `undefined` stored under a key. */
  datatype MetaValue = Str(s: string) | Flag(b: bool) | Undefined

  /** The metadata keys the programs set (`group`, `cohort`, `block`,
      `class`, `target` and `label`, the last two held as `stimulusClass` and
      `stimulusLabel`); a key a stimulus does not set reads as
      `undefined`, as a missing property does in JavaScript. */
  datatype Metadata = Metadata(group: MetaValue, cohort: MetaValue, block: MetaValue, stimulusClass: MetaValue,
                               target: MetaValue, stimulusLabel: MetaValue)

  /** `{}`: no key set. */
  const NoMetadata := Metadata(Undefined, Undefined, Undefined, Undefined, Undefined, Undefined)

  /** The type tags and colours the programs use. */
  const WAIT_TYPE: string := "WAIT"
  const SOLID_TYPE: string := "SOLID"
  const CHECKERBOARD_TYPE: string := "CHECKERBOARD"
  const TILED_LETTER_TYPE: string := "TILED_LETTER"
  const GRATING_TYPE: string := "SINUSOIDAL_GRATING"
  const WHITE: string := "white"
  const BLACK: string := "black"

  /** What the stimulus types add to the common fields. */
  datatype Shape =
    | Plain
    | CheckerboardShape(color: string, alternateColor: string, size: real, angle: real)
    | TiledLetterShape(letter: string, size: real, padding: real, color: string, angle: real)
    | GratingShape(speed: real, width: real, angle: real, barColor: string)
    | ImageShape(image: string)

  datatype Stimulus = Stimulus(stimulusType: string, lifespan: real, backgroundColor: string,
                               metadata: Metadata, shape: Shape)

  /** `new Wait(lifespan, metadata)`: a black screen. */
  function Wait(lifespan: real, metadata: Metadata): Stimulus
  {
    Stimulus(WAIT_TYPE, lifespan, BLACK, metadata, Plain)
  }

  /** `new Solid(lifespan, backgroundColor, metadata)`. */
  function Solid(lifespan: real, backgroundColor: string, metadata: Metadata): Stimulus
  {
    Stimulus(SOLID_TYPE, lifespan, backgroundColor, metadata, Plain)
  }

  /** `new Checkerboard(...)`: the alternate colour is the background. */
  function Checkerboard(lifespan: real, color: string, alternateColor: string, size: real, angle: real,
                        metadata: Metadata): Stimulus
  {
    Stimulus(CHECKERBOARD_TYPE, lifespan, alternateColor, metadata, CheckerboardShape(color, alternateColor, size, angle))
  }

  /** `new TiledLetter(...)`. */
  function TiledLetter(lifespan: real, backgroundColor: string, letter: string, size: real, padding: real,
                       color: string, angle: real, metadata: Metadata): Stimulus
  {
    Stimulus(TILED_LETTER_TYPE, lifespan, backgroundColor, metadata, TiledLetterShape(letter, size, padding, color, angle))
  }

  /** `new SinusoidalGrating(...)`. */
  function SinusoidalGrating(lifespan: real, backgroundColor: string, speed: real, width: real, angle: real,
                             barColor: string, metadata: Metadata): Stimulus
  {
    Stimulus(GRATING_TYPE, lifespan, backgroundColor, metadata, GratingShape(speed, width, angle, barColor))
  }

  /** `s.metadata.block === undefined`. */
  predicate Unblocked(s: Stimulus) {
    s.metadata.block == Undefined
  }
}
