/** The recorder's renderer factory (`createRenderer`): one renderer class per
    stimulus type tag. */
module RendererFactory {
  import opened Wrappers
  import opened Stimuli

  datatype RendererClass =
    | BarRenderer | CheckerboardRenderer | ChirpRenderer | EyeChartRenderer | GratingRenderer
    | ImageRenderer | LetterRenderer | SinusoidalGratingRenderer | SolidRenderer
    | TiledLetterRenderer | WaitRenderer | WhiteNoiseRenderer

  /** A constructed renderer: its class and the arguments it was given. */
  datatype Renderer<V> = Renderer(cls: RendererClass, stimulus: Stimulus, videoInfo: V)

  const TAGS: set<string> := {"BAR", "CHECKERBOARD", "CHIRP", "EYECHART", "GRATING", "IMAGE", "LETTER",
                              "SINUSOIDAL_GRATING", "SOLID", "TILED_LETTER", "WAIT", "WHITE_NOISE"}

  /** The tag each renderer class is chosen for. */
  function Tag(c: RendererClass): string {
    match c
    case BarRenderer => "BAR"
    case CheckerboardRenderer => "CHECKERBOARD"
    case ChirpRenderer => "CHIRP"
    case EyeChartRenderer => "EYECHART"
    case GratingRenderer => "GRATING"
    case ImageRenderer => "IMAGE"
    case LetterRenderer => "LETTER"
    case SinusoidalGratingRenderer => "SINUSOIDAL_GRATING"
    case SolidRenderer => "SOLID"
    case TiledLetterRenderer => "TILED_LETTER"
    case WaitRenderer => "WAIT"
    case WhiteNoiseRenderer => "WHITE_NOISE"
  }

  /** The `switch` on the tag. */
  function ClassFor(tag: string): Option<RendererClass> {
    if tag == "BAR" then Some(BarRenderer)
    else if tag == "CHECKERBOARD" then Some(CheckerboardRenderer)
    else if tag == "CHIRP" then Some(ChirpRenderer)
    else if tag == "EYECHART" then Some(EyeChartRenderer)
    else if tag == "GRATING" then Some(GratingRenderer)
    else if tag == "IMAGE" then Some(ImageRenderer)
    else if tag == "LETTER" then Some(LetterRenderer)
    else if tag == "SINUSOIDAL_GRATING" then Some(SinusoidalGratingRenderer)
    else if tag == "SOLID" then Some(SolidRenderer)
    else if tag == "TILED_LETTER" then Some(TiledLetterRenderer)
    else if tag == "WAIT" then Some(WaitRenderer)
    else if tag == "WHITE_NOISE" then Some(WhiteNoiseRenderer)
    else None
  }

  /** `createRenderer`: the renderer of the stimulus's class, or
      "Unknown stimulus type: <tag>". */
  function CreateRenderer<V>(stimulus: Stimulus, videoInfo: V): (r: Result<Renderer<V>>)
    ensures r.Ok? <==> stimulus.stimulusType in TAGS
    ensures r.Ok? ==> Tag(r.value.cls) == stimulus.stimulusType
    ensures r.Ok? ==> r.value.stimulus == stimulus && r.value.videoInfo == videoInfo
    ensures r.Throw? ==> r.message == "Unknown stimulus type: " + stimulus.stimulusType
  {
    match ClassFor(stimulus.stimulusType)
    case Some(c) => Ok(Renderer(c, stimulus, videoInfo))
    case None => Throw("Unknown stimulus type: " + stimulus.stimulusType)
  }

  /** Each class's tag selects that class, so no two tags share a class and
      every class is reachable. */
  lemma {:induction false} TagSelectsClass(c: RendererClass)
    ensures Tag(c) in TAGS && ClassFor(Tag(c)) == Some(c)
  {
  }

  lemma {:induction false} ClassesDistinct(t1: string, t2: string)
    requires ClassFor(t1).Some? && ClassFor(t1) == ClassFor(t2)
    ensures t1 == t2
  {
  }

  /** The choice depends on nothing but the tag. */
  lemma {:induction false} DependsOnlyOnType<V>(s1: Stimulus, s2: Stimulus, v1: V, v2: V)
    requires s1.stimulusType == s2.stimulusType
    ensures CreateRenderer(s1, v1).Ok? == CreateRenderer(s2, v2).Ok?
    ensures CreateRenderer(s1, v1).Ok? ==> CreateRenderer(s1, v1).value.cls == CreateRenderer(s2, v2).value.cls
    ensures CreateRenderer(s1, v1).Throw? ==> CreateRenderer(s1, v1) == CreateRenderer(s2, v2)
  {
  }
}

/** The recorder's stimulus factory (`createStimulus`): one stimulus class per
    type tag, the same tags as the renderer factory. */
module StimulusFactory {
  import opened Wrappers
  import opened Stimuli
  import RendererFactory

  datatype StimulusClass =
    | Bar | Checkerboard | Chirp | EyeChart | Grating | Image | Letter | SinusoidalGrating | Solid
    | TiledLetter | Wait | WhiteNoise

  datatype Created<V> = Created(cls: StimulusClass, stimulus: Stimulus, videoInfo: V)

  function Tag(c: StimulusClass): string {
    match c
    case Bar => "BAR"
    case Checkerboard => "CHECKERBOARD"
    case Chirp => "CHIRP"
    case EyeChart => "EYECHART"
    case Grating => "GRATING"
    case Image => "IMAGE"
    case Letter => "LETTER"
    case SinusoidalGrating => "SINUSOIDAL_GRATING"
    case Solid => "SOLID"
    case TiledLetter => "TILED_LETTER"
    case Wait => "WAIT"
    case WhiteNoise => "WHITE_NOISE"
  }

  function ClassFor(tag: string): Option<StimulusClass> {
    if tag == "BAR" then Some(Bar)
    else if tag == "CHECKERBOARD" then Some(Checkerboard)
    else if tag == "CHIRP" then Some(Chirp)
    else if tag == "EYECHART" then Some(EyeChart)
    else if tag == "GRATING" then Some(Grating)
    else if tag == "IMAGE" then Some(Image)
    else if tag == "LETTER" then Some(Letter)
    else if tag == "SINUSOIDAL_GRATING" then Some(SinusoidalGrating)
    else if tag == "SOLID" then Some(Solid)
    else if tag == "TILED_LETTER" then Some(TiledLetter)
    else if tag == "WAIT" then Some(Wait)
    else if tag == "WHITE_NOISE" then Some(WhiteNoise)
    else None
  }

  /** `createStimulus`: the stimulus of the same-named class, or
      "Unknown stimulus type: <tag>". */
  function CreateStimulus<V>(stimulus: Stimulus, videoInfo: V): (r: Result<Created<V>>)
    ensures r.Ok? ==> Tag(r.value.cls) == stimulus.stimulusType
    ensures r.Ok? ==> r.value.stimulus == stimulus && r.value.videoInfo == videoInfo
    ensures r.Throw? ==> r.message == "Unknown stimulus type: " + stimulus.stimulusType
  {
    match ClassFor(stimulus.stimulusType)
    case Some(c) => Ok(Created(c, stimulus, videoInfo))
    case None => Throw("Unknown stimulus type: " + stimulus.stimulusType)
  }

  lemma {:induction false} TagSelectsClass(c: StimulusClass)
    ensures ClassFor(Tag(c)) == Some(c)
  {
  }

  /** The stimulus factory accepts exactly the tags the renderer factory
      accepts, so every stimulus it builds can be rendered. */
  lemma {:induction false} SameTagsAsRenderers<V>(stimulus: Stimulus, videoInfo: V)
    ensures CreateStimulus(stimulus, videoInfo).Ok? <==> stimulus.stimulusType in RendererFactory.TAGS
    ensures CreateStimulus(stimulus, videoInfo).Ok? <==> RendererFactory.CreateRenderer(stimulus, videoInfo).Ok?
  {
  }

  lemma {:induction false} DependsOnlyOnType<V>(s1: Stimulus, s2: Stimulus, v1: V, v2: V)
    requires s1.stimulusType == s2.stimulusType
    ensures CreateStimulus(s1, v1).Ok? == CreateStimulus(s2, v2).Ok?
    ensures CreateStimulus(s1, v1).Ok? ==> CreateStimulus(s1, v1).value.cls == CreateStimulus(s2, v2).value.cls
    ensures CreateStimulus(s1, v1).Throw? ==> CreateStimulus(s1, v1) == CreateStimulus(s2, v2)
  {
  }
}

/** The stimulus factory of the first application (`createStimulus`): five
    stimulus types only. */
module AppStimulusFactory {
  import opened Wrappers
  import opened Stimuli

  datatype StimulusClass = Bar | Checkerboard | Chirp | Solid | Wait

  datatype Created<V> = Created(cls: StimulusClass, stimulus: Stimulus, videoInfo: V)

  const TAGS: set<string> := {"BAR", "CHECKERBOARD", "CHIRP", "SOLID", "WAIT"}

  function Tag(c: StimulusClass): string {
    match c
    case Bar => "BAR"
    case Checkerboard => "CHECKERBOARD"
    case Chirp => "CHIRP"
    case Solid => "SOLID"
    case Wait => "WAIT"
  }

  function ClassFor(tag: string): Option<StimulusClass> {
    if tag == "BAR" then Some(Bar)
    else if tag == "CHECKERBOARD" then Some(Checkerboard)
    else if tag == "CHIRP" then Some(Chirp)
    else if tag == "SOLID" then Some(Solid)
    else if tag == "WAIT" then Some(Wait)
    else None
  }

  /** `createStimulus`: only BAR, CHECKERBOARD, CHIRP, SOLID and WAIT are
      accepted, each for its same-named class; any other tag throws. */
  function CreateStimulus<V>(stimulus: Stimulus, videoInfo: V): (r: Result<Created<V>>)
    ensures r.Ok? <==> stimulus.stimulusType in TAGS
    ensures r.Ok? ==> Tag(r.value.cls) == stimulus.stimulusType
    ensures r.Ok? ==> r.value.stimulus == stimulus && r.value.videoInfo == videoInfo
    ensures r.Throw? ==> r.message == "Unknown stimulus type: " + stimulus.stimulusType
  {
    match ClassFor(stimulus.stimulusType)
    case Some(c) => Ok(Created(c, stimulus, videoInfo))
    case None => Throw("Unknown stimulus type: " + stimulus.stimulusType)
  }

  lemma {:induction false} TagSelectsClass(c: StimulusClass)
    ensures Tag(c) in TAGS && ClassFor(Tag(c)) == Some(c)
  {
  }

  lemma {:induction false} DependsOnlyOnType<V>(s1: Stimulus, s2: Stimulus, v1: V, v2: V)
    requires s1.stimulusType == s2.stimulusType
    ensures CreateStimulus(s1, v1).Ok? == CreateStimulus(s2, v2).Ok?
    ensures CreateStimulus(s1, v1).Ok? ==> CreateStimulus(s1, v1).value.cls == CreateStimulus(s2, v2).value.cls
    ensures CreateStimulus(s1, v1).Throw? ==> CreateStimulus(s1, v1) == CreateStimulus(s2, v2)
  {
  }
}
