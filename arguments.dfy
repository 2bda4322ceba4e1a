/** The parsed command line that `main` receives (argparse's namespace). */
module Arguments {
  import opened Basics
  import opened Engine

  /** The choices of `-c/--color_algorithm`. */
  datatype ColorName = Simple | BlackAndWhite | HueRange | HueCyclic

  /** The choices of `-A/--fractal_animation`. */
  datatype AnimationChoice =
    | FirstHueRotation | SecondHueRotation | HueCycle
    | RandomJulia | RandomCubicJulia | RandomPhoenixJulia | RandomQuarticJulia | RandomWalkJulia

  /** Every attribute `main` and the setup functions read; `None` is Python's None. */
  datatype Options = Options(
    fractalAlgorithm: FractalKind,
    colorAlgorithm: ColorName,
    width: Option<int>,
    height: Option<int>,
    viewportLeft: Option<real>,
    viewportRight: Option<real>,
    viewportTop: Option<real>,
    viewportBottom: Option<real>,
    realConstant: Option<real>,
    imaginaryConstant: Option<real>,
    precision: Option<int>,
    filename: Option<string>,
    hueStartDegree: Option<int>,
    hueEndDegree: Option<int>,
    hueStepShift: Option<int>,
    colorCount: Option<int>,
    fractalAnimation: Option<AnimationChoice>,
    increments: Option<int>)

  /** Python truthiness of an optional integer: present and nonzero. */
  predicate Truthy(o: Option<int>) {
    o.Some? && o.value != 0
  }

  /** The text of a colour choice as given on the command line. */
  function ColorNameText(c: ColorName): string {
    match c
    case Simple => "simple"
    case BlackAndWhite => "black_and_white"
    case HueRange => "hue_range"
    case HueCyclic => "hue_cyclic"
  }
}
