/** The state of a fractal engine that the setup code and the animations read
    and write. The engines' recurrences and colour mapping are not part of this
    model; only their configuration is. */
module Engine {
  import opened Basics

  /** The engine classes `-a/--fractal_algorithm` can name. */
  datatype FractalKind =
    | Mandelbrot | Julia | BurningShip | Star | Newton
    | PhoenixMandelbrot | PhoenixJulia | CubicMandelbrot | QuarticMandelbrot
    | CubicJulia | ExperimentalCubicJulia | QuarticJulia | Buddhabrot | BuddhabrotJulia

  /** The engine's `viewport` dictionary: `left_x`, `right_x`, `top_y`, `bottom_y`. */
  datatype Viewport = Viewport(leftX: real, rightX: real, topY: real, bottomY: real)

  /** A configured colour object; floats and hue arithmetic live in the colour classes. */
  datatype ColorAlgorithm =
    | SimpleColors
    | BlackAndWhiteColors
    | HueRangeColors(startDegree: int, endDegree: int)
    | HueCyclicColors(startDegree: int, colorStepShift: int, colorCount: int)

  /** A value copy of every engine attribute the modelled code touches
      (what `copy.deepcopy` of an engine yields). */
  datatype Settings = Settings(
    directory: string,
    filename: string,
    width: int,
    height: int,
    precision: int,
    viewport: Viewport,
    realConstant: real,
    imaginaryConstant: real,
    colorAlgorithmName: string,
    colorAlgorithm: Option<ColorAlgorithm>,
    bypassImageGeneration: bool,
    showProgressBar: bool)

  /** A fractal engine object. Its setters (`set_width`, `set_viewport_left`, ...)
      are modelled as plain assignments of one attribute each. */
  class Fractal {
    const kind: FractalKind
    var directory: string
    var filename: string
    var width: int
    var height: int
    var precision: int
    var viewport: Viewport
    var realConstant: real
    var imaginaryConstant: real
    var colorAlgorithmName: string
    var colorAlgorithm: Option<ColorAlgorithm>
    var bypassImageGeneration: bool
    var showProgressBar: bool

    function Snapshot(): Settings
      reads this
    {
      Settings(directory, filename, width, height, precision, viewport, realConstant,
               imaginaryConstant, colorAlgorithmName, colorAlgorithm,
               bypassImageGeneration, showProgressBar)
    }

    /** A freshly constructed engine of class `kind`, whose defaults are `init`. */
    constructor (kind: FractalKind, init: Settings)
      ensures this.kind == kind && Snapshot() == init
    {
      this.kind := kind;
      directory := init.directory;
      filename := init.filename;
      width := init.width;
      height := init.height;
      precision := init.precision;
      viewport := init.viewport;
      realConstant := init.realConstant;
      imaginaryConstant := init.imaginaryConstant;
      colorAlgorithmName := init.colorAlgorithmName;
      colorAlgorithm := init.colorAlgorithm;
      bypassImageGeneration := init.bypassImageGeneration;
      showProgressBar := init.showProgressBar;
    }

    method SetDirectory(value: string)
      modifies this
      ensures Snapshot() == old(Snapshot()).(directory := value)
    {
      directory := value;
    }

    method SetFilename(value: string)
      modifies this
      ensures Snapshot() == old(Snapshot()).(filename := value)
    {
      filename := value;
    }

    method SetWidth(value: int)
      modifies this
      ensures Snapshot() == old(Snapshot()).(width := value)
    {
      width := value;
    }

    method SetHeight(value: int)
      modifies this
      ensures Snapshot() == old(Snapshot()).(height := value)
    {
      height := value;
    }

    method SetPrecision(value: int)
      modifies this
      ensures Snapshot() == old(Snapshot()).(precision := value)
    {
      precision := value;
    }

    method SetRealConstant(value: real)
      modifies this
      ensures Snapshot() == old(Snapshot()).(realConstant := value)
    {
      realConstant := value;
    }

    method SetImaginaryConstant(value: real)
      modifies this
      ensures Snapshot() == old(Snapshot()).(imaginaryConstant := value)
    {
      imaginaryConstant := value;
    }

    method SetColorAlgorithmName(value: string)
      modifies this
      ensures Snapshot() == old(Snapshot()).(colorAlgorithmName := value)
    {
      colorAlgorithmName := value;
    }

    method SetColorAlgorithm(value: Option<ColorAlgorithm>)
      modifies this
      ensures Snapshot() == old(Snapshot()).(colorAlgorithm := value)
    {
      colorAlgorithm := value;
    }

    method SetBypassImageGeneration(value: bool)
      modifies this
      ensures Snapshot() == old(Snapshot()).(bypassImageGeneration := value)
    {
      bypassImageGeneration := value;
    }

    method SetShowProgressBar(value: bool)
      modifies this
      ensures Snapshot() == old(Snapshot()).(showProgressBar := value)
    {
      showProgressBar := value;
    }

    method SetViewportLeft(value: real)
      modifies this
      ensures Snapshot() == old(Snapshot()).(viewport := old(viewport).(leftX := value))
    {
      viewport := viewport.(leftX := value);
    }

    method SetViewportRight(value: real)
      modifies this
      ensures Snapshot() == old(Snapshot()).(viewport := old(viewport).(rightX := value))
    {
      viewport := viewport.(rightX := value);
    }

    method SetViewportTop(value: real)
      modifies this
      ensures Snapshot() == old(Snapshot()).(viewport := old(viewport).(topY := value))
    {
      viewport := viewport.(topY := value);
    }

    method SetViewportBottom(value: real)
      modifies this
      ensures Snapshot() == old(Snapshot()).(viewport := old(viewport).(bottomY := value))
    {
      viewport := viewport.(bottomY := value);
    }
  }
}
