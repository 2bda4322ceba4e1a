/** The animation object both random-Julia sequencers run on. The shared base
    class is not part of this model: of it, only the state the sequencers use is
    kept, and `render_fractal` is modelled as recording what the current engine
    would render and returning the file name that render writes. */
module Animations {
  import opened Arguments
  import opened Engine

  /** What one `render_fractal` call renders: file name and Julia constant. */
  datatype Frame = Frame(filename: string, realConstant: real, imaginaryConstant: real)

  class Animation {
    const kind: AnimationChoice
    var increments: int
    var fractal: Fractal?
    /** The frames read back in the order they are handed to the GIF writer
        (`imread` is modelled as the identity on file names). */
    var images: seq<string>
    /** Every render this animation has performed, in order. */
    var renders: seq<Frame>

    constructor (kind: AnimationChoice, defaultIncrements: int)
      ensures this.kind == kind && increments == defaultIncrements
      ensures fractal == null && images == [] && renders == []
    {
      this.kind := kind;
      increments := defaultIncrements;
      fractal := null;
      images := [];
      renders := [];
    }

    method RenderFractal() returns (filename: string)
      requires fractal != null
      modifies this
      ensures fractal == old(fractal) && increments == old(increments) && images == old(images)
      ensures renders == old(renders) + [Frame(fractal.filename, fractal.realConstant, fractal.imaginaryConstant)]
      ensures filename == fractal.filename
    {
      renders := renders + [Frame(fractal.filename, fractal.realConstant, fractal.imaginaryConstant)];
      filename := fractal.filename;
    }
  }

  /** A fresh engine with defaults `init` after the six setters the sequencers
      apply from their backup copy. */
  function Inherit(init: Settings, backup: Settings): (s: Settings)
    ensures s.directory == backup.directory && s.colorAlgorithmName == backup.colorAlgorithmName
    ensures s.colorAlgorithm == backup.colorAlgorithm && s.width == backup.width
    ensures s.height == backup.height && s.precision == backup.precision
    ensures s.(directory := init.directory, colorAlgorithmName := init.colorAlgorithmName,
               colorAlgorithm := init.colorAlgorithm, width := init.width,
               height := init.height, precision := init.precision) == init
  {
    init.(directory := backup.directory, colorAlgorithmName := backup.colorAlgorithmName,
          colorAlgorithm := backup.colorAlgorithm, width := backup.width,
          height := backup.height, precision := backup.precision)
  }

  /** Constructs an engine of class `kind` and copies directory, colour name,
      colour algorithm, width, height and precision from `backup` into it. */
  method SpawnEngine(kind: FractalKind, init: Settings, backup: Settings) returns (e: Fractal)
    ensures fresh(e) && e.kind == kind && e.Snapshot() == Inherit(init, backup)
  {
    e := new Fractal(kind, init);
    e.SetDirectory(backup.directory);
    e.SetColorAlgorithmName(backup.colorAlgorithmName);
    e.SetColorAlgorithm(backup.colorAlgorithm);
    e.SetWidth(backup.width);
    e.SetHeight(backup.height);
    e.SetPrecision(backup.precision);
  }
}
