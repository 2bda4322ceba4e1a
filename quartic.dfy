/** animations/random_quartic_julia.py: probe a cubic Mandelbrot array for a
    starting constant, then render a forward and a backward pass of cubic Julia
    sets (the classes it builds are CubicMandelbrot and CubicJulia). */
module QuarticAnimation {
  import opened Engine
  import opened Animations
  import opened Probe
  import opened Trajectory

  const Name := "random_quartic_julia"

  /** `precision > v > precision * 0.98`: strict on both sides. */
  const ProbeBand := Band(0.98, true)

  /** The accepted probe cell lies inside the array and its value is in
      `(0.98 * precision, precision)`. */
  lemma AcceptedCell(fractalArray: seq<seq<int>>, draws: seq<Pixel>, width: int, height: int, precision: int)
    requires ProbeReady(fractalArray, draws, width, height, precision, ProbeBand)
    ensures var p := draws[FirstAccepted(fractalArray, precision, ProbeBand, draws)];
            && 0 <= p.x < width && 0 <= p.y < height
            && (precision as real) * 0.98 < (fractalArray[p.x][p.y] as real) < (precision as real)
  {
    var t := FirstAccepted(fractalArray, precision, ProbeBand, draws);
    assert Accepts(fractalArray, precision, ProbeBand, draws[t]);
  }

  /** The constant after the backward update of frame k, `x + k*((x/60)/increments) - x/60`. */
  function Climbed(x: real, n: int, k: nat): real
    requires n >= 1
  {
    x + (k as real) * Step(x, n) - x / 60.0
  }

  /** The constant rendered by backward frame k: frame 0 renders what the last
      forward update set; after that the walk climbs back from x - x/60. */
  function BackwardConstant(x: real, n: int, k: nat): real
    requires k < n
  {
    if k == 0 then Moved(x, n, n - 1) else Climbed(x, n, k - 1)
  }

  lemma BackwardWithin(x: real, n: int, k: nat)
    requires k < n
    ensures Abs(BackwardConstant(x, n, k) - x) <= Abs(x) / 60.0
  {
    if k == 0 {
      StepsWithin(x, n, n - 1);
    } else {
      var q := Step(x, n);
      assert BackwardConstant(x, n, k) == x + ((k - 1) as real) * q - x / 60.0;
      assert (n as real) * q == x / 60.0;
      assert BackwardConstant(x, n, k) - x == -(((n - k + 1) as real) * q) by {
        assert ((k - 1) as real) * q - (n as real) * q == -(((n - k + 1) as real) * q);
      }
      StepsWithin(x, n, n - k + 1);
    }
  }

  function BackwardFrame(directory: string, x: real, y: real, n: int, k: nat): Frame
    requires k < n
  {
    Frame(FrameName(directory, Name, k, "backward"), BackwardConstant(x, n, k), BackwardConstant(y, n, k))
  }

  /** The first m frames of the backward pass, in render order. */
  function BackwardPrefix(directory: string, x: real, y: real, n: int, m: nat): (fs: seq<Frame>)
    requires m <= Count(n)
    ensures |fs| == m
  {
    if m == 0 then [] else BackwardPrefix(directory, x, y, n, m - 1) + [BackwardFrame(directory, x, y, n, m - 1)]
  }

  lemma {:induction false} BackwardPrefixAt(directory: string, x: real, y: real, n: int, m: nat, k: nat)
    requires k < m <= Count(n)
    ensures BackwardPrefix(directory, x, y, n, m)[k] == BackwardFrame(directory, x, y, n, k)
  {
    if k < m - 1 {
      BackwardPrefixAt(directory, x, y, n, m - 1, k);
    }
  }

  /** The frames of the backward pass, in render order. */
  function BackwardFrames(directory: string, x: real, y: real, n: int): (fs: seq<Frame>)
    ensures |fs| == Count(n)
  {
    BackwardPrefix(directory, x, y, n, Count(n))
  }

  /** Backward frame k is named "{dir}random_quartic_julia_{k}_backward" and
      renders `BackwardConstant` of k. */
  lemma BackwardFramesEach(directory: string, x: real, y: real, n: int)
    ensures var fs := BackwardFrames(directory, x, y, n);
            forall k :: 0 <= k < |fs| ==>
              && fs[k].filename == FrameName(directory, Name, k, "backward")
              && fs[k].realConstant == BackwardConstant(x, n, k)
              && fs[k].imaginaryConstant == BackwardConstant(y, n, k)
  {
    forall k | 0 <= k < Count(n) {
      BackwardPrefixAt(directory, x, y, n, Count(n), k);
    }
  }

  /** All renders of one run: N forward frames, then N backward frames. */
  function Frames(directory: string, x: real, y: real, n: int): (fs: seq<Frame>)
    ensures |fs| == 2 * Count(n)
  {
    ForwardFrames(directory, Name, x, y, n) + BackwardFrames(directory, x, y, n)
  }

  /** Frame k of a run is forward frame k, and frame N + k is backward frame k. */
  lemma FramesNames(directory: string, x: real, y: real, n: int)
    ensures var fs := Frames(directory, x, y, n);
            forall k :: 0 <= k < Count(n) ==>
              && fs[k].filename == FrameName(directory, Name, k, "forward")
              && fs[Count(n) + k].filename == FrameName(directory, Name, k, "backward")
  {
    ForwardFramesEach(directory, Name, x, y, n);
    BackwardFramesEach(directory, x, y, n);
  }

  /** Every rendered constant is within a sixtieth of the start constant. */
  lemma FramesWithin(directory: string, x: real, y: real, n: int)
    ensures var fs := Frames(directory, x, y, n);
            forall i :: 0 <= i < |fs| ==>
              && Abs(fs[i].realConstant - x) <= Abs(x) / 60.0
              && Abs(fs[i].imaginaryConstant - y) <= Abs(y) / 60.0
  {
    var fs := Frames(directory, x, y, n);
    ForwardFramesFacts(directory, Name, x, y, n);
    ForwardFramesEach(directory, Name, x, y, n);
    BackwardFramesEach(directory, x, y, n);
    forall i | Count(n) <= i < |fs|
      ensures Abs(fs[i].realConstant - x) <= Abs(x) / 60.0
      ensures Abs(fs[i].imaginaryConstant - y) <= Abs(y) / 60.0
    {
      BackwardWithin(x, n, i - Count(n));
      BackwardWithin(y, n, i - Count(n));
    }
  }

  /** The 2N file names are pairwise distinct. */
  lemma FramesDistinctNames(directory: string, x: real, y: real, n: int)
    ensures var fs := Frames(directory, x, y, n);
            forall i, j :: 0 <= i < j < |fs| ==> fs[i].filename != fs[j].filename
  {
    var fs := Frames(directory, x, y, n);
    var c := Count(n);
    ForwardFramesFacts(directory, Name, x, y, n);
    ForwardFramesEach(directory, Name, x, y, n);
    BackwardFramesEach(directory, x, y, n);
    forall i, j | 0 <= i < j < |fs|
      ensures fs[i].filename != fs[j].filename
    {
      if j < c {
      } else if i < c {
        ForwardBackwardNamesDiffer(directory, Name, i, j - c);
      } else if fs[i].filename == fs[j].filename {
        FrameNameInjective(directory, Name, i - c, j - c, "backward");
      }
    }
  }

  /** The walk: the first two frames render the start constant, and the farthest
      point x - x/60 is rendered by backward frame 1. */
  lemma WalkShape(directory: string, x: real, y: real, n: int)
    requires n >= 2
    ensures var fs := Frames(directory, x, y, n);
            && fs[0].realConstant == fs[1].realConstant == x
            && fs[0].imaginaryConstant == fs[1].imaginaryConstant == y
            && fs[n + 1].realConstant == x - x / 60.0
            && fs[n + 1].imaginaryConstant == y - y / 60.0
  {
    ForwardFramesFacts(directory, Name, x, y, n);
    ForwardFramesEach(directory, Name, x, y, n);
    BackwardFramesEach(directory, x, y, n);
  }

  /** Constant k of the backward pass, with the step written out. */
  lemma BackwardConstantSchedule(x: real, n: int, k: nat)
    requires k < n
    ensures k == 0 ==> BackwardConstant(x, n, k) == x - ((n - 1) as real) * ((x / 60.0) / (n as real))
    ensures k >= 1 ==> BackwardConstant(x, n, k) == x + ((k - 1) as real) * ((x / 60.0) / (n as real)) - x / 60.0
  {
  }

  /** Backward frame k in the source's own terms, with q = (x/60)/N: frame 0
      renders x - (N-1)q, frame k >= 1 renders x + (k-1)q - x/60. */
  lemma BackwardSchedule(directory: string, x: real, y: real, n: int, k: nat)
    requires k < n
    ensures var f := Frames(directory, x, y, n)[n + k];
            var qx, qy := (x / 60.0) / (n as real), (y / 60.0) / (n as real);
            && f.filename == FrameName(directory, Name, k, "backward")
            && (k == 0 ==> f.realConstant == x - ((n - 1) as real) * qx
                           && f.imaginaryConstant == y - ((n - 1) as real) * qy)
            && (k >= 1 ==> f.realConstant == x + ((k - 1) as real) * qx - x / 60.0
                           && f.imaginaryConstant == y + ((k - 1) as real) * qy - y / 60.0)
  {
    var fw, bw := ForwardFrames(directory, Name, x, y, n), BackwardFrames(directory, x, y, n);
    assert Frames(directory, x, y, n)[n + k] == bw[k];
    BackwardPrefixAt(directory, x, y, n, Count(n), k);
    BackwardConstantSchedule(x, n, k);
    BackwardConstantSchedule(y, n, k);
  }

  /** The constant the engine holds after the last render (updated after it). */
  function LastSet(x: real, n: int): real {
    if n <= 0 then x else Climbed(x, n, n - 1)
  }

  /** `RandomQuarticJulia.animate`. The probe render is logged first; its output is `fractalArray`;
      `draws` is the stream of randint pairs; `probeInit` and `juliaInit` are the
      attributes fresh CubicMandelbrot and CubicJulia engines start with. */
  method Animate(a: Animation, fractalArray: seq<seq<int>>, draws: seq<Pixel>,
                 probeInit: Settings, juliaInit: Settings)
    requires a.fractal != null
    requires ProbeReady(fractalArray, draws, a.fractal.width, a.fractal.height, a.fractal.precision, ProbeBand)
    modifies a
    ensures a.increments == old(a.increments)
    ensures fresh(a.fractal) && a.fractal.kind == CubicJulia
    ensures var b := old(a.fractal.Snapshot());
            var c := StartPoint(fractalArray, draws, b.width, b.height, b.precision, ProbeBand, probeInit.viewport);
            a.renders == old(a.renders) + [Frame(probeInit.filename, probeInit.realConstant, probeInit.imaginaryConstant)]
                         + Frames(b.directory, c.re, c.im, a.increments)
    ensures var b := old(a.fractal.Snapshot());
            var c := StartPoint(fractalArray, draws, b.width, b.height, b.precision, ProbeBand, probeInit.viewport);
            a.images == old(a.images) + Filenames(Frames(b.directory, c.re, c.im, a.increments))
    ensures var b := old(a.fractal.Snapshot());
            var n := a.increments;
            var c := StartPoint(fractalArray, draws, b.width, b.height, b.precision, ProbeBand, probeInit.viewport);
            a.fractal.Snapshot() == Inherit(juliaInit, b).(
              filename := if n <= 0 then juliaInit.filename else FrameName(b.directory, Name, n - 1, "backward"),
              realConstant := LastSet(c.re, n),
              imaginaryConstant := LastSet(c.im, n))
  {
    var backup := a.fractal.Snapshot();

    var x, y := ProbePhase(a, CubicMandelbrot, ProbeBand, fractalArray, draws, probeInit);
    ghost var logged := old(a.renders) + [Frame(probeInit.filename, probeInit.realConstant, probeInit.imaginaryConstant)];

    var julia := SpawnEngine(CubicJulia, juliaInit, backup);
    a.fractal := julia;
    julia.SetRealConstant(x);
    julia.SetImaginaryConstant(y);
    JuliaPhase(a, julia, x, y);
  }

  /** The Julia half of `animate`: the forward pass, the backward pass, then
      every rendered file appended to `images` in render order. */
  method JuliaPhase(a: Animation, julia: Fractal, x: real, y: real)
    requires a.fractal == julia
    requires julia.realConstant == x && julia.imaginaryConstant == y
    modifies a, julia
    ensures a.fractal == julia && a.increments == old(a.increments)
    ensures var fs := Frames(old(julia.directory), x, y, a.increments);
            a.renders == old(a.renders) + fs && a.images == old(a.images) + Filenames(fs)
    ensures var n := a.increments;
            julia.Snapshot() == old(julia.Snapshot()).(
              filename := if n <= 0 then old(julia.filename) else FrameName(old(julia.directory), Name, n - 1, "backward"),
              realConstant := LastSet(x, n),
              imaginaryConstant := LastSet(y, n))
  {
    ghost var dir := julia.directory;
    ghost var fw := ForwardFrames(dir, Name, x, y, a.increments);
    ghost var bw := BackwardFrames(dir, x, y, a.increments);
    var forward := ForwardPass(a, julia, Name, x, y);
    assert a.renders == old(a.renders) + fw && julia.directory == dir;
    ghost var mid := a.renders;
    var backward := BackwardPass(a, julia, x, y);
    assert a.renders == mid + bw;
    assert (old(a.renders) + fw) + bw == old(a.renders) + (fw + bw);
    FilenamesConcat(fw, bw);
    AppendImages(a, forward + backward);
  }

  /** The backward `for k in range(increments)` loop: name the frame, render it,
      then set the constant to `x + k*((x/60)/increments) - x/60`. */
  method BackwardPass(a: Animation, julia: Fractal, x: real, y: real)
    returns (results: seq<string>)
    requires a.fractal == julia
    requires julia.realConstant == AfterForward(x, a.increments)
    requires julia.imaginaryConstant == AfterForward(y, a.increments)
    modifies a, julia
    ensures a.fractal == julia && a.increments == old(a.increments) && a.images == old(a.images)
    ensures var fs := BackwardFrames(julia.directory, x, y, a.increments);
            a.renders == old(a.renders) + fs && results == Filenames(fs)
    ensures var n := a.increments;
            julia.Snapshot() == old(julia.Snapshot()).(
              filename := if n <= 0 then old(julia.filename) else FrameName(julia.directory, Name, n - 1, "backward"),
              realConstant := LastSet(x, n),
              imaginaryConstant := LastSet(y, n))
  {
    var n := a.increments;
    ghost var dir := julia.directory;
    results := [];
    var k := 0;
    while k < n
      invariant 0 <= k <= Count(n)
      invariant a.fractal == julia && a.increments == n && a.images == old(a.images)
      invariant julia.Snapshot() == old(julia.Snapshot()).(filename := julia.filename,
                                                          realConstant := julia.realConstant,
                                                          imaginaryConstant := julia.imaginaryConstant)
      invariant julia.filename == if k == 0 then old(julia.filename) else FrameName(dir, Name, k - 1, "backward")
      invariant julia.realConstant == if k == 0 then AfterForward(x, n) else Climbed(x, n, k - 1)
      invariant julia.imaginaryConstant == if k == 0 then AfterForward(y, n) else Climbed(y, n, k - 1)
      invariant a.renders == old(a.renders) + BackwardPrefix(dir, x, y, n, k)
      invariant results == Filenames(BackwardPrefix(dir, x, y, n, k))
    {
      ghost var f := BackwardFrame(dir, x, y, n, k);
      assert f.realConstant == julia.realConstant && f.imaginaryConstant == julia.imaginaryConstant;
      var file := RenderStep(a, julia, Name, k, "backward", Climbed(x, n, k), Climbed(y, n, k));
      FilenamesAppend(BackwardPrefix(dir, x, y, n, k), f);
      results := results + [file];
      k := k + 1;
    }
    assert julia.filename == if n <= 0 then old(julia.filename) else FrameName(dir, Name, n - 1, "backward");
    assert julia.realConstant == LastSet(x, n) && julia.imaginaryConstant == LastSet(y, n);
  }
}
