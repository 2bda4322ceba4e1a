/** animations/random_phoenix_julia.py: probe a Phoenix Mandelbrot array for a
    starting constant, render one forward pass of Phoenix Julia sets, and play
    the frames forwards and then backwards. */
module PhoenixAnimation {
  import opened Engine
  import opened Animations
  import opened Probe
  import opened Trajectory

  const Name := "random_phoenix_julia"

  /** `precision * .8 <= v < precision`: inclusive below, strict above. */
  const ProbeBand := Band(0.8, false)

  /** The accepted probe cell lies inside the array and its value is in
      `[0.8 * precision, precision)`. */
  lemma AcceptedCell(fractalArray: seq<seq<int>>, draws: seq<Pixel>, width: int, height: int, precision: int)
    requires ProbeReady(fractalArray, draws, width, height, precision, ProbeBand)
    ensures var p := draws[FirstAccepted(fractalArray, precision, ProbeBand, draws)];
            && 0 <= p.x < width && 0 <= p.y < height
            && (precision as real) * 0.8 <= (fractalArray[p.x][p.y] as real) < (precision as real)
  {
    var t := FirstAccepted(fractalArray, precision, ProbeBand, draws);
    assert Accepts(fractalArray, precision, ProbeBand, draws[t]);
  }

  /** `reversed(results)`. */
  function Reverse(s: seq<string>): (r: seq<string>)
    ensures |r| == |s|
    ensures forall i :: 0 <= i < |s| ==> r[i] == s[|s| - 1 - i]
  {
    if s == [] then [] else Reverse(s[1..]) + [s[0]]
  }

  /** What `images` gains: the rendered files in order, then in reverse. */
  function Mirrored(results: seq<string>): (m: seq<string>)
    ensures |m| == 2 * |results| && m[..|results|] == results
    ensures forall i :: |results| <= i < |m| ==> m[i] == results[|m| - 1 - i]
  {
    results + Reverse(results)
  }

  /** The played sequence has 2N entries and reads the same backwards. */
  lemma MirroredPalindrome(results: seq<string>)
    ensures var m := Mirrored(results);
            && |m| == 2 * |results|
            && forall i :: 0 <= i < |m| ==> m[i] == m[|m| - 1 - i]
  {
    var m := Mirrored(results);
    var n := |results|;
    forall i | 0 <= i < |m|
      ensures m[i] == m[|m| - 1 - i]
    {
      if i < n {
        assert m[i] == results[i];
        assert m[|m| - 1 - i] == Reverse(results)[n - 1 - i];
      } else {
        assert m[i] == Reverse(results)[i - n];
        assert m[|m| - 1 - i] == results[2 * n - 1 - i];
      }
    }
  }

  /** `for image_file in reversed(results)`: appends the files last to first. */
  method AppendReversed(a: Animation, results: seq<string>)
    modifies a
    ensures a.images == old(a.images) + Reverse(results)
    ensures a.fractal == old(a.fractal) && a.increments == old(a.increments) && a.renders == old(a.renders)
  {
    var i := |results|;
    while i > 0
      invariant 0 <= i <= |results|
      invariant a.fractal == old(a.fractal) && a.increments == old(a.increments) && a.renders == old(a.renders)
      invariant a.images == old(a.images) + Reverse(results[i..])
    {
      i := i - 1;
      assert results[i..][1..] == results[i + 1..];
      a.images := a.images + [results[i]];
    }
  }

  /** `RandomPhoenixJulia.animate`. The probe render is logged first; its output is `fractalArray`;
      `draws` is the stream of randint pairs; `probeInit` and `juliaInit` are the
      attributes fresh PhoenixMandelbrot and PhoenixJulia engines start with. */
  method Animate(a: Animation, fractalArray: seq<seq<int>>, draws: seq<Pixel>,
                 probeInit: Settings, juliaInit: Settings)
    requires a.fractal != null
    requires ProbeReady(fractalArray, draws, a.fractal.width, a.fractal.height, a.fractal.precision, ProbeBand)
    modifies a
    ensures a.increments == old(a.increments)
    ensures fresh(a.fractal) && a.fractal.kind == PhoenixJulia
    ensures var b := old(a.fractal.Snapshot());
            var n := a.increments;
            var c := StartPoint(fractalArray, draws, b.width, b.height, b.precision, ProbeBand, probeInit.viewport);
            var fs := ForwardFrames(b.directory, Name, c.re, c.im, n);
            && a.renders == old(a.renders) + [Frame(probeInit.filename, probeInit.realConstant, probeInit.imaginaryConstant)] + fs
            && a.images == old(a.images) + Mirrored(Filenames(fs))
            && a.fractal.Snapshot() == Inherit(juliaInit, b).(
                 filename := if n <= 0 then juliaInit.filename else FrameName(b.directory, Name, n - 1, "forward"),
                 realConstant := AfterForward(c.re, n),
                 imaginaryConstant := AfterForward(c.im, n))
  {
    var backup := a.fractal.Snapshot();

    var x, y := ProbePhase(a, PhoenixMandelbrot, ProbeBand, fractalArray, draws, probeInit);
    ghost var logged := old(a.renders) + [Frame(probeInit.filename, probeInit.realConstant, probeInit.imaginaryConstant)];

    var julia := SpawnEngine(PhoenixJulia, juliaInit, backup);
    a.fractal := julia;
    julia.SetRealConstant(x);
    julia.SetImaginaryConstant(y);
    JuliaPhase(a, julia, x, y);
  }

  /** The Julia half of `animate`: one forward pass, then its files appended
      in order and again in reverse. */
  method JuliaPhase(a: Animation, julia: Fractal, x: real, y: real)
    requires a.fractal == julia
    requires julia.realConstant == x && julia.imaginaryConstant == y
    modifies a, julia
    ensures a.fractal == julia && a.increments == old(a.increments)
    ensures var fs := ForwardFrames(old(julia.directory), Name, x, y, a.increments);
            a.renders == old(a.renders) + fs && a.images == old(a.images) + Mirrored(Filenames(fs))
    ensures var n := a.increments;
            julia.Snapshot() == old(julia.Snapshot()).(
              filename := if n <= 0 then old(julia.filename) else FrameName(old(julia.directory), Name, n - 1, "forward"),
              realConstant := AfterForward(x, n),
              imaginaryConstant := AfterForward(y, n))
  {
    var results := ForwardPass(a, julia, Name, x, y);
    AppendImages(a, results);
    AppendReversed(a, results);
  }
}
