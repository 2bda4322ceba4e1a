/** The search for a starting point shared by the random-Julia sequencers: a
    rejection-sampling loop over a precomputed Mandelbrot-family array, and
    numpy's `linspace` indexing that turns the accepted pixel into a complex
    constant. The random draws are an injected stream. */
module Probe {
  import opened Engine
  import opened Animations

  /** One pair of `random.randint` draws: (random_x, random_y). */
  datatype Pixel = Pixel(x: int, y: int)

  /** An acceptance band `low * precision (<|<=) v < precision`. */
  datatype Band = Band(lowFactor: real, lowStrict: bool)

  predicate InBand(b: Band, precision: int, v: int) {
    && (v as real) < (precision as real)
    && if b.lowStrict then (v as real) > (precision as real) * b.lowFactor
       else (v as real) >= (precision as real) * b.lowFactor
  }

  /** The loop condition fails (the candidate is accepted) at this pixel. */
  predicate Accepts(fractalArray: seq<seq<int>>, precision: int, b: Band, p: Pixel) {
    && 0 <= p.x < |fractalArray| && 0 <= p.y < |fractalArray[p.x]|
    && InBand(b, precision, fractalArray[p.x][p.y])
  }

  /** The array has shape (width, height), indexed `[x][y]`. */
  predicate WellShaped(fractalArray: seq<seq<int>>, width: int, height: int) {
    && |fractalArray| == width
    && forall x :: 0 <= x < |fractalArray| ==> |fractalArray[x]| == height
  }

  /** Every draw lies in `[0, width-1] x [0, height-1]`, as randint guarantees. */
  predicate Drawn(draws: seq<Pixel>, width: int, height: int) {
    forall t :: 0 <= t < |draws| ==> 0 <= draws[t].x <= width - 1 && 0 <= draws[t].y <= height - 1
  }

  /** Some draw is accepted, so the loop ends (the loop itself has no bound). */
  predicate SomeAccepted(fractalArray: seq<seq<int>>, precision: int, b: Band, draws: seq<Pixel>) {
    exists t :: 0 <= t < |draws| && Accepts(fractalArray, precision, b, draws[t])
  }

  predicate ProbeReady(fractalArray: seq<seq<int>>, draws: seq<Pixel>, width: int, height: int,
                       precision: int, b: Band) {
    && WellShaped(fractalArray, width, height)
    && Drawn(draws, width, height)
    && SomeAccepted(fractalArray, precision, b, draws)
  }

  /** The position in the stream of the first accepted draw. */
  function FirstAccepted(fractalArray: seq<seq<int>>, precision: int, b: Band, draws: seq<Pixel>): (t: nat)
    requires SomeAccepted(fractalArray, precision, b, draws)
    ensures t < |draws| && Accepts(fractalArray, precision, b, draws[t])
    ensures forall s :: 0 <= s < t ==> !Accepts(fractalArray, precision, b, draws[s])
    decreases |draws|
  {
    if Accepts(fractalArray, precision, b, draws[0]) then 0
    else
      assert SomeAccepted(fractalArray, precision, b, draws[1..]) by {
        var t :| 0 <= t < |draws| && Accepts(fractalArray, precision, b, draws[t]);
        assert draws[1..][t - 1] == draws[t];
      }
      var t := 1 + FirstAccepted(fractalArray, precision, b, draws[1..]);
      assert forall s :: 1 <= s < t ==> draws[s] == draws[1..][s - 1];
      t
  }

  /** The `while not (...)` loop: draws pixels until one is accepted, and
      returns how many draws it rejected first. */
  method SearchStartingPoint(fractalArray: seq<seq<int>>, precision: int, b: Band, draws: seq<Pixel>) returns (t: nat)
    requires SomeAccepted(fractalArray, precision, b, draws)
    ensures t == FirstAccepted(fractalArray, precision, b, draws)
    ensures Accepts(fractalArray, precision, b, draws[t])
  {
    t := 0;
    var candidate := draws[0];
    while !Accepts(fractalArray, precision, b, candidate)
      invariant t < |draws| && candidate == draws[t]
      invariant forall s :: 0 <= s < t ==> !Accepts(fractalArray, precision, b, draws[s])
      decreases |draws| - t
    {
      t := t + 1;
      candidate := draws[t];
    }
  }

  /** Element i of `np.linspace(start, stop, num)`: evenly spaced with both
      end points, and just `[start]` when num is 1. */
  function Linspace(start: real, stop: real, num: int, i: int): (r: real)
    requires 0 <= i < num
    ensures i == 0 ==> r == start
    ensures num > 1 && i == num - 1 ==> r == stop
  {
    if num == 1 then start
    else start + (i as real) * ((stop - start) / ((num - 1) as real))
  }

  /** Every element lies between the end points. */
  lemma LinspaceWithin(start: real, stop: real, num: int, i: int)
    requires 0 <= i < num
    ensures start <= stop ==> start <= Linspace(start, stop, num, i) <= stop
  {
    if num > 1 && start <= stop {
      var step := (stop - start) / ((num - 1) as real);
      assert step >= 0.0;
      assert (i as real) * step <= ((num - 1) as real) * step by {
        assert (((num - 1) - i) as real) * step >= 0.0;
      }
    }
  }

  /** The elements increase strictly with the index over a nonempty interval. */
  lemma LinspaceIncreasing(start: real, stop: real, num: int, i: int, j: int)
    requires 0 <= i < j < num && start < stop
    ensures Linspace(start, stop, num, i) < Linspace(start, stop, num, j)
  {
    var step := (stop - start) / ((num - 1) as real);
    assert step > 0.0;
    assert (j as real) * step - (i as real) * step == ((j - i) as real) * step;
    assert ((j - i) as real) * step > 0.0;
  }

  /** A point of the complex plane. */
  datatype Point = Point(re: real, im: real)

  /** The starting constant: linspace indexing of the first accepted pixel over
      the probe engine's viewport. */
  function StartPoint(fractalArray: seq<seq<int>>, draws: seq<Pixel>, width: int, height: int,
                      precision: int, b: Band, v: Viewport): (p: Point)
    requires ProbeReady(fractalArray, draws, width, height, precision, b)
    ensures v.leftX <= v.rightX ==> v.leftX <= p.re <= v.rightX
    ensures v.bottomY <= v.topY ==> v.bottomY <= p.im <= v.topY
  {
    var px := draws[FirstAccepted(fractalArray, precision, b, draws)];
    assert 0 <= px.x < width && 0 <= px.y < height;
    LinspaceWithin(v.leftX, v.rightX, width, px.x);
    LinspaceWithin(v.bottomY, v.topY, height, px.y);
    Point(Linspace(v.leftX, v.rightX, width, px.x), Linspace(v.bottomY, v.topY, height, px.y))
  }

  /** The starting constant lies inside the probe viewport, and pixel 0 and
      pixel width-1 (height-1) map onto its edges. */
  lemma StartPointWithin(fractalArray: seq<seq<int>>, draws: seq<Pixel>, width: int, height: int,
                         precision: int, b: Band, v: Viewport)
    requires ProbeReady(fractalArray, draws, width, height, precision, b)
    requires v.leftX <= v.rightX && v.bottomY <= v.topY
    ensures var p := StartPoint(fractalArray, draws, width, height, precision, b, v);
            && v.leftX <= p.re <= v.rightX && v.bottomY <= p.im <= v.topY
    ensures var px := draws[FirstAccepted(fractalArray, precision, b, draws)];
            var p := StartPoint(fractalArray, draws, width, height, precision, b, v);
            && (px.x == 0 ==> p.re == v.leftX) && (width > 1 && px.x == width - 1 ==> p.re == v.rightX)
            && (px.y == 0 ==> p.im == v.bottomY) && (height > 1 && px.y == height - 1 ==> p.im == v.topY)
  {
    var px := draws[FirstAccepted(fractalArray, precision, b, draws)];
    assert 0 <= px.x < width && 0 <= px.y < height;
    LinspaceWithin(v.leftX, v.rightX, width, px.x);
    LinspaceWithin(v.bottomY, v.topY, height, px.y);
  }

  /** The probe phase of both sequencers: spawn a probe engine of class `kind`
      from the backup, render it once without writing an image (its fractal
      array is `fractalArray`), search for an accepted pixel and map it onto
      the probe engine's viewport. */
  method ProbePhase(a: Animation, kind: FractalKind, b: Band, fractalArray: seq<seq<int>>, draws: seq<Pixel>,
                    probeInit: Settings) returns (x: real, y: real)
    requires a.fractal != null
    requires ProbeReady(fractalArray, draws, a.fractal.width, a.fractal.height, a.fractal.precision, b)
    modifies a
    ensures a.increments == old(a.increments) && a.images == old(a.images)
    ensures a.fractal != null && fresh(a.fractal) && a.fractal.kind == kind
    ensures a.fractal.Snapshot() == Inherit(probeInit, old(a.fractal.Snapshot())).(bypassImageGeneration := true)
    ensures a.renders == old(a.renders) + [Frame(probeInit.filename, probeInit.realConstant, probeInit.imaginaryConstant)]
    ensures var s := old(a.fractal.Snapshot());
            Point(x, y) == StartPoint(fractalArray, draws, s.width, s.height, s.precision, b, probeInit.viewport)
  {
    var backup := a.fractal.Snapshot();
    var probe := SpawnEngine(kind, probeInit, backup);
    a.fractal := probe;
    probe.SetBypassImageGeneration(true);
    var _ := a.RenderFractal();
    var t := SearchStartingPoint(fractalArray, probe.precision, b, draws);
    x := Linspace(probe.viewport.leftX, probe.viewport.rightX, probe.width, draws[t].x);
    y := Linspace(probe.viewport.bottomY, probe.viewport.topY, probe.height, draws[t].y);
  }
}
