/** The forward walk of the Julia constant and the frame names shared by the
    random-Julia sequencers. The engine constant is updated after each render,
    so a frame renders the value set after the previous one. Floating point
    rounding is not modelled: the arithmetic is exact. */
module Trajectory {
  import opened Decimal
  import opened Engine
  import opened Animations

  function Abs(r: real): real {
    if r < 0.0 then -r else r
  }

  /** How many times `for k in range(n)` runs. */
  function Count(n: int): nat {
    if n < 0 then 0 else n
  }

  /** The per-frame step `(x/60)/increments`. */
  function Step(x: real, n: int): real
    requires n >= 1
  {
    (x / 60.0) / (n as real)
  }

  /** The constant after k forward updates, `x - k*((x/60)/increments)`. */
  function Moved(x: real, n: int, k: nat): real
    requires n >= 1
  {
    x - (k as real) * Step(x, n)
  }

  /** The constant rendered by forward frame k: x for k = 0 and for k = 1, then
      one step less per frame. */
  function ForwardConstant(x: real, n: int, k: nat): real
    requires k < n
  {
    if k == 0 then x else Moved(x, n, k - 1)
  }

  /** At most `increments` steps stay within a sixtieth of the start value. */
  lemma StepsWithin(x: real, n: int, m: int)
    requires 1 <= n && 0 <= m <= n
    ensures Abs((m as real) * Step(x, n)) <= Abs(x) / 60.0
  {
    var q := Step(x, n);
    assert (n as real) * q == x / 60.0;
    assert ((n - m) as real) * Abs(q) >= 0.0;
    assert Abs((m as real) * q) == (m as real) * Abs(q);
    assert Abs(x / 60.0) == (n as real) * Abs(q);
    assert (m as real) * Abs(q) <= (n as real) * Abs(q) by {
      assert (n as real) * Abs(q) - (m as real) * Abs(q) == ((n - m) as real) * Abs(q);
    }
  }

  lemma ForwardWithin(x: real, n: int, k: nat)
    requires k < n
    ensures Abs(ForwardConstant(x, n, k) - x) <= Abs(x) / 60.0
  {
    if k > 0 {
      StepsWithin(x, n, k - 1);
    }
  }

  /** `"{}{}_{}_{direction}".format(directory, animation_name, k)`. */
  function FrameName(directory: string, animation: string, k: nat, direction: string): string {
    directory + animation + "_" + NatToString(k) + "_" + direction
  }

  /** A frame name is the directory, then the animation name, then the frame
      number in decimal between two underscores, then the direction. */
  lemma FrameNameShape(directory: string, animation: string, k: nat, direction: string)
    ensures var r := FrameName(directory, animation, k, direction);
            && |r| == |directory| + |animation| + |NatToString(k)| + 2 + |direction|
            && r[..|directory|] == directory && r[|r| - |direction|..] == direction
            && r[|directory|..|directory| + |animation|] == animation
            && r[|directory| + |animation|] == '_' && r[|r| - |direction| - 1] == '_'
            && r[|directory| + |animation| + 1..|r| - |direction| - 1] == NatToString(k)
  {
    var head := directory + animation + "_";
    var digits := NatToString(k);
    var r := head + digits + ("_" + direction);
    assert r[|head|..|head| + |digits|] == digits;
    assert r == FrameName(directory, animation, k, direction);
  }

  /** Names of one direction differ for different frame numbers. */
  lemma FrameNameInjective(directory: string, animation: string, k1: nat, k2: nat, direction: string)
    requires FrameName(directory, animation, k1, direction) == FrameName(directory, animation, k2, direction)
    ensures k1 == k2
  {
    var head := directory + animation + "_";
    var d1, d2 := NatToString(k1), NatToString(k2);
    var tail := "_" + direction;
    var n1, n2 := head + d1 + tail, head + d2 + tail;
    assert n1 == FrameName(directory, animation, k1, direction);
    assert n2 == FrameName(directory, animation, k2, direction);
    assert |d1| == |d2|;
    assert d1 == n1[|head|..|head| + |d1|];
    assert d2 == n2[|head|..|head| + |d2|];
    NatToStringInjective(k1, k2);
  }

  /** A "forward" name is never a "backward" name. */
  lemma ForwardBackwardNamesDiffer(directory: string, animation: string, k1: nat, k2: nat)
    ensures FrameName(directory, animation, k1, "forward") != FrameName(directory, animation, k2, "backward")
  {
    var n1 := FrameName(directory, animation, k1, "forward");
    var n2 := FrameName(directory, animation, k2, "backward");
    assert n1[|n1| - 8] == '_';
    assert n2[|n2| - 8] == 'b';
  }

  function ForwardFrame(directory: string, animation: string, x: real, y: real, n: int, k: nat): Frame
    requires k < n
  {
    Frame(FrameName(directory, animation, k, "forward"), ForwardConstant(x, n, k), ForwardConstant(y, n, k))
  }

  /** The first m frames of a forward pass, in render order. */
  function ForwardPrefix(directory: string, animation: string, x: real, y: real, n: int, m: nat): (fs: seq<Frame>)
    requires m <= Count(n)
    ensures |fs| == m
  {
    if m == 0 then [] else ForwardPrefix(directory, animation, x, y, n, m - 1) + [ForwardFrame(directory, animation, x, y, n, m - 1)]
  }

  lemma {:induction false} ForwardPrefixAt(directory: string, animation: string, x: real, y: real, n: int, m: nat, k: nat)
    requires k < m <= Count(n)
    ensures ForwardPrefix(directory, animation, x, y, n, m)[k] == ForwardFrame(directory, animation, x, y, n, k)
  {
    if k < m - 1 {
      ForwardPrefixAt(directory, animation, x, y, n, m - 1, k);
    }
  }

  /** The frames of a forward pass, in render order. */
  function ForwardFrames(directory: string, animation: string, x: real, y: real, n: int): (fs: seq<Frame>)
    ensures |fs| == Count(n)
  {
    ForwardPrefix(directory, animation, x, y, n, Count(n))
  }

  /** Frame k of a forward pass is named "{dir}{animation}_{k}_forward" and
      renders `ForwardConstant` of k. */
  lemma ForwardFramesEach(directory: string, animation: string, x: real, y: real, n: int)
    ensures var fs := ForwardFrames(directory, animation, x, y, n);
            forall k :: 0 <= k < |fs| ==>
              && fs[k].filename == FrameName(directory, animation, k, "forward")
              && fs[k].realConstant == ForwardConstant(x, n, k)
              && fs[k].imaginaryConstant == ForwardConstant(y, n, k)
  {
    forall k | 0 <= k < Count(n) {
      ForwardPrefixAt(directory, animation, x, y, n, Count(n), k);
    }
  }

  /** The file names of frames, in order. */
  function Filenames(fs: seq<Frame>): seq<string> {
    seq(|fs|, i requires 0 <= i < |fs| => fs[i].filename)
  }

  /** A forward pass starts with two renders of the start constant (the update
      comes after the render), keeps every constant within a sixtieth of the
      start value, and names its frames pairwise differently. */
  lemma ForwardFramesFacts(directory: string, animation: string, x: real, y: real, n: int)
    ensures var fs := ForwardFrames(directory, animation, x, y, n);
            && (n >= 2 ==> fs[0].realConstant == fs[1].realConstant == x
                           && fs[0].imaginaryConstant == fs[1].imaginaryConstant == y)
            && (forall i :: 0 <= i < |fs| ==>
                  Abs(fs[i].realConstant - x) <= Abs(x) / 60.0
                  && Abs(fs[i].imaginaryConstant - y) <= Abs(y) / 60.0)
            && (forall i, j :: 0 <= i < j < |fs| ==> fs[i].filename != fs[j].filename)
  {
    var fs := ForwardFrames(directory, animation, x, y, n);
    ForwardFramesEach(directory, animation, x, y, n);
    forall i | 0 <= i < |fs|
      ensures Abs(fs[i].realConstant - x) <= Abs(x) / 60.0
      ensures Abs(fs[i].imaginaryConstant - y) <= Abs(y) / 60.0
    {
      ForwardWithin(x, n, i);
      ForwardWithin(y, n, i);
    }
    forall i, j | 0 <= i < j < |fs|
      ensures fs[i].filename != fs[j].filename
    {
      if fs[i].filename == fs[j].filename {
        FrameNameInjective(directory, animation, i, j, "forward");
      }
    }
  }

  /** Constant k of a forward pass, with the step written out. */
  lemma ForwardConstantSchedule(x: real, n: int, k: nat)
    requires k < n
    ensures k <= 1 ==> ForwardConstant(x, n, k) == x
    ensures k >= 1 ==> ForwardConstant(x, n, k) == x - ((k - 1) as real) * ((x / 60.0) / (n as real))
  {
    if k == 1 {
      assert Moved(x, n, 0) == x;
    }
  }

  /** Forward frame k in the source's own terms: frames 0 and 1 render (x, y),
      frame k >= 1 renders x - (k-1)((x/60)/N). */
  lemma ForwardSchedule(directory: string, animation: string, x: real, y: real, n: int, k: nat)
    requires k < n
    ensures var f := ForwardFrames(directory, animation, x, y, n)[k];
            && (k <= 1 ==> f.realConstant == x && f.imaginaryConstant == y)
            && (k >= 1 ==> f.realConstant == x - ((k - 1) as real) * ((x / 60.0) / (n as real))
                           && f.imaginaryConstant == y - ((k - 1) as real) * ((y / 60.0) / (n as real)))
  {
    ForwardPrefixAt(directory, animation, x, y, n, Count(n), k);
    ForwardConstantSchedule(x, n, k);
    ForwardConstantSchedule(y, n, k);
  }

  lemma FilenamesAppend(fs: seq<Frame>, f: Frame)
    ensures Filenames(fs + [f]) == Filenames(fs) + [f.filename]
  {
    assert forall i :: 0 <= i < |fs| ==> (fs + [f])[i] == fs[i];
  }

  lemma FilenamesConcat(fs: seq<Frame>, gs: seq<Frame>)
    ensures Filenames(fs + gs) == Filenames(fs) + Filenames(gs)
  {
    assert forall i :: 0 <= i < |fs| ==> (fs + gs)[i] == fs[i];
    assert forall i :: 0 <= i < |gs| ==> (fs + gs)[|fs| + i] == gs[i];
  }

  /** Where the forward loop leaves the constant: its update after the last render. */
  function AfterForward(x: real, n: int): real {
    if n <= 0 then x else Moved(x, n, n - 1)
  }

  /** One iteration of a sequencer's `for k` loop: name frame k of `direction`,
      render it, then set the constants for the next frame. */
  method RenderStep(a: Animation, julia: Fractal, animation: string, k: nat, direction: string,
                    nextRe: real, nextIm: real) returns (file: string)
    requires a.fractal == julia
    modifies a, julia
    ensures a.fractal == julia && a.increments == old(a.increments) && a.images == old(a.images)
    ensures file == FrameName(old(julia.directory), animation, k, direction)
    ensures a.renders == old(a.renders) + [Frame(file, old(julia.realConstant), old(julia.imaginaryConstant))]
    ensures julia.Snapshot() == old(julia.Snapshot()).(filename := file, realConstant := nextRe,
                                                       imaginaryConstant := nextIm)
  {
    julia.SetFilename(FrameName(julia.directory, animation, k, direction));
    file := a.RenderFractal();
    julia.SetRealConstant(nextRe);
    julia.SetImaginaryConstant(nextIm);
  }

  /** The forward `for k in range(increments)` loop: name the frame, render it,
      then move the constant one step towards x - x/60. */
  method ForwardPass(a: Animation, julia: Fractal, animation: string, x: real, y: real)
    returns (results: seq<string>)
    requires a.fractal == julia
    requires julia.realConstant == x && julia.imaginaryConstant == y
    modifies a, julia
    ensures a.fractal == julia && a.increments == old(a.increments) && a.images == old(a.images)
    ensures var fs := ForwardFrames(julia.directory, animation, x, y, a.increments);
            a.renders == old(a.renders) + fs && results == Filenames(fs)
    ensures var n := a.increments;
            julia.Snapshot() == old(julia.Snapshot()).(
              filename := if n <= 0 then old(julia.filename) else FrameName(julia.directory, animation, n - 1, "forward"),
              realConstant := AfterForward(x, n),
              imaginaryConstant := AfterForward(y, n))
  {
    var n := a.increments;
    ghost var dir := julia.directory;
    results := [];
    var k := 0;
    while k < n
      invariant 0 <= k <= Count(n)
      invariant a.fractal == julia && a.increments == n && a.images == old(a.images)
      invariant julia.Snapshot() == old(julia.Snapshot()).(filename := julia.filename,
                                                          realConstant := julia.realConstant,
                                                          imaginaryConstant := julia.imaginaryConstant)
      invariant julia.filename == if k == 0 then old(julia.filename) else FrameName(dir, animation, k - 1, "forward")
      invariant julia.realConstant == if k == 0 then x else Moved(x, n, k - 1)
      invariant julia.imaginaryConstant == if k == 0 then y else Moved(y, n, k - 1)
      invariant a.renders == old(a.renders) + ForwardPrefix(dir, animation, x, y, n, k)
      invariant results == Filenames(ForwardPrefix(dir, animation, x, y, n, k))
    {
      ghost var f := ForwardFrame(dir, animation, x, y, n, k);
      assert f.realConstant == julia.realConstant && f.imaginaryConstant == julia.imaginaryConstant;
      var file := RenderStep(a, julia, animation, k, "forward", Moved(x, n, k), Moved(y, n, k));
      FilenamesAppend(ForwardPrefix(dir, animation, x, y, n, k), f);
      results := results + [file];
      k := k + 1;
    }
    assert julia.filename == if n <= 0 then old(julia.filename) else FrameName(dir, animation, n - 1, "forward");
    assert julia.realConstant == AfterForward(x, n) && julia.imaginaryConstant == AfterForward(y, n);
  }

  /** Reads the rendered files back in order (`for image_file in results`). */
  method AppendImages(a: Animation, results: seq<string>)
    modifies a
    ensures a.images == old(a.images) + results
    ensures a.fractal == old(a.fractal) && a.increments == old(a.increments) && a.renders == old(a.renders)
  {
    var i := 0;
    while i < |results|
      invariant 0 <= i <= |results|
      invariant a.fractal == old(a.fractal) && a.increments == old(a.increments) && a.renders == old(a.renders)
      invariant a.images == old(a.images) + results[..i]
    {
      a.images := a.images + [results[i]];
      assert results[..i + 1] == results[..i] + [results[i]];
      i := i + 1;
    }
    assert results[..i] == results;
  }
}
