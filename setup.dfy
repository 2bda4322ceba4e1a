/** The option-to-configuration layer of generate_fractal_image.py: the viewport
    override, the conditional setters in `main`, the colour scheme, the
    animation/colour compatibility rules and the final dispatch. */
module Setup {
  import opened Basics
  import opened Decimal
  import opened Arguments
  import opened Engine
  import opened Animations

  // ---------------------------------------------------------------- viewport

  /** `setup_fractal_viewport`: each bound whose option is present is
      overwritten, each absent bound keeps its previous value. */
  function OverrideViewport(v: Viewport, o: Options): (r: Viewport)
    ensures r.leftX == (if o.viewportLeft.Some? then o.viewportLeft.value else v.leftX)
    ensures r.rightX == (if o.viewportRight.Some? then o.viewportRight.value else v.rightX)
    ensures r.topY == (if o.viewportTop.Some? then o.viewportTop.value else v.topY)
    ensures r.bottomY == (if o.viewportBottom.Some? then o.viewportBottom.value else v.bottomY)
  {
    var v1 := if o.viewportLeft.Some? then v.(leftX := o.viewportLeft.value) else v;
    var v2 := if o.viewportRight.Some? then v1.(rightX := o.viewportRight.value) else v1;
    var v3 := if o.viewportTop.Some? then v2.(topY := o.viewportTop.value) else v2;
    if o.viewportBottom.Some? then v3.(bottomY := o.viewportBottom.value) else v3
  }

  method SetupViewport(f: Fractal, o: Options)
    modifies f
    ensures f.Snapshot() == old(f.Snapshot()).(viewport := OverrideViewport(old(f.viewport), o))
  {
    if o.viewportLeft.Some? {
      f.SetViewportLeft(o.viewportLeft.value);
    }
    if o.viewportRight.Some? {
      f.SetViewportRight(o.viewportRight.value);
    }
    if o.viewportTop.Some? {
      f.SetViewportTop(o.viewportTop.value);
    }
    if o.viewportBottom.Some? {
      f.SetViewportBottom(o.viewportBottom.value);
    }
  }

  // ------------------------------------------------------ setters of `main`

  /** The attributes after `main`'s setter block: each of width, height, the two
      constants, filename and precision takes its option when given, and
      every other attribute is kept. */
  function ApplyOverrides(s: Settings, o: Options): (r: Settings)
    ensures r.width == o.width.GetOr(s.width) && r.height == o.height.GetOr(s.height)
    ensures r.realConstant == o.realConstant.GetOr(s.realConstant)
    ensures r.imaginaryConstant == o.imaginaryConstant.GetOr(s.imaginaryConstant)
    ensures r.filename == o.filename.GetOr(s.filename)
    ensures r.precision == o.precision.GetOr(s.precision)
    ensures r.(width := s.width, height := s.height, realConstant := s.realConstant,
               imaginaryConstant := s.imaginaryConstant, filename := s.filename,
               precision := s.precision) == s
  {
    s.(width := o.width.GetOr(s.width), height := o.height.GetOr(s.height),
       realConstant := o.realConstant.GetOr(s.realConstant),
       imaginaryConstant := o.imaginaryConstant.GetOr(s.imaginaryConstant),
       filename := o.filename.GetOr(s.filename), precision := o.precision.GetOr(s.precision))
  }

  /** The setter block of `main`: each of the six attributes is set only when
      its option is given. */
  method ApplySetters(f: Fractal, o: Options)
    modifies f
    ensures f.Snapshot() == ApplyOverrides(old(f.Snapshot()), o)
  {
    ApplySizeSetters(f, o);
    ApplyConstantSetters(f, o);
    ApplyOutputSetters(f, o);
  }

  /** `set_width` and `set_height`, each only when its option is given. */
  method ApplySizeSetters(f: Fractal, o: Options)
    modifies f
    ensures f.Snapshot() == old(f.Snapshot()).(width := o.width.GetOr(old(f.width)),
                                                height := o.height.GetOr(old(f.height)))
  {
    if o.width.Some? {
      f.SetWidth(o.width.value);
    }
    if o.height.Some? {
      f.SetHeight(o.height.value);
    }
  }

  /** `set_real_constant` and `set_imaginary_constant`, each only when its option is given. */
  method ApplyConstantSetters(f: Fractal, o: Options)
    modifies f
    ensures f.Snapshot() == old(f.Snapshot()).(realConstant := o.realConstant.GetOr(old(f.realConstant)),
                                                imaginaryConstant := o.imaginaryConstant.GetOr(old(f.imaginaryConstant)))
  {
    if o.realConstant.Some? {
      f.SetRealConstant(o.realConstant.value);
    }
    if o.imaginaryConstant.Some? {
      f.SetImaginaryConstant(o.imaginaryConstant.value);
    }
  }

  /** `set_filename` and `set_precision`, each only when its option is given. */
  method ApplyOutputSetters(f: Fractal, o: Options)
    modifies f
    ensures f.Snapshot() == old(f.Snapshot()).(filename := o.filename.GetOr(old(f.filename)),
                                                precision := o.precision.GetOr(old(f.precision)))
  {
    if o.filename.Some? {
      f.SetFilename(o.filename.value);
    }
    if o.precision.Some? {
      f.SetPrecision(o.precision.value);
    }
  }

  // ----------------------------------------------------------- colour scheme

  /** The attributes a freshly constructed colour object starts with (the
      colour classes are not part of this model). */
  datatype ColorDefaults = ColorDefaults(
    rangeStartDegree: int, rangeEndDegree: int,
    cyclicStartDegree: int, cyclicStepShift: int, cyclicColorCount: int)

  /** The colour object `setup_fractal_color_scheme` builds. The start degree is
      applied whenever it is not None (0 included); the cyclic step shift and
      colour count only when nonzero; the end degree only for hue_range. */
  function ColorFor(o: Options, d: ColorDefaults): (c: ColorAlgorithm)
    ensures o.colorAlgorithm == Simple <==> c.SimpleColors?
    ensures o.colorAlgorithm == BlackAndWhite <==> c.BlackAndWhiteColors?
    ensures o.colorAlgorithm == HueRange <==> c.HueRangeColors?
    ensures o.colorAlgorithm == HueCyclic <==> c.HueCyclicColors?
    ensures c.HueRangeColors? ==>
              && c.startDegree == o.hueStartDegree.GetOr(d.rangeStartDegree)
              && c.endDegree == o.hueEndDegree.GetOr(d.rangeEndDegree)
    ensures c.HueCyclicColors? ==>
              && c.startDegree == o.hueStartDegree.GetOr(d.cyclicStartDegree)
              && c.colorStepShift == (if Truthy(o.hueStepShift) then o.hueStepShift.value else d.cyclicStepShift)
              && c.colorCount == (if Truthy(o.colorCount) then o.colorCount.value else d.cyclicColorCount)
  {
    match o.colorAlgorithm
    case Simple => SimpleColors
    case BlackAndWhite => BlackAndWhiteColors
    case HueRange =>
      var start := if o.hueStartDegree.Some? then o.hueStartDegree.value else d.rangeStartDegree;
      var end := if o.hueEndDegree.Some? then o.hueEndDegree.value else d.rangeEndDegree;
      HueRangeColors(start, end)
    case HueCyclic =>
      var start := if o.hueStartDegree.Some? then o.hueStartDegree.value else d.cyclicStartDegree;
      var shift := if Truthy(o.hueStepShift) then o.hueStepShift.value else d.cyclicStepShift;
      var count := if Truthy(o.colorCount) then o.colorCount.value else d.cyclicColorCount;
      HueCyclicColors(start, shift, count)
  }

  /** The colour-scheme name, written from the colour object's attributes after
      the overrides: the choice verbatim for simple and black_and_white,
      "hue_range-{start}-{end}" and "hue_cyclic-{start}-{step_shift}". */
  function SchemeName(c: ColorAlgorithm): (r: string)
    ensures c.SimpleColors? <==> r == ColorNameText(Simple)
    ensures c.BlackAndWhiteColors? <==> r == ColorNameText(BlackAndWhite)
    ensures c.HueRangeColors? ==> StripHead(r, Head(HueRange)) == Some(PairText(c.startDegree, c.endDegree))
    ensures c.HueCyclicColors? ==> StripHead(r, Head(HueCyclic)) == Some(PairText(c.startDegree, c.colorStepShift))
  {
    NameLetters();
    match c
    case SimpleColors => ColorNameText(Simple)
    case BlackAndWhiteColors => ColorNameText(BlackAndWhite)
    case HueRangeColors(s, e) =>
      HueNameDecodes(HueRange, s, e);
      Head(HueRange) + PairText(s, e)
    case HueCyclicColors(s, shift, _) =>
      HueNameDecodes(HueCyclic, s, shift);
      Head(HueCyclic) + PairText(s, shift)
  }

  /** "{algorithm}-", the part of a hue scheme name before the numbers. */
  function Head(k: ColorName): string {
    ColorNameText(k) + "-"
  }

  /** "{a}-{b}". */
  function PairText(a: int, b: int): string {
    IntToString(a) + "-" + IntToString(b)
  }

  /** What a scheme name records of its colour object. */
  datatype SchemeSummary =
    | SimpleScheme
    | BlackAndWhiteScheme
    | HueRangeScheme(startDegree: int, endDegree: int)
    | HueCyclicScheme(startDegree: int, colorStepShift: int)

  function Summary(c: ColorAlgorithm): SchemeSummary {
    match c
    case SimpleColors => SimpleScheme
    case BlackAndWhiteColors => BlackAndWhiteScheme
    case HueRangeColors(s, e) => HueRangeScheme(s, e)
    case HueCyclicColors(s, shift, _) => HueCyclicScheme(s, shift)
  }

  /** Reads "{a}-{b}" with nothing after it. */
  function DecodePair(s: string): Option<(int, int)> {
    match ParseIntPrefix(s)
    case None => None
    case Some((a, r)) =>
      if r != [] && r[0] == '-' then
        match ParseIntPrefix(r[1..])
        case None => None
        case Some((b, r2)) => if r2 == [] then Some((a, b)) else None
      else None
  }

  /** The rest of `s` after `head`, when `s` starts with it. */
  function StripHead(s: string, head: string): Option<string> {
    if |head| <= |s| && s[..|head|] == head then Some(s[|head|..]) else None
  }

  /** Reads a scheme name back into what it records. */
  function DecodeSchemeName(s: string): Option<SchemeSummary> {
    if s == ColorNameText(Simple) then Some(SimpleScheme)
    else if s == ColorNameText(BlackAndWhite) then Some(BlackAndWhiteScheme)
    else
      match StripHead(s, Head(HueRange))
      case Some(t) =>
        (match DecodePair(t)
         case None => None
         case Some((a, b)) => Some(HueRangeScheme(a, b)))
      case None =>
        match StripHead(s, Head(HueCyclic))
        case None => None
        case Some(t) =>
          match DecodePair(t)
          case None => None
          case Some((a, b)) => Some(HueCyclicScheme(a, b))
  }

  lemma DecodePairRoundTrip(a: int, b: int)
    ensures DecodePair(PairText(a, b)) == Some((a, b))
  {
    var rest := "-" + IntToString(b);
    assert PairText(a, b) == IntToString(a) + rest;
    IntToStringRoundTrip(a, rest);
    assert rest[1..] == IntToString(b) + [];
    IntToStringRoundTrip(b, []);
  }

  lemma StripHeadOf(head: string, t: string)
    ensures StripHead(head + t, head) == Some(t)
  {
    assert (head + t)[..|head|] == head;
    assert (head + t)[|head|..] == t;
  }

  lemma StripHeadMismatch(s: string, head: string, i: nat)
    requires i < |head| && i < |s| && s[i] != head[i]
    ensures StripHead(s, head) == None
  {
    if |head| <= |s| {
      assert s[..|head|][i] == s[i];
    }
  }

  /** The characters that tell the four names apart. */
  lemma NameLetters()
    ensures ColorNameText(Simple)[0] == 's' && ColorNameText(BlackAndWhite)[0] == 'b'
    ensures |Head(HueRange)| > 4 && Head(HueRange)[0] == 'h' && Head(HueRange)[4] == 'r'
    ensures |Head(HueCyclic)| > 4 && Head(HueCyclic)[0] == 'h' && Head(HueCyclic)[4] == 'c'
  {
  }

  /** A hue name is neither plain name, and its text after its own head is the
      pair of numbers. */
  lemma HueNameDecodes(k: ColorName, a: int, b: int)
    requires k == HueRange || k == HueCyclic
    ensures var name := Head(k) + PairText(a, b);
            && name != ColorNameText(Simple) && name != ColorNameText(BlackAndWhite)
            && StripHead(name, Head(k)) == Some(PairText(a, b))
            && |name| > 4 && name[4] == Head(k)[4]
  {
    var name := Head(k) + PairText(a, b);
    NameLetters();
    assert name[0] == 'h' && name[4] == Head(k)[4];
    StripHeadOf(Head(k), PairText(a, b));
  }

  /** A scheme name determines the variant and the degrees it was built from
      (and nothing more: the cyclic colour count is not part of the name). */
  lemma SchemeNameRoundTrip(c: ColorAlgorithm)
    ensures DecodeSchemeName(SchemeName(c)) == Some(Summary(c))
  {
    match c
    case SimpleColors =>
    case BlackAndWhiteColors =>
    case HueRangeColors(s, e) =>
      HueNameDecodes(HueRange, s, e);
      DecodePairRoundTrip(s, e);
    case HueCyclicColors(s, shift, _) =>
      HueNameDecodes(HueCyclic, s, shift);
      NameLetters();
      StripHeadMismatch(Head(HueCyclic) + PairText(s, shift), Head(HueRange), 4);
      DecodePairRoundTrip(s, shift);
  }

  lemma SchemeNameInjective(c1: ColorAlgorithm, c2: ColorAlgorithm)
    requires SchemeName(c1) == SchemeName(c2)
    ensures Summary(c1) == Summary(c2)
  {
    SchemeNameRoundTrip(c1);
    SchemeNameRoundTrip(c2);
  }

  method SetupColorScheme(f: Fractal, o: Options, d: ColorDefaults)
    modifies f
    ensures f.Snapshot() == old(f.Snapshot()).(colorAlgorithmName := SchemeName(ColorFor(o, d)),
                                               colorAlgorithm := Some(ColorFor(o, d)))
  {
    var color: ColorAlgorithm;
    var name: string;
    if o.colorAlgorithm == Simple {
      color := SimpleColors;
      name := ColorNameText(o.colorAlgorithm);
    } else if o.colorAlgorithm == BlackAndWhite {
      color := BlackAndWhiteColors;
      name := ColorNameText(o.colorAlgorithm);
    } else if o.colorAlgorithm == HueRange {
      var start, end := d.rangeStartDegree, d.rangeEndDegree;
      if o.hueStartDegree.Some? {
        start := o.hueStartDegree.value;
      }
      if o.hueEndDegree.Some? {
        end := o.hueEndDegree.value;
      }
      color := HueRangeColors(start, end);
      name := Head(o.colorAlgorithm) + PairText(start, end);
    } else {
      var start, shift, count := d.cyclicStartDegree, d.cyclicStepShift, d.cyclicColorCount;
      if o.hueStartDegree.Some? {
        start := o.hueStartDegree.value;
      }
      if Truthy(o.hueStepShift) {
        shift := o.hueStepShift.value;
      }
      if Truthy(o.colorCount) {
        count := o.colorCount.value;
      }
      color := HueCyclicColors(start, shift, count);
      name := Head(o.colorAlgorithm) + PairText(start, shift);
    }
    assert color == ColorFor(o, d);
    assert name == SchemeName(color);
    f.SetColorAlgorithmName(name);
    f.SetColorAlgorithm(Some(color));
  }

  // --------------------------------------------------------------- animation

  datatype SetupError =
    | RequiresColor(color: ColorName)  // "only hue_range/hue_cyclic should be used for this animation"
    | NoAnimation                      // the final `else`: no animation object exists

  /** The colour algorithm an animation insists on, if any. */
  function RequiredColor(a: AnimationChoice): Option<ColorName> {
    match a
    case FirstHueRotation => Some(HueRange)
    case SecondHueRotation => Some(HueRange)
    case HueCycle => Some(HueCyclic)
    case _ => None
  }

  predicate IsRandomAnimation(a: AnimationChoice) {
    a.RandomJulia? || a.RandomCubicJulia? || a.RandomPhoenixJulia?
    || a.RandomQuarticJulia? || a.RandomWalkJulia?
  }

  /** The animation object `setup_fractal_animation` hands back, as a value. */
  datatype AnimationJob = AnimationJob(kind: AnimationChoice, increments: int)

  /** `setup_fractal_animation`'s decision. It fails exactly when no animation is
      named, or the animation needs a colour algorithm other than the selected
      one; otherwise the named animation gets the given increments when these
      are truthy and keeps its own default otherwise (so 0 changes nothing). */
  function SelectAnimation(o: Options, defaultIncrements: int): (r: Result<AnimationJob, SetupError>)
    ensures r.Failure? <==>
              || o.fractalAnimation.None?
              || (RequiredColor(o.fractalAnimation.value).Some?
                  && RequiredColor(o.fractalAnimation.value).value != o.colorAlgorithm)
    ensures r.Failure? && o.fractalAnimation.Some? ==>
              r.error == RequiresColor(RequiredColor(o.fractalAnimation.value).value)
    ensures r.Success? ==>
              && r.value.kind == o.fractalAnimation.value
              && r.value.increments == (if Truthy(o.increments) then o.increments.value else defaultIncrements)
  {
    match o.fractalAnimation
    case None => Failure(NoAnimation)
    case Some(a) =>
      if (a == FirstHueRotation || a == SecondHueRotation) && o.colorAlgorithm != HueRange then
        Failure(RequiresColor(HueRange))
      else if a == HueCycle && o.colorAlgorithm != HueCyclic then
        Failure(RequiresColor(HueCyclic))
      else
        Success(AnimationJob(a, if Truthy(o.increments) then o.increments.value else defaultIncrements))
  }

  /** The five random-* animations are accepted with every colour algorithm. */
  lemma RandomAnimationsAcceptAnyColor(o: Options, c: ColorName, defaultIncrements: int)
    requires o.fractalAnimation.Some? && IsRandomAnimation(o.fractalAnimation.value)
    ensures SelectAnimation(o.(colorAlgorithm := c), defaultIncrements).Success?
  {
  }

  method SetupAnimation(f: Fractal, o: Options, defaultIncrements: int)
    returns (r: Result<Animation, SetupError>)
    modifies f
    ensures f.Snapshot() == if o.fractalAnimation.None? then old(f.Snapshot()).(showProgressBar := false)
                            else old(f.Snapshot())
    ensures SelectAnimation(o, defaultIncrements).Failure? ==>
              r == Failure(SelectAnimation(o, defaultIncrements).error)
    ensures SelectAnimation(o, defaultIncrements).Success? ==>
              && r.Success? && fresh(r.value)
              && r.value.kind == SelectAnimation(o, defaultIncrements).value.kind
              && r.value.increments == SelectAnimation(o, defaultIncrements).value.increments
              && r.value.fractal == f
              && r.value.images == [] && r.value.renders == []
  {
    if o.fractalAnimation.None? {
      f.SetShowProgressBar(false);
      return Failure(NoAnimation);
    }
    var a := o.fractalAnimation.value;
    if a == FirstHueRotation || a == SecondHueRotation {
      if o.colorAlgorithm != HueRange {
        return Failure(RequiresColor(HueRange));
      }
    } else if a == HueCycle {
      if o.colorAlgorithm != HueCyclic {
        return Failure(RequiresColor(HueCyclic));
      }
    }
    // only now does an animation object exist
    var animation := new Animation(a, defaultIncrements);
    if Truthy(o.increments) {
      animation.increments := o.increments.value;
    }
    animation.fractal := f;
    r := Success(animation);
  }

  // -------------------------------------------------------------------- main

  /** The engine configuration `main` has built when it renders or animates:
      viewport first, then the setters, then the colour scheme. */
  function Configure(o: Options, init: Settings, d: ColorDefaults): (s: Settings)
    ensures s.viewport == OverrideViewport(init.viewport, o)
    ensures s.colorAlgorithm == Some(ColorFor(o, d))
    ensures s.colorAlgorithmName == SchemeName(ColorFor(o, d))
    ensures s.precision == o.precision.GetOr(init.precision)
    ensures s.width == o.width.GetOr(init.width) && s.height == o.height.GetOr(init.height)
    ensures s.realConstant == o.realConstant.GetOr(init.realConstant)
    ensures s.imaginaryConstant == o.imaginaryConstant.GetOr(init.imaginaryConstant)
    ensures s.filename == o.filename.GetOr(init.filename)
    ensures s.directory == init.directory && s.bypassImageGeneration == init.bypassImageGeneration
    ensures s.showProgressBar == init.showProgressBar
  {
    var s1 := init.(viewport := OverrideViewport(init.viewport, o));
    var s2 := ApplyOverrides(s1, o);
    s2.(colorAlgorithmName := SchemeName(ColorFor(o, d)), colorAlgorithm := Some(ColorFor(o, d)))
  }

  /** What `main` ends with: one still render, or one `animate` call instead. */
  datatype Action =
    | RenderStill(kind: FractalKind, settings: Settings)
    | RunAnimation(job: AnimationJob, kind: FractalKind, settings: Settings)

  /** `main`, from a freshly constructed engine of the chosen class whose
      defaults are `init`. An incompatible animation fails before anything
      renders; without an animation there is exactly one still render. */
  method Run(o: Options, init: Settings, d: ColorDefaults, defaultIncrements: int)
    returns (r: Result<Action, SetupError>)
    ensures o.fractalAnimation.None? ==>
              r == Success(RenderStill(o.fractalAlgorithm, Configure(o, init, d)))
    ensures o.fractalAnimation.Some? ==>
              r == match SelectAnimation(o, defaultIncrements)
                   case Failure(e) => Failure(e)
                   case Success(job) => Success(RunAnimation(job, o.fractalAlgorithm, Configure(o, init, d)))
  {
    var fractal := new Fractal(o.fractalAlgorithm, init);
    SetupViewport(fractal, o);

    ApplySetters(fractal, o);

    // after precision, as the colour objects may read it
    SetupColorScheme(fractal, o, d);
    assert fractal.Snapshot() == Configure(o, init, d);

    if o.fractalAnimation.Some? {
      var animation := SetupAnimation(fractal, o, defaultIncrements);
      match animation
      case Failure(e) =>
        r := Failure(e);
      case Success(anim) =>
        r := Success(RunAnimation(AnimationJob(anim.kind, anim.increments), fractal.kind, fractal.Snapshot()));
    } else {
      r := Success(RenderStill(fractal.kind, fractal.Snapshot()));
    }
  }
}
