# fractal_toy: option setup and random-Julia sequencers

This project is a Dafny model of two parts of the fractal_toy image generator.

- **The option-to-configuration layer of `generate_fractal_image.py`.** A record of optional command-line options (`Arguments.Options`) is folded into a fractal engine (`Engine.Fractal`) through conditional setters. The layer covers:
  - the partial viewport override;
  - the setter block of `main` (width, height, both constants, filename, precision);
  - the colour scheme and its name;
  - the rule that an animation and the selected colour algorithm must be compatible;
  - the final dispatch, which is one still render or one animation.
- **The random-Julia animation sequencers** `RandomQuarticJulia.animate` and `RandomPhoenixJulia.animate`. Each one:
  - probes a precomputed Mandelbrot-family array with a rejection-sampling loop over a stream of random pixel draws;
  - maps the accepted pixel to a complex constant by `numpy.linspace` indexing;
  - walks the Julia constant across `increments` frames, updating it after each render;
  - hands the rendered files to the GIF writer. The quartic sequencer renders a forward pass and then a backward pass. The phoenix sequencer renders one forward pass and plays it forwards and then backwards.

## Modules

- `Basics`: `Option` and `Result`.
- `Decimal`: Python's `str()` of an integer, with a parser proved to be its inverse. The colour-scheme name is built with it.
- `Engine`:
  - The engine class `Fractal`, whose setter methods each change one attribute.
  - `Settings`, the value of all its attributes (`Fractal.Snapshot()`).
  - The enumeration of the fourteen engine classes.
- `Arguments`: the parsed options and the choice enumerations.
- `Setup`: `setup_fractal_viewport`, `setup_fractal_color_scheme`, `setup_fractal_animation` and `main`.
- `Animations`:
  - The animation object, with its increments, current engine, rendered frames and collected images.
  - `render_fractal`, modelled as recording one `Frame`: the file name and the constant being rendered.
  - Engine spawning from a backup copy.
- `Probe`: the rejection loop, `linspace` indexing and the start point.
- `Trajectory`: the forward constant schedule and frame names shared by both sequencers. It also holds the forward loop and the image read-back loop.
- `QuarticAnimation`, `PhoenixAnimation`: the two `animate` methods.

The code is followed wherever it differs from the class names. `RandomQuarticJulia` constructs `CubicMandelbrot` and `CubicJulia` engines, so the model spawns those two. The probe engine is a fresh engine, and the setters copied from the backup do not include the viewport. The start point is therefore computed over the probe engine's own default viewport, not over the user's viewport override (`probeInit.viewport` in the model).

## Model

| member | source | states |
|---|---|---|
| Setup.OverrideViewport | generate_fractal_image.py:57-66 | each viewport bound whose option is present takes the option's value; each absent bound keeps its previous value |
| Setup.SetupViewport | generate_fractal_image.py:57-66 | the engine's new state is the old state with only the viewport replaced by `OverrideViewport` of the old viewport |
| Setup.ApplyOverrides | generate_fractal_image.py:108-119 | width, height, real and imaginary constant, filename and precision take the option's value exactly when it is given (not-None); every other attribute is unchanged |
| Setup.ApplySetters | generate_fractal_image.py:108-119 | the engine's new state is `ApplyOverrides` of its old state |
| Setup.ApplySizeSetters | generate_fractal_image.py:108-111 | width and height each take their option when it is given; nothing else changes |
| Setup.ApplyConstantSetters | generate_fractal_image.py:112-115 | the real and imaginary constant each take their option when it is given; nothing else changes |
| Setup.ApplyOutputSetters | generate_fractal_image.py:116-119 | filename and precision each take their option when it is given; nothing else changes |
| Setup.ColorFor | generate_fractal_image.py:27-53 | the colour object's variant matches the chosen algorithm (each direction). The hue start degree is applied whenever it is given, 0 included. The end degree applies only to hue_range. The cyclic step shift and colour count are applied only when nonzero; otherwise the colour object's defaults remain |
| Setup.SchemeName | generate_fractal_image.py:29-52 | the name is "simple" exactly for the simple colouring and "black_and_white" exactly for black-and-white; a hue_range name is "hue_range-" followed by "{start}-{end}", and a hue_cyclic name is "hue_cyclic-" followed by "{start}-{step_shift}" |
| Setup.SchemeNameRoundTrip | generate_fractal_image.py:29-52 | the scheme name decodes back to its variant and to the degrees it was written from. "simple" and "black_and_white" are verbatim. The others are "hue_range-{start}-{end}" and "hue_cyclic-{start}-{step_shift}", built from the values after the overrides |
| Setup.SchemeNameInjective | generate_fractal_image.py:41-52 | two colour objects with the same scheme name agree on variant, start degree and end degree or step shift |
| Setup.DecodePairRoundTrip | generate_fractal_image.py:41 | "{a}-{b}" formatted from two integers reads back as (a, b) |
| Setup.HueNameDecodes | generate_fractal_image.py:41-52 | a hue scheme name is neither plain name, starts with its own "hue_…-" head, and the text after the head decodes to its two numbers |
| Setup.SetupColorScheme | generate_fractal_image.py:27-54 | the engine's new state is the old one with only the colour algorithm set to `ColorFor` and the colour name set to `SchemeName` of it |
| Setup.SelectAnimation | generate_fractal_image.py:69-101 | the result is a failure exactly when no animation is named, or when the named animation needs a colour algorithm other than the selected one (hue_range for both hue rotations, hue_cyclic for hue_cycle). It then names the required colour. On success it keeps the chosen animation, whose increments are the option when truthy and the animation's default otherwise (so 0 changes nothing) |
| Setup.RandomAnimationsAcceptAnyColor | generate_fractal_image.py:84-93 | the five random-* animations are accepted with every colour algorithm |
| Setup.SetupAnimation | generate_fractal_image.py:69-101 | an incompatible choice returns the error before any animation object is allocated. Otherwise a fresh animation of the chosen kind is returned, with `SelectAnimation`'s increments, the engine attached and no frames. The engine changes only in the no-animation branch, where the progress bar is switched off |
| Setup.Configure | generate_fractal_image.py:104-122 | the configured engine has the overridden viewport; width, height, real and imaginary constant, filename and precision are each the option when given and the fresh engine's default otherwise; the colour scheme is that of `ColorFor`/`SchemeName`; directory, bypass flag and progress-bar flag are those of the fresh engine |
| Setup.Run | generate_fractal_image.py:104-128 | without an animation, `main` ends in exactly one still render of the `Configure`d engine. With one, it ends either in the rejection of `SelectAnimation` or in exactly one animation run of the selected job on that engine |
| Decimal.NatToString | generate_fractal_image.py:41 | `str()` of a natural number is a nonempty string of decimal digits |
| Decimal.NatToStringRoundTrip | generate_fractal_image.py:41 | the digits of `str(n)` read back as n |
| Decimal.NatToStringInjective | generate_fractal_image.py:41 | different naturals have different decimal texts |
| Decimal.IntToString | generate_fractal_image.py:41 | `str(n)` of any integer is nonempty, starts with '-' exactly when n is negative, and is all decimal digits after that sign |
| Decimal.IntToStringRoundTrip | generate_fractal_image.py:41 | `str(n)` of any integer, sign included, followed by text that does not start with a digit, parses back to n and that text |
| Engine.Fractal.constructor | generate_fractal_image.py:105 | a new engine of the chosen class holds that class's defaults |
| Engine.Fractal.SetViewportLeft | generate_fractal_image.py:58-59 | only the left bound changes |
| Engine.Fractal.SetViewportRight | generate_fractal_image.py:60-61 | only the right bound changes |
| Engine.Fractal.SetViewportTop | generate_fractal_image.py:62-63 | only the top bound changes |
| Engine.Fractal.SetViewportBottom | generate_fractal_image.py:64-65 | only the bottom bound changes |
| Engine.Fractal.SetWidth | generate_fractal_image.py:108-109 | only the width changes |
| Engine.Fractal.SetHeight | generate_fractal_image.py:110-111 | only the height changes |
| Engine.Fractal.SetRealConstant | generate_fractal_image.py:112-113 | only the real constant changes |
| Engine.Fractal.SetImaginaryConstant | generate_fractal_image.py:114-115 | only the imaginary constant changes |
| Engine.Fractal.SetFilename | generate_fractal_image.py:116-117 | only the filename changes |
| Engine.Fractal.SetPrecision | generate_fractal_image.py:118-119 | only the precision changes |
| Engine.Fractal.SetColorAlgorithmName | generate_fractal_image.py:31 | only the colour-scheme name changes |
| Engine.Fractal.SetColorAlgorithm | generate_fractal_image.py:53 | only the colour algorithm changes |
| Engine.Fractal.SetShowProgressBar | generate_fractal_image.py:95 | only the progress-bar flag changes |
| Engine.Fractal.SetBypassImageGeneration | animations/random_quartic_julia.py:33 | only the bypass flag changes |
| Engine.Fractal.SetDirectory | animations/random_quartic_julia.py:23 | only the directory changes |
| Animations.Animation.constructor | generate_fractal_image.py:75 | a new animation has its default increments, no engine, no renders and no images |
| Animations.Animation.RenderFractal | animations/random_quartic_julia.py:68 | one render appends the engine's current filename and constant to the render log and returns that filename; nothing else changes |
| Animations.Inherit | animations/random_quartic_julia.py:22-29 | directory, colour name, colour algorithm, width, height and precision come from the backup; every other attribute is the fresh engine's default |
| Animations.SpawnEngine | animations/random_phoenix_julia.py:54-61 | the new engine is fresh, of the requested class, and holds `Inherit` of its defaults and the backup |
| Probe.FirstAccepted | animations/random_quartic_julia.py:36-41 | the first accepted draw is accepted and every earlier draw is rejected |
| Probe.SearchStartingPoint | animations/random_phoenix_julia.py:36-42 | the rejection loop stops at the first accepted draw, provided some draw of the stream is accepted |
| Probe.Linspace | animations/random_quartic_julia.py:44-45 | index 0 maps to the start and index num-1 (num > 1) to the stop; with num = 1 the only element is the start |
| Probe.LinspaceWithin | animations/random_quartic_julia.py:44-45 | for an index in range and start <= stop, the element lies between the end points |
| Probe.LinspaceIncreasing | animations/random_phoenix_julia.py:45-46 | elements increase strictly with the index |
| Probe.StartPoint | animations/random_quartic_julia.py:44-45 | the complex start constant lies inside the probe viewport whenever the viewport's bounds are ordered |
| Probe.ProbePhase | animations/random_quartic_julia.py:20-45 | the probe engine is a fresh engine of the requested class holding `Inherit` of its defaults and the backup, with image generation bypassed; exactly one render is logged, with the probe engine's default filename and constants; the returned (x, y) is `StartPoint` of the first accepted draw; increments and images are unchanged |
| Probe.StartPointWithin | animations/random_quartic_julia.py:36-45 | the start constant lies inside the probe viewport; pixel 0 maps to the left/bottom edge and pixel width-1/height-1 to the right/top edge |
| Trajectory.StepsWithin | animations/random_quartic_julia.py:70-71 | at most N steps of (x/60)/N move at most \|x\|/60 |
| Trajectory.ForwardWithin | animations/random_phoenix_julia.py:73-74 | every forward constant is within \|x\|/60 of x |
| Trajectory.FrameNameShape | animations/random_quartic_julia.py:65-67 | a frame name is the directory, then the animation name, then "_", the frame number in decimal, "_" and the direction |
| Trajectory.ForwardPrefixAt | animations/random_quartic_julia.py:63-71 | frame k of the first m forward renders is forward frame k |
| Trajectory.ForwardFrames | animations/random_phoenix_julia.py:66-71 | a forward pass has exactly N frames (none for N <= 0) |
| Trajectory.ForwardFramesEach | animations/random_phoenix_julia.py:66-74 | forward frame k is named "{dir}{animation}_{k}_forward" and renders x for k = 0 and the update after render k-1 otherwise |
| Trajectory.ForwardConstantSchedule | animations/random_quartic_julia.py:60-71 | the forward constant of frames 0 and 1 is x; that of frame k >= 1 is x - (k-1)((x/60)/N) |
| Trajectory.ForwardSchedule | animations/random_quartic_julia.py:60-71 | forward frames 0 and 1 both render (x, y); frame k >= 1 renders x - (k-1)((x/60)/N), and the same for y |
| Trajectory.ForwardFramesFacts | animations/random_phoenix_julia.py:63-74 | the first two forward frames render the start constant, every constant is within a sixtieth of the start, and the frame names are pairwise distinct |
| Trajectory.FrameNameInjective | animations/random_phoenix_julia.py:68-70 | names of one direction differ for different frame numbers |
| Trajectory.ForwardBackwardNamesDiffer | animations/random_quartic_julia.py:65-77 | a forward name is never a backward name |
| Trajectory.FilenamesAppend | animations/random_quartic_julia.py:68 | the file names of frames extended by one frame gain that frame's name |
| Trajectory.FilenamesConcat | animations/random_quartic_julia.py:63-81 | the file names of two passes are the names of the first followed by those of the second |
| Trajectory.RenderStep | animations/random_quartic_julia.py:65-71 | one iteration names the frame "{dir}{animation}_{k}_{direction}", logs one render of that name with the constant held before the update, then holds the next constant; nothing else changes |
| Trajectory.ForwardPass | animations/random_phoenix_julia.py:66-74 | the loop renders exactly `ForwardFrames`, returns their file names in order, leaves the engine on the last forward name and the last update, and changes no other attribute |
| Trajectory.AppendImages | animations/random_quartic_julia.py:85-86 | the images gain the rendered file names in order; nothing else changes |
| QuarticAnimation.AcceptedCell | animations/random_quartic_julia.py:36-42 | the accepted cell lies in [0, width-1] x [0, height-1] and its value v satisfies 0.98·precision < v < precision |
| QuarticAnimation.BackwardWithin | animations/random_quartic_julia.py:80-81 | every backward constant is within \|x\|/60 of x |
| QuarticAnimation.BackwardPrefixAt | animations/random_quartic_julia.py:73-81 | frame k of the first m backward renders is backward frame k |
| QuarticAnimation.BackwardFrames | animations/random_quartic_julia.py:73-81 | the backward pass has exactly N frames |
| QuarticAnimation.BackwardFramesEach | animations/random_quartic_julia.py:73-81 | backward frame k is named "{dir}random_quartic_julia_{k}_backward" and renders the constant the previous render left |
| QuarticAnimation.BackwardConstantSchedule | animations/random_quartic_julia.py:70-81 | backward constant 0 is x - (N-1)((x/60)/N); backward constant k >= 1 is x + (k-1)((x/60)/N) - x/60 |
| QuarticAnimation.Frames | animations/random_quartic_julia.py:63-81 | a run renders 2N frames |
| QuarticAnimation.FramesNames | animations/random_quartic_julia.py:63-81 | frame k of a run is named as forward frame k and frame N+k as backward frame k |
| QuarticAnimation.BackwardSchedule | animations/random_quartic_julia.py:70-81 | backward frame 0 renders x - (N-1)((x/60)/N); backward frame k >= 1 renders x + (k-1)((x/60)/N) - x/60; the same for y |
| QuarticAnimation.FramesWithin | animations/random_quartic_julia.py:70-81 | every rendered constant is within \|x\|/60 of x, and the same for y |
| QuarticAnimation.FramesDistinctNames | animations/random_quartic_julia.py:65-77 | the 2N frame names are pairwise distinct |
| QuarticAnimation.WalkShape | animations/random_quartic_julia.py:60-81 | for N >= 2 the first two frames render the start constant and backward frame 1 renders the farthest point x - x/60 |
| QuarticAnimation.BackwardPass | animations/random_quartic_julia.py:73-81 | the loop renders exactly the backward frames, returns their names in order, leaves the engine on the last backward name and update, and changes no other attribute |
| QuarticAnimation.JuliaPhase | animations/random_quartic_julia.py:63-86 | the two loops render exactly `Frames`, forward then backward; the images gain their file names in render order; the engine ends on the last backward name and update |
| QuarticAnimation.Animate | animations/random_quartic_julia.py:17-86 | the renders are the probe render (the CubicMandelbrot engine's default filename and constants) followed by exactly `Frames` of the start point, forward then backward; the images are the Julia file names in render order with no mirroring; the final engine is a fresh CubicJulia holding `Inherit` of the backup with the last name and constant |
| PhoenixAnimation.AcceptedCell | animations/random_phoenix_julia.py:36-43 | the accepted cell lies in range and its value v satisfies 0.8·precision <= v < precision |
| PhoenixAnimation.Reverse | animations/random_phoenix_julia.py:80 | `reversed(results)` has the same length, and element i is element len-1-i of the input |
| PhoenixAnimation.Mirrored | animations/random_phoenix_julia.py:78-81 | the played list has 2N entries: the results in order, then entry i for i >= N is result 2N-1-i |
| PhoenixAnimation.MirroredPalindrome | animations/random_phoenix_julia.py:78-81 | results followed by their reverse has 2N entries and images[i] = images[2N-1-i] |
| PhoenixAnimation.AppendReversed | animations/random_phoenix_julia.py:80-81 | the images gain the file names last to first; nothing else changes |
| PhoenixAnimation.JuliaPhase | animations/random_phoenix_julia.py:66-81 | the loop renders exactly the N forward frames; the images gain their names followed by the same names reversed; the engine ends on the last forward name and update |
| PhoenixAnimation.Animate | animations/random_phoenix_julia.py:17-81 | the renders are the probe render (the PhoenixMandelbrot engine's default filename and constants) followed by exactly the N forward frames of the start point. The images are their names followed by the same names reversed. The final engine is a fresh PhoenixJulia holding `Inherit` of the backup with the last forward name and update |

## Left out

- Command-line parsing (generate_fractal_image.py:131-178) is not modelled. `Options` is the parsed namespace. The `choices` lists become the enumerations `FractalKind`, `ColorName` and `AnimationChoice`, so unknown fractal, colour and animation names cannot occur. With no colour name matched, the source would store a `None` colour algorithm; that case is therefore not represented. The `--increments` default of 40 is whatever the caller puts in `Options.increments`.
- `setup_fractal` (generate_fractal_image.py:19-24) is not modelled. It resolves a class by dynamic import through `FractalLib`. The engine class is the `FractalKind` value, and its defaults are the `init` parameter.
- The fractal engines, colour classes and `Animation` base class live in files that are not part of this model. Their setters are modelled as storing the value given. Colour-object defaults (`ColorDefaults`), engine defaults (`Settings`) and an animation's default increments are parameters. The colour objects' use of precision is not modelled, so "colour after precision" is visible only as the order of the calls in `Setup.Run`.
- Rendering itself is not modelled: no fractal recurrences and no colour mapping. `render_fractal` records the current filename and constant. The probe render's output is the `fractalArray` input. `preprocess()` is not modelled.
- File and progress I/O (`imread`, `mimsave`, `ProgressBar`, `print`) are left out. Reading an image back is the identity on its file name, and the GIF written from `images` is not modelled.
- Setup.Run: it returns the action `main` ends with (one still render, or one animation run with its job) and does not call the animation. The animation runs are `QuarticAnimation.Animate` and `PhoenixAnimation.Animate`.
- Setup.SetupAnimation: the final `else` branch of `setup_fractal_animation`, where no animation exists (generate_fractal_image.py:94-100), ends in a `NoAnimation` error result rather than in the attribute error the source would raise. `main` only calls it with an animation named.
- `random.randint` is replaced by a stream of pixel draws. Each draw lies in [0, width-1] x [0, height-1], as `randint` guarantees. The sequencers require that some draw of the stream is accepted: the source's loop has no bound, and no termination is claimed otherwise.
- Floating point is not modelled: `linspace` and the x/60 schedule use exact real arithmetic.
- `copy.deepcopy` of the engine is a value copy, the `Settings` snapshot taken at the start of `animate`.
- Widths, heights, precisions and degrees are unbounded integers. Python's integers are unbounded too, so no wrap-around is involved.
