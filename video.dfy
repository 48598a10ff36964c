/**
 * Slideshow assembly (src/gpp/video.py): one Ken Burns clip per image, then
 * one ffmpeg filtergraph that chains the clips with xfade crossfades.
 *
 * ffmpeg itself is not modelled: AssembleVideo returns the plan of the
 * ffmpeg invocations that assemble_video makes (the per-clip renders and the
 * final copy or composition) instead of running them.
 */
module Video {
  import opened Wrappers
  import opened Tokens
  import opened Decimal
  import KenBurns

  type Path = string

  /** Stream labels of the filtergraph: [k:v] (input k), [vk] (intermediate), [vout]. */
  datatype Label = Input(index: nat) | Link(index: nat) | Output

  function LabelTokens(l: Label): seq<Token>
  {
    match l
    case Input(k) => [Chr('['), Int(k)] + Text(":v]")
    case Link(k) => Text("[v") + [Int(k), Chr(']')]
    case Output => Text("[vout]")
  }

  /** A Python number, which an f-string writes as a float or as an int. */
  datatype Number = FloatValue(f: real) | IntValue(n: int)

  function ValueOf(x: Number): real
  {
    match x
    case FloatValue(f) => f
    case IntValue(n) => n as real
  }

  /** The token of a number: a float is written as a float, an int as an int. */
  function Written(x: Number): Token
  {
    match x
    case FloatValue(f) => Num(f)
    case IntValue(n) => Int(n)
  }

  /** One xfade step: two input streams, the transition length, its start, the output stream. */
  datatype Crossfade = Crossfade(first: Label, second: Label, duration: real, offset: Number, output: Label)

  // The longer option literals are written in two parts: facts about which
  // characters they hold are then proved part by part, which is cheaper.
  const XfadeHead: string := "xfade=transition=fade:" + "duration="
  const OffsetKey: string := ":offset="

  /** The text of one step: its two input labels, the xfade options with the transition and the offset, its output label. */
  function CrossfadeTokens(x: Crossfade): seq<Token>
  {
    LabelTokens(x.first) + LabelTokens(x.second)
    + Text(XfadeHead) + [Num(x.duration)]
    + Text(OffsetKey) + [Written(x.offset)]
    + LabelTokens(x.output)
  }

  /** The -filter_complex argument: the steps' texts joined by ';'. */
  function Graph(steps: seq<Crossfade>): seq<Token>
  {
    Join(StepTexts(steps), ';')
  }

  function StepTexts(steps: seq<Crossfade>): (parts: seq<seq<Token>>)
    ensures |parts| == |steps|
    ensures forall k :: 0 <= k < |steps| ==> parts[k] == CrossfadeTokens(steps[k])
  {
    seq(|steps|, k requires 0 <= k < |steps| => CrossfadeTokens(steps[k]))
  }

  // ---------------------------------------------------------------------
  // generate_clip: the -vf filter chain of one clip

  const ScaleOptions: string := "1920:1080:" + "force_original_aspect_ratio=decrease"
  const PadOptions: string := "1920:1080:" + "(ow-iw)/2:(oh-ih)/2:black"

  /** A filter stage `name=options`. */
  function Stage(name: string, options: string): seq<Token>
  {
    Text(name) + [Chr('=')] + Text(options)
  }

  /** Fit into 1920x1080 keeping the aspect ratio. */
  function ScaleStage(): seq<Token> { Stage("scale", ScaleOptions) }

  /** Centre on a black 1920x1080 canvas. */
  function PadStage(): seq<Token> { Stage("pad", PadOptions) }

  function FormatStage(): seq<Token> { Stage("format", "yuv420p") }

  /** scale, pad, the zoompan filter and format, joined by ','. */
  function ClipFilter(zoompan: seq<Token>): seq<Token>
  {
    Join([ScaleStage(), PadStage(), zoompan, FormatStage()], ',')
  }

  /** The filter of one clip generate_clip renders, for the draw preset. */
  function ClipFilterFor(duration: real, fps: int, preset: KenBurns.Preset): seq<Token>
  {
    ClipFilter(KenBurns.ZoompanFilter(duration, fps, KenBurns.DefaultWidth, KenBurns.DefaultHeight, preset))
  }

  /**
   * The filter chain has exactly four stages, in the order scale, pad,
   * zoompan, format, and the third is the preset's zoompan filter.
   */
  lemma ClipFilterStages(duration: real, fps: int, preset: KenBurns.Preset)
    ensures var zoompan := KenBurns.ZoompanFilter(duration, fps, KenBurns.DefaultWidth, KenBurns.DefaultHeight, preset);
            var stages := Split(ClipFilterFor(duration, fps, preset), ',');
            |stages| == 4 && stages[2] == zoompan &&
            StageName(stages[0]) == Text("scale") && StageName(stages[1]) == Text("pad") &&
            StageName(stages[2]) == Text("zoompan") && StageName(stages[3]) == Text("format")
  {
    var zoompan := KenBurns.ZoompanFilter(duration, fps, KenBurns.DefaultWidth, KenBurns.DefaultHeight, preset);
    KenBurns.ZoompanFilterIsOneStage(duration, fps, KenBurns.DefaultWidth, KenBurns.DefaultHeight, preset);
    ClipFilterSplit(zoompan);
    FixedStageNames();
  }

  /** A stage without ',' is split back out of the chain. */
  lemma ClipFilterSplit(zoompan: seq<Token>)
    requires Chr(',') !in zoompan
    ensures Split(ClipFilter(zoompan), ',') == [ScaleStage(), PadStage(), zoompan, FormatStage()]
  {
    var parts := [ScaleStage(), PadStage(), zoompan, FormatStage()];
    FixedStagesAvoid();
    assert forall k :: 0 <= k < |parts| ==> Chr(',') !in parts[k];
    SplitJoin(parts, ',');
  }

  lemma FixedStagesAvoid()
    ensures Chr(',') !in ScaleStage() && Chr(',') !in PadStage() && Chr(',') !in FormatStage()
  {
    ScaleAvoids();
    PadAvoids();
    StageAvoids("format", "yuv420p", ',');
  }

  lemma ScaleAvoids()
    ensures Chr(',') !in ScaleStage()
  {
    assert ',' !in ScaleOptions;
    StageAvoids("scale", ScaleOptions, ',');
  }

  lemma PadAvoids()
    ensures Chr(',') !in PadStage()
  {
    assert ',' !in PadOptions;
    StageAvoids("pad", PadOptions, ',');
  }

  lemma FixedStageNames()
    ensures StageName(ScaleStage()) == Text("scale")
    ensures StageName(PadStage()) == Text("pad")
    ensures StageName(FormatStage()) == Text("format")
  {
    StageNameOf("scale", Text(ScaleOptions));
    StageNameOf("pad", Text(PadOptions));
    StageNameOf("format", Text("yuv420p"));
  }

  lemma StageAvoids(name: string, options: string, c: char)
    requires c !in name && c !in options && c != '='
    ensures Chr(c) !in Stage(name, options)
  {
    TextAvoids(name, c);
    TextAvoids(options, c);
  }

  // ---------------------------------------------------------------------
  // assemble_video

  /** One call of generate_clip: source image, clip file, -vf filter, -t seconds. */
  datatype RenderJob = RenderJob(image: Path, clip: Path, filter: seq<Token>, seconds: real)

  /** The last ffmpeg call: copy the only clip, or compose all clips. */
  datatype Final =
    | CopyClip(source: Path, target: Path)
    | Compose(inputs: seq<string>, steps: seq<Crossfade>, graph: seq<Token>, mapped: Label, target: Path)

  datatype Plan = Plan(renders: seq<RenderJob>, final: Final)

  datatype VideoError = NoImages

  /** The images to render: with loop_friendly and more than one image, the first again at the end. */
  function Sequence(images: seq<Path>, loopFriendly: bool): seq<Path>
  {
    if loopFriendly && |images| > 1 then images + [images[0]] else images
  }

  /** clip_, the clip number zero-padded to four digits, .mp4 */
  function ClipName(k: nat): string
  {
    "clip_" + Padded(k, 4) + ".mp4"
  }

  function ClipPath(workDir: Path, k: nat): Path
  {
    workDir + "/" + ClipName(k)
  }

  /** The clip files of clips 1..count, in order. */
  function ClipPaths(workDir: Path, count: nat): (paths: seq<Path>)
    ensures |paths| == count
    ensures forall k :: 0 <= k < count ==> paths[k] == ClipPath(workDir, k + 1)
  {
    seq(count, k requires 0 <= k < count => ClipPath(workDir, k + 1))
  }

  /** One render per image, in order, the k-th (from 1) writing clip_k. */
  function RenderJobs(workDir: Path, images: seq<Path>, duration: real, fps: int, choose: nat -> KenBurns.Preset): (jobs: seq<RenderJob>)
    ensures |jobs| == |images|
    ensures forall k :: 0 <= k < |images| ==>
              jobs[k] == RenderJob(images[k], ClipPath(workDir, k + 1), ClipFilterFor(duration, fps, choose(k)), duration)
  {
    seq(|images|, k requires 0 <= k < |images| =>
      RenderJob(images[k], ClipPath(workDir, k + 1), ClipFilterFor(duration, fps, choose(k)), duration))
  }

  /**
   * xfade step i starts at i*duration - i*transition, a float, but never
   * before 0: a negative start is replaced by the int 0.
   */
  function Offset(i: nat, duration: real, transition: real): Number
  {
    var offset := i as real * duration - i as real * transition;
    if offset < 0.0 then IntValue(0) else FloatValue(offset)
  }

  /** What step i (from 1) reads first: clip 0, then the previous step's output. */
  function Incoming(i: nat): Label
  {
    if i <= 1 then Input(0) else Link(i - 1)
  }

  /** What step i of a chain over n clips writes: [vi], and [vout] for the last. */
  function Outgoing(i: nat, n: nat): Label
  {
    if i + 1 < n then Link(i) else Output
  }

  function Step(i: nat, n: nat, duration: real, transition: real): Crossfade
  {
    Crossfade(Incoming(i), Input(i), transition, Offset(i, duration, transition), Outgoing(i, n))
  }

  /** The n - 1 xfade steps over clips 0..n-1, step i at index i - 1. */
  function Chain(n: nat, duration: real, transition: real): seq<Crossfade>
  {
    if n == 0 then []
    else seq(n - 1, k requires 0 <= k < n - 1 => Step(k + 1, n, duration, transition))
  }

  /**
   * assemble_video: reject an empty image list, render one clip per image of
   * the (possibly loop-closed) sequence, then either copy the only clip or
   * compose all of them with the xfade chain, mapping [vout].
   */
  method AssembleVideo(imagePaths: seq<Path>, outputPath: Path, workDir: Path,
                       duration: real, transition: real, fps: int, loopFriendly: bool,
                       choose: nat -> KenBurns.Preset)
    returns (r: Result<Plan, VideoError>)
    ensures r.Failure? <==> imagePaths == []
    ensures r.Success? ==>
              var images := Sequence(imagePaths, loopFriendly);
              var clips := ClipPaths(workDir, |images|);
              var chain := Chain(|images|, duration, transition);
              r.value.renders == RenderJobs(workDir, images, duration, fps, choose) &&
              if |images| == 1 then r.value.final == CopyClip(clips[0], outputPath)
              else r.value.final.Compose? && IsInputList(r.value.final.inputs, clips) &&
                   r.value.final.steps == chain && r.value.final.graph == Graph(chain) &&
                   r.value.final.mapped == Output && r.value.final.target == outputPath
  {
    if |imagePaths| == 0 {
      return Failure(NoImages);
    }

    var images := imagePaths;
    if loopFriendly && |images| > 1 {
      images := images + [images[0]];
    }

    var clips, renders := RenderClips(images, workDir, duration, fps, choose);
    if |clips| == 1 {
      return Success(Plan(renders, CopyClip(clips[0], outputPath)));
    }

    var inputs := InputList(clips);
    var steps, graph := CrossfadeChain(|clips|, duration, transition);
    return Success(Plan(renders, Compose(inputs, steps, graph, Output, outputPath)));
  }

  /** Step 1 of assemble_video: clip_k is rendered from the k-th image, for k = 1, 2, ... */
  method RenderClips(images: seq<Path>, workDir: Path, duration: real, fps: int, choose: nat -> KenBurns.Preset)
    returns (clips: seq<Path>, renders: seq<RenderJob>)
    ensures clips == ClipPaths(workDir, |images|)
    ensures renders == RenderJobs(workDir, images, duration, fps, choose)
  {
    clips, renders := [], [];
    var i := 0;
    while i < |images|
      invariant 0 <= i <= |images|
      invariant clips == ClipPaths(workDir, |images|)[..i]
      invariant renders == RenderJobs(workDir, images, duration, fps, choose)[..i]
      decreases |images| - i
    {
      var clipPath := workDir + "/" + ("clip_" + Padded(i + 1, 4) + ".mp4");
      RenderStep(images, workDir, duration, fps, choose, i);
      renders := renders + [RenderJob(images[i], clipPath, ClipFilterFor(duration, fps, choose(i)), duration)];
      clips := clips + [clipPath];
      i := i + 1;
    }
  }

  lemma RenderStep(images: seq<Path>, workDir: Path, duration: real, fps: int, choose: nat -> KenBurns.Preset, i: nat)
    requires i < |images|
    ensures ClipPaths(workDir, |images|)[..i + 1] == ClipPaths(workDir, |images|)[..i] + [ClipPath(workDir, i + 1)]
    ensures RenderJobs(workDir, images, duration, fps, choose)[..i + 1] ==
            RenderJobs(workDir, images, duration, fps, choose)[..i] +
            [RenderJob(images[i], ClipPath(workDir, i + 1), ClipFilterFor(duration, fps, choose(i)), duration)]
  {
    PrefixStep(ClipPaths(workDir, |images|), i);
    PrefixStep(RenderJobs(workDir, images, duration, fps, choose), i);
  }

  lemma PrefixStep<T>(s: seq<T>, i: nat)
    requires i < |s|
    ensures s[..i + 1] == s[..i] + [s[i]]
  {
  }

  /** inputs holds "-i" and then the k-th clip at positions 2k and 2k + 1. */
  predicate IsInputList(inputs: seq<string>, clips: seq<Path>)
  {
    |inputs| == 2 * |clips| &&
    forall k :: 0 <= k < |clips| ==> inputs[2 * k] == "-i" && inputs[2 * k + 1] == clips[k]
  }

  /** The ffmpeg input arguments: "-i" and the clip path, for each clip in order. */
  method InputList(clips: seq<Path>) returns (inputs: seq<string>)
    ensures IsInputList(inputs, clips)
  {
    inputs := [];
    var i := 0;
    while i < |clips|
      invariant 0 <= i <= |clips|
      invariant IsInputList(inputs, clips[..i])
    {
      inputs := inputs + ["-i", clips[i]];
      i := i + 1;
    }
    assert clips[..i] == clips;
  }

  /** Step 2 of assemble_video: the xfade steps over n clips and the ';'-joined filtergraph. */
  method CrossfadeChain(n: nat, duration: real, transition: real) returns (steps: seq<Crossfade>, graph: seq<Token>)
    requires n >= 2
    ensures steps == Chain(n, duration, transition)
    ensures graph == Graph(steps)
  {
    steps := [];
    var parts: seq<seq<Token>> := [];
    var prevLabel := Input(0);
    var k := 1;
    while k < n
      invariant 1 <= k <= n
      invariant steps == Chain(n, duration, transition)[..k - 1]
      invariant parts == StepTexts(steps)
      invariant prevLabel == if k == 1 then Input(0) else Outgoing(k - 1, n)
    {
      var raw := k as real * duration - k as real * transition;
      OffsetOf(k, duration, transition, raw);
      var offset := FloatValue(raw);
      if raw < 0.0 {
        offset := IntValue(0);
      }
      assert offset == Offset(k, duration, transition);
      var outLabel := if k < n - 1 then Link(k) else Output;
      assert outLabel == Outgoing(k, n) && prevLabel == Incoming(k);
      var step := Crossfade(prevLabel, Input(k), transition, offset, outLabel);
      assert step == Step(k, n, duration, transition);
      ChainStep(n, duration, transition, k);
      StepTextsAppend(steps, step);
      steps := steps + [step];
      parts := parts + [CrossfadeTokens(step)];
      prevLabel := outLabel;
      k := k + 1;
    }
    assert steps == Chain(n, duration, transition);
    graph := Join(parts, ';');
  }

  lemma ChainStep(n: nat, duration: real, transition: real, k: nat)
    requires 1 <= k < n
    ensures Chain(n, duration, transition)[..k] ==
            Chain(n, duration, transition)[..k - 1] + [Step(k, n, duration, transition)]
  {
    var c := Chain(n, duration, transition);
    assert c[..k] == c[..k - 1] + [c[k - 1]];
  }

  lemma OffsetOf(i: nat, duration: real, transition: real, raw: real)
    requires raw == i as real * duration - i as real * transition
    ensures Offset(i, duration, transition) == if raw < 0.0 then IntValue(0) else FloatValue(raw)
  {
  }

  lemma StepTextsAppend(steps: seq<Crossfade>, step: Crossfade)
    ensures StepTexts(steps + [step]) == StepTexts(steps) + [CrossfadeTokens(step)]
  {
    assert |StepTexts(steps + [step])| == |steps| + 1;
    forall j | 0 <= j < |steps| + 1
      ensures StepTexts(steps + [step])[j] == (StepTexts(steps) + [CrossfadeTokens(step)])[j]
    {
      if j < |steps| {
        assert (steps + [step])[j] == steps[j];
      }
    }
  }

  // ---------------------------------------------------------------------
  // Properties of the clip sequence

  /**
   * In loop-friendly mode with more than one image the sequence is the input
   * followed by its first image again, so it ends where it starts; otherwise
   * it is the input. Only a single image yields a single clip.
   */
  lemma LoopClosesOnFirstImage(images: seq<Path>, loopFriendly: bool)
    ensures var s := Sequence(images, loopFriendly);
            (|s| == 1 <==> |images| == 1) &&
            if loopFriendly && |images| > 1 then
              |s| == |images| + 1 && s[..|images|] == images && s[|s| - 1] == s[0] == images[0]
            else s == images
  {
  }

  lemma LoopExample(a: Path, b: Path, c: Path)
    ensures Sequence([a, b, c], true) == [a, b, c, a]
    ensures |Chain(|Sequence([a, b, c], true)|, 6.0, 1.5)| == 3
  {
  }

  /** Different clip numbers give different clip files, so no clip overwrites another. */
  lemma ClipPathsDistinct(workDir: Path, j: nat, k: nat)
    requires ClipPath(workDir, j) == ClipPath(workDir, k)
    ensures j == k
  {
    var a, b := Padded(j, 4), Padded(k, 4);
    var w := workDir + "/" + "clip_";
    assert ClipPath(workDir, j) == w + a + ".mp4";
    assert ClipPath(workDir, k) == w + b + ".mp4";
    SliceMiddle(w, a, ".mp4");
    SliceMiddle(w, b, ".mp4");
    PaddedInjective(j, k, 4);
  }

  lemma SliceMiddle(w: string, a: string, z: string)
    ensures |w + a + z| == |w| + |a| + |z|
    ensures (w + a + z)[|w|..|w| + |a|] == a
  {
  }

  lemma ClipNameExample()
    ensures ClipName(1) == "clip_0001.mp4"
    ensures ClipName(12) == "clip_0012.mp4"
  {
    PaddedOne();
    PaddedTwelve();
  }

  // ---------------------------------------------------------------------
  // Properties of the crossfade chain

  /**
   * For n >= 2 clips the chain has n - 1 steps; step 1 reads [0:v], every
   * later step reads the previous step's output, step i reads [i:v] as its
   * second input; intermediate outputs are [v1], [v2], ..., the last output is
   * [vout], no other step writes [vout] and no step reads it.
   */
  lemma ChainWiring(n: nat, duration: real, transition: real)
    requires n >= 2
    ensures var c := Chain(n, duration, transition);
            |c| == n - 1 &&
            c[0].first == Input(0) &&
            (forall k :: 1 <= k < |c| ==> c[k].first == c[k - 1].output) &&
            (forall k :: 0 <= k < |c| ==> c[k].second == Input(k + 1) && c[k].duration == transition) &&
            (forall k :: 0 <= k < |c| - 1 ==> c[k].output == Link(k + 1)) &&
            c[|c| - 1].output == Output &&
            (forall k :: 0 <= k < |c| ==> c[k].first != Output && c[k].second != Output)
  {
  }

  /** Step i (counted from 1) starts at max(0, i*duration - i*transition). */
  lemma ChainOffsets(n: nat, duration: real, transition: real)
    requires n >= 2
    ensures var c := Chain(n, duration, transition);
            forall k :: 0 <= k < |c| ==>
              ValueOf(c[k].offset) == Max(0.0, (k + 1) as real * (duration - transition))
  {
    var c := Chain(n, duration, transition);
    forall k | 0 <= k < |c|
      ensures ValueOf(c[k].offset) == Max(0.0, (k + 1) as real * (duration - transition))
    {
      OffsetIsClamped(k + 1, duration, transition);
    }
  }

  function Max(a: real, b: real): real { if a < b then b else a }

  /**
   * The offset's value is max(0, i*(duration - transition)); it is the int 0
   * exactly when that product is negative, and a float otherwise.
   */
  lemma OffsetIsClamped(i: nat, duration: real, transition: real)
    ensures ValueOf(Offset(i, duration, transition)) == Max(0.0, i as real * (duration - transition))
    ensures Offset(i, duration, transition).IntValue? <==> i as real * (duration - transition) < 0.0
    ensures Offset(i, duration, transition).IntValue? ==> Offset(i, duration, transition) == IntValue(0)
  {
    assert i as real * duration - i as real * transition == i as real * (duration - transition);
  }

  /** With transition < duration every offset is a positive float and later steps start later. */
  lemma OffsetsIncrease(i: nat, j: nat, duration: real, transition: real)
    requires transition < duration
    requires 1 <= i < j
    ensures Offset(i, duration, transition).FloatValue? && Offset(j, duration, transition).FloatValue?
    ensures 0.0 < ValueOf(Offset(i, duration, transition)) < ValueOf(Offset(j, duration, transition))
  {
    var d := duration - transition;
    OffsetIsClamped(i, duration, transition);
    OffsetIsClamped(j, duration, transition);
    var a, b := i as real, j as real;
    assert b * d - a * d == (b - a) * d;
    Positive(b - a, d);
    Positive(a, d);
    assert 0.0 < a * d < b * d;
    assert ValueOf(Offset(i, duration, transition)) == a * d;
    assert ValueOf(Offset(j, duration, transition)) == b * d;
  }

  lemma Positive(x: real, y: real)
    requires x > 0.0 && y > 0.0
    ensures x * y > 0.0
  {
  }

  /**
   * The length of the composite after k crossfades when every crossfade
   * begins transition seconds before the end of the composite so far: xfade
   * outputs offset + the second clip's duration.
   */
  function CompositeLength(k: nat, duration: real, transition: real): real
  {
    if k == 0 then duration
    else (CompositeLength(k - 1, duration, transition) - transition) + duration
  }

  lemma {:induction false} CompositeLengthClosedForm(k: nat, duration: real, transition: real)
    ensures CompositeLength(k, duration, transition) == duration + k as real * (duration - transition)
  {
    if k > 0 {
      CompositeLengthClosedForm(k - 1, duration, transition);
      assert (k - 1) as real * (duration - transition) + (duration - transition)
          == k as real * (duration - transition);
    }
  }

  /**
   * The offset formula is the one that makes each crossfade start exactly
   * transition seconds before the running composite ends (when the
   * transition is not longer than a clip, so that nothing is clamped).
   */
  lemma OffsetStartsBeforeEnd(k: nat, duration: real, transition: real)
    requires 1 <= k
    requires transition <= duration
    ensures ValueOf(Offset(k, duration, transition)) == CompositeLength(k - 1, duration, transition) - transition
  {
    CompositeLengthClosedForm(k - 1, duration, transition);
    OffsetIsClamped(k, duration, transition);
    assert k as real * (duration - transition) >= 0.0;
    assert (k - 1) as real * (duration - transition) + (duration - transition)
        == k as real * (duration - transition);
  }

  /** n clips crossfaded in a chain last n*duration - (n - 1)*transition. */
  lemma ComposedLength(n: nat, duration: real, transition: real)
    requires n >= 1
    ensures CompositeLength(n - 1, duration, transition) == n as real * duration - (n - 1) as real * transition
  {
    CompositeLengthClosedForm(n - 1, duration, transition);
  }

  /** Six-second clips with 1.5-second crossfades: offsets [4.5], or [4.5, 9.0] with the loop clip. */
  lemma OffsetExample()
    ensures |Chain(2, 6.0, 1.5)| == 1 && Chain(2, 6.0, 1.5)[0].offset == FloatValue(4.5)
    ensures |Chain(3, 6.0, 1.5)| == 2 && Chain(3, 6.0, 1.5)[0].offset == FloatValue(4.5)
    ensures Chain(3, 6.0, 1.5)[1].offset == FloatValue(9.0)
  {
  }

  /**
   * One-second clips with two-second crossfades: the offset is clamped, and the
   * filtergraph is [0:v][1:v]xfade=transition=fade:duration=2.0:offset=0[vout],
   * with the int 0.
   */
  lemma ClampedOffsetExample()
    ensures Chain(2, 1.0, 2.0) == [Crossfade(Input(0), Input(1), 2.0, IntValue(0), Output)]
    ensures Graph(Chain(2, 1.0, 2.0)) ==
            LabelTokens(Input(0)) + LabelTokens(Input(1)) + Text(XfadeHead) + [Num(2.0)]
            + Text(OffsetKey) + [Int(0)] + LabelTokens(Output)
  {
    var c := Chain(2, 1.0, 2.0);
    assert c[0] == Step(1, 2, 1.0, 2.0);
    assert StepTexts(c) == [CrossfadeTokens(c[0])];
  }

  /** The filtergraph splits on ';' into exactly one part per step, in order. */
  lemma GraphParts(steps: seq<Crossfade>)
    requires |steps| >= 1
    ensures Split(Graph(steps), ';') == StepTexts(steps)
    ensures |Split(Graph(steps), ';')| == |steps|
  {
    var parts := StepTexts(steps);
    forall k | 0 <= k < |parts|
      ensures Chr(';') !in parts[k]
    {
      CrossfadeAvoids(steps[k], ';');
    }
    SplitJoin(parts, ';');
  }

  lemma CrossfadeAvoids(x: Crossfade, c: char)
    requires c == ';' || c == ','
    ensures Chr(c) !in CrossfadeTokens(x)
  {
    LabelAvoids(x.first, c);
    LabelAvoids(x.second, c);
    LabelAvoids(x.output, c);
    FixedTextsAvoid(c);
  }

  lemma FixedTextsAvoid(c: char)
    requires c == ';' || c == ','
    ensures Chr(c) !in Text(XfadeHead) && Chr(c) !in Text(OffsetKey)
  {
    if c == ';' {
      TextAvoids(XfadeHead, ';');
      TextAvoids(OffsetKey, ';');
    } else {
      TextAvoids(XfadeHead, ',');
      TextAvoids(OffsetKey, ',');
    }
  }

  lemma LabelAvoids(l: Label, c: char)
    requires c == ';' || c == ','
    ensures Chr(c) !in LabelTokens(l)
  {
    match l
    case Input(_) => TextAvoids(":v]", c);
    case Link(_) => TextAvoids("[v", c);
    case Output => TextAvoids("[vout]", c);
  }
}
