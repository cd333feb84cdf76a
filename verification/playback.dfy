/** What a recorded frame leaves in each buffer: the commands are played back
    over symbolic images, each transform wrapping the image it reads, so the
    camera's final content can be compared with what the debug stage asks
    for. */
module Playback {
  import opened Optional
  import opened DenoiseConfig
  import opened RenderCommands
  import opened DenoisedPass
  import opened CameraSetup

  /** A buffer's content as the transforms that produced it. `Stale` is
      whatever a temporary texture holds before the frame writes it. */
  datatype Image =
    | Source
    | Stale
    | Effected(of: Image)
    | Blurred(of: Image)
    | Composited(base: Image, sampled: Option<Image>)

  /** The four buffers and the global texture bindings. A binding names a
      buffer, not a snapshot: a reader sees the buffer's content at the
      moment it reads. */
  datatype Store = Store(camera: Image, temp1: Image, temp2: Image, temp3: Image, globals: map<string, Target>)

  function Read(st: Store, t: Target): Image {
    match t
    case Camera => st.camera
    case Temp1 => st.temp1
    case Temp2 => st.temp2
    case Temp3 => st.temp3
  }

  function Write(st: Store, t: Target, img: Image): (r: Store)
    ensures Read(r, t) == img
    ensures r.globals == st.globals
  {
    match t
    case Camera => st.(camera := img)
    case Temp1 => st.(temp1 := img)
    case Temp2 => st.(temp2 := img)
    case Temp3 => st.(temp3 := img)
  }

  /** What the composition material sees under `name`: the content of the
      buffer bound there, if any. */
  function Sampled(st: Store, name: string): Option<Image> {
    if name in st.globals then Some(Read(st, st.globals[name])) else None
  }

  /** One command's effect. `sampledName` is the global texture name the
      composition material reads. */
  function Apply(st: Store, c: Command, sampledName: string): Store {
    match c
    case SetGlobal(name, tex) => st.(globals := st.globals[name := tex])
    case Blit(src, dst, pass) =>
      var img := Read(st, src);
      var out := match pass
        case Copy => img
        case EffectPass => Effected(img)
        case BlurPass => Blurred(img)
        case CompositionPass => Composited(img, Sampled(st, sampledName));
      Write(st, dst, out)
  }

  /** The commands applied in order. */
  function Run(st: Store, cmds: seq<Command>, sampledName: string): (r: Store)
    decreases |cmds|
  {
    if cmds == [] then st
    else Run(Apply(st, cmds[0], sampledName), cmds[1..], sampledName)
  }

  lemma {:induction false} RunConcat(st: Store, a: seq<Command>, b: seq<Command>, sampledName: string)
    ensures Run(st, a + b, sampledName) == Run(Run(st, a, sampledName), b, sampledName)
    decreases |a|
  {
    if a == [] {
      assert a + b == b;
    } else {
      assert (a + b)[1..] == a[1..] + b;
      RunConcat(Apply(st, a[0], sampledName), a[1..], b, sampledName);
    }
  }

  /** The blur result the stages after the blur see: blurred twice in
      two-pass mode, once otherwise. */
  function BlurResult(twoPass: bool): Image {
    if twoPass then Blurred(Blurred(Effected(Source))) else Blurred(Effected(Source))
  }

  /** What each debug stage shows on the camera, written from the stages'
      meaning rather than from the commands. */
  function ExpectedOutput(stage: Stage, twoPass: bool): Image {
    match stage
    case ORIGINAL => Source
    case EFFECT => Effected(Source)
    case BLUR => BlurResult(twoPass)
    case FULL => Composited(Source, Some(BlurResult(twoPass)))
    case Unnamed(_) => Source
  }

  /** The store every frame starts from: the camera holds the rendered
      frame; the temporaries and the bindings hold anything at all. */
  predicate Initial(st: Store) {
    st.camera == Source
  }

  lemma RunPair(st: Store, x: Command, y: Command, sampledName: string)
    ensures Run(st, [x, y], sampledName) == Apply(Apply(st, x, sampledName), y, sampledName)
  {
    var s1 := Apply(st, x, sampledName);
    assert [x, y][1..] == [y];
    assert Run(st, [x, y], sampledName) == Run(s1, [y], sampledName);
    assert [y][1..] == [];
    assert Run(s1, [y], sampledName) == Run(Apply(s1, y, sampledName), [], sampledName);
  }

  /** The output switch copies the buffer the stage names into the camera,
      and leaves the camera alone for a stage it does not name. */
  lemma RunStageOutput(st: Store, stage: Stage, sampledName: string)
    ensures Run(st, StageOutput(stage), sampledName).camera ==
              match stage
              case FULL => st.temp3
              case EFFECT => st.temp1
              case BLUR => st.temp2
              case _ => st.camera
  {
  }

  // The playback of each return path.

  lemma TwoPassEffectOutput(data: DenoiseData, st: Store)
    requires Initial(st)
    requires data.additionalBlurIteration && data.stage == EFFECT
    ensures Run(st, Frame(data), data.globalTextureName).camera == Effected(Source)
  {
    TwoPassEffectFrame(data);
    RunPair(st, Blit(Camera, Temp1, EffectPass), Blit(Temp1, Camera, Copy), data.globalTextureName);
  }

  lemma TwoPassBlurOutput(data: DenoiseData, st: Store)
    requires Initial(st)
    requires data.additionalBlurIteration && data.stage == BLUR
    ensures Run(st, Frame(data), data.globalTextureName).camera == BlurResult(true)
  {
    TwoPassBlurFrame(data);
    var name := data.globalTextureName;
    var a := [Blit(Camera, Temp1, EffectPass), Blit(Temp1, Temp2, BlurPass)];
    var b := [Blit(Temp2, Temp1, BlurPass), Blit(Temp1, Camera, Copy)];
    assert Frame(data) == a + b;
    RunConcat(st, a, b, name);
    RunPair(st, a[0], a[1], name);
    var s := Run(st, a, name);
    assert s.temp2 == Blurred(Effected(Source));
    RunPair(s, b[0], b[1], name);
  }

  /** What the two-pass fall-through leaves before its output copy: the
      camera untouched, the blur result in temp1 and the composition of the
      two in temp3. */
  lemma TwoPassPrefix(st: Store, name: string)
    requires Initial(st)
    ensures var r := Run(st, [Blit(Camera, Temp1, EffectPass), Blit(Temp1, Temp2, BlurPass),
                              Blit(Temp2, Temp1, BlurPass), SetGlobal(name, Temp1),
                              Blit(Camera, Temp3, CompositionPass)], name);
      && r.camera == Source
      && r.temp1 == BlurResult(true)
      && r.temp3 == Composited(Source, Some(BlurResult(true)))
  {
    var a := [Blit(Camera, Temp1, EffectPass), Blit(Temp1, Temp2, BlurPass)];
    var b := [Blit(Temp2, Temp1, BlurPass), SetGlobal(name, Temp1)];
    var c := [Blit(Camera, Temp3, CompositionPass)];
    assert a + b + c == [Blit(Camera, Temp1, EffectPass), Blit(Temp1, Temp2, BlurPass),
                         Blit(Temp2, Temp1, BlurPass), SetGlobal(name, Temp1),
                         Blit(Camera, Temp3, CompositionPass)];
    RunConcat(st, a + b, c, name);
    RunConcat(st, a, b, name);
    RunPair(st, a[0], a[1], name);
    var s1 := Run(st, a, name);
    assert s1.camera == Source && s1.temp2 == Blurred(Effected(Source));
    RunPair(s1, b[0], b[1], name);
    var s2 := Run(s1, b, name);
    assert s2.camera == Source && Sampled(s2, name) == Some(BlurResult(true));
  }

  /** Two-pass fall-through: ping-pong blur, temp1 bound, composition, then
      the stage's output copy. */
  lemma TwoPassCompositeOutput(data: DenoiseData, st: Store)
    requires Initial(st)
    requires data.additionalBlurIteration && !(data.stage in {ORIGINAL, EFFECT, BLUR})
    ensures Run(st, Frame(data), data.globalTextureName).camera == ExpectedOutput(data.stage, true)
  {
    TwoPassCompositeFrame(data);
    var name := data.globalTextureName;
    var pre := [Blit(Camera, Temp1, EffectPass), Blit(Temp1, Temp2, BlurPass),
                Blit(Temp2, Temp1, BlurPass), SetGlobal(name, Temp1),
                Blit(Camera, Temp3, CompositionPass)];
    RunConcat(st, pre, StageOutput(data.stage), name);
    TwoPassPrefix(st, name);
    RunStageOutput(Run(st, pre, name), data.stage, name);
  }

  /** What the single-pass frame leaves before its output copy: the camera
      untouched, the effect in temp1, the blur result in temp2 and the
      composition in temp3. */
  lemma SinglePassPrefix(st: Store, name: string)
    requires Initial(st)
    ensures var r := Run(st, [Blit(Camera, Temp1, EffectPass), Blit(Temp1, Temp2, BlurPass),
                              SetGlobal(name, Temp2), Blit(Camera, Temp3, CompositionPass)], name);
      && r.camera == Source
      && r.temp1 == Effected(Source)
      && r.temp2 == BlurResult(false)
      && r.temp3 == Composited(Source, Some(BlurResult(false)))
  {
    var a := [Blit(Camera, Temp1, EffectPass), Blit(Temp1, Temp2, BlurPass)];
    var b := [SetGlobal(name, Temp2), Blit(Camera, Temp3, CompositionPass)];
    assert a + b == [Blit(Camera, Temp1, EffectPass), Blit(Temp1, Temp2, BlurPass),
                     SetGlobal(name, Temp2), Blit(Camera, Temp3, CompositionPass)];
    RunConcat(st, a, b, name);
    RunPair(st, a[0], a[1], name);
    var s1 := Run(st, a, name);
    assert s1.camera == Source && s1.temp1 == Effected(Source) && s1.temp2 == BlurResult(false);
    RunPair(s1, b[0], b[1], name);
  }

  /** Single pass, any stage but ORIGINAL: one blur, temp2 bound,
      composition, then the stage's output copy. */
  lemma SinglePassOutput(data: DenoiseData, st: Store)
    requires Initial(st)
    requires !data.additionalBlurIteration && data.stage != ORIGINAL
    ensures Run(st, Frame(data), data.globalTextureName).camera == ExpectedOutput(data.stage, false)
  {
    SinglePassFrame(data);
    var name := data.globalTextureName;
    var pre := [Blit(Camera, Temp1, EffectPass), Blit(Temp1, Temp2, BlurPass),
                SetGlobal(name, Temp2), Blit(Camera, Temp3, CompositionPass)];
    RunConcat(st, pre, StageOutput(data.stage), name);
    SinglePassPrefix(st, name);
    RunStageOutput(Run(st, pre, name), data.stage, name);
  }

  /** For every setting and whatever the temporaries and bindings held
      before, the camera ends the frame holding exactly what the debug stage
      asks for: the rendered frame for ORIGINAL (and for a stage the output
      switch does not name), the effect alone for EFFECT, the blur result
      for BLUR, and the composition of the frame with the published blur
      result for FULL. */
  lemma CameraOutput(data: DenoiseData, st: Store)
    requires Initial(st)
    ensures Run(st, Frame(data), data.globalTextureName).camera
              == ExpectedOutput(data.stage, data.additionalBlurIteration)
  {
    var twoPass := data.additionalBlurIteration;
    if data.stage == ORIGINAL {
    } else if twoPass && data.stage == EFFECT {
      TwoPassEffectOutput(data, st);
    } else if twoPass && data.stage == BLUR {
      TwoPassBlurOutput(data, st);
    } else if twoPass {
      TwoPassCompositeOutput(data, st);
    } else {
      SinglePassOutput(data, st);
    }
  }

  /** EFFECT shows the same image in both blur modes even though the
      single-pass frame still runs the blur and the composition. */
  lemma EffectModesAgree(data: DenoiseData, st: Store)
    requires Initial(st)
    requires data.stage == EFFECT
    ensures var single, double := data.(additionalBlurIteration := false), data.(additionalBlurIteration := true);
      && Run(st, Frame(single), data.globalTextureName).camera == Run(st, Frame(double), data.globalTextureName).camera
      && Frame(single) != Frame(double)
  {
    var single, double := data.(additionalBlurIteration := false), data.(additionalBlurIteration := true);
    CameraOutput(single, st);
    CameraOutput(double, st);
    TwoPassEffectFrame(double);
    SinglePassFrame(single);
    assert |Frame(single)| != |Frame(double)|;
  }

  /** One concrete frame: an 800x600 camera, working buffers at half
      resolution, two-pass blur, BLUR stage. Temps 1 and 2 are 400x300,
      temp3 keeps the camera's size and format, the frame ends by copying
      the half-resolution temp1 into the camera, and the camera shows the
      twice-blurred effect whatever the temporaries held before. */
  lemma HalfResolutionBlurFrame()
    ensures var data := DenoiseData(HALF, BLUR, "_DenoisedResult", 0, true);
      var camera := Descriptor(800, 600, OtherFormat(9));
      var rts := OnCameraSetup(data, camera);
      && rts[0].desc == Descriptor(400, 300, ARGB32)
      && rts[1].desc == Descriptor(400, 300, ARGB32)
      && rts[2].desc == camera
      && Frame(data)[|Frame(data)| - 1] == Blit(Temp1, Camera, Copy)
      && Run(Store(Source, Stale, Stale, Stale, map[]), Frame(data), data.globalTextureName).camera
           == Blurred(Blurred(Effected(Source)))
  {
    var data := DenoiseData(HALF, BLUR, "_DenoisedResult", 0, true);
    var camera := Descriptor(800, 600, OtherFormat(9));
    assert Scale(800, HALF) == 400 by {
      RoundPercentUnique(40000, 400);
    }
    assert Scale(600, HALF) == 300 by {
      RoundPercentUnique(30000, 300);
    }
    TwoPassBlurFrame(data);
    CameraOutput(data, Store(Source, Stale, Stale, Stale, map[]));
  }
}
