/** `DenoisedFeature.Execute`: the commands the pass records for one frame,
    as a pure function of the feature's settings. */
module DenoisedPass {
  import opened Optional
  import opened DenoiseConfig
  import opened RenderCommands

  /** The pooled command buffer's lifecycle around the recorded commands:
      taken from the pool and emptied, then submitted and released. */
  function Bracketed(cmds: seq<Command>): (steps: seq<Step>)
    ensures Commands(steps) == cmds
    ensures |steps| == |cmds| + 4
    ensures steps[0] == Acquire && steps[1] == ClearBuffer
    ensures steps[|steps| - 2] == Submit && steps[|steps| - 1] == Release
  {
    var steps := [Acquire, ClearBuffer] + Recorded(cmds) + [Submit, Release];
    CommandsConcat([Acquire, ClearBuffer], Recorded(cmds));
    CommandsConcat([Acquire, ClearBuffer] + Recorded(cmds), [Submit, Release]);
    steps
  }

  /** Each command as one recording step. */
  function Recorded(cmds: seq<Command>): (steps: seq<Step>)
    ensures |steps| == |cmds|
    ensures Commands(steps) == cmds
    ensures forall i :: 0 <= i < |steps| ==> steps[i].Record?
  {
    if cmds == [] then []
    else
      var steps := [Record(cmds[0])] + Recorded(cmds[1..]);
      CommandsConcat([Record(cmds[0])], Recorded(cmds[1..]));
      steps
  }

  /** A lifecycle step that is not a recording occurs in a recorded stretch
      no times at all. */
  lemma {:induction false} RecordedHasNoLifecycle(cmds: seq<Command>, s: Step)
    requires !s.Record?
    ensures Count(Recorded(cmds), s) == 0
  {
    if cmds != [] {
      RecordedHasNoLifecycle(cmds[1..], s);
      CountConcat([Record(cmds[0])], Recorded(cmds[1..]), s);
    }
  }

  /** Whatever is recorded, the buffer is acquired, cleared, submitted and
      released exactly once each, and nothing follows the release. */
  lemma {:induction false} BracketedOnce(cmds: seq<Command>)
    ensures Count(Bracketed(cmds), Acquire) == 1
    ensures Count(Bracketed(cmds), ClearBuffer) == 1
    ensures Count(Bracketed(cmds), Submit) == 1
    ensures Count(Bracketed(cmds), Release) == 1
  {
    forall s: Step | !s.Record?
      ensures Count(Bracketed(cmds), s) == Count([Acquire, ClearBuffer], s) + Count([Submit, Release], s)
    {
      RecordedHasNoLifecycle(cmds, s);
      CountConcat([Acquire, ClearBuffer], Recorded(cmds), s);
      CountConcat([Acquire, ClearBuffer] + Recorded(cmds), [Submit, Release], s);
    }
  }

  /** The output switch at the end of the fall-through path: a copy into the
      camera from the buffer the stage selects, nothing for a stage it does
      not name. */
  function StageOutput(stage: Stage): seq<Command> {
    match stage
    case FULL => [Blit(Temp3, Camera, Copy)]
    case EFFECT => [Blit(Temp1, Camera, Copy)]
    case BLUR => [Blit(Temp2, Camera, Copy)]
    case _ => []
  }

  /** The fall-through tail: composition from the untouched camera into
      temp3, then the stage's output copy. */
  function Composite(cmds: seq<Command>, stage: Stage): seq<Command> {
    cmds + [Blit(Camera, Temp3, CompositionPass)] + StageOutput(stage)
  }

  /** The steps one frame of the pass performs, in order. */
  function Execute(data: DenoiseData): (trace: seq<Step>)
    ensures trace == [] <==> data.stage == ORIGINAL
    ensures trace != [] ==> trace == Bracketed(Commands(trace))
    ensures trace != [] ==> |Commands(trace)| >= 2 && Commands(trace)[0] == Blit(Camera, Temp1, EffectPass)
  {
    if data.stage == ORIGINAL then []
    else
      var effect := [Blit(Camera, Temp1, EffectPass)];
      if data.additionalBlurIteration then
        if data.stage == EFFECT then
          Bracketed(effect + [Blit(Temp1, Camera, Copy)])
        else
          var blurred := effect + [Blit(Temp1, Temp2, BlurPass), Blit(Temp2, Temp1, BlurPass)];
          if data.stage == BLUR then
            Bracketed(blurred + [Blit(Temp1, Camera, Copy)])
          else
            Bracketed(Composite(blurred + [SetGlobal(data.globalTextureName, Temp1)], data.stage))
      else
        Bracketed(Composite(effect + [Blit(Temp1, Temp2, BlurPass), SetGlobal(data.globalTextureName, Temp2)], data.stage))
  }

  /** The commands one frame records. */
  function Frame(data: DenoiseData): seq<Command> {
    Commands(Execute(data))
  }

  /** A frame that runs at all takes one pooled buffer and gives it back once,
      after submitting it once, on whichever of the three return paths it
      leaves by; the ORIGINAL stage never takes one. */
  lemma Lifecycle(data: DenoiseData)
    ensures data.stage == ORIGINAL ==> Count(Execute(data), Acquire) == 0
    ensures data.stage != ORIGINAL ==>
              && Count(Execute(data), Acquire) == 1
              && Count(Execute(data), Submit) == 1
              && Count(Execute(data), Release) == 1
              && Execute(data)[|Execute(data)| - 1] == Release
  {
    if data.stage != ORIGINAL {
      BracketedOnce(Frame(data));
    }
  }

  // ---------------------------------------------------------------------
  // Reference tables: what each (stage, two-pass) pair does, written
  // independently of the control flow above, as one straight-line pipeline
  // driven by a table instead of three return paths.

  /** The buffer copied into the camera at the end of the frame, if any. */
  function FinalCopySource(stage: Stage, twoPass: bool): Option<Target> {
    match stage
    case ORIGINAL => None
    case FULL => Some(Temp3)
    case EFFECT => Some(Temp1)
    case BLUR => if twoPass then Some(Temp1) else Some(Temp2)
    case Unnamed(_) => None
  }

  /** The buffer published for the composition material, if the frame gets
      as far as composition. */
  function PublishedBuffer(stage: Stage, twoPass: bool): Option<Target> {
    if stage == ORIGINAL then None
    else if !twoPass then Some(Temp2)
    else if stage == EFFECT || stage == BLUR then None
    else Some(Temp1)
  }

  /** The blur blits of the frame: none before the blur stage is reached,
      one pass from temp1 to temp2 in single-pass mode, a ping-pong from
      temp1 to temp2 and back in two-pass mode. */
  function BlurChain(stage: Stage, twoPass: bool): seq<Command> {
    if stage == ORIGINAL || (twoPass && stage == EFFECT) then []
    else if twoPass then [Blit(Temp1, Temp2, BlurPass), Blit(Temp2, Temp1, BlurPass)]
    else [Blit(Temp1, Temp2, BlurPass)]
  }

  function Publish(name: string, published: Option<Target>): seq<Command> {
    match published
    case None => []
    case Some(t) => [SetGlobal(name, t)]
  }

  /** Composition runs exactly when a result was published for it. */
  function Composition(published: Option<Target>): seq<Command> {
    if published.Some? then [Blit(Camera, Temp3, CompositionPass)] else []
  }

  function CopyBack(src: Option<Target>): seq<Command> {
    match src
    case None => []
    case Some(t) => [Blit(t, Camera, Copy)]
  }

  /** The frame the tables describe: effect, blur chain, publish,
      composition, copy back, each stage present or absent per the tables. */
  function TableFrame(data: DenoiseData): seq<Command> {
    var stage, twoPass := data.stage, data.additionalBlurIteration;
    if stage == ORIGINAL then []
    else
      var published := PublishedBuffer(stage, twoPass);
      [Blit(Camera, Temp1, EffectPass)] + BlurChain(stage, twoPass)
        + Publish(data.globalTextureName, published) + Composition(published)
        + CopyBack(FinalCopySource(stage, twoPass))
  }

  // ---------------------------------------------------------------------
  // The frame of each return path, in full.

  /** Two-pass EFFECT: the effect result is copied straight back to the
      camera; no blur, binding or composition is recorded. */
  lemma TwoPassEffectFrame(data: DenoiseData)
    requires data.additionalBlurIteration && data.stage == EFFECT
    ensures Frame(data) == [Blit(Camera, Temp1, EffectPass), Blit(Temp1, Camera, Copy)]
    ensures Frame(data) == TableFrame(data)
  {
    assert Execute(data) == Bracketed([Blit(Camera, Temp1, EffectPass)] + [Blit(Temp1, Camera, Copy)]);
  }

  /** Two-pass BLUR: the ping-pong blur runs and its result in temp1 is
      copied back to the camera; no binding or composition is recorded. */
  lemma TwoPassBlurFrame(data: DenoiseData)
    requires data.additionalBlurIteration && data.stage == BLUR
    ensures Frame(data) == [Blit(Camera, Temp1, EffectPass), Blit(Temp1, Temp2, BlurPass),
                            Blit(Temp2, Temp1, BlurPass), Blit(Temp1, Camera, Copy)]
    ensures Frame(data) == TableFrame(data)
  {
    var ping := [Blit(Temp1, Temp2, BlurPass), Blit(Temp2, Temp1, BlurPass)];
    assert Execute(data) == Bracketed([Blit(Camera, Temp1, EffectPass)] + ping + [Blit(Temp1, Camera, Copy)]);
  }

  /** Two-pass FULL (or an unnamed stage): ping-pong blur, temp1 published,
      composition, then the stage's output copy. */
  lemma TwoPassCompositeFrame(data: DenoiseData)
    requires data.additionalBlurIteration && !(data.stage in {ORIGINAL, EFFECT, BLUR})
    ensures Frame(data) == [Blit(Camera, Temp1, EffectPass), Blit(Temp1, Temp2, BlurPass),
                            Blit(Temp2, Temp1, BlurPass), SetGlobal(data.globalTextureName, Temp1),
                            Blit(Camera, Temp3, CompositionPass)] + StageOutput(data.stage)
    ensures Frame(data) == TableFrame(data)
  {
    var ping := [Blit(Temp1, Temp2, BlurPass), Blit(Temp2, Temp1, BlurPass)];
    var pub := [SetGlobal(data.globalTextureName, Temp1)];
    var compose := [Blit(Camera, Temp3, CompositionPass)];
    assert Execute(data) == Bracketed([Blit(Camera, Temp1, EffectPass)] + ping + pub + compose + StageOutput(data.stage));
    assert StageOutput(data.stage) == CopyBack(FinalCopySource(data.stage, true));
  }

  /** Single pass, any stage but ORIGINAL: one blur from temp1 to temp2,
      temp2 published, composition, then the stage's output copy; EFFECT
      and BLUR do not leave early here. */
  lemma SinglePassFrame(data: DenoiseData)
    requires !data.additionalBlurIteration && data.stage != ORIGINAL
    ensures Frame(data) == [Blit(Camera, Temp1, EffectPass), Blit(Temp1, Temp2, BlurPass),
                            SetGlobal(data.globalTextureName, Temp2),
                            Blit(Camera, Temp3, CompositionPass)] + StageOutput(data.stage)
    ensures Frame(data) == TableFrame(data)
  {
    var blur := [Blit(Temp1, Temp2, BlurPass), SetGlobal(data.globalTextureName, Temp2)];
    var compose := [Blit(Camera, Temp3, CompositionPass)];
    assert Execute(data) == Bracketed([Blit(Camera, Temp1, EffectPass)] + blur + compose + StageOutput(data.stage));
    assert StageOutput(data.stage) == CopyBack(FinalCopySource(data.stage, false));
  }

  /** The three return paths of the pass record exactly the frame the
      tables describe, for every setting. */
  lemma ExecuteMatchesTable(data: DenoiseData)
    ensures Frame(data) == TableFrame(data)
  {
    var twoPass := data.additionalBlurIteration;
    if data.stage == ORIGINAL {
    } else if twoPass && data.stage == EFFECT {
      TwoPassEffectFrame(data);
    } else if twoPass && data.stage == BLUR {
      TwoPassBlurFrame(data);
    } else if twoPass {
      TwoPassCompositeFrame(data);
    } else {
      SinglePassFrame(data);
    }
  }

  /** Selecting from the table frame selects from each of its parts. */
  lemma SelectTableFrame(data: DenoiseData, f: Filter)
    requires data.stage != ORIGINAL
    ensures var stage, twoPass := data.stage, data.additionalBlurIteration;
      var published := PublishedBuffer(stage, twoPass);
      Select(TableFrame(data), f) ==
        Select([Blit(Camera, Temp1, EffectPass)], f) + Select(BlurChain(stage, twoPass), f)
          + Select(Publish(data.globalTextureName, published), f) + Select(Composition(published), f)
          + Select(CopyBack(FinalCopySource(stage, twoPass)), f)
  {
    var stage, twoPass := data.stage, data.additionalBlurIteration;
    var published := PublishedBuffer(stage, twoPass);
    var e, b, p, c, o := [Blit(Camera, Temp1, EffectPass)], BlurChain(stage, twoPass),
      Publish(data.globalTextureName, published), Composition(published), CopyBack(FinalCopySource(stage, twoPass));
    SelectConcat(e + b + p + c, o, f);
    SelectConcat(e + b + p, c, f);
    SelectConcat(e + b, p, f);
    SelectConcat(e, b, f);
  }

  // What each table part contributes to the views the lemmas below take.

  lemma BlurChainViews(stage: Stage, twoPass: bool)
    ensures Select(BlurChain(stage, twoPass), WritesTo(Camera)) == []
    ensures Select(BlurChain(stage, twoPass), Runs(BlurPass)) == BlurChain(stage, twoPass)
    ensures Select(BlurChain(stage, twoPass), Runs(CompositionPass)) == []
    ensures Select(BlurChain(stage, twoPass), Publishes) == []
    ensures Select(BlurChain(stage, twoPass), Runs(EffectPass)) == []
  {
    var ping := [Blit(Temp1, Temp2, BlurPass), Blit(Temp2, Temp1, BlurPass)];
    assert Select(ping, WritesTo(Camera)) == [];
    assert Select(ping, Runs(BlurPass)) == ping;
    assert Select(ping, Runs(CompositionPass)) == [];
    assert Select(ping, Publishes) == [];
    assert Select(ping, Runs(EffectPass)) == [];
  }

  lemma PublishViews(name: string, published: Option<Target>)
    ensures Select(Publish(name, published), WritesTo(Camera)) == []
    ensures Select(Publish(name, published), Runs(BlurPass)) == []
    ensures Select(Publish(name, published), Runs(CompositionPass)) == []
    ensures Select(Publish(name, published), Publishes) == Publish(name, published)
    ensures Select(Publish(name, published), Runs(EffectPass)) == []
  {
  }

  lemma CompositionViews(published: Option<Target>)
    ensures Select(Composition(published), WritesTo(Camera)) == []
    ensures Select(Composition(published), Runs(BlurPass)) == []
    ensures Select(Composition(published), Runs(CompositionPass)) == Composition(published)
    ensures Select(Composition(published), Publishes) == []
    ensures Select(Composition(published), Runs(EffectPass)) == []
  {
  }

  lemma CopyBackViews(src: Option<Target>)
    ensures Select(CopyBack(src), WritesTo(Camera)) == CopyBack(src)
    ensures Select(CopyBack(src), Runs(BlurPass)) == []
    ensures Select(CopyBack(src), Runs(CompositionPass)) == []
    ensures Select(CopyBack(src), Publishes) == []
    ensures Select(CopyBack(src), Runs(EffectPass)) == []
  {
  }

  // The table frame through each filter.
  lemma TableCameraWrites(data: DenoiseData)
    ensures Select(TableFrame(data), WritesTo(Camera)) == CopyBack(FinalCopySource(data.stage, data.additionalBlurIteration))
  {
    if data.stage != ORIGINAL {
      var stage, twoPass := data.stage, data.additionalBlurIteration;
      var published := PublishedBuffer(stage, twoPass);
      SelectTableFrame(data, WritesTo(Camera));
      BlurChainViews(stage, twoPass);
      PublishViews(data.globalTextureName, published);
      CompositionViews(published);
      CopyBackViews(FinalCopySource(stage, twoPass));
    }
  }

  lemma TableEffectRuns(data: DenoiseData)
    ensures Select(TableFrame(data), Runs(EffectPass)) == (if data.stage == ORIGINAL then [] else [Blit(Camera, Temp1, EffectPass)])
  {
    if data.stage != ORIGINAL {
      var stage, twoPass := data.stage, data.additionalBlurIteration;
      var published := PublishedBuffer(stage, twoPass);
      SelectTableFrame(data, Runs(EffectPass));
      BlurChainViews(stage, twoPass);
      PublishViews(data.globalTextureName, published);
      CompositionViews(published);
      CopyBackViews(FinalCopySource(stage, twoPass));
    }
  }

  lemma TableBlurRuns(data: DenoiseData)
    ensures Select(TableFrame(data), Runs(BlurPass)) == BlurChain(data.stage, data.additionalBlurIteration)
  {
    if data.stage != ORIGINAL {
      var stage, twoPass := data.stage, data.additionalBlurIteration;
      var published := PublishedBuffer(stage, twoPass);
      SelectTableFrame(data, Runs(BlurPass));
      BlurChainViews(stage, twoPass);
      PublishViews(data.globalTextureName, published);
      CompositionViews(published);
      CopyBackViews(FinalCopySource(stage, twoPass));
    }
  }

  lemma TablePublishes(data: DenoiseData)
    ensures Select(TableFrame(data), Publishes) == Publish(data.globalTextureName, PublishedBuffer(data.stage, data.additionalBlurIteration))
  {
    if data.stage != ORIGINAL {
      var stage, twoPass := data.stage, data.additionalBlurIteration;
      var published := PublishedBuffer(stage, twoPass);
      SelectTableFrame(data, Publishes);
      BlurChainViews(stage, twoPass);
      PublishViews(data.globalTextureName, published);
      CompositionViews(published);
      CopyBackViews(FinalCopySource(stage, twoPass));
    }
  }

  lemma TableCompositions(data: DenoiseData)
    ensures Select(TableFrame(data), Runs(CompositionPass)) == Composition(PublishedBuffer(data.stage, data.additionalBlurIteration))
  {
    if data.stage != ORIGINAL {
      var stage, twoPass := data.stage, data.additionalBlurIteration;
      var published := PublishedBuffer(stage, twoPass);
      SelectTableFrame(data, Runs(CompositionPass));
      BlurChainViews(stage, twoPass);
      PublishViews(data.globalTextureName, published);
      CompositionViews(published);
      CopyBackViews(FinalCopySource(stage, twoPass));
    }
  }

  /** The camera is written by one command at most: a plain copy from the
      buffer the table names. ORIGINAL and unnamed stages never write it. */
  lemma CameraWrittenOnce(data: DenoiseData)
    ensures Select(Frame(data), WritesTo(Camera)) == CopyBack(FinalCopySource(data.stage, data.additionalBlurIteration))
  {
    ExecuteMatchesTable(data);
    TableCameraWrites(data);
  }

  /** The same fact command by command: a command of the frame writes the
      camera exactly when it is the table's copy back. */
  lemma CameraWrites(data: DenoiseData, c: Command)
    ensures c in Frame(data) && Matches(c, WritesTo(Camera)) <==>
              c in CopyBack(FinalCopySource(data.stage, data.additionalBlurIteration))
  {
    CameraWrittenOnce(data);
    SelectMembers(Frame(data), WritesTo(Camera), c);
  }

  /** The effect runs exactly once, as the first command, on every frame that
      runs at all. */
  lemma EffectRunsOnce(data: DenoiseData)
    ensures Select(Frame(data), Runs(EffectPass)) ==
              if data.stage == ORIGINAL then [] else [Blit(Camera, Temp1, EffectPass)]
  {
    ExecuteMatchesTable(data);
    TableEffectRuns(data);
  }

  /** The blur blits are exactly the table's chain: a single pass from temp1
      to temp2, or the ping-pong to temp2 and back, or none when two-pass
      EFFECT leaves first. */
  lemma BlurRuns(data: DenoiseData)
    ensures Select(Frame(data), Runs(BlurPass)) == BlurChain(data.stage, data.additionalBlurIteration)
  {
    ExecuteMatchesTable(data);
    TableBlurRuns(data);
  }

  /** The frame binds at most one texture, under the configured name: temp1
      after a two-pass blur, temp2 after a single pass. Composition runs
      exactly when something was bound. */
  lemma PublishedOnce(data: DenoiseData)
    ensures Select(Frame(data), Publishes) ==
              Publish(data.globalTextureName, PublishedBuffer(data.stage, data.additionalBlurIteration))
    ensures Select(Frame(data), Runs(CompositionPass)) ==
              Composition(PublishedBuffer(data.stage, data.additionalBlurIteration))
  {
    ExecuteMatchesTable(data);
    TablePublishes(data);
    TableCompositions(data);
  }

  /** The binding is recorded right before the composition blit that reads
      it. */
  lemma PublishPrecedesComposition(data: DenoiseData)
    requires PublishedBuffer(data.stage, data.additionalBlurIteration).Some?
    ensures exists i :: (0 <= i < |Frame(data)| - 1
      && Frame(data)[i] == SetGlobal(data.globalTextureName, PublishedBuffer(data.stage, data.additionalBlurIteration).value)
      && Frame(data)[i + 1] == Blit(Camera, Temp3, CompositionPass))
  {
    var stage, twoPass := data.stage, data.additionalBlurIteration;
    var published := PublishedBuffer(stage, twoPass);
    var head := [Blit(Camera, Temp1, EffectPass)] + BlurChain(stage, twoPass);
    var pub := SetGlobal(data.globalTextureName, published.value);
    var tail := [pub, Blit(Camera, Temp3, CompositionPass)] + CopyBack(FinalCopySource(stage, twoPass));
    assert TableFrame(data) == head + tail;
    var i := |head|;
    assert (head + tail)[i] == pub && (head + tail)[i + 1] == Blit(Camera, Temp3, CompositionPass);
    ExecuteMatchesTable(data);
  }

  /** The copy back to the camera, when there is one, is the last command of
      the frame. */
  lemma CopyBackIsLast(data: DenoiseData)
    requires FinalCopySource(data.stage, data.additionalBlurIteration).Some?
    ensures |Frame(data)| > 0
    ensures Frame(data)[|Frame(data)| - 1] == Blit(FinalCopySource(data.stage, data.additionalBlurIteration).value, Camera, Copy)
  {
    ExecuteMatchesTable(data);
    var stage, twoPass := data.stage, data.additionalBlurIteration;
    var published := PublishedBuffer(stage, twoPass);
    var before := [Blit(Camera, Temp1, EffectPass)] + BlurChain(stage, twoPass)
        + Publish(data.globalTextureName, published) + Composition(published);
    assert TableFrame(data) == before + [Blit(FinalCopySource(stage, twoPass).value, Camera, Copy)];
  }
}
