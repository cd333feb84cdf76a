# Denoised rendering feature — a Dafny model

A Unity render feature (`DenoisedRenderingFeature`) takes the camera's colour
buffer for each frame through three material passes: an effect, a blur run
once or as a two-pass ping-pong, and a composition that blends the blurred
result back onto the untouched frame. Three temporary render textures are
requested per camera. Their size follows a downsample setting. A debug stage
picks which intermediate result is copied back into the camera:
FULL, ORIGINAL, EFFECT or BLUR.

This project models four things:

- The configuration record and its two enums (`config.dfy`, module
  `DenoiseConfig`).
- The per-camera setup (`setup.dfy`, module `CameraSetup`): the three
  texture ids, the working resolution with `Mathf.RoundToInt` rounding, and
  the three texture requests.
- The pass's `Execute` (`execute.dfy`, module `DenoisedPass`). It is a pure
  function from the settings to the steps performed on the pooled command
  buffer: acquire, clear, the recorded commands, submit, release. It
  is checked against an independent table-driven description of the frame
  (`TableFrame`). A lemma proves that the three return paths of the code
  record exactly what the table says, for every setting.
- A symbolic playback of the recorded commands over images built from the
  transforms that produced them (`playback.dfy`, module `Playback`). It
  shows what each debug stage leaves in the camera.

`commands.dfy` (module `RenderCommands`) holds the command and step
vocabulary, plus selection and counting over traces. `option.dfy` holds an
`Option` type.

Materials are modelled by role: a blit records whether it runs the effect,
blur or composition material, or none (a plain copy). Material identity is
not modelled. The composition material is assumed to read the texture
bound under `globalTextureName`. It reads that buffer's content at the
moment the composition runs.

Two consequences of the code that are easy to miss:

- Single-pass EFFECT copies temp1 back after the blur and the composition
  have run. Temp1 still holds the effect then, so the camera shows the same
  image as in two-pass mode; only the recorded work differs
  (`Playback.EffectModesAgree`).
- Temp 3 is requested with the camera's own descriptor, so it keeps the
  camera's colour format as well as its size. Only temps 1 and 2 are forced
  to ARGB32.

## Model

| member | source | states |
|---|---|---|
| DenoiseConfig.StageOf | DenoisedRenderingFeature.cs:13-18 | Reading a 32-bit value as a stage gives one of the four named stages exactly when the value is 0..3; any other value is an unnamed stage. |
| DenoiseConfig.StageCodeRoundTrip | DenoisedRenderingFeature.cs:13-18 | Casting a code to the enum and back returns the code. |
| DenoiseConfig.StageOfCode | DenoisedRenderingFeature.cs:13-18 | Every stage a C# value can hold (named, or unnamed with a code outside 0..3) is the cast of its own code, so stages and codes correspond one to one. |
| DenoiseConfig.DownSample.Percent | DenoisedRenderingFeature.cs:21-27 | Each downsample value is a reduction percentage below 100, and it is 0 exactly for DISABLED. |
| CameraSetup.RoundPercent | DenoisedRenderingFeature.cs:77-78 | Rounding n/100 gives an integer within half a unit of it, and an exact tie rounds to the even neighbour. |
| CameraSetup.RoundPercentUnique | DenoisedRenderingFeature.cs:77-78 | No other integer meets those two conditions, so the rounding is fully determined by them. |
| CameraSetup.Scale | DenoisedRenderingFeature.cs:73-78 | One side of the working resolution is within half a pixel of dim*(100-percent)/100, never larger than the camera's side, and equal to it when downsampling is DISABLED. |
| CameraSetup.Downsampled | DenoisedRenderingFeature.cs:63-78 | The working descriptor is ARGB32; each side is within half a pixel of the camera's side times (100-percent)/100, no larger than the camera's side, and equal to it when DISABLED. |
| CameraSetup.TempIds | DenoisedRenderingFeature.cs:67-71 | Slot k of instance `offset` is the id whose quotient by 3 is the offset and whose remainder is k. |
| CameraSetup.TempIdsDistinct | DenoisedRenderingFeature.cs:67-71 | The three ids of one instance are pairwise different. |
| CameraSetup.TempIdsDisjoint | DenoisedRenderingFeature.cs:67-71 | Two offsets share an id if and only if they are equal. |
| CameraSetup.TempIdsAsWritten | DenoisedRenderingFeature.cs:67-71 | With 32-bit wrap-around the ids agree with the unbounded ones whenever all three ids `offset*3` … `offset*3+2` fit in an int, that is -715827882 ≤ offset ≤ 715827881. |
| CameraSetup.AsWrittenIdsCollide | DenoisedRenderingFeature.cs:67-71 | With wrap-around, two different offsets do share an id (0 and 1431655765). |
| CameraSetup.OnCameraSetup | DenoisedRenderingFeature.cs:61-83 | Three requests with the instance's ids `offset*3+k`, which are pairwise distinct and, for offsets whose ids fit in an int, equal to the ids the 32-bit code computes. Temps 1 and 2 share one bilinear ARGB32 descriptor within half a pixel of the scaled camera size, or the camera size when DISABLED. Temp 3 is point-filtered with the camera's own descriptor. |
| CameraSetup.SetupsDisjoint | DenoisedRenderingFeature.cs:67-83 | Two instances' requests share no texture id if and only if their offsets differ, whatever their other settings and cameras. |
| DenoisedPass.Bracketed | DenoisedRenderingFeature.cs:99-156 | The recorded commands sit between acquire-and-clear and submit-and-release, and the commands of the bracketed trace are exactly the ones recorded. |
| DenoisedPass.BracketedOnce | DenoisedRenderingFeature.cs:99-156 | Whatever is recorded, acquire, clear, submit and release each occur exactly once. |
| DenoisedPass.Execute | DenoisedRenderingFeature.cs:95-157 | The trace is empty exactly for ORIGINAL. Every other trace is a bracketed buffer lifecycle whose first command is the effect blit from the camera into temp1. |
| DenoisedPass.Lifecycle | DenoisedRenderingFeature.cs:97-156 | ORIGINAL acquires no buffer. Every other frame acquires, submits and releases its buffer exactly once, on whichever return path it takes, and ends with the release. |
| DenoisedPass.TwoPassEffectFrame | DenoisedRenderingFeature.cs:104-113 | Two-pass EFFECT records exactly the effect blit and a copy from temp1 to the camera. |
| DenoisedPass.TwoPassBlurFrame | DenoisedRenderingFeature.cs:104-125 | Two-pass BLUR records the effect, the ping-pong blur temp1→temp2→temp1 and a copy from temp1, with no binding or composition. |
| DenoisedPass.TwoPassCompositeFrame | DenoisedRenderingFeature.cs:104-150 | Two-pass FULL or unnamed stages record the effect, the ping-pong blur, the temp1 binding, the composition into temp3 and the stage's output copy. |
| DenoisedPass.SinglePassFrame | DenoisedRenderingFeature.cs:127-150 | Single pass records one blur temp1→temp2, the temp2 binding, the composition and the stage's output copy; EFFECT and BLUR do not leave early. |
| DenoisedPass.ExecuteMatchesTable | DenoisedRenderingFeature.cs:95-157 | For every setting, the recorded frame equals the table-driven frame: effect, blur chain, binding, composition and copy back, each present or absent by (stage, two-pass). |
| DenoisedPass.CameraWrittenOnce | DenoisedRenderingFeature.cs:104-150 | The only command writing the camera is a single plain copy from the buffer the stage table names, and none for ORIGINAL or an unnamed stage. |
| DenoisedPass.CameraWrites | DenoisedRenderingFeature.cs:104-150 | A command of the frame writes the camera if and only if it is the copy back from the buffer the stage table names. |
| DenoisedPass.EffectRunsOnce | DenoisedRenderingFeature.cs:97-104 | The effect material runs exactly once, camera→temp1, on every frame except ORIGINAL. |
| DenoisedPass.BlurRuns | DenoisedRenderingFeature.cs:106-130 | The blur blits are none for two-pass EFFECT, the ping-pong for two-pass, and one temp1→temp2 pass in single-pass mode. |
| DenoisedPass.PublishedOnce | DenoisedRenderingFeature.cs:126-135 | At most one texture is bound, under the configured name: temp1 after a two-pass blur and temp2 after a single pass. Composition runs exactly when something was bound. |
| DenoisedPass.PublishPrecedesComposition | DenoisedRenderingFeature.cs:126-135 | When a texture is bound, the binding is immediately followed by the composition blit camera→temp3. |
| DenoisedPass.CopyBackIsLast | DenoisedRenderingFeature.cs:137-150 | When the stage selects an output, the copy into the camera is the last command of the frame. |
| Playback.RunStageOutput | DenoisedRenderingFeature.cs:138-150 | The output switch leaves temp3, temp1 or temp2 in the camera for FULL, EFFECT or BLUR, and leaves the camera alone for any other stage. |
| Playback.TwoPassEffectOutput | DenoisedRenderingFeature.cs:104-113 | Two-pass EFFECT leaves the effect of the rendered frame in the camera. |
| Playback.TwoPassBlurOutput | DenoisedRenderingFeature.cs:104-125 | Two-pass BLUR leaves the twice-blurred effect in the camera. |
| Playback.TwoPassPrefix | DenoisedRenderingFeature.cs:104-135 | Before its output copy, the two-pass fall-through leaves the camera untouched, the twice-blurred effect in temp1, and in temp3 the composition of the frame with that bound result. |
| Playback.TwoPassCompositeOutput | DenoisedRenderingFeature.cs:104-150 | The two-pass fall-through leaves what the stage asks for in the camera. |
| Playback.SinglePassPrefix | DenoisedRenderingFeature.cs:127-135 | Before its output copy, the single pass leaves the camera untouched, the effect in temp1, the blurred effect in temp2, and their composition in temp3. |
| Playback.SinglePassOutput | DenoisedRenderingFeature.cs:127-150 | The single pass leaves what the stage asks for in the camera. |
| Playback.CameraOutput | DenoisedRenderingFeature.cs:95-157 | For every setting and any prior content of the temporaries and bindings, the camera ends the frame holding what the stage calls for. ORIGINAL and unnamed stages keep the rendered frame. EFFECT gives the effect, BLUR the blur result, and FULL the composition of the frame with the bound blur result. |
| Playback.EffectModesAgree | DenoisedRenderingFeature.cs:104-150 | EFFECT shows the same camera content in single-pass and two-pass mode although the two frames record different commands. |
| Playback.HalfResolutionBlurFrame | DenoisedRenderingFeature.cs:61-125 | An 800x600 camera at HALF gives 400x300 ARGB32 temps 1 and 2 and a full-size temp3. Two-pass BLUR then ends by copying the half-resolution temp1 into the camera, which holds the twice-blurred effect. |

## Left out

- Unity engine calls are abstracted away. `CommandBufferPool.Get`/`Release`,
  `cmd.Clear` and `ExecuteCommandBuffer` become trace steps. Texture
  requests become `TempRT` values. `ConfigureTarget` and `ConfigureClear`
  have no logic to model; the playback instead lets the temporaries hold
  anything at the start of a frame.
- The three material references are left out of `DenoiseData`: each blit
  records the material's role instead. A null material, or one material
  used in two roles, is not modelled.
- Shader contents are not modelled; images are terms naming the transforms
  applied. What a blit does to pixels is not modelled either, including the
  resampling when a downsampled buffer is copied into the full-size camera.
- CameraSetup.Scale: the source multiplies by the float `.01f` before
  rounding. The model computes the exact value dim*(100-percent)/100 and
  rounds it half to even, like `Mathf.RoundToInt`. It does not claim
  bit-exact agreement with single-precision float arithmetic.
- CameraSetup.OnCameraSetup: requests its textures under the unbounded ids
  `offset*3+k` of the corrected member in "## Findings" (`TempIds`). For
  offsets outside -715827882..715827881 the source's ids wrap around in 32
  bits and differ from these; the two agree inside that range, as the
  contract states.
- CameraSetup.SetupsDisjoint: holds for the corrected, unbounded ids. With
  the source's 32-bit wrap-around, two different offsets outside
  -715827882..715827881 can share an id (`CameraSetup.AsWrittenIdsCollide`).
- The DownSample enum is kept to its four named values. A cast of any other
  integer to it is not modelled. DebugStage out-of-range values are
  modelled (`Unnamed`, with a code outside 0..3; the record's stage field
  has type `Stage`, which admits only such values).
- The 32-bit `int` width of the descriptor's width and height is not
  modelled; sizes are natural numbers.
- The feature wiring has no logic and is left out: `Create`,
  `AddRenderPasses`, `Init`, the `insertionPoint`/`renderPassEvent`
  setting, and the camera colour target identifier (lines 45-53 and 160-177).
- GPU execution order and concurrency are not modelled. The recorded order
  is the order of playback.

## Findings

| source | as written | input that shows it | evidently intended | confidence | as-written member | corrected member |
|---|---|---|---|---|---|---|
| DenoisedRenderingFeature.cs:67-71 | `n = idOffset * 3` and `k + n` are computed in unchecked 32-bit `int`, so large offsets wrap around | idOffset 1431655765 wraps n to -1 and takes ids -1, 0, 1; idOffset 0 takes 0, 1, 2, so both instances use id 0 | ids `offset*3 + k` distinct across instances with different offsets | not executed | CameraSetup.AsWrittenIdsCollide | CameraSetup.TempIdsDisjoint |
