/** The configuration record of the denoised renderer feature: the debug-stage
    and downsample enumerations and the per-feature data bundle. */
module DenoiseConfig {

  /** A signed 32-bit integer, the width of the C# `int` fields of the record. */
  type Int32 = x: int | -0x8000_0000 <= x < 0x8000_0000

  /** Which intermediate result the feature writes back to the camera.
      A C# enum variable can hold any integer, not only the named ones;
      `Unnamed(code)` stands for such a value (its code is never 0..3). */
  datatype DebugStage = FULL | ORIGINAL | EFFECT | BLUR | Unnamed(code: Int32)
  {
    /** The named constants are the only stages whose code lies in 0..3. */
    predicate Valid() {
      Unnamed? ==> !(0 <= code <= 3)
    }

    /** The underlying integer of the enum value. */
    function Code(): Int32 {
      match this
      case FULL => 0
      case ORIGINAL => 1
      case EFFECT => 2
      case BLUR => 3
      case Unnamed(c) => c
    }
  }

  /** A stage a C# value can actually hold: every value of the enum's
      underlying type reads as exactly one of these. */
  type Stage = s: DebugStage | s.Valid() witness FULL

  /** Reads an integer as a debug stage, as a cast to the enum does. */
  function StageOf(code: Int32): (s: Stage)
    ensures s.Unnamed? <==> !(0 <= code <= 3)
  {
    if code == 0 then FULL
    else if code == 1 then ORIGINAL
    else if code == 2 then EFFECT
    else if code == 3 then BLUR
    else Unnamed(code)
  }

  /** Casting a code to the enum and back gives the code again. */
  lemma StageCodeRoundTrip(code: Int32)
    ensures StageOf(code).Code() == code
  {
  }

  /** Every well-formed stage is the cast of its own code, so well-formed
      stages and 32-bit codes are in one-to-one correspondence. */
  lemma StageOfCode(s: Stage)
    ensures StageOf(s.Code()) == s
  {
  }

  /** The downsample setting; its enum value is the percentage by which the
      working buffers are made smaller. */
  datatype DownSample = DISABLED | QUARTER | HALF | TRHEEQUARTER
  {
    /** The reduction percentage the enum value encodes. */
    function Percent(): (p: nat)
      ensures p < 100
      ensures p == 0 <==> this == DISABLED
    {
      match this
      case DISABLED => 0
      case QUARTER => 25
      case HALF => 50
      case TRHEEQUARTER => 75
    }
  }

  /** The per-feature settings. The three materials are not carried: every
      blit in the model names the role (effect, blur, composition) of the
      material it uses instead. */
  datatype DenoiseData = DenoiseData(
    downsample: DownSample,
    stage: Stage,
    globalTextureName: string,
    idOffset: Int32,
    additionalBlurIteration: bool)
}
