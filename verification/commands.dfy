/** The abstract commands the feature records into a pooled command buffer,
    and the steps of the buffer's lifecycle around them. */
module RenderCommands {

  /** The render targets a blit can read or write: the camera colour buffer
      and the three temporary textures. */
  datatype Target = Camera | Temp1 | Temp2 | Temp3

  /** The material a blit runs, by role; `Copy` is a blit without a material. */
  datatype Pass = Copy | EffectPass | BlurPass | CompositionPass

  /** One recorded command. */
  datatype Command =
    | Blit(src: Target, dst: Target, pass: Pass)
    | SetGlobal(name: string, tex: Target)

  /** What happens to the pooled command buffer, in program order. */
  datatype Step =
    | Acquire            // taken from the pool
    | ClearBuffer        // emptied before recording
    | Record(cmd: Command)
    | Submit             // handed to the render context for execution
    | Release            // returned to the pool

  /** The commands recorded among `steps`, in order. */
  function Commands(steps: seq<Step>): (cmds: seq<Command>)
    ensures |cmds| <= |steps|
  {
    if steps == [] then []
    else
      var rest := Commands(steps[1..]);
      if steps[0].Record? then [steps[0].cmd] + rest else rest
  }

  lemma {:induction false} CommandsConcat(a: seq<Step>, b: seq<Step>)
    ensures Commands(a + b) == Commands(a) + Commands(b)
  {
    if a == [] {
      assert a + b == b;
    } else {
      assert (a + b)[1..] == a[1..] + b;
      CommandsConcat(a[1..], b);
    }
  }

  /** How many times `s` occurs in `steps`. */
  function Count(steps: seq<Step>, s: Step): (n: nat)
    ensures n <= |steps|
    ensures n == 0 <==> s !in steps
  {
    if steps == [] then 0
    else
      assert forall x :: x in steps <==> x == steps[0] || x in steps[1..];
      (if steps[0] == s then 1 else 0) + Count(steps[1..], s)
  }

  lemma {:induction false} CountConcat(a: seq<Step>, b: seq<Step>, s: Step)
    ensures Count(a + b, s) == Count(a, s) + Count(b, s)
  {
    if a == [] {
      assert a + b == b;
    } else {
      assert (a + b)[1..] == a[1..] + b;
      CountConcat(a[1..], b, s);
    }
  }

  /** A selection of commands by what they do. */
  datatype Filter =
    | WritesTo(t: Target)   // blits whose destination is t
    | Runs(p: Pass)         // blits that run p
    | Publishes             // global texture bindings

  predicate Matches(c: Command, f: Filter) {
    match f
    case WritesTo(t) => c.Blit? && c.dst == t
    case Runs(p) => c.Blit? && c.pass == p
    case Publishes => c.SetGlobal?
  }

  /** The commands of `cmds` that match `f`, in their original order. */
  function Select(cmds: seq<Command>, f: Filter): (r: seq<Command>)
    ensures |r| <= |cmds|
    ensures forall i :: 0 <= i < |r| ==> Matches(r[i], f)
  {
    if cmds == [] then []
    else
      var rest := Select(cmds[1..], f);
      if Matches(cmds[0], f) then [cmds[0]] + rest else rest
  }

  /** Selection keeps exactly the matching commands. */
  lemma {:induction false} SelectMembers(cmds: seq<Command>, f: Filter, c: Command)
    ensures c in Select(cmds, f) <==> c in cmds && Matches(c, f)
  {
    if cmds != [] {
      SelectMembers(cmds[1..], f, c);
      assert c in cmds <==> c == cmds[0] || c in cmds[1..];
    }
  }

  lemma {:induction false} SelectConcat(a: seq<Command>, b: seq<Command>, f: Filter)
    ensures Select(a + b, f) == Select(a, f) + Select(b, f)
  {
    if a == [] {
      assert a + b == b;
    } else {
      assert (a + b)[1..] == a[1..] + b;
      SelectConcat(a[1..], b, f);
    }
  }
}
