/** The commands the renderer records into a command buffer
    (`vkCmd*` in src/Renderer.cpp), and what a command buffer leaves bound
    when each of its draws runs. The second part is the reference against
    which the recorded passes are checked: it replays a command list, keeps
    the bound pipeline, descriptor sets and buffers, and notes that state at
    every indexed draw. */
module Commands {
  import opened Vk

  /** A render area or viewport, both of which the renderer sets to a full
      extent; the floating-point viewport fields are left out. */
  datatype Cmd =
    | BeginRenderPass(renderPass: Handle, framebuffer: Handle, extent: Extent2D)
    | SetViewport(viewportExtent: Extent2D)
    | SetScissor(scissorExtent: Extent2D)
    | BindPipeline(pipeline: Handle)
    | BindDescriptorSets(layout: Handle, firstSet: nat, sets: seq<Handle>)
    | BindVertexBuffer(vertexBuffer: Handle)
    | BindIndexBuffer(indexBuffer: Handle)
    | DrawIndexed(indexCount: Uint32)
    | EndRenderPass

  /** What is bound in a command buffer: the pipeline, the descriptor set
      in each set number, and the vertex and index buffers. */
  datatype Bound = Bound(pipeline: Handle, sets: map<nat, Handle>, vertexBuffer: Handle, indexBuffer: Handle)

  /** A command buffer starts with nothing bound. */
  const Unbound := Bound(Null, map[], Null, Null)

  /** An indexed draw and the state it ran with. */
  datatype Drawn = Drawn(state: Bound, indexCount: Uint32)

  /** The state after replaying a list, and its draws in order. */
  datatype Trace = Trace(last: Bound, draws: seq<Drawn>)

  /** `vkCmdBindDescriptorSets`: `sets[i]` goes to set number `first + i`. */
  function BindSets(bound: map<nat, Handle>, first: nat, sets: seq<Handle>): map<nat, Handle>
    decreases |sets|
  {
    if sets == [] then bound
    else BindSets(bound[first := sets[0]], first + 1, sets[1..])
  }

  /** The set bound at `n`, or null. */
  function SetAt(bound: map<nat, Handle>, n: nat): Handle {
    if n in bound then bound[n] else Null
  }

  /** Binding places every listed set at its number and leaves every other
      number as it was. */
  lemma {:induction false} BindSetsAt(bound: map<nat, Handle>, first: nat, sets: seq<Handle>, n: nat)
    ensures first <= n < first + |sets| ==> SetAt(BindSets(bound, first, sets), n) == sets[n - first]
    ensures !(first <= n < first + |sets|) ==> SetAt(BindSets(bound, first, sets), n) == SetAt(bound, n)
    decreases |sets|
  {
    if sets != [] {
      BindSetsAt(bound[first := sets[0]], first + 1, sets[1..], n);
    }
  }

  function Step(b: Bound, c: Cmd): Bound {
    match c
    case BindPipeline(p) => b.(pipeline := p)
    case BindDescriptorSets(_, first, sets) => b.(sets := BindSets(b.sets, first, sets))
    case BindVertexBuffer(v) => b.(vertexBuffer := v)
    case BindIndexBuffer(i) => b.(indexBuffer := i)
    case _ => b
  }

  /** Replays `cmds` from the state `b`. */
  function Run(b: Bound, cmds: seq<Cmd>): Trace
    decreases |cmds|
  {
    if cmds == [] then Trace(b, [])
    else
      var rest := Run(Step(b, cmds[0]), cmds[1..]);
      var here := if cmds[0].DrawIndexed? then [Drawn(b, cmds[0].indexCount)] else [];
      Trace(rest.last, here + rest.draws)
  }

  /** Replaying two lists one after the other replays their concatenation. */
  lemma {:induction false} RunAppend(b: Bound, x: seq<Cmd>, y: seq<Cmd>)
    ensures Run(b, x + y) == Trace(Run(Run(b, x).last, y).last, Run(b, x).draws + Run(Run(b, x).last, y).draws)
    decreases |x|
  {
    if x != [] {
      assert (x + y)[0] == x[0];
      assert (x + y)[1..] == x[1..] + y;
      RunAppend(Step(b, x[0]), x[1..], y);
    } else {
      assert x + y == y;
    }
  }

  /** Replaying one more command. */
  lemma RunSnoc(b: Bound, x: seq<Cmd>, c: Cmd)
    ensures var t := Run(b, x);
            Run(b, x + [c]) == Trace(Step(t.last, c), t.draws + if c.DrawIndexed? then [Drawn(t.last, c.indexCount)] else [])
  {
    RunAppend(b, x, [c]);
    assert [c][1..] == [];
  }

  /** A list without draws draws nothing. */
  lemma {:induction false} RunNoDraws(b: Bound, cmds: seq<Cmd>)
    requires forall i :: 0 <= i < |cmds| ==> !cmds[i].DrawIndexed?
    ensures Run(b, cmds).draws == []
    decreases |cmds|
  {
    if cmds != [] {
      RunNoDraws(Step(b, cmds[0]), cmds[1..]);
    }
  }

  /** No render pass starts or ends anywhere in `cmds`. */
  predicate InsidePass(cmds: seq<Cmd>) {
    forall i :: 0 <= i < |cmds| ==> !cmds[i].BeginRenderPass? && !cmds[i].EndRenderPass?
  }
}
