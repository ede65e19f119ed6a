/** The command lists that src/Renderer.cpp records: one renderable drawn on
    its own (`render(renderable)`), the shadow pass and the colour pass, and
    what each of their draws runs with when the list is replayed. */
module Passes {
  import opened Vk
  import opened Commands
  import opened Renderables

  /** The shadow map is 1024 by 1024 texels (src/Renderer.cpp:32). */
  const ShadowMapExtent := Extent2D(1024, 1024)

  /** `static_cast<uint32_t>(geometry.indices.size())`. */
  function IndexCount(g: Geometry): Uint32 {
    |g.indices| % Uint32Modulus
  }

  /** Vertex buffer, index buffer, then one indexed draw of every index. */
  function GeometryCmds(g: Geometry): seq<Cmd> {
    [BindVertexBuffer(g.vertexBuffer), BindIndexBuffer(g.indexBuffer), DrawIndexed(IndexCount(g))]
  }

  /** What the renderer reads from a material: its pipeline, its pipeline
      layout and its descriptor set for the current frame. */
  datatype MaterialView = MaterialView(pipeline: Handle, layout: Handle, materialSet: Handle)

  /** `render(renderable)`: the material's pipeline; the global set at 0
      unless the camera is already bound; the material's and the object's
      sets at 1 and 2; then the geometry. */
  function SingleDraw(cameraBound: bool, global: Handle, v: MaterialView, objectSet: Handle, g: Geometry): seq<Cmd> {
    SingleBinds(cameraBound, global, v, objectSet) + GeometryCmds(g)
  }

  /** The binds that `render(renderable)` records before the geometry. */
  function SingleBinds(cameraBound: bool, global: Handle, v: MaterialView, objectSet: Handle): seq<Cmd> {
    [BindPipeline(v.pipeline)]
    + (if cameraBound then [] else [BindDescriptorSets(v.layout, 0, [global])])
    + [BindDescriptorSets(v.layout, 1, [v.materialSet, objectSet])]
  }

  /** One renderable in the shadow pass: its object set at 1, then its
      geometry; the pipeline and the global set stay as the pass bound them. */
  function ShadowDraw(layout: Handle, objectSet: Handle, g: Geometry): seq<Cmd> {
    [BindDescriptorSets(layout, 1, [objectSet])] + GeometryCmds(g)
  }

  /** One renderable in the colour pass: the material's pipeline, the global,
      material and object sets at 0, 1 and 2, then its geometry. */
  function ColorDraw(global: Handle, v: MaterialView, objectSet: Handle, g: Geometry): seq<Cmd> {
    [BindPipeline(v.pipeline), BindDescriptorSets(v.layout, 0, [global, v.materialSet, objectSet])] + GeometryCmds(g)
  }

  function ShadowDraws(layout: Handle, sets: seq<Handle>, geoms: seq<Geometry>): seq<Cmd>
    requires |sets| == |geoms|
    decreases |geoms|
  {
    if geoms == [] then []
    else
      var n := |geoms| - 1;
      ShadowDraws(layout, sets[..n], geoms[..n]) + ShadowDraw(layout, sets[n], geoms[n])
  }

  function ColorDraws(global: Handle, views: seq<MaterialView>, sets: seq<Handle>, geoms: seq<Geometry>): seq<Cmd>
    requires |views| == |sets| == |geoms|
    decreases |geoms|
  {
    if geoms == [] then []
    else
      var n := |geoms| - 1;
      ColorDraws(global, views[..n], sets[..n], geoms[..n]) + ColorDraw(global, views[n], sets[n], geoms[n])
  }

  /** The commands of the shadow pass before its draws. */
  function ShadowHead(pass: Handle, framebuffer: Handle, layout: Handle, global: Handle, pipeline: Handle): seq<Cmd> {
    [ BeginRenderPass(pass, framebuffer, ShadowMapExtent), SetViewport(ShadowMapExtent), SetScissor(ShadowMapExtent),
      BindDescriptorSets(layout, 0, [global]), BindPipeline(pipeline) ]
  }

  /** `renderShadowMap`: the shadow render pass over the shadow map, with the
      light's global set and the shadow pipeline bound once, then one draw per
      renderable. */
  function ShadowPass(pass: Handle, framebuffer: Handle, layout: Handle, global: Handle, pipeline: Handle,
                      sets: seq<Handle>, geoms: seq<Geometry>): seq<Cmd>
    requires |sets| == |geoms|
  {
    ShadowHead(pass, framebuffer, layout, global, pipeline) + ShadowDraws(layout, sets, geoms) + [EndRenderPass]
  }

  /** `renderColor`: the main render pass over the acquired image's
      framebuffer, then one draw per renderable. */
  function ColorPass(pass: Handle, framebuffer: Handle, extent: Extent2D, global: Handle,
                     views: seq<MaterialView>, sets: seq<Handle>, geoms: seq<Geometry>): seq<Cmd>
    requires |views| == |sets| == |geoms|
  {
    [BeginRenderPass(pass, framebuffer, extent), SetViewport(extent), SetScissor(extent)]
    + ColorDraws(global, views, sets, geoms)
    + [EndRenderPass]
  }

  /** A draw of `g` with the object set at 1. */
  predicate DrewObject(d: Drawn, objectSet: Handle, g: Geometry) {
    && SetAt(d.state.sets, 1) == objectSet
    && d.state.vertexBuffer == g.vertexBuffer
    && d.state.indexBuffer == g.indexBuffer
    && d.indexCount == IndexCount(g)
  }

  /** A draw of `g` with the material's pipeline and the global, material
      and object sets at 0, 1 and 2. */
  predicate DrewWithMaterial(d: Drawn, global: Handle, v: MaterialView, objectSet: Handle, g: Geometry) {
    && d.state.pipeline == v.pipeline
    && SetAt(d.state.sets, 0) == global
    && SetAt(d.state.sets, 1) == v.materialSet
    && SetAt(d.state.sets, 2) == objectSet
    && d.state.vertexBuffer == g.vertexBuffer
    && d.state.indexBuffer == g.indexBuffer
    && d.indexCount == IndexCount(g)
  }

  /** Drawing the geometry: buffers bound, one draw, and nothing else
      changed. */
  lemma GeometryRun(b: Bound, g: Geometry)
    ensures var s := b.(vertexBuffer := g.vertexBuffer, indexBuffer := g.indexBuffer);
            Run(b, GeometryCmds(g)) == Trace(s, [Drawn(s, IndexCount(g))])
  {
    var cmds := GeometryCmds(g);
    var s1 := b.(vertexBuffer := g.vertexBuffer);
    var s := s1.(indexBuffer := g.indexBuffer);
    assert cmds[1..][1..][1..] == [];
    assert Run(s, cmds[1..][1..]) == Trace(s, [Drawn(s, IndexCount(g))]);
    assert Run(s1, cmds[1..]) == Trace(s, [Drawn(s, IndexCount(g))]);
  }

  /** In the shadow pass, a renderable's draw runs with its object set and
      geometry, and leaves the pipeline and set 0 as they were. */
  lemma ShadowDrawRun(b: Bound, layout: Handle, objectSet: Handle, g: Geometry)
    ensures var t := Run(b, ShadowDraw(layout, objectSet, g));
            && |t.draws| == 1
            && t.last.pipeline == b.pipeline && SetAt(t.last.sets, 0) == SetAt(b.sets, 0)
            && t.draws[0].state.pipeline == b.pipeline
            && SetAt(t.draws[0].state.sets, 0) == SetAt(b.sets, 0)
            && DrewObject(t.draws[0], objectSet, g)
  {
    var bind := BindDescriptorSets(layout, 1, [objectSet]);
    var s := Step(b, bind);
    RunAppend(b, [bind], GeometryCmds(g));
    GeometryRun(s, g);
    BindSetsAt(b.sets, 1, [objectSet], 0);
    BindSetsAt(b.sets, 1, [objectSet], 1);
  }

  /** `t` replays shadow draws of `sets` and `geoms` from `b`: one draw per
      renderable, in order, each with the pipeline and set 0 that were bound
      before them, its own object set and its own geometry. */
  predicate ShadowDrawsTrace(t: Trace, b: Bound, sets: seq<Handle>, geoms: seq<Geometry>)
    requires |sets| == |geoms|
  {
    && |t.draws| == |geoms|
    && t.last.pipeline == b.pipeline && SetAt(t.last.sets, 0) == SetAt(b.sets, 0)
    && forall i :: 0 <= i < |geoms| ==>
         && t.draws[i].state.pipeline == b.pipeline
         && SetAt(t.draws[i].state.sets, 0) == SetAt(b.sets, 0)
         && DrewObject(t.draws[i], sets[i], geoms[i])
  }

  /** Every draw of the shadow renderables, in order, runs with the pipeline
      and set 0 that were bound before them. */
  lemma {:induction false} ShadowDrawsRun(b: Bound, layout: Handle, sets: seq<Handle>, geoms: seq<Geometry>)
    requires |sets| == |geoms|
    ensures ShadowDrawsTrace(Run(b, ShadowDraws(layout, sets, geoms)), b, sets, geoms)
    decreases |geoms|
  {
    if geoms != [] {
      var n := |geoms| - 1;
      var prefix := ShadowDraws(layout, sets[..n], geoms[..n]);
      var last := ShadowDraw(layout, sets[n], geoms[n]);
      ShadowDrawsRun(b, layout, sets[..n], geoms[..n]);
      RunAppend(b, prefix, last);
      var t0 := Run(b, prefix);
      var t1 := Run(t0.last, last);
      ShadowDrawRun(t0.last, layout, sets[n], geoms[n]);
      ShadowTraceSnoc(b, t0, t1, sets, geoms);
    }
  }

  /** The trace of the first `n` draws followed by the trace of draw `n`. */
  lemma ShadowTraceSnoc(b: Bound, t0: Trace, t1: Trace, sets: seq<Handle>, geoms: seq<Geometry>)
    requires |sets| == |geoms| > 0
    requires ShadowDrawsTrace(t0, b, sets[..|geoms| - 1], geoms[..|geoms| - 1])
    requires && |t1.draws| == 1
             && t1.last.pipeline == t0.last.pipeline && SetAt(t1.last.sets, 0) == SetAt(t0.last.sets, 0)
             && t1.draws[0].state.pipeline == t0.last.pipeline
             && SetAt(t1.draws[0].state.sets, 0) == SetAt(t0.last.sets, 0)
             && DrewObject(t1.draws[0], sets[|geoms| - 1], geoms[|geoms| - 1])
    ensures ShadowDrawsTrace(Trace(t1.last, t0.draws + t1.draws), b, sets, geoms)
  {
    var n := |geoms| - 1;
    var draws := t0.draws + t1.draws;
    forall i | 0 <= i < |geoms|
      ensures && draws[i].state.pipeline == b.pipeline
              && SetAt(draws[i].state.sets, 0) == SetAt(b.sets, 0)
              && DrewObject(draws[i], sets[i], geoms[i])
    {
      if i < n {
        assert draws[i] == t0.draws[i];
        assert sets[..n][i] == sets[i] && geoms[..n][i] == geoms[i];
      }
    }
  }

  /** The shadow pass is one render pass: it begins the shadow render pass
      over the shadow framebuffer, ends it last, and neither begins nor ends
      one in between. */
  lemma ShadowPassShape(pass: Handle, framebuffer: Handle, layout: Handle, global: Handle, pipeline: Handle,
                        sets: seq<Handle>, geoms: seq<Geometry>)
    requires |sets| == |geoms|
    ensures var cmds := ShadowPass(pass, framebuffer, layout, global, pipeline, sets, geoms);
            && cmds[0] == BeginRenderPass(pass, framebuffer, ShadowMapExtent)
            && cmds[|cmds| - 1] == EndRenderPass
            && InsidePass(cmds[1..|cmds| - 1])
  {
    var head := ShadowHead(pass, framebuffer, layout, global, pipeline);
    var body := ShadowDraws(layout, sets, geoms);
    var cmds := ShadowPass(pass, framebuffer, layout, global, pipeline, sets, geoms);
    assert cmds == head + body + [EndRenderPass];
    ShadowDrawsInside(layout, sets, geoms);
    assert cmds[1..|cmds| - 1] == head[1..] + body;
  }

  /** The shadow pass holds one indexed draw per renderable in scene order;
      each runs with the shadow pipeline, the light's global set at 0, its
      own object set at 1, its own buffers and its own index count. */
  lemma ShadowPassRun(b: Bound, pass: Handle, framebuffer: Handle, layout: Handle, global: Handle, pipeline: Handle,
                      sets: seq<Handle>, geoms: seq<Geometry>)
    requires |sets| == |geoms|
    ensures var t := Run(b, ShadowPass(pass, framebuffer, layout, global, pipeline, sets, geoms));
            && |t.draws| == |geoms|
            && forall i :: 0 <= i < |geoms| ==>
                 && t.draws[i].state.pipeline == pipeline
                 && SetAt(t.draws[i].state.sets, 0) == global
                 && DrewObject(t.draws[i], sets[i], geoms[i])
  {
    var head := ShadowHead(pass, framebuffer, layout, global, pipeline);
    var body := ShadowDraws(layout, sets, geoms);
    assert ShadowPass(pass, framebuffer, layout, global, pipeline, sets, geoms) == head + body + [EndRenderPass];
    ShadowHeadRun(b, pass, framebuffer, layout, global, pipeline);
    var s := Run(b, head).last;
    var t := Run(s, body);
    RunAppend(b, head, body);
    assert Run(b, head + body).draws == t.draws;
    RunAppend(b, head + body, [EndRenderPass]);
    RunNoDraws(t.last, [EndRenderPass]);
    assert Run(b, head + body + [EndRenderPass]).draws == t.draws;
    ShadowDrawsRun(s, layout, sets, geoms);
  }

  /** Before its draws, the shadow pass binds the light's global set at 0
      and the shadow pipeline, and draws nothing. */
  lemma ShadowHeadRun(b: Bound, pass: Handle, framebuffer: Handle, layout: Handle, global: Handle, pipeline: Handle)
    ensures var t := Run(b, ShadowHead(pass, framebuffer, layout, global, pipeline));
            t.draws == [] && t.last.pipeline == pipeline && SetAt(t.last.sets, 0) == global
  {
    var head := ShadowHead(pass, framebuffer, layout, global, pipeline);
    var h3 := [BeginRenderPass(pass, framebuffer, ShadowMapExtent), SetViewport(ShadowMapExtent), SetScissor(ShadowMapExtent)];
    var h4 := h3 + [BindDescriptorSets(layout, 0, [global])];
    assert head == h4 + [BindPipeline(pipeline)];
    RunNoDraws(b, head);
    RunSnoc(b, h3, BindDescriptorSets(layout, 0, [global]));
    RunSnoc(b, h4, BindPipeline(pipeline));
    BindSetsAt(Run(b, h3).last.sets, 0, [global], 0);
  }

  lemma {:induction false} ShadowDrawsInside(layout: Handle, sets: seq<Handle>, geoms: seq<Geometry>)
    requires |sets| == |geoms|
    ensures InsidePass(ShadowDraws(layout, sets, geoms))
    decreases |geoms|
  {
    if geoms != [] {
      var n := |geoms| - 1;
      ShadowDrawsInside(layout, sets[..n], geoms[..n]);
    }
  }

  /** In the colour pass, a renderable's draw runs with its material and its
      object. */
  lemma ColorDrawRun(b: Bound, global: Handle, v: MaterialView, objectSet: Handle, g: Geometry)
    ensures var t := Run(b, ColorDraw(global, v, objectSet, g));
            |t.draws| == 1 && DrewWithMaterial(t.draws[0], global, v, objectSet, g)
  {
    var bindSets := BindDescriptorSets(v.layout, 0, [global, v.materialSet, objectSet]);
    var binds := [BindPipeline(v.pipeline)] + [bindSets];
    RunNoDraws(b, binds);
    RunSnoc(b, [BindPipeline(v.pipeline)], bindSets);
    RunSnoc(b, [], BindPipeline(v.pipeline));
    var s := Run(b, binds).last;
    RunAppend(b, binds, GeometryCmds(g));
    GeometryRun(s, g);
    BindSetsAt(b.sets, 0, [global, v.materialSet, objectSet], 0);
    BindSetsAt(b.sets, 0, [global, v.materialSet, objectSet], 1);
    BindSetsAt(b.sets, 0, [global, v.materialSet, objectSet], 2);
  }

  /** `t` replays colour draws from `b`: one draw per renderable, in order,
      each with its material and its object. */
  predicate ColorDrawsTrace(t: Trace, global: Handle, views: seq<MaterialView>, sets: seq<Handle>, geoms: seq<Geometry>)
    requires |views| == |sets| == |geoms|
  {
    && |t.draws| == |geoms|
    && forall i :: 0 <= i < |geoms| ==> DrewWithMaterial(t.draws[i], global, views[i], sets[i], geoms[i])
  }

  lemma {:induction false} ColorDrawsRun(b: Bound, global: Handle, views: seq<MaterialView>, sets: seq<Handle>, geoms: seq<Geometry>)
    requires |views| == |sets| == |geoms|
    ensures ColorDrawsTrace(Run(b, ColorDraws(global, views, sets, geoms)), global, views, sets, geoms)
    decreases |geoms|
  {
    if geoms != [] {
      var n := |geoms| - 1;
      var prefix := ColorDraws(global, views[..n], sets[..n], geoms[..n]);
      var last := ColorDraw(global, views[n], sets[n], geoms[n]);
      ColorDrawsRun(b, global, views[..n], sets[..n], geoms[..n]);
      RunAppend(b, prefix, last);
      var t0 := Run(b, prefix);
      var t1 := Run(t0.last, last);
      ColorDrawRun(t0.last, global, views[n], sets[n], geoms[n]);
      ColorTraceSnoc(t0, t1, global, views, sets, geoms);
    }
  }

  /** The trace of the first `n` colour draws followed by that of draw `n`. */
  lemma ColorTraceSnoc(t0: Trace, t1: Trace, global: Handle, views: seq<MaterialView>, sets: seq<Handle>, geoms: seq<Geometry>)
    requires |views| == |sets| == |geoms| > 0
    requires ColorDrawsTrace(t0, global, views[..|geoms| - 1], sets[..|geoms| - 1], geoms[..|geoms| - 1])
    requires |t1.draws| == 1
    requires DrewWithMaterial(t1.draws[0], global, views[|geoms| - 1], sets[|geoms| - 1], geoms[|geoms| - 1])
    ensures ColorDrawsTrace(Trace(t1.last, t0.draws + t1.draws), global, views, sets, geoms)
  {
    var n := |geoms| - 1;
    var draws := t0.draws + t1.draws;
    forall i | 0 <= i < |geoms|
      ensures DrewWithMaterial(draws[i], global, views[i], sets[i], geoms[i])
    {
      if i < n {
        assert draws[i] == t0.draws[i];
        assert views[..n][i] == views[i] && sets[..n][i] == sets[i] && geoms[..n][i] == geoms[i];
      }
    }
  }

  lemma {:induction false} ColorDrawsInside(global: Handle, views: seq<MaterialView>, sets: seq<Handle>, geoms: seq<Geometry>)
    requires |views| == |sets| == |geoms|
    ensures InsidePass(ColorDraws(global, views, sets, geoms))
    decreases |geoms|
  {
    if geoms != [] {
      var n := |geoms| - 1;
      ColorDrawsInside(global, views[..n], sets[..n], geoms[..n]);
    }
  }

  /** The colour pass is one render pass: it begins the main render pass
      over the image's framebuffer, ends it last, and neither begins nor ends
      one in between. */
  lemma ColorPassShape(pass: Handle, framebuffer: Handle, extent: Extent2D, global: Handle,
                       views: seq<MaterialView>, sets: seq<Handle>, geoms: seq<Geometry>)
    requires |views| == |sets| == |geoms|
    ensures var cmds := ColorPass(pass, framebuffer, extent, global, views, sets, geoms);
            && cmds[0] == BeginRenderPass(pass, framebuffer, extent)
            && cmds[|cmds| - 1] == EndRenderPass
            && InsidePass(cmds[1..|cmds| - 1])
  {
    var head := [BeginRenderPass(pass, framebuffer, extent), SetViewport(extent), SetScissor(extent)];
    var body := ColorDraws(global, views, sets, geoms);
    var cmds := ColorPass(pass, framebuffer, extent, global, views, sets, geoms);
    ColorDrawsInside(global, views, sets, geoms);
    assert cmds[1..|cmds| - 1] == head[1..] + body;
  }

  /** The colour pass holds one indexed draw per renderable in scene order;
      each runs with its material's pipeline, the global, material and object
      sets, its own buffers and its own index count. */
  lemma ColorPassRun(b: Bound, pass: Handle, framebuffer: Handle, extent: Extent2D, global: Handle,
                     views: seq<MaterialView>, sets: seq<Handle>, geoms: seq<Geometry>)
    requires |views| == |sets| == |geoms|
    ensures var t := Run(b, ColorPass(pass, framebuffer, extent, global, views, sets, geoms));
            && |t.draws| == |geoms|
            && forall i :: 0 <= i < |geoms| ==> DrewWithMaterial(t.draws[i], global, views[i], sets[i], geoms[i])
  {
    var head := [BeginRenderPass(pass, framebuffer, extent), SetViewport(extent), SetScissor(extent)];
    var body := ColorDraws(global, views, sets, geoms);
    RunNoDraws(b, head);
    var s := Run(b, head).last;
    var t := Run(s, body);
    RunAppend(b, head, body);
    assert Run(b, head + body).draws == t.draws;
    RunAppend(b, head + body, [EndRenderPass]);
    RunNoDraws(t.last, [EndRenderPass]);
    assert Run(b, head + body + [EndRenderPass]).draws == t.draws;
    ColorDrawsRun(s, global, views, sets, geoms);
  }

  /** `render(renderable)` draws with the material's pipeline, its set at 1,
      the object's set at 2 and its geometry; set 0 holds the global set,
      bound now when the camera was not yet bound and kept from before
      otherwise. */
  lemma SingleDrawRun(b: Bound, cameraBound: bool, global: Handle, v: MaterialView, objectSet: Handle, g: Geometry)
    ensures var t := Run(b, SingleDraw(cameraBound, global, v, objectSet, g));
            && |t.draws| == 1
            && SetAt(t.last.sets, 0) == (if cameraBound then SetAt(b.sets, 0) else global)
            && DrewWithMaterial(t.draws[0], if cameraBound then SetAt(b.sets, 0) else global, v, objectSet, g)
  {
    var binds := SingleBinds(cameraBound, global, v, objectSet);
    SingleBindsRun(b, cameraBound, global, v, objectSet);
    var s := Run(b, binds).last;
    RunAppend(b, binds, GeometryCmds(g));
    GeometryRun(s, g);
  }

  /** The binds draw nothing and leave the material's pipeline, the global
      set (bound now or kept) and the material and object sets bound. */
  lemma SingleBindsRun(b: Bound, cameraBound: bool, global: Handle, v: MaterialView, objectSet: Handle)
    ensures var t := Run(b, SingleBinds(cameraBound, global, v, objectSet));
            && t.draws == []
            && t.last.pipeline == v.pipeline
            && SetAt(t.last.sets, 0) == (if cameraBound then SetAt(b.sets, 0) else global)
            && SetAt(t.last.sets, 1) == v.materialSet
            && SetAt(t.last.sets, 2) == objectSet
  {
    var pipe := [BindPipeline(v.pipeline)];
    RunSnoc(b, [], BindPipeline(v.pipeline));
    assert [] + pipe == pipe;
    var camBind := BindDescriptorSets(v.layout, 0, [global]);
    var s1 := Run(b, pipe).last;
    var mid := if cameraBound then pipe else pipe + [camBind];
    if !cameraBound {
      RunSnoc(b, pipe, camBind);
      BindSetsAt(s1.sets, 0, [global], 0);
    }
    OwnBindRun(b, mid, v, objectSet);
    assert SingleBinds(cameraBound, global, v, objectSet) == mid + [BindDescriptorSets(v.layout, 1, [v.materialSet, objectSet])];
  }

  /** Binding the material's and the object's sets at 1 and 2 after `mid`
      keeps the pipeline and set 0 and draws nothing more. */
  lemma OwnBindRun(b: Bound, mid: seq<Cmd>, v: MaterialView, objectSet: Handle)
    requires Run(b, mid).draws == []
    ensures var s := Run(b, mid).last;
            var t := Run(b, mid + [BindDescriptorSets(v.layout, 1, [v.materialSet, objectSet])]);
            && t.draws == []
            && t.last.pipeline == s.pipeline
            && SetAt(t.last.sets, 0) == SetAt(s.sets, 0)
            && SetAt(t.last.sets, 1) == v.materialSet
            && SetAt(t.last.sets, 2) == objectSet
  {
    var s := Run(b, mid).last;
    RunSnoc(b, mid, BindDescriptorSets(v.layout, 1, [v.materialSet, objectSet]));
    BindSetsAt(s.sets, 1, [v.materialSet, objectSet], 0);
    BindSetsAt(s.sets, 1, [v.materialSet, objectSet], 1);
    BindSetsAt(s.sets, 1, [v.materialSet, objectSet], 2);
  }
}
