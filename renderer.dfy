/** The renderer (src/Renderer.cpp): the ring of frames in flight, the
    per-renderable uniform buffers it creates on first use, the one-shot
    camera binding, and the shadow and colour passes it records into the
    current frame's command buffer. Driver results are inputs; a failed
    `assert` on a driver call is not modelled, and a material that cannot be
    compiled ends the call with an error where the source aborts. */
module Rendering {
  import opened Wrappers
  import opened Vk
  import opened Materials
  import opened Renderables
  import opened Blocks
  import opened Commands
  import opened Passes

  /** `sizeof(ObjectUniform)`: the model-to-world matrix and its inverse. */
  const ObjectUniformSize: nat := 2 * Mat4Size

  /** One frame's uniform buffer of a renderable and the set that points at
      it. */
  datatype ObjectUniform = ObjectUniform(buffer: Handle, descSet: Handle)

  /** The handles `create` makes before the framebuffers (render passes,
      the shadow pipeline, the set layouts, the per-frame global sets) and the
      context's descriptor pool. */
  datatype Resources = Resources(
    renderPass: Handle,
    depthView: Handle,
    shadowPass: Handle,
    shadowFramebuffer: Handle,
    shadowLayout: Handle,
    shadowPipeline: Handle,
    objectUniformLayout: Handle,
    descPool: Handle,
    globalSets: seq<Handle>,
    shadowGlobalSets: seq<Handle>)

  /** The frame after `frame`. */
  function NextFrame(frame: nat, maxFrames: nat): nat
    requires maxFrames > 0
  {
    (frame + 1) % maxFrames
  }

  /** The frame `n` successful `endFrame`s after `frame`. */
  function AdvanceFrames(frame: nat, maxFrames: nat, n: nat): nat
    requires maxFrames > 0
  {
    if n == 0 then frame else NextFrame(AdvanceFrames(frame, maxFrames, n - 1), maxFrames)
  }

  lemma MulMonotone(x: int, y: int, m: int)
    requires x <= y && m >= 0
    ensures x * m <= y * m
  {
    assert y * m - x * m == (y - x) * m;
  }

  /** The remainder is the one `r` with `a == q * m + r` and `0 <= r < m`. */
  lemma ModUnique(a: int, m: int, q: int, r: int)
    requires m > 0 && 0 <= r < m && a == q * m + r
    ensures a % m == r
  {
    var q0, r0 := a / m, a % m;
    assert a == q0 * m + r0;
    if q0 > q {
      assert (q + 1) * m == q * m + m;
      MulMonotone(q + 1, q0, m);
    } else if q0 < q {
      assert (q0 + 1) * m == q0 * m + m;
      MulMonotone(q0 + 1, q, m);
    }
  }

  lemma ModSucc(a: nat, m: nat)
    requires m > 0
    ensures ((a % m) + 1) % m == (a + 1) % m
  {
    var q, r := a / m, a % m;
    assert a == q * m + r;
    if r + 1 < m {
      ModUnique(a + 1, m, q, r + 1);
      ModUnique(r + 1, m, 0, r + 1);
    } else {
      assert (q + 1) * m == q * m + m;
      ModUnique(a + 1, m, q + 1, 0);
      ModUnique(r + 1, m, 1, 0);
    }
  }

  /** The frames in flight are used round robin: `n` frames on from `frame`
      is `frame + n` modulo their number, so the counter stays below
      `kMaxConcurrentFrames`, and it is back where it started after that
      many frames. */
  lemma {:induction false} AdvanceIsModular(frame: nat, maxFrames: nat, n: nat)
    requires 0 <= frame < maxFrames
    ensures AdvanceFrames(frame, maxFrames, n) == (frame + n) % maxFrames
    ensures AdvanceFrames(frame, maxFrames, n) < maxFrames
    ensures n % maxFrames == 0 ==> AdvanceFrames(frame, maxFrames, n) == frame
  {
    if n > 0 {
      AdvanceIsModular(frame, maxFrames, n - 1);
      ModSucc(frame + n - 1, maxFrames);
    }
    if n % maxFrames == 0 {
      var k := n / maxFrames;
      assert n == k * maxFrames;
      ModUnique(frame + n, maxFrames, k, frame);
    }
  }

  /** Whether `vkAcquireNextImageKHR` wrote the image index. */
  predicate AcquireWritesIndex(r: VkResult) {
    r == Success || r == SuboptimalKhr
  }

  /** The calls of one frame's uniform for a renderable, the frame's calls
      starting at position `p`: a host-visible buffer of
      `sizeof(ObjectUniform)` bytes, a set allocated from the pool with the
      object layout, and one write pointing the set's binding 0 at the whole
      buffer. */
  function UniformBlock(pool: Handle, layout: Handle): nat -> seq<Call> {
    (p: nat) => [
      CreateHostVisibleBuffer(ObjectUniformSize),
      AllocateDescriptorSet(pool, layout),
      UpdateDescriptorSet(DescriptorWrite(Handle(p + 1), 0, UniformBuffer, 1, BufferInfo(Handle(p), 0, ObjectUniformSize)))
    ]
  }

  function UniformCalls(pool: Handle, layout: Handle, base: nat, count: nat): seq<Call> {
    Concat(UniformBlock(pool, layout), base, count)
  }

  /** The buffer and set each frame's calls create. */
  function UniformSlots(pool: Handle, layout: Handle, base: nat, count: nat): (r: seq<ObjectUniform>)
    ensures |r| == count
  {
    var starts := Starts(UniformBlock(pool, layout), base, count);
    seq(|starts|, i requires 0 <= i < |starts| => ObjectUniform(Handle(starts[i]), Handle(starts[i] + 1)))
  }

  lemma UniformCallsLength(pool: Handle, layout: Handle, base: nat, count: nat)
    ensures |UniformCalls(pool, layout, base, count)| == 3 * count
  {
    UniformLength(UniformBlock(pool, layout), base, count, 3);
  }

  /** Frame `f`'s buffer and set are the objects its calls create, three
      calls per frame from `base` on; its set is allocated with the object
      layout and written to point at its own buffer. */
  lemma UniformCallsShape(pool: Handle, layout: Handle, base: nat, count: nat, f: nat)
    requires f < count
    ensures var calls := UniformCalls(pool, layout, base, count);
            var slot := UniformSlots(pool, layout, base, count)[f];
            && slot == ObjectUniform(Handle(base + 3 * f), Handle(base + 3 * f + 1))
            && 3 * f + 2 < |calls|
            && calls[3 * f] == CreateHostVisibleBuffer(ObjectUniformSize)
            && calls[3 * f + 1] == AllocateDescriptorSet(pool, layout)
            && calls[3 * f + 2] == UpdateDescriptorSet(
                 DescriptorWrite(slot.descSet, 0, UniformBuffer, 1, BufferInfo(slot.buffer, 0, ObjectUniformSize)))
  {
    UniformSlotAt(pool, layout, base, count, f);
    UniformBlockAt(pool, layout, base, count, f);
  }

  lemma UniformSlotAt(pool: Handle, layout: Handle, base: nat, count: nat, f: nat)
    requires f < count
    ensures UniformSlots(pool, layout, base, count)[f] == ObjectUniform(Handle(base + 3 * f), Handle(base + 3 * f + 1))
  {
    var block := UniformBlock(pool, layout);
    UniformLength(block, base, f, 3);
    StartsAt(block, base, count, f);
  }

  lemma UniformBlockAt(pool: Handle, layout: Handle, base: nat, count: nat, f: nat)
    requires f < count
    ensures var calls := UniformCalls(pool, layout, base, count);
            && 3 * f + 2 < |calls|
            && calls[3 * f] == CreateHostVisibleBuffer(ObjectUniformSize)
            && calls[3 * f + 1] == AllocateDescriptorSet(pool, layout)
            && calls[3 * f + 2] == UpdateDescriptorSet(DescriptorWrite(Handle(base + 3 * f + 1), 0, UniformBuffer, 1,
                                                                       BufferInfo(Handle(base + 3 * f), 0, ObjectUniformSize)))
  {
    var block := UniformBlock(pool, layout);
    var calls := UniformCalls(pool, layout, base, count);
    UniformLength(block, base, f, 3);
    BlockAt(block, base, count, f);
    var b := block(base + 3 * f);
    assert calls[3 * f + 0] == b[0];
    assert calls[3 * f + 1] == b[1];
    assert calls[3 * f + 2] == b[2];
  }

  /** Every frame gets buffers and sets of its own. */
  lemma UniformSlotsDistinct(pool: Handle, layout: Handle, base: nat, count: nat, f: nat, g: nat)
    requires f < count && g < count && f != g
    ensures var slots := UniformSlots(pool, layout, base, count);
            && slots[f].buffer != slots[g].buffer
            && slots[f].descSet != slots[g].descSet
            && slots[f].buffer != slots[g].descSet
  {
    UniformCallsShape(pool, layout, base, count, f);
    UniformCallsShape(pool, layout, base, count, g);
  }

  /** One more frame's calls. */
  lemma UniformStep(pool: Handle, layout: Handle, base: nat, f: nat, start: seq<Call>, before: seq<Call>, slots: seq<ObjectUniform>)
    requires |start| == base && before == start + UniformCalls(pool, layout, base, f)
    requires slots == UniformSlots(pool, layout, base, f)
    ensures before + UniformBlock(pool, layout)(|before|) == start + UniformCalls(pool, layout, base, f + 1)
    ensures slots + [ObjectUniform(Handle(|before|), Handle(|before| + 1))] == UniformSlots(pool, layout, base, f + 1)
  {
    var block := UniformBlock(pool, layout);
    ConcatStep(block, base, f, start, before);
  }

  /** The object set of renderable `id` for `frame`, or null before its
      uniforms exist. */
  function ObjectSet(uniforms: map<nat, seq<ObjectUniform>>, id: nat, frame: nat): Handle {
    if id in uniforms && frame < |uniforms[id]| then uniforms[id][frame].descSet else Null
  }

  function ObjectSets(uniforms: map<nat, seq<ObjectUniform>>, scene: seq<Renderable>, frame: nat): (r: seq<Handle>)
    ensures |r| == |scene|
  {
    seq(|scene|, i requires 0 <= i < |scene| => ObjectSet(uniforms, scene[i].id, frame))
  }

  function Geometries(scene: seq<Renderable>): (r: seq<Geometry>)
    ensures |r| == |scene|
  {
    seq(|scene|, i requires 0 <= i < |scene| => scene[i].geometry)
  }

  function MaterialsOf(scene: seq<Renderable>): set<Material> {
    set i | 0 <= i < |scene| :: scene[i].material
  }

  /** `getDescriptorSet()` is taken to be the set of the current frame:
      Material.cpp keeps one set per frame. */
  function FrameSet(sets: seq<Handle>, frame: nat): Handle {
    if frame < |sets| then sets[frame] else Null
  }

  function ViewOf(m: Material, frame: nat): MaterialView
    reads m
  {
    MaterialView(m.pipeline, m.pipelineLayout, FrameSet(m.descSets, frame))
  }

  function Views(scene: seq<Renderable>, frame: nat): (r: seq<MaterialView>)
    reads MaterialsOf(scene)
    ensures |r| == |scene|
  {
    seq(|scene|, i requires 0 <= i < |scene| reads MaterialsOf(scene) => ViewOf(scene[i].material, frame))
  }

  /** The framebuffer of every swapchain image: its view and the shared
      depth view, at the swapchain extent, one layer. */
  function FramebufferCall(renderPass: Handle, view: Handle, depthView: Handle, extent: Extent2D): Call {
    CreateFramebuffer(renderPass, [view, depthView], extent.width, extent.height, 1)
  }

  class Renderer {
    const maxFrames: nat
    const res: Resources
    var currentFrame: nat
    var imgIdx: Uint32
    var isCameraBinded: bool
    /** The command buffer of every frame in flight. */
    var cmdBufs: seq<seq<Cmd>>
    /** What the graphics queue was given, and the images presented. */
    var submitted: seq<seq<Cmd>>
    var presented: seq<Uint32>
    var objectUniforms: map<nat, seq<ObjectUniform>>
    var framebuffers: seq<Handle>

    ghost predicate Valid()
      reads this
    {
      && 0 < maxFrames
      && currentFrame < maxFrames
      && |cmdBufs| == maxFrames
      && |res.globalSets| == maxFrames
      && |res.shadowGlobalSets| == maxFrames
      && forall id :: id in objectUniforms ==> |objectUniforms[id]| == maxFrames
    }

    /** `create`: both counters at zero, the camera not bound, one empty
        command buffer per frame in flight, no object uniforms yet, and one
        framebuffer per swapchain image. */
    constructor (device: Device, maxFrames: nat, res: Resources, views: seq<Handle>, extent: Extent2D)
      requires maxFrames > 0 && |res.globalSets| == maxFrames && |res.shadowGlobalSets| == maxFrames
      modifies device
      ensures Valid()
      ensures this.maxFrames == maxFrames && this.res == res
      ensures currentFrame == 0 && imgIdx == 0 && !isCameraBinded
      ensures forall f :: 0 <= f < maxFrames ==> cmdBufs[f] == []
      ensures submitted == [] && presented == [] && objectUniforms == map[]
      ensures |device.calls| == |old(device.calls)| + |views|
      ensures device.calls[..|old(device.calls)|] == old(device.calls)
      ensures |framebuffers| == |views|
      ensures forall i :: 0 <= i < |views| ==>
                && framebuffers[i] == Handle(|old(device.calls)| + i)
                && device.calls[|old(device.calls)| + i] == FramebufferCall(res.renderPass, views[i], res.depthView, extent)
    {
      this.maxFrames := maxFrames;
      this.res := res;
      currentFrame := 0;
      imgIdx := 0;
      isCameraBinded := false;
      cmdBufs := seq(maxFrames, _ => []);
      submitted := [];
      presented := [];
      objectUniforms := map[];
      framebuffers := [];
      new;
      CreateFramebuffers(device, views, extent);
    }

    /** `createFramebuffers`: framebuffer `i` is made from image view `i`
        and the shared depth view, at the swapchain extent. */
    method CreateFramebuffers(device: Device, views: seq<Handle>, extent: Extent2D)
      modifies this`framebuffers, device
      ensures |device.calls| == |old(device.calls)| + |views|
      ensures device.calls[..|old(device.calls)|] == old(device.calls)
      ensures |framebuffers| == |views|
      ensures forall i :: 0 <= i < |views| ==>
                && framebuffers[i] == Handle(|old(device.calls)| + i)
                && device.calls[|old(device.calls)| + i] == FramebufferCall(res.renderPass, views[i], res.depthView, extent)
    {
      var base := |device.calls|;
      var fbs: seq<Handle> := [];
      for i := 0 to |views|
        invariant |fbs| == i && |device.calls| == base + i
        invariant device.calls[..base] == old(device.calls)
        invariant forall k :: 0 <= k < i ==>
                    && fbs[k] == Handle(base + k)
                    && device.calls[base + k] == FramebufferCall(res.renderPass, views[k], res.depthView, extent)
      {
        var fb := device.Issue(FramebufferCall(res.renderPass, views[i], res.depthView, extent));
        fbs := fbs + [fb];
      }
      framebuffers := fbs;
    }

    /** `beginFrame`: wait for the frame's fence, acquire an image, reset
        the fence, reset the command buffer, each only when the step before
        it succeeded; a fresh empty recording begins only when all four
        did. The frame counter never moves here. */
    method BeginFrame(waitFence: VkResult, acquire: VkResult, acquiredIndex: Uint32, resetFence: VkResult, resetCmdBuf: VkResult)
      returns (ok: bool)
      requires Valid()
      modifies this`imgIdx, this`cmdBufs
      ensures Valid()
      ensures ok <==> waitFence == Success && acquire == Success && resetFence == Success && resetCmdBuf == Success
      ensures imgIdx == if waitFence == Success && AcquireWritesIndex(acquire) then acquiredIndex else old(imgIdx)
      ensures ok ==> cmdBufs == old(cmdBufs)[currentFrame := []]
      ensures !ok ==> cmdBufs == old(cmdBufs)
      ensures currentFrame == old(currentFrame)
    {
      if waitFence != Success {
        return false;
      }
      if AcquireWritesIndex(acquire) {
        imgIdx := acquiredIndex;
      }
      if acquire != Success {
        return false;
      }
      if resetFence != Success {
        return false;
      }
      if resetCmdBuf != Success {
        return false;
      }
      cmdBufs := cmdBufs[currentFrame := []];
      return true;
    }

    /** `endFrame`: submit the frame's command buffer; when the submit fails
        nothing else happens. Otherwise present the acquired image and move
        to the next frame whatever the present returned. */
    method EndFrame(submit: VkResult, present: VkResult)
      requires Valid()
      modifies this`currentFrame, this`submitted, this`presented
      ensures Valid()
      ensures submit != Success ==>
                currentFrame == old(currentFrame) && submitted == old(submitted) && presented == old(presented)
      ensures submit == Success ==>
                && submitted == old(submitted) + [cmdBufs[old(currentFrame)]]
                && presented == old(presented) + [imgIdx]
                && currentFrame == NextFrame(old(currentFrame), maxFrames)
    {
      if submit != Success {
        return;
      }
      submitted := submitted + [cmdBufs[currentFrame]];
      presented := presented + [imgIdx];
      currentFrame := (currentFrame + 1) % maxFrames;
    }

    /** Appends to the current frame's command buffer. */
    method Record(cmds: seq<Cmd>)
      requires Valid()
      modifies this`cmdBufs
      ensures Valid()
      ensures cmdBufs == old(cmdBufs)[currentFrame := old(cmdBufs)[currentFrame] + cmds]
    {
      cmdBufs := cmdBufs[currentFrame := cmdBufs[currentFrame] + cmds];
    }

    /** The closing `endRenderPass` of a pass whose head and draws are
        already in the current frame's buffer. */
    method EndPass(ghost frames: seq<seq<Cmd>>, ghost mid: seq<seq<Cmd>>, ghost head: seq<Cmd>, ghost draws: seq<Cmd>)
      requires Valid() && currentFrame < |frames| && mid == frames[currentFrame := frames[currentFrame] + head]
      requires Appended(mid, cmdBufs, currentFrame, draws)
      modifies this`cmdBufs
      ensures Valid()
      ensures cmdBufs == frames[currentFrame := frames[currentFrame] + (head + draws + [EndRenderPass])]
    {
      ghost var bufs := cmdBufs;
      Record([EndRenderPass]);
      ClosePass(frames, mid, bufs, currentFrame, head, draws);
    }

    /** The material half of `prepareRendering`. */
    method CompileIfNeeded(device: Device, m: Material) returns (r: Result<(), BuildError>)
      requires Valid() && Buildable(m.resources, m.order, m.shaders, m.stageOrder)
      modifies m`isCompiled, m`descLayout, m`descSets, m`pipelineLayout, m`pipeline, m`colorBlending, device
      ensures old(m.isCompiled) ==> r.Ok? && unchanged(m) && device.calls == old(device.calls)
      ensures r.Ok? <==> old(m.isCompiled) || AllSupported(m.resources)
      ensures r.Ok? ==> m.isCompiled
    {
      if m.isCompiled {
        return Ok(());
      }
      r := m.Compile(device, res.renderPass, res.descPool, maxFrames);
    }

    /** The uniform half of `prepareRendering`, for an id without uniforms:
        one buffer and one set per frame in flight. */
    method AddObjectUniforms(device: Device, id: nat)
      requires Valid() && id !in objectUniforms
      modifies this`objectUniforms, device
      ensures Valid()
      ensures var base := |old(device.calls)|;
              && device.calls == old(device.calls) + UniformCalls(res.descPool, res.objectUniformLayout, base, maxFrames)
              && objectUniforms == old(objectUniforms)[id := UniformSlots(res.descPool, res.objectUniformLayout, base, maxFrames)]
    {
      var pool, layout := res.descPool, res.objectUniformLayout;
      var base := |device.calls|;
      var slots: seq<ObjectUniform> := [];
      for f := 0 to maxFrames
        invariant device.calls == old(device.calls) + UniformCalls(pool, layout, base, f)
        invariant slots == UniformSlots(pool, layout, base, f)
        invariant objectUniforms == old(objectUniforms)
      {
        ghost var before := device.calls;
        UniformStep(pool, layout, base, f, old(device.calls), before, slots);
        var buffer := device.Issue(CreateHostVisibleBuffer(ObjectUniformSize));
        var descSet := device.Issue(AllocateDescriptorSet(pool, layout));
        var _ := device.Issue(UpdateDescriptorSet(
                   DescriptorWrite(descSet, 0, UniformBuffer, 1, BufferInfo(buffer, 0, ObjectUniformSize))));
        assert device.calls == before + UniformBlock(pool, layout)(|before|);
        slots := slots + [ObjectUniform(buffer, descSet)];
      }
      objectUniforms := objectUniforms[id := slots];
    }

    /** `prepareRendering`: compile the material only when it is not
        compiled, and create the renderable's uniforms only when its id has
        none; uniforms already made are never replaced, so a second call
        changes nothing. */
    method PrepareRendering(device: Device, renderable: Renderable) returns (r: Result<(), BuildError>)
      requires Valid() && Buildable(renderable.material.resources, renderable.material.order, renderable.material.shaders, renderable.material.stageOrder)
      modifies renderable.material`isCompiled, renderable.material`descLayout, renderable.material`descSets,
               renderable.material`pipelineLayout, renderable.material`pipeline, renderable.material`colorBlending,
               this`objectUniforms, device
      ensures Valid()
      ensures old(renderable.material.isCompiled) ==> unchanged(renderable.material)
      ensures r.Ok? <==> old(renderable.material.isCompiled) || AllSupported(renderable.material.resources)
      ensures r.Ok? ==> renderable.material.isCompiled && renderable.id in objectUniforms
      ensures forall id :: id in old(objectUniforms) ==> id in objectUniforms && objectUniforms[id] == old(objectUniforms)[id]
      ensures renderable.id in old(objectUniforms) || r.Err? ==> objectUniforms == old(objectUniforms)
      ensures old(renderable.material.isCompiled) && renderable.id in old(objectUniforms) ==>
                device.calls == old(device.calls)
      ensures r.Ok? && renderable.id !in old(objectUniforms) ==>
                var base := |device.calls| - 3 * maxFrames;
                && 0 <= base
                && device.calls[base..] == UniformCalls(res.descPool, res.objectUniformLayout, base, maxFrames)
                && objectUniforms == old(objectUniforms)[renderable.id := UniformSlots(res.descPool, res.objectUniformLayout, base, maxFrames)]
    {
      r := CompileIfNeeded(device, renderable.material);
      if r.Err? {
        return;
      }
      if renderable.id !in objectUniforms {
        ghost var before := device.calls;
        AddObjectUniforms(device, renderable.id);
        UniformCallsLength(res.descPool, res.objectUniformLayout, |before|, maxFrames);
        assert device.calls[|before|..] == UniformCalls(res.descPool, res.objectUniformLayout, |before|, maxFrames);
      }
    }

    /** `render(renderable)`: prepare, then record the renderable's draw in
        the current frame; the global set is bound once, by the first draw
        after the camera flag was clear, and the flag is never cleared. */
    method Render(device: Device, renderable: Renderable) returns (r: Result<(), BuildError>)
      requires Valid() && Buildable(renderable.material.resources, renderable.material.order, renderable.material.shaders, renderable.material.stageOrder)
      modifies renderable.material`isCompiled, renderable.material`descLayout, renderable.material`descSets,
               renderable.material`pipelineLayout, renderable.material`pipeline, renderable.material`colorBlending,
               this`objectUniforms, this`cmdBufs, this`isCameraBinded, device
      ensures Valid()
      ensures old(isCameraBinded) ==> isCameraBinded
      ensures r.Ok? <==> old(renderable.material.isCompiled) || AllSupported(renderable.material.resources)
      ensures r.Err? ==> cmdBufs == old(cmdBufs) && isCameraBinded == old(isCameraBinded)
      ensures r.Ok? ==>
                && isCameraBinded
                && cmdBufs == old(cmdBufs)[currentFrame := old(cmdBufs)[currentFrame]
                     + SingleDraw(old(isCameraBinded), res.globalSets[currentFrame], ViewOf(renderable.material, currentFrame),
                                  ObjectSet(objectUniforms, renderable.id, currentFrame), renderable.geometry)]
    {
      r := PrepareRendering(device, renderable);
      if r.Err? {
        return;
      }
      var m := renderable.material;
      var cf := currentFrame;
      ghost var wasBound := isCameraBinded;
      var camera := [];
      if !isCameraBinded {
        camera := [BindDescriptorSets(m.pipelineLayout, 0, [res.globalSets[cf]])];
        isCameraBinded := true;
      }
      var objectSet := objectUniforms[renderable.id][cf].descSet;
      var cmds := [BindPipeline(m.pipeline)] + camera
                  + [BindDescriptorSets(m.pipelineLayout, 1, [FrameSet(m.descSets, cf), objectSet])]
                  + GeometryCmds(renderable.geometry);
      assert cmds == SingleDraw(wasBound, res.globalSets[cf], ViewOf(m, cf), ObjectSet(objectUniforms, renderable.id, cf), renderable.geometry);
      Record(cmds);
    }

    /** `compileMaterial`: compile with the renderer's render pass, whether
        or not the material was compiled already. */
    method CompileMaterial(device: Device, m: Material) returns (r: Result<(), BuildError>)
      requires Valid() && Buildable(m.resources, m.order, m.shaders, m.stageOrder)
      modifies m`isCompiled, m`descLayout, m`descSets, m`pipelineLayout, m`pipeline, m`colorBlending, device
      ensures r.Ok? <==> AllSupported(m.resources)
      ensures r.Ok? ==> m.isCompiled && |m.descSets| == maxFrames
      ensures r.Ok? ==> |device.calls| > 0 && device.calls[|device.calls| - 1].CreateGraphicsPipeline?
                        && device.calls[|device.calls| - 1].info.renderPass == res.renderPass
    {
      r := m.Compile(device, res.renderPass, res.descPool, maxFrames);
    }

    /** `prepareRendering` on renderable `k` of a scene whose first `k` are
        prepared: then the first `k + 1` are, and the materials of the first
        `k`, compiled already, are left as they were. */
    method PrepareNext(device: Device, scene: seq<Renderable>, k: nat) returns (r: Result<(), BuildError>)
      requires Valid() && k < |scene| && Buildable(scene[k].material.resources, scene[k].material.order, scene[k].material.shaders, scene[k].material.stageOrder)
      requires forall i :: 0 <= i < k ==> scene[i].material.isCompiled && scene[i].id in objectUniforms
      modifies scene[k].material`isCompiled, scene[k].material`descLayout, scene[k].material`descSets,
               scene[k].material`pipelineLayout, scene[k].material`pipeline, scene[k].material`colorBlending,
               this`objectUniforms, device
      ensures Valid() && Extends(old(objectUniforms), objectUniforms)
      ensures r.Ok? <==> old(scene[k].material.isCompiled) || AllSupported(scene[k].material.resources)
      ensures r.Ok? ==> forall i :: 0 <= i <= k ==> scene[i].material.isCompiled && scene[i].id in objectUniforms
      ensures forall i :: 0 <= i < k ==> unchanged(scene[i].material)
    {
      r := PrepareRendering(device, scene[k]);
      forall i | 0 <= i < k ensures unchanged(scene[i].material) {
        if scene[i].material != scene[k].material {
          assert unchanged(scene[i].material);
        }
      }
    }

    /** The shadow loop after `k` rounds, from the command buffers `frames0`
        and the object uniforms `uniforms0` it started with: the first `k`
        renderables are prepared, and their shadow draws follow `frames0` in
        the current frame's buffer, which alone has changed. */
    ghost predicate ShadowProgress(scene: seq<Renderable>, k: nat, frames0: seq<seq<Cmd>>,
                                   uniforms0: map<nat, seq<ObjectUniform>>)
      reads this, MaterialsOf(scene)
    {
      && k <= |scene| && Valid()
      && Extends(uniforms0, objectUniforms)
      && (forall i :: 0 <= i < k ==> scene[i].material.isCompiled && scene[i].id in objectUniforms)
      && Appended(frames0, cmdBufs, currentFrame,
                  ShadowDraws(res.shadowLayout, ObjectSets(objectUniforms, scene[..k], currentFrame), Geometries(scene[..k])))
    }

    /** One round of the shadow loop: prepare renderable `k`, then record
        its shadow draw with its object set for the current frame. */
    method ShadowRound(device: Device, scene: seq<Renderable>, k: nat, ghost frames0: seq<seq<Cmd>>,
                       ghost uniforms0: map<nat, seq<ObjectUniform>>) returns (r: Result<(), BuildError>)
      requires k < |scene| && Buildable(scene[k].material.resources, scene[k].material.order, scene[k].material.shaders, scene[k].material.stageOrder)
      requires ShadowProgress(scene, k, frames0, uniforms0)
      modifies scene[k].material`isCompiled, scene[k].material`descLayout, scene[k].material`descSets,
               scene[k].material`pipelineLayout, scene[k].material`pipeline, scene[k].material`colorBlending,
               this`objectUniforms, this`cmdBufs, device
      ensures Valid() && Extends(uniforms0, objectUniforms)
      ensures r.Ok? <==> old(scene[k].material.isCompiled) || AllSupported(scene[k].material.resources)
      ensures r.Ok? ==> ShadowProgress(scene, k + 1, frames0, uniforms0)
    {
      var renderable := scene[k];
      ghost var before := objectUniforms;
      ghost var draws := ShadowDraws(res.shadowLayout, ObjectSets(before, scene[..k], currentFrame), Geometries(scene[..k]));
      r := PrepareNext(device, scene, k);
      ExtendsTrans(uniforms0, before, objectUniforms);
      if r.Err? {
        return;
      }
      var objectSet := objectUniforms[renderable.id][currentFrame].descSet;
      Record(ShadowDraw(res.shadowLayout, objectSet, renderable.geometry));
      AppendedStep(frames0, old(cmdBufs), currentFrame, draws, ShadowDraw(res.shadowLayout, objectSet, renderable.geometry));
      assert scene[..k + 1] == scene[..k] + [renderable];
      ShadowPrefixStep(res.shadowLayout, before, objectUniforms, scene, k, currentFrame, objectSet);
    }

    /** The loop of `renderShadowMap`: one round per renderable, in scene
        order, stopping at the first whose material does not compile. */
    method RecordShadowDraws(device: Device, scene: seq<Renderable>) returns (r: Result<(), BuildError>)
      requires Valid()
      requires forall i :: 0 <= i < |scene| ==> Buildable(scene[i].material.resources, scene[i].material.order, scene[i].material.shaders, scene[i].material.stageOrder)
      modifies MaterialsOf(scene)`isCompiled, MaterialsOf(scene)`descLayout, MaterialsOf(scene)`descSets,
               MaterialsOf(scene)`pipelineLayout, MaterialsOf(scene)`pipeline, MaterialsOf(scene)`colorBlending,
               this`objectUniforms, this`cmdBufs, device
      ensures Valid()
      ensures Extends(old(objectUniforms), objectUniforms)
      ensures (forall i :: 0 <= i < |scene| ==> AllSupported(scene[i].material.resources)) ==> r.Ok?
      ensures r.Err? ==> exists i :: 0 <= i < |scene| && !AllSupported(scene[i].material.resources)
      ensures r.Ok? ==> ShadowProgress(scene, |scene|, old(cmdBufs), old(objectUniforms))
    {
      r := Ok(());
      assert scene[..0] == [];
      for k := 0 to |scene|
        invariant r.Ok? && ShadowProgress(scene, k, old(cmdBufs), old(objectUniforms))
      {
        r := ShadowRound(device, scene, k, old(cmdBufs), old(objectUniforms));
        if r.Err? {
          return;
        }
      }
    }

    /** `renderShadowMap`: the shadow pass, recorded in the current frame;
        every renderable is prepared first, so on success each material is
        compiled and each id has its uniforms. */
    method RenderShadowMap(device: Device, scene: seq<Renderable>) returns (r: Result<(), BuildError>)
      requires Valid()
      requires forall i :: 0 <= i < |scene| ==> Buildable(scene[i].material.resources, scene[i].material.order, scene[i].material.shaders, scene[i].material.stageOrder)
      modifies MaterialsOf(scene)`isCompiled, MaterialsOf(scene)`descLayout, MaterialsOf(scene)`descSets,
               MaterialsOf(scene)`pipelineLayout, MaterialsOf(scene)`pipeline, MaterialsOf(scene)`colorBlending,
               this`objectUniforms, this`cmdBufs, device
      ensures Valid()
      ensures forall i :: 0 <= i < |scene| ==> scene[i].material.resources == old(scene[i].material.resources)
      ensures Extends(old(objectUniforms), objectUniforms)
      ensures (forall i :: 0 <= i < |scene| ==> AllSupported(scene[i].material.resources)) ==> r.Ok?
      ensures r.Err? ==> exists i :: 0 <= i < |scene| && !AllSupported(scene[i].material.resources)
      ensures r.Ok? ==> forall i :: 0 <= i < |scene| ==> scene[i].material.isCompiled && scene[i].id in objectUniforms
      ensures r.Ok? ==>
                cmdBufs == old(cmdBufs)[currentFrame := old(cmdBufs)[currentFrame]
                  + ShadowPass(res.shadowPass, res.shadowFramebuffer, res.shadowLayout, res.shadowGlobalSets[currentFrame],
                               res.shadowPipeline, ObjectSets(objectUniforms, scene, currentFrame), Geometries(scene))]
    {
      var cf := currentFrame;
      var head := ShadowHead(res.shadowPass, res.shadowFramebuffer, res.shadowLayout, res.shadowGlobalSets[cf], res.shadowPipeline);
      Record(head);
      ghost var mid := cmdBufs;
      r := RecordShadowDraws(device, scene);
      if r.Err? {
        return;
      }
      assert scene[..|scene|] == scene;
      EndPass(old(cmdBufs), mid, head,
              ShadowDraws(res.shadowLayout, ObjectSets(objectUniforms, scene, cf), Geometries(scene)));
    }

    /** The colour loop after `k` rounds: the first `k` renderables are
        prepared, and their colour draws, with the global set of the current
        frame, follow `frames0` in the current frame's buffer. */
    ghost predicate ColorProgress(scene: seq<Renderable>, k: nat, frames0: seq<seq<Cmd>>,
                                  uniforms0: map<nat, seq<ObjectUniform>>)
      reads this, MaterialsOf(scene)
    {
      && k <= |scene| && Valid()
      && Extends(uniforms0, objectUniforms)
      && (forall i :: 0 <= i < k ==> scene[i].material.isCompiled && scene[i].id in objectUniforms)
      && Appended(frames0, cmdBufs, currentFrame,
                  ColorDraws(res.globalSets[currentFrame], ViewsOf(scene, k, currentFrame),
                             ObjectSets(objectUniforms, scene[..k], currentFrame), Geometries(scene[..k])))
    }

    /** One round of the colour loop: prepare renderable `k`, then record
        its material's pipeline, the global, material and object sets, and
        its geometry. */
    method ColorRound(device: Device, scene: seq<Renderable>, k: nat, ghost frames0: seq<seq<Cmd>>,
                      ghost uniforms0: map<nat, seq<ObjectUniform>>) returns (r: Result<(), BuildError>)
      requires k < |scene| && Buildable(scene[k].material.resources, scene[k].material.order, scene[k].material.shaders, scene[k].material.stageOrder)
      requires ColorProgress(scene, k, frames0, uniforms0)
      modifies scene[k].material`isCompiled, scene[k].material`descLayout, scene[k].material`descSets,
               scene[k].material`pipelineLayout, scene[k].material`pipeline, scene[k].material`colorBlending,
               this`objectUniforms, this`cmdBufs, device
      ensures Valid() && Extends(uniforms0, objectUniforms)
      ensures r.Ok? <==> old(scene[k].material.isCompiled) || AllSupported(scene[k].material.resources)
      ensures r.Ok? ==> ColorProgress(scene, k + 1, frames0, uniforms0)
    {
      var renderable := scene[k];
      var cf := currentFrame;
      var global := res.globalSets[cf];
      ghost var before := objectUniforms;
      ghost var views := ViewsOf(scene, k, cf);
      ghost var draws := ColorDraws(global, views, ObjectSets(before, scene[..k], cf), Geometries(scene[..k]));
      r := PrepareNext(device, scene, k);
      ExtendsTrans(uniforms0, before, objectUniforms);
      if r.Err? {
        return;
      }
      var m := renderable.material;
      ghost var objectSet := ObjectSet(objectUniforms, renderable.id, cf);
      ghost var cmds := ColorDraw(global, ViewOf(m, cf), objectSet, renderable.geometry);
      RecordColorDraw(renderable);
      AppendedStep(frames0, old(cmdBufs), cf, draws, cmds);
      ViewsOfStep(scene, k, cf);
      ColorPrefixStep(global, before, objectUniforms, scene, k, cf, views, ViewOf(m, cf), objectSet);
      assert ViewsOf(scene, k + 1, cf) == views + [ViewOf(m, cf)];
      assert Appended(frames0, cmdBufs, cf, draws + cmds);
      assert draws + cmds == ColorDraws(global, ViewsOf(scene, k + 1, cf), ObjectSets(objectUniforms, scene[..k + 1], cf), Geometries(scene[..k + 1]));
    }

    /** The commands of `renderColor` for one prepared renderable: its
        material's pipeline, the global, material and object sets of the
        current frame at 0, 1 and 2, then its geometry. */
    method RecordColorDraw(renderable: Renderable)
      requires Valid() && renderable.id in objectUniforms
      modifies this`cmdBufs
      ensures Valid()
      ensures cmdBufs == old(cmdBufs)[currentFrame := old(cmdBufs)[currentFrame]
                + ColorDraw(res.globalSets[currentFrame], ViewOf(renderable.material, currentFrame),
                            ObjectSet(objectUniforms, renderable.id, currentFrame), renderable.geometry)]
    {
      var m := renderable.material;
      var cf := currentFrame;
      var objectSet := objectUniforms[renderable.id][cf].descSet;
      Record([BindPipeline(m.pipeline), BindDescriptorSets(m.pipelineLayout, 0, [res.globalSets[cf], FrameSet(m.descSets, cf), objectSet])]
             + GeometryCmds(renderable.geometry));
    }

    /** The loop of `renderColor`: one round per renderable, in scene order,
        stopping at the first whose material does not compile. */
    method RecordColorDraws(device: Device, scene: seq<Renderable>) returns (r: Result<(), BuildError>)
      requires Valid()
      requires forall i :: 0 <= i < |scene| ==> Buildable(scene[i].material.resources, scene[i].material.order, scene[i].material.shaders, scene[i].material.stageOrder)
      modifies MaterialsOf(scene)`isCompiled, MaterialsOf(scene)`descLayout, MaterialsOf(scene)`descSets,
               MaterialsOf(scene)`pipelineLayout, MaterialsOf(scene)`pipeline, MaterialsOf(scene)`colorBlending,
               this`objectUniforms, this`cmdBufs, device
      ensures Valid()
      ensures Extends(old(objectUniforms), objectUniforms)
      ensures (forall i :: 0 <= i < |scene| ==> AllSupported(scene[i].material.resources)) ==> r.Ok?
      ensures r.Err? ==> exists i :: 0 <= i < |scene| && !AllSupported(scene[i].material.resources)
      ensures r.Ok? ==> forall i :: 0 <= i < |scene| ==> scene[i].material.isCompiled && scene[i].id in objectUniforms
      ensures r.Ok? ==>
                Appended(old(cmdBufs), cmdBufs, currentFrame,
                         ColorDraws(res.globalSets[currentFrame], Views(scene, currentFrame),
                                    ObjectSets(objectUniforms, scene, currentFrame), Geometries(scene)))
    {
      r := Ok(());
      assert scene[..0] == [];
      for k := 0 to |scene|
        invariant r.Ok? && ColorProgress(scene, k, old(cmdBufs), old(objectUniforms))
      {
        r := ColorRound(device, scene, k, old(cmdBufs), old(objectUniforms));
        if r.Err? {
          return;
        }
      }
      assert scene[..|scene|] == scene;
      assert ViewsOf(scene, |scene|, currentFrame) == Views(scene, currentFrame);
    }

    /** `renderColor`: the main pass over the acquired image's framebuffer,
        recorded in the current frame; each renderable is prepared and then
        drawn with its own material. */
    method RenderColor(device: Device, scene: seq<Renderable>, extent: Extent2D) returns (r: Result<(), BuildError>)
      requires Valid() && imgIdx as nat < |framebuffers|
      requires forall i :: 0 <= i < |scene| ==> Buildable(scene[i].material.resources, scene[i].material.order, scene[i].material.shaders, scene[i].material.stageOrder)
      modifies MaterialsOf(scene)`isCompiled, MaterialsOf(scene)`descLayout, MaterialsOf(scene)`descSets,
               MaterialsOf(scene)`pipelineLayout, MaterialsOf(scene)`pipeline, MaterialsOf(scene)`colorBlending,
               this`objectUniforms, this`cmdBufs, device
      ensures Valid()
      ensures forall i :: 0 <= i < |scene| ==> scene[i].material.resources == old(scene[i].material.resources)
      ensures Extends(old(objectUniforms), objectUniforms)
      ensures (forall i :: 0 <= i < |scene| ==> AllSupported(scene[i].material.resources)) ==> r.Ok?
      ensures r.Err? ==> exists i :: 0 <= i < |scene| && !AllSupported(scene[i].material.resources)
      ensures r.Ok? ==> forall i :: 0 <= i < |scene| ==> scene[i].material.isCompiled && scene[i].id in objectUniforms
      ensures r.Ok? ==>
                cmdBufs == old(cmdBufs)[currentFrame := old(cmdBufs)[currentFrame]
                  + ColorPass(res.renderPass, framebuffers[imgIdx], extent, res.globalSets[currentFrame],
                              Views(scene, currentFrame), ObjectSets(objectUniforms, scene, currentFrame), Geometries(scene))]
    {
      var cf := currentFrame;
      var head := [BeginRenderPass(res.renderPass, framebuffers[imgIdx], extent), SetViewport(extent), SetScissor(extent)];
      Record(head);
      ghost var mid := cmdBufs;
      r := RecordColorDraws(device, scene);
      if r.Err? {
        return;
      }
      EndPass(old(cmdBufs), mid, head,
              ColorDraws(res.globalSets[cf], Views(scene, cf), ObjectSets(objectUniforms, scene, cf), Geometries(scene)));
    }

    /** `render(scene)`: the shadow pass, then the colour pass, both in the
        current frame's command buffer. Every renderable is prepared in the
        shadow pass, so the colour pass draws with the same object sets. */
    method RenderScene(device: Device, scene: seq<Renderable>, extent: Extent2D) returns (r: Result<(), BuildError>)
      requires Valid() && imgIdx as nat < |framebuffers|
      requires forall i :: 0 <= i < |scene| ==> Buildable(scene[i].material.resources, scene[i].material.order, scene[i].material.shaders, scene[i].material.stageOrder)
      modifies MaterialsOf(scene)`isCompiled, MaterialsOf(scene)`descLayout, MaterialsOf(scene)`descSets,
               MaterialsOf(scene)`pipelineLayout, MaterialsOf(scene)`pipeline, MaterialsOf(scene)`colorBlending,
               this`objectUniforms, this`cmdBufs, device
      ensures Valid()
      ensures Extends(old(objectUniforms), objectUniforms)
      ensures (forall i :: 0 <= i < |scene| ==> AllSupported(scene[i].material.resources)) ==> r.Ok?
      ensures r.Err? ==> exists i :: 0 <= i < |scene| && !AllSupported(scene[i].material.resources)
      ensures r.Ok? ==> forall i :: 0 <= i < |scene| ==> scene[i].material.isCompiled && scene[i].id in objectUniforms
      ensures r.Ok? ==>
                var sets := ObjectSets(objectUniforms, scene, currentFrame);
                cmdBufs == old(cmdBufs)[currentFrame := old(cmdBufs)[currentFrame]
                  + ShadowPass(res.shadowPass, res.shadowFramebuffer, res.shadowLayout, res.shadowGlobalSets[currentFrame],
                               res.shadowPipeline, sets, Geometries(scene))
                  + ColorPass(res.renderPass, framebuffers[imgIdx], extent, res.globalSets[currentFrame],
                              Views(scene, currentFrame), sets, Geometries(scene))]
    {
      r := RenderShadowMap(device, scene);
      if r.Err? {
        return;
      }
      ghost var afterShadow := objectUniforms;
      r := RenderColor(device, scene, extent);
      ObjectSetsKept(afterShadow, objectUniforms, scene, currentFrame);
    }
  }

  /** One more renderable on a prefix of the scene adds its shadow draw;
      the sets of the renderables before it are those already created. */
  lemma ShadowPrefixStep(layout: Handle, before: map<nat, seq<ObjectUniform>>, after: map<nat, seq<ObjectUniform>>,
                         scene: seq<Renderable>, k: nat, frame: nat, objectSet: Handle)
    requires k < |scene| && Extends(before, after)
    requires forall i :: 0 <= i < k ==> scene[i].id in before
    requires objectSet == ObjectSet(after, scene[k].id, frame)
    ensures ShadowDraws(layout, ObjectSets(after, scene[..k + 1], frame), Geometries(scene[..k + 1]))
         == ShadowDraws(layout, ObjectSets(before, scene[..k], frame), Geometries(scene[..k])) + ShadowDraw(layout, objectSet, scene[k].geometry)
  {
    var sets := ObjectSets(before, scene[..k], frame);
    var geoms := Geometries(scene[..k]);
    assert ObjectSets(after, scene[..k + 1], frame) == sets + [objectSet];
    assert Geometries(scene[..k + 1]) == geoms + [scene[k].geometry];
    ShadowDrawsSnoc(layout, sets, geoms, objectSet, scene[k].geometry);
  }

  /** `bufs` is `frames0` with `cmds` appended to the buffer of `frame`. */
  ghost predicate Appended(frames0: seq<seq<Cmd>>, bufs: seq<seq<Cmd>>, frame: nat, cmds: seq<Cmd>) {
    && |bufs| == |frames0| && frame < |bufs|
    && (forall f :: 0 <= f < |bufs| && f != frame ==> bufs[f] == frames0[f])
    && bufs[frame] == frames0[frame] + cmds
  }

  lemma AppendedStep(frames0: seq<seq<Cmd>>, bufs: seq<seq<Cmd>>, frame: nat, cmds: seq<Cmd>, more: seq<Cmd>)
    requires Appended(frames0, bufs, frame, cmds)
    ensures Appended(frames0, bufs[frame := bufs[frame] + more], frame, cmds + more)
  {
    assert frames0[frame] + cmds + more == frames0[frame] + (cmds + more);
  }

  /** The object uniforms `b` keep every entry of `a`. */
  ghost predicate Extends(a: map<nat, seq<ObjectUniform>>, b: map<nat, seq<ObjectUniform>>) {
    forall id :: id in a ==> id in b && b[id] == a[id]
  }

  lemma ExtendsTrans(a: map<nat, seq<ObjectUniform>>, b: map<nat, seq<ObjectUniform>>, c: map<nat, seq<ObjectUniform>>)
    requires Extends(a, b) && Extends(b, c)
    ensures Extends(a, c)
  {
  }

  /** An object set, once created, is the same in every extension. */
  lemma ObjectSetKept(a: map<nat, seq<ObjectUniform>>, b: map<nat, seq<ObjectUniform>>, id: nat, frame: nat)
    requires Extends(a, b) && id in a
    ensures id in b && ObjectSet(b, id, frame) == ObjectSet(a, id, frame)
  {
  }

  /** The views of the first `k` renderables' materials. */
  function ViewsOf(scene: seq<Renderable>, k: nat, frame: nat): (r: seq<MaterialView>)
    requires k <= |scene|
    reads MaterialsOf(scene)
    ensures |r| == k
  {
    seq(k, i requires 0 <= i < k reads MaterialsOf(scene) => ViewOf(scene[i].material, frame))
  }

  lemma ViewsOfStep(scene: seq<Renderable>, k: nat, frame: nat)
    requires k < |scene|
    ensures ViewsOf(scene, k + 1, frame) == ViewsOf(scene, k, frame) + [ViewOf(scene[k].material, frame)]
  {
  }

  /** Every object set of a scene whose ids all have uniforms is the same in
      every extension. */
  lemma ObjectSetsKept(a: map<nat, seq<ObjectUniform>>, b: map<nat, seq<ObjectUniform>>, scene: seq<Renderable>, frame: nat)
    requires Extends(a, b) && forall i :: 0 <= i < |scene| ==> scene[i].id in a
    ensures ObjectSets(b, scene, frame) == ObjectSets(a, scene, frame)
  {
  }

  lemma ColorPrefixStep(global: Handle, before: map<nat, seq<ObjectUniform>>, after: map<nat, seq<ObjectUniform>>,
                        scene: seq<Renderable>, k: nat, frame: nat, views: seq<MaterialView>, v: MaterialView, objectSet: Handle)
    requires k < |scene| && |views| == k && Extends(before, after)
    requires forall i :: 0 <= i < k ==> scene[i].id in before
    requires objectSet == ObjectSet(after, scene[k].id, frame)
    ensures ColorDraws(global, views + [v], ObjectSets(after, scene[..k + 1], frame), Geometries(scene[..k + 1]))
         == ColorDraws(global, views, ObjectSets(before, scene[..k], frame), Geometries(scene[..k])) + ColorDraw(global, v, objectSet, scene[k].geometry)
  {
    var sets := ObjectSets(before, scene[..k], frame);
    var geoms := Geometries(scene[..k]);
    assert ObjectSets(after, scene[..k + 1], frame) == sets + [objectSet];
    assert Geometries(scene[..k + 1]) == geoms + [scene[k].geometry];
    assert (views + [v])[..k] == views;
    assert (sets + [objectSet])[..k] == sets;
    assert (geoms + [scene[k].geometry])[..k] == geoms;
  }

  /** A pass recorded as its head, then its draws, then the end of the
      render pass, is all of it appended to the buffer of `frame`. */
  lemma ClosePass(frames: seq<seq<Cmd>>, mid: seq<seq<Cmd>>, bufs: seq<seq<Cmd>>, frame: nat, head: seq<Cmd>, draws: seq<Cmd>)
    requires frame < |frames| && mid == frames[frame := frames[frame] + head]
    requires Appended(mid, bufs, frame, draws)
    ensures bufs[frame := bufs[frame] + [EndRenderPass]] == frames[frame := frames[frame] + (head + draws + [EndRenderPass])]
  {
    Reassociate(frames[frame], head, draws, [EndRenderPass]);
  }

  lemma Reassociate(a: seq<Cmd>, b: seq<Cmd>, c: seq<Cmd>, d: seq<Cmd>)
    ensures a + b + c + d == a + (b + c + d)
  {
  }

  lemma ShadowDrawsSnoc(layout: Handle, sets: seq<Handle>, geoms: seq<Geometry>, objectSet: Handle, g: Geometry)
    requires |sets| == |geoms|
    ensures ShadowDraws(layout, sets + [objectSet], geoms + [g]) == ShadowDraws(layout, sets, geoms) + ShadowDraw(layout, objectSet, g)
  {
    assert (sets + [objectSet])[..|sets|] == sets;
    assert (geoms + [g])[..|geoms|] == geoms;
  }
}
