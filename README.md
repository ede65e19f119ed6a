# kk_renderer core, modelled in Dafny

This project models the core of kk_renderer. kk_renderer is a small Vulkan renderer written in C++ plus a Python script that compiles its shaders. The Dafny model covers:

- **Device setup.** It picks the first GPU that offers the swapchain extension and that GPU's first graphics queue family. It requests one queue per distinct family.
- **Swapchain settings.** The surface format, present mode, extent, image count and sharing mode.
- **Shaders.** The shader module and the descriptor bindings chosen by file name.
- **Binding tables.** Those of `Material` and `ResourceDescriptor`: the descriptor-set layout and the descriptor sets they build.
- **Pipelines.** The pipeline objects of `Material`, `GraphicsPipeline` and `PipelineBuilder`.
- **The renderer.** Its frame ring and its per-renderable uniforms. The command lists of the shadow pass and the colour pass, and of drawing one renderable alone.
- **The scene lists, the renderable ids, and the shader build script.**

Every Vulkan object is an opaque handle. The driver calls that create, destroy or update the objects the core builds (the swapchain, descriptor-set layouts, descriptor sets and their writes, pipeline layouts, pipelines, shader modules, host-visible buffers and framebuffers), and `vkDeviceWaitIdle`, are appended to the call log of a `Vk.Device`. The handle that a call creates is that call's position in the log. The `vkCmd*` commands go into the per-frame command lists, and submissions and presentations into logs of their own. What the driver reports is an input to the model: GPUs, queue families, surface capabilities, and the result codes of fences, acquire, submit and present.

A recorded command buffer is a sequence of commands. `Commands.Run` replays such a sequence and notes, at every indexed draw, the pipeline, descriptor sets and buffers bound at that moment. The passes are proved against this replay.

One module per source file:

| file | module |
|---|---|
| `wrappers.dfy` | `Wrappers` (Option, Result) |
| `ordered.dfy` | `Ordered` (ascending listings, listing a map's keys) |
| `blocks.dfy` | `Blocks` (call logs made of repeated blocks) |
| `vk.dfy` | `Vk` (handles, create-infos, the call log) |
| `binding_table.dfy` | `BindingTable` (the layout a binding table describes) |
| `shader.dfy` | `ShaderReflection` (src/Shader.cpp) |
| `swapchain.dfy` | `SwapchainConfig` (src/Swapchain.cpp) |
| `rendering_context.dfy` | `RenderingContexts` (src/RenderingContext.cpp) |
| `material.dfy` | `Materials` (src/Material.cpp) |
| `resource_descriptor.dfy` | `ResourceDescriptors` (src/ResourceDescriptor.cpp) |
| `graphics_pipeline.dfy` | `GraphicsPipelines` (src/GraphicsPipeline.cpp) |
| `pipeline_builder.dfy` | `PipelineBuilders` (src/PipelineBuilder.cpp, include/kk_renderer/PipelineBuilder.h) |
| `renderable.dfy` | `Renderables` (src/Renderable.cpp) |
| `scene.dfy` | `SceneLists` (src/Scene.cpp) |
| `commands.dfy` | `Commands` (the `vkCmd*` commands and their replay) |
| `passes.dfy` | `Passes` (the command lists of src/Renderer.cpp) |
| `renderer.dfy` | `Rendering` (src/Renderer.cpp) |
| `compile_shader.dfy` | `CompileShader` (resources/shaders/compile_shader.py) |

## Model

| member | source | states |
|---|---|---|
| CompileShader.Glob | resources/shaders/compile_shader.py:12-13 | the matches of one pattern are no more than the directory's entries |
| CompileShader.GlobMembers | resources/shaders/compile_shader.py:12-13 | a path is globbed iff it is the globbed directory joined with a listed, non-hidden entry ending in the extension; the join adds a `/` only when the directory does not already end in one |
| CompileShader.TrimSlashes | resources/shaders/compile_shader.py:12-13 | the result is the longest prefix that does not end in `/`; only slashes are dropped |
| CompileShader.UnderJoinsOnce | resources/shaders/compile_shader.py:12-13 | the pattern `dir/*` matches in `dir` with its trailing slashes stripped (kept when it is all slashes), and each match is that directory, one `/`, and the entry name |
| CompileShader.PlainDir | resources/shaders/compile_shader.py:12-13 | a directory not ending in `/` is searched as given |
| CompileShader.SlashesDropped | resources/shaders/compile_shader.py:12-13 | one or two trailing slashes on the argument do not change the directory searched |
| CompileShader.TrailingSlashIgnored | resources/shaders/compile_shader.py:12-13 | `shaders/` and `shaders//` give the same paths as `shaders`; `/` gives `//a.vert`; an empty argument gives `/a.vert` |
| CompileShader.TrailingSlashSameBatch | resources/shaders/compile_shader.py:5-26 | a trailing `/` on the directory argument leaves the whole run unchanged: status, output and compiler invocations |
| CompileShader.SampleVertices | resources/shaders/compile_shader.py:12 | the `.vert` pattern over the sample listing matches `a.vert` only |
| CompileShader.SampleFragments | resources/shaders/compile_shader.py:13 | the `.frag` pattern over the sample listing matches `b.frag` only |
| CompileShader.CommandLine | resources/shaders/compile_shader.py:18-21 | the logged line is `compiler src -o src.spv`, single-spaced |
| CompileShader.RunMain | resources/shaders/compile_shader.py:5-26 | the script's exit status, its own printed output and error output, and its compiler invocations equal the reference outcome: a usage error on a wrong argument count, else the compile batch over the `.vert` then `.frag` sources |
| CompileShader.CompiledStatus | resources/shaders/compile_shader.py:16-26 | the status is 0 or 1, and it is 0 iff every source's compiler run returns 0 |
| CompileShader.CompiledCounts | resources/shaders/compile_shader.py:16-26 | a batch logs one line per compiler run, at most one per source, and the script's own prints write nothing to the error output |
| CompileShader.CompiledCommands | resources/shaders/compile_shader.py:18-22 | the i-th run is the i-th source's command, and the i-th logged line is that command joined by spaces |
| CompileShader.CompiledStops | resources/shaders/compile_shader.py:22-26 | every run but the last succeeds; status 1 iff the last failed |
| CompileShader.StopsAtFirstFailure | resources/shaders/compile_shader.py:16-26 | the commands run are the sources' commands in order, each logged once; all but the last succeed; status 1 iff the last failed; status 0 means every source was compiled |
| CompileShader.SourcesAreDirectShaders | resources/shaders/compile_shader.py:12-13 | every source is the searched directory joined with an entry of the right extension, all `.vert` before all `.frag` |
| CompileShader.SampleSources | resources/shaders/compile_shader.py:12-13 | a listing `a.vert, notes.txt, b.frag` yields exactly `/s/a.vert, /s/b.frag` |
| CompileShader.FailingVertexStopsBatch | resources/shaders/compile_shader.py:22-24 | when the first source fails, the second is never run or logged and the status is 1 |
| SceneLists.Find | src/Scene.cpp:10 | `std::find` returns the first position holding an equal element, or the end iff none is there |
| SceneLists.RemoveFirst | src/Scene.cpp:9-17 | removal leaves the list unchanged when the element is absent; otherwise it removes exactly the first equal occurrence (one fewer element, multiset minus one copy) |
| SceneLists.AddThenRemove | src/Scene.cpp:5-17 | removing what was just added succeeds, and restores the list when no equal element was there |
| SceneLists.Scene.constructor | include/kk_renderer/Scene.h:1-55 | a new scene has no objects and no lights |
| SceneLists.Scene.AddObject | src/Scene.cpp:5-7 | appends the object; the lights are unchanged |
| SceneLists.Scene.RemoveObject | src/Scene.cpp:9-17 | returns true iff the object was present; the objects become `RemoveFirst` of the old ones; the lights are unchanged |
| SceneLists.Scene.AddLight | src/Scene.cpp:19-21 | appends the light; the objects are unchanged |
| SceneLists.Scene.RemoveLight | src/Scene.cpp:23-31 | returns true iff the light was present; the lights become `RemoveFirst` of the old ones; the objects are unchanged |
| Renderables.SlotsDisjoint | src/Renderable.cpp:15-22 | the `Mat4` slots (`id * sizeof(Mat4)`, 64 bytes long) of distinct renderables never overlap |
| Renderables.SlotsAdjacent | src/Renderable.cpp:15-22 | each slot ends where the next id's slot begins |
| Renderables.SlotFits | src/Renderable.cpp:30-37 | a slot lies inside the buffer made for `maxObjs` renderables iff its id is below `maxObjs` |
| Renderables.Registry.constructor | src/Renderable.cpp:7-12 | the id counter starts at 0, no id issued, no shared buffer |
| Renderables.Registry.CreateUniformBuffers | src/Renderable.cpp:30-38 | one host-visible buffer of `sizeof(Mat4) * maxObjs` bytes, which becomes the shared uniform |
| Renderables.Renderable.constructor | src/Renderable.cpp:9-24 | takes the counter's value as id and increments it (a never-issued id); binds the shared buffer at binding 0 of the material as a vertex-stage uniform buffer; leaves the material uncompiled |
| Renderables.IssuedBelowCounter | src/Renderable.cpp:12-14 | an id has been issued iff it is below the counter, so ids never repeat |
| ShaderReflection.Reflect | src/Shader.cpp:22-50 | the bindings are absent iff the path names none of the four known shaders; otherwise the sets are among {0, 1}, each with one binding 0 of count 1 |
| ShaderReflection.TriangleVertexWins | src/Shader.cpp:22-29 | a path naming `triangle.vert.spv` gets one vertex-stage uniform buffer in set 0, whatever else it names |
| ShaderReflection.TriangleFragmentHasNone | src/Shader.cpp:30-32 | the triangle fragment shader needs no descriptors |
| ShaderReflection.TextureVertexUsesSetOne | src/Shader.cpp:33-39 | the texture vertex shader reads its uniform buffer from set 1 |
| ShaderReflection.TextureFragmentSamples | src/Shader.cpp:40-46 | the texture fragment shader samples one image at set 0, binding 0 |
| ShaderReflection.StageMatchesName | src/Shader.cpp:22-46 | vertex files get vertex-stage uniform buffers, fragment files get fragment-stage samplers |
| ShaderReflection.UnknownWithoutT | src/Shader.cpp:22-50 | a path with no `t` early enough to start a known name reflects nothing |
| ShaderReflection.ShadowShadersUnknown | src/Renderer.cpp:748-749 | under a resource directory without a `t`, neither shadow shader the renderer loads is known to the reflection |
| ShaderReflection.DefaultShadowShadersUnknown | src/Renderer.cpp:9-10 | with the default `./resources`, neither shadow shader is known to the reflection |
| ShaderReflection.Create | src/Shader.cpp:10-53 | one shader-module creation from the code; success iff the path is known, with the created module and the reflected bindings; otherwise the reflection error message |
| SwapchainConfig.Clamp | src/Swapchain.cpp:9-12 | the result is one of low, high or val; it lies in range when the range is non-empty; a value in range is kept |
| SwapchainConfig.ClampIdempotentMonotone | src/Swapchain.cpp:9-12 | clamping twice is clamping once, and clamping keeps order |
| SwapchainConfig.ToUint32 | src/Swapchain.cpp:88-98 | a window size below 2^32 converts to itself |
| SwapchainConfig.ChooseExtent | src/Swapchain.cpp:84-102 | the extent is the current extent unless its width is `UINT32_MAX`; otherwise each axis lies in the supported range, and a window size already in range is kept |
| SwapchainConfig.ImageCount | src/Swapchain.cpp:104-108 | the count is min+1 when the maximum allows it, else the maximum; it never exceeds a non-zero maximum; a min of `UINT32_MAX` wraps to 0 |
| SwapchainConfig.ImageCountSupported | src/Swapchain.cpp:104-108 | for capabilities the Vulkan specification allows, the count lies in [min, max] |
| SwapchainConfig.Sharing | src/Swapchain.cpp:36-44 | exclusive iff the graphics and present families are equal; otherwise concurrent over both |
| SwapchainConfig.Resize | src/Swapchain.cpp:109 | `resize` keeps the first n handles and pads with null |
| SwapchainConfig.Swapchain.constructor | src/Swapchain.cpp:17 | a value-initialised swapchain: null handles, zero settings, no images |
| SwapchainConfig.Swapchain.ConfigureSettings | src/Swapchain.cpp:66-113 | first format, first present mode, `ChooseExtent`, `ImageCount` images, current transform |
| SwapchainConfig.Swapchain.Create | src/Swapchain.cpp:16-59 | one swapchain creation with the configured settings, `Sharing` of the two families and one array layer; the images are those the driver reports |
| RenderingContexts.DebugCallback | src/RenderingContext.cpp:60-69 | writes `validation layer: <message>` and never asks the driver to abort |
| RenderingContexts.IsExtensionsSupported | src/RenderingContext.cpp:120-133 | supported iff every required name is among the available ones |
| RenderingContexts.FirstSupported | src/RenderingContext.cpp:142-146 | the position of the first GPU offering every required extension, or the count when none does |
| RenderingContexts.PickGpu | src/RenderingContext.cpp:135-150 | the GPU at `FirstSupported` when there is one; otherwise the error "Suitable physical device not found" |
| RenderingContexts.FindQueueFamily | src/RenderingContext.cpp:152-169 | the smallest family index satisfying the condition; the error "Device queue required is unsupported" iff none does |
| RenderingContexts.QueueCreateInfos | src/RenderingContext.cpp:171-184 | one entry of one queue per family of the set, in ascending order, so no family twice |
| RenderingContexts.DistinctFamiliesGiveTwo | src/RenderingContext.cpp:42 | equal graphics and present families give one queue entry; different ones give two, in ascending order |
| RenderingContexts.Create | src/RenderingContext.cpp:24-48 | succeeds iff the first GPU offering `VK_KHR_swapchain` has a graphics family. Then: the instance extensions are the window's plus `VK_EXT_debug_utils`; the only layer is the Khronos validation layer; the messenger takes warnings and errors of validation and performance messages; the chosen GPU is that first one; its first graphics family serves both graphics and present; one queue entry is made for it |
| BindingTable.Keys | src/Material.cpp:85-89 | the bound numbers, each once, all bound |
| BindingTable.KeysSorted | src/Material.cpp:85-89 | the listing is strictly ascending and covers every bound number |
| BindingTable.LayoutBindings | src/Material.cpp:85-97 | the intended layout: one layout binding per bound number, each the stored one |
| BindingTable.DenseLayoutBySlot | src/Material.cpp:86-89 | on a table bound at exactly `0..n-1`, element i is the binding stored at key i, as the loop reads it |
| BindingTable.LayoutCoversTable | src/Material.cpp:85-97 | every bound entry contributes exactly one element |
| BindingTable.BuildBySlotAsWritten | src/Material.cpp:86-89 | the loop as written: it writes past the vector's end exactly when a missing key below the size is inserted; otherwise it yields the table's layout with the table unchanged |
| BindingTable.AsWrittenAgreesWhenDense | src/Material.cpp:86-89 | running the loop as written succeeds iff the bound numbers are 0..n-1; it then builds `LayoutBindings` and leaves the table unchanged |
| BindingTable.GapIsWrittenPastEnd | src/Material.cpp:86-89 | running the loop as written on bindings 0 and 2 writes element 2 of a two-element vector, and leaves the table grown by a default entry at 1; the intended layout has two bindings |
| Materials.WriteDescribesEntry | src/Material.cpp:113-141 | a write targets its set and key, covers one descriptor of the stored type, and points at the whole buffer or at the texture as a shader-readable image |
| Materials.Lookup | src/Material.cpp:71 | `resources_[k]`: the stored entry, or a value-initialised one of type SAMPLER |
| Materials.SetWrites | src/Material.cpp:108-150 | one write per listed key |
| Materials.SetWritesAt | src/Material.cpp:108-150 | write i describes the entry at the i-th key |
| Materials.FirstUnsupported | src/Material.cpp:123-147 | the position of the first entry the switch rejects, with all before it supported |
| Materials.SetsCallsLength | src/Material.cpp:100-151 | the per-frame loop issues `frames * (keys + 1)` calls |
| Materials.SetsCallsShape | src/Material.cpp:100-151 | each frame's set is created by that frame's allocation from the pool with the layout, followed by one write per key aimed at that set |
| Materials.StagesOnePerShader | src/Material.cpp:164-173 | for any iteration order of the shader map: one stage create-info per stored shader, in that order, with its module and entry point `main`, no stage twice |
| Materials.TwoStagesEitherOrder | src/Material.cpp:166 | with both shaders set, the map is visited vertex then fragment or fragment then vertex, and two stages result |
| Materials.DefaultEntryIsRejected | src/Material.cpp:69-72 | reading a binding never set inserts a value-initialised entry whose type the set builder rejects |
| Materials.BindingKeepsBuildable | src/Material.cpp:33-67 | a table that is buildable stays so when a buffer is bound as a uniform buffer or a texture as a combined image sampler |
| Materials.AllSupportedFromOrder | src/Material.cpp:108-150 | a scan of the table's iteration order that found no unsupported entry means none is unsupported |
| Materials.Material.constructor | src/Material.cpp:8-14 | dirty, with no shaders, no bindings and null handles, in the default fixed-function state |
| Materials.Material.SetDefault | src/Material.cpp:210-253 | triangle lists, one viewport and scissor, filled polygons culled at the back with clockwise front faces, one sample, one RGBA attachment without blending, logic op off, and a dynamic viewport and scissor |
| Materials.Material.SetVertexShader | src/Material.cpp:23-26 | stores the vertex shader and marks the material dirty; nothing else changes |
| Materials.Material.SetFragmentShader | src/Material.cpp:28-31 | stores the fragment shader and marks the material dirty |
| Materials.Material.SetBuffer | src/Material.cpp:33-49 | replaces the entry at the binding with a one-descriptor buffer entry and marks the material dirty |
| Materials.Material.SetTexture | src/Material.cpp:51-67 | replaces the entry at the binding with a one-descriptor texture entry and marks the material dirty |
| Materials.Material.ListBinding | src/Material.cpp:45-46 | a new binding joins the table's iteration order once; a binding already there keeps the order |
| Materials.Material.GetBuffer | src/Material.cpp:69-72 | returns the stored resource; a binding never set is inserted as a default entry; the dirty flag is kept |
| Materials.Material.BuildDescLayout | src/Material.cpp:85-97 | one set-layout creation with `LayoutBindings` of the table (intended layout; see Findings) |
| Materials.Material.BuildDescSets | src/Material.cpp:99-152 | on success, the calls are `SetsCalls` for every frame and the sets are their allocations; the first unsupported entry stops the first frame, after its allocation and the writes before it |
| Materials.Material.FillSet | src/Material.cpp:100-151 | one frame: an allocation and the writes of the keys before the first unsupported entry, whose type it reports |
| Materials.Material.BuildPipeline | src/Material.cpp:163-208 | one pipeline creation with a stage per stored shader in the shader map's iteration order, the stored fixed-function state, attachment count = number of blend attachments, no depth-stencil state, subpass 0 |
| Materials.Material.Compile | src/Material.cpp:74-83 | descriptor layout, sets, pipeline layout, pipeline, in that order; succeeds iff every entry is supported; a successful compile leaves the material clean with one set per frame (intended layout; see Findings) |
| Materials.Material.BuildDescriptors | src/Material.cpp:77-78 | the descriptor layout, then the sets over it |
| Materials.Material.BuildPipelineAndLayout | src/Material.cpp:79-80 | the pipeline layout over the descriptor layout, then the pipeline over that layout |
| Materials.Material.BuildPipelineLayout | src/Material.cpp:154-161 | one pipeline-layout creation over exactly the descriptor layout |
| ResourceDescriptors.FirstNonUniform | src/ResourceDescriptor.cpp:47-75 | the position of the first listed entry that is not a uniform buffer |
| ResourceDescriptors.LayoutNumbersAreKeys | src/ResourceDescriptor.cpp:21-35 | the layout holds one binding per bound number, strictly ascending, each bound number once |
| ResourceDescriptors.WritesCoverTable | src/ResourceDescriptor.cpp:47-78 | on a table of uniform buffers, write i targets the i-th listed number with one uniform-buffer descriptor over the whole buffer; the writes cover every bound number, each once |
| ResourceDescriptors.ResourceDescriptor.constructor | src/ResourceDescriptor.cpp:8 | an empty table |
| ResourceDescriptors.ResourceDescriptor.BindBuffer | src/ResourceDescriptor.cpp:10-19 | stores or replaces the entry at the binding; every other binding keeps its entry; the bound numbers gain that one |
| ResourceDescriptors.ResourceDescriptor.BuildLayout | src/ResourceDescriptor.cpp:21-35 | one set-layout creation with `LayoutBindings` of the table (intended layout; see Findings) |
| ResourceDescriptors.ResourceDescriptor.BuildSet | src/ResourceDescriptor.cpp:37-81 | one allocation from the pool, then the writes of the entries before the first non-uniform one in iteration order; succeeds iff every entry is a uniform buffer, returning the allocated set; otherwise it reports the unsupported type |
| GraphicsPipelines.StageBindingsCount | src/GraphicsPipeline.cpp:81-86 | the layout holds as many bindings as the shaders list in total |
| GraphicsPipelines.StageBindingsHasEvery | src/GraphicsPipeline.cpp:81-86 | every binding of every visited shader is in the layout |
| GraphicsPipelines.StageBindingsOnlyShaders | src/GraphicsPipeline.cpp:81-86 | every binding of the layout comes from a visited shader |
| GraphicsPipelines.TwoStageBindings | src/GraphicsPipeline.cpp:81-86 | visiting vertex then fragment gives the vertex bindings followed by the fragment bindings |
| GraphicsPipelines.GraphicsPipeline.constructor | src/GraphicsPipeline.cpp:5-7 | null layout and pipeline, no shaders, default state |
| GraphicsPipelines.GraphicsPipeline.SetDefault | src/GraphicsPipeline.cpp:109-149 | the default fixed-function state: counter-clockwise front faces, back-face culling, one counted attachment |
| GraphicsPipelines.GraphicsPipeline.SetVertexShader | src/GraphicsPipeline.cpp:9-12 | replaces the vertex stage only and marks the pipeline cold |
| GraphicsPipelines.GraphicsPipeline.SetFragmentShader | src/GraphicsPipeline.cpp:14-17 | replaces the fragment stage only and marks the pipeline cold |
| GraphicsPipelines.GraphicsPipeline.Stages | src/GraphicsPipeline.cpp:29-41 | two stages, vertex then fragment, with their modules, both entered at `main` |
| GraphicsPipelines.GraphicsPipeline.WarmUp | src/GraphicsPipeline.cpp:19-75 | calls, in order: wait idle, destroy the old layout, destroy the old pipeline, create the set layout of the stored shaders' bindings, create a pipeline layout over it, create the pipeline. The pipeline has the two stages, the stored state, no depth-stencil state and subpass 0. The new layout and pipeline are kept, and the pipeline is warm |
| GraphicsPipelines.GraphicsPipeline.Discard | src/GraphicsPipeline.cpp:20-24 | wait idle, destroy the layout and the pipeline, and null both handles |
| GraphicsPipelines.GraphicsPipeline.CreateDescLayout | src/GraphicsPipeline.cpp:77-95 | one set-layout creation with the shaders' bindings, shader by shader in iteration order |
| GraphicsPipelines.GraphicsPipeline.CreateLayout | src/GraphicsPipeline.cpp:97-107 | one pipeline-layout creation over exactly the given set layout |
| PipelineBuilders.PipelineBuilder.constructor | include/kk_renderer/PipelineBuilder.h:32-33 | a new builder holds no shaders |
| PipelineBuilders.PipelineBuilder.Info | src/PipelineBuilder.cpp:12-55 | two stages (vertex, fragment) entered at `main`; the stored depth-stencil, blend, rasterizer and dynamic state; the given layout and render pass; subpass 0 |
| PipelineBuilders.PipelineBuilder.Build | src/PipelineBuilder.cpp:6-60 | sets the attachment count to the number of blend attachments, then issues one pipeline creation with `Info` |
| PipelineBuilders.PipelineBuilder.SetDefault | src/PipelineBuilder.cpp:62-113 | the default state: clockwise front faces, back-face culling, depth test and write with LESS, one RGBA attachment without blending, dynamic viewport and scissor; returns the same builder and keeps the shaders |
| PipelineBuilders.PipelineBuilder.SetVertexShader | include/kk_renderer/PipelineBuilder.h:17-20 | stores the vertex shader and returns the same builder |
| PipelineBuilders.PipelineBuilder.SetFragmentShader | include/kk_renderer/PipelineBuilder.h:22-25 | stores the fragment shader and returns the same builder |
| PipelineBuilders.PipelineBuilder.SetFrontFace | include/kk_renderer/PipelineBuilder.h:27-30 | changes the rasterizer's front face only and returns the same builder |
| PipelineBuilders.FrontFaceOrder | include/kk_renderer/PipelineBuilder.h:27-30 | a front face set before `setDefault` is lost; one set after it is kept, with the other defaults |
| PipelineBuilders.ShadowPipelineChain | src/Renderer.cpp:752-759 | the renderer's shadow pipeline has the two given modules, clockwise front faces, depth test with LESS, one counted attachment, dynamic viewport and scissor, the shadow layout and pass, subpass 0 |
| Commands.BindSetsAt | src/Renderer.cpp:300-309 | `vkCmdBindDescriptorSets` puts `sets[i]` at number `first + i` and leaves every other number as it was |
| Commands.RunAppend | src/Renderer.cpp:258-347 | replaying two lists one after the other is replaying their concatenation; the draws are concatenated |
| Commands.RunNoDraws | src/Renderer.cpp:258-312 | a list without indexed draws draws nothing |
| Passes.GeometryRun | src/Renderer.cpp:338-343 | drawing the geometry binds its buffers and draws every index once, changing nothing else |
| Passes.ShadowDrawRun | src/Renderer.cpp:327-343 | a shadow draw runs with its object set at 1 and its geometry, keeping the pipeline and set 0 |
| Passes.ShadowDrawsRun | src/Renderer.cpp:314-344 | the shadow draws replay to one draw per renderable, in order, each with the pipeline and set 0 bound before them, its own object set and its own geometry |
| Passes.ShadowPassShape | src/Renderer.cpp:258-347 | the shadow pass begins the shadow render pass over the shadow framebuffer at 1024x1024, ends it last, and neither begins nor ends one in between |
| Passes.ShadowPassRun | src/Renderer.cpp:258-347 | the shadow pass holds one indexed draw per renderable in scene order, each with the shadow pipeline, the light's global set at 0, its own object set at 1, its buffers and its index count |
| Passes.ShadowHeadRun | src/Renderer.cpp:273-311 | before its draws the pass binds the light's global set at 0 and the shadow pipeline, and draws nothing |
| Passes.ColorDrawRun | src/Renderer.cpp:404-438 | a colour draw runs with its material's pipeline, the global, material and object sets at 0, 1 and 2, and its geometry |
| Passes.ColorDrawsRun | src/Renderer.cpp:401-439 | the colour draws replay to one draw per renderable in order, each with its own material and object |
| Passes.ColorPassShape | src/Renderer.cpp:349-442 | the colour pass begins the main render pass over the image's framebuffer at the swapchain extent, ends it last, and neither begins nor ends one in between |
| Passes.ColorPassRun | src/Renderer.cpp:349-442 | the colour pass holds one indexed draw per renderable in scene order, each with its material's pipeline and the global, material and object sets |
| Passes.SingleDrawRun | src/Renderer.cpp:201-256 | drawing one renderable runs with its material's pipeline, its sets at 1 and 2 and its geometry; set 0 holds the global set, bound now when the camera was unbound and kept otherwise |
| Passes.SingleBindsRun | src/Renderer.cpp:206-246 | the binds draw nothing and leave the pipeline, the global set and both own sets bound |
| Rendering.AdvanceIsModular | src/Renderer.cpp:152 | n frames on from `frame` is `(frame + n) mod kMaxConcurrentFrames`: the counter stays in range and returns to its start after that many frames |
| Rendering.UniformCallsShape | src/Renderer.cpp:163-197 | frame f's uniform is a host-visible buffer of `sizeof(ObjectUniform)` bytes and a set allocated with the object layout; the set is written to point at the whole of that buffer, three calls per frame |
| Rendering.UniformSlotsDistinct | src/Renderer.cpp:163-197 | every frame's buffer and set are its own |
| Rendering.Renderer.constructor | src/Renderer.cpp:19-40 | both counters at 0, camera unbound, an empty command buffer per frame, no object uniforms, one framebuffer per swapchain image |
| Rendering.Renderer.CreateFramebuffers | src/Renderer.cpp:513-532 | framebuffer i is created from image view i and the shared depth view, at the swapchain extent, in order |
| Rendering.Renderer.BeginFrame | src/Renderer.cpp:81-114 | succeeds iff the fence wait, acquire, fence reset and buffer reset all succeed, each tried only after the previous one; the image index is taken when the acquire writes it; only success starts a fresh recording; the frame counter never moves |
| Rendering.Renderer.EndFrame | src/Renderer.cpp:116-153 | a failed submit changes nothing; otherwise the frame's buffer is submitted, the image presented, and the counter advanced modulo the frame count whatever the present returned |
| Rendering.Renderer.CompileIfNeeded | src/Renderer.cpp:157-159 | a compiled material is untouched with no calls; otherwise it is compiled, succeeding iff its table is supported |
| Rendering.Renderer.AddObjectUniforms | src/Renderer.cpp:162-198 | the calls are `UniformCalls` for every frame in flight, and the id maps to the slots they create |
| Rendering.Renderer.PrepareRendering | src/Renderer.cpp:155-199 | compiles only an uncompiled material and creates uniforms only for an id without them; uniforms already made are never replaced; a prepared renderable costs no calls |
| Rendering.Renderer.Render | src/Renderer.cpp:201-256 | prepares, then appends `SingleDraw` to the current frame's buffer; the global set is bound only when the camera flag was clear, and the flag, once set, stays set |
| Rendering.Renderer.CompileMaterial | src/Renderer.cpp:450-452 | compiles unconditionally with the renderer's render pass; succeeds iff the table is supported |
| Rendering.Renderer.PrepareNext | src/Renderer.cpp:314-315 | preparing renderable k keeps the first k prepared and their materials untouched |
| Rendering.Renderer.ShadowRound | src/Renderer.cpp:314-344 | one shadow round extends the appended shadow draws by renderable k's draw with its object set |
| Rendering.Renderer.RecordShadowDraws | src/Renderer.cpp:314-344 | on success every renderable is prepared and its shadow draw is appended in scene order; failure only when some material's table is unsupported |
| Rendering.Renderer.RenderShadowMap | src/Renderer.cpp:258-347 | on success the current frame's buffer is extended by exactly `ShadowPass` over the scene's object sets and geometries, and every renderable is prepared; no material's table changes |
| Rendering.Renderer.ColorRound | src/Renderer.cpp:401-439 | one colour round extends the appended colour draws by renderable k's draw with its material and object |
| Rendering.Renderer.RecordColorDraw | src/Renderer.cpp:404-438 | appends `ColorDraw` for a prepared renderable to the current frame's buffer |
| Rendering.Renderer.RecordColorDraws | src/Renderer.cpp:401-439 | on success every renderable is prepared and its colour draw is appended in scene order |
| Rendering.Renderer.RenderColor | src/Renderer.cpp:349-442 | on success the current frame's buffer is extended by exactly `ColorPass` over the acquired image's framebuffer, the materials' views and the object sets |
| Rendering.Renderer.RenderScene | src/Renderer.cpp:445-448 | the shadow pass then the colour pass, both in the current frame's buffer; the colour pass draws with the object sets the shadow pass prepared |

## Left out

- Floating-point data is not modelled: the transforms and matrices, the viewport depth range, the clear values and the blend constants. The uniforms the renderer copies into mapped memory (`memcpy` of the object and global uniforms) are not modelled either.
- These driver calls are not in the call log: `vkMapMemory` (src/Renderer.cpp:173, src/Renderable.cpp:37), `vkAllocateCommandBuffers` (src/Renderer.cpp:29), `vkResetCommandBuffer`, `vkBeginCommandBuffer` and `vkEndCommandBuffer` (src/Renderer.cpp:102, 111, 117), and `vkGetSwapchainImagesKHR` (src/Swapchain.cpp:54-56). The command buffers are the renderer's per-frame command lists, and the swapchain image count is an input. The queries, fence waits and resets, and image acquisition appear only through the results they report, which are inputs.
- Fences, semaphores and queue submission are modelled only as result codes and as the submitted and presented logs. Their synchronisation and concurrency are not modelled.
- A failed `assert` on a driver result is not modelled: every driver call succeeds. The asserts that test the core's own logic become `Err` results: shader reflection, unsupported descriptor type, no suitable GPU, no suitable queue family.
- RenderingContexts.PickGpu and RenderingContexts.FindQueueFamily return an error where a release build returns `VK_NULL_HANDLE` or `UINT32_MAX` after the assert.
- ResourceDescriptors.ResourceDescriptor.BuildSet stops at the unsupported entry. A release build would go on to issue that write with no resource info.
- RenderingContexts.Create: the creation of the instance, messenger, device, queues and command pool is not modelled. The model returns the settings they are made with. The application info and the destroy functions are not modelled either.
- An `unordered_map`'s iteration order is an input `order` that lists each key once. This applies to `ResourceDescriptor`'s table and `GraphicsPipeline`'s shaders. It applies to Material's binding table and shaders too: include/kk_renderer/Material.h does not declare their container type, so they are taken to be hash maps like the one include/kk_renderer/ResourceDescriptor.h:22 declares. Their orders are the fields `order` and `stageOrder`, constrained only to list every key once.
- ResourceDescriptors.ResourceDescriptor.BindBuffer, Materials.Material.SetBuffer, Materials.Material.SetTexture and Materials.Material.GetBuffer copy the buffer handle and size, or the texture's view and sampler, at bind time. The source keeps a pointer or a `shared_ptr` and reads the bound object when the sets are built (src/ResourceDescriptor.cpp:18, 63-66; src/Material.cpp:45-46, 63-64, 108-139). A later change to the bound object, or its destruction before the build, is not captured.
- CompileShader.Glob: a directory argument containing the glob characters `*`, `?` or `[` is itself expanded by the pattern. This is not modelled: the argument is taken literally and the listing of the one directory is an input.
- Renderer shadow shaders: src/Renderer.cpp:748-749 load `shadow.vert.spv` and `shadow.frag.spv`, which the reflection of src/Shader.cpp:22-50 does not know (ShaderReflection.ShadowShadersUnknown), so `Shader::create` reaches its assertion. The model takes the two shadow modules as inputs to PipelineBuilders.ShadowPipelineChain.
- GraphicsPipelines: the source reads a per-shader `bindings` member that src/Shader.cpp does not define. `StageShader` carries its own binding list, in the shader's order.
- GraphicsPipelines.GraphicsPipeline.constructor does not initialise the warm-up flag, so nothing is stated about it.
- PipelineBuilders.PipelineBuilder.constructor: the source leaves the fixed-function members uninitialised until `setDefault`. The model states only the shaders.
- GraphicsPipelines.GraphicsPipeline.WarmUp: the descriptor-set layout it creates is never destroyed. The model shows the leak only as a handle that nothing keeps.
- The vertex input state (src/Vertex.cpp) is left out of every pipeline create-info. Vertex.cpp is not part of this model.
- Renderables.Renderable.constructor binds the whole shared buffer. The source passes an offset of `id * sizeof(Mat4)` and a size of `sizeof(Mat4)` to a six-argument `setBuffer` that src/Material.cpp does not define. The slot is kept as `Renderable.slot`. The `size_t` overflow of `id * 64` is not modelled.
- Rendering: `getDescriptorSet()` is taken as the current frame's set of the material. Material.cpp keeps one set per frame, while the header has one `desc_set_`.
- Rendering.Renderer.RenderShadowMap, Rendering.Renderer.RenderColor and Rendering.Renderer.RenderScene state that an error implies an unsupported table, and that full support implies success. They do not state an exact iff: a material already compiled is not rebuilt, so its table is not checked again.
- Rendering.Renderer.EndFrame ignores the present result, as the source does apart from logging. The log lines on failure are not modelled.
- `kMaxConcurrentFrames` is a parameter greater than 0, because its definition is not part of this model.
- The Python script's `print` and `subprocess.run` become the outcome's logged lines and an oracle from a command line to an exit status. The directory listing is an input.
- CompileShader.RunMain, CompileShader.CompiledCounts: a compiler that cannot be launched makes `subprocess.run` raise an uncaught `OSError`, so Python writes a traceback to the error output and exits with status 1; the model has only the oracle's status for a run, and a non-zero status stands for that case. The compiler's own output on the inherited streams is not modelled: the outcome holds only what the script prints itself.
- Swapchain image views, render passes, the depth image, the shadow map and the descriptor pool and set layouts that `Renderer::create` makes (src/Renderer.cpp:454-511, 534-773 other than the shadow pipeline) are inputs (`Rendering.Resources`). Their creation is not modelled.
- Shader file reading is not modelled: the code bytes are an input.

## Findings

| source | as written | input that shows it | evidently intended | confidence | as-written member | corrected member |
|---|---|---|---|---|---|---|
| src/Material.cpp:86-89 (also src/ResourceDescriptor.cpp:22-25) | `bindings(resources_.size())`, then `bindings[i] = resources_[i].first` while `i < resources_.size()`; `operator[]` inserts a default entry for each missing key, so the table grows during the loop | bindings 0 and 2 bound: the loop inserts key 1, the size becomes 3, and `bindings[2]` is written into a two-element vector | one layout binding per bound number, in ascending order | not executed | BindingTable.BuildBySlotAsWritten, BindingTable.GapIsWrittenPastEnd | BindingTable.LayoutBindings, BindingTable.KeysSorted, BindingTable.LayoutCoversTable |
