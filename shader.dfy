/** Shader creation (src/Shader.cpp): the shader module is created from the
    file's bytes, and the descriptor bindings the shader needs are chosen
    from its path by a fixed, ordered list of file names, in place of real
    reflection.

    Reading the file is not modelled: its bytes are an input. A path that
    matches none of the names is reported and stops the program; the model
    returns that report as an error. */
module ShaderReflection {
  import opened Wrappers
  import opened Vk
  import opened Ordered

  /** A created shader: its module and, per descriptor set number, the
      bindings that set needs. */
  datatype Shader = Shader(shaderModule: Handle, setsBindings: map<nat, seq<LayoutBinding>>)

  /** A uniform buffer at binding 0 read by the vertex stage. */
  const VertexUniform := LayoutBinding(0, 1, UniformBuffer, {Vertex})

  /** A combined image sampler at binding 0 read by the fragment stage. */
  const FragmentSampler := LayoutBinding(0, 1, CombinedImageSampler, {Fragment})

  /** Names the dispatch knows, in the order it tries them. */
  predicate KnownShader(path: string) {
    Contains(path, "triangle.vert.spv") || Contains(path, "triangle.frag.spv") ||
    Contains(path, "texture.vert.spv") || Contains(path, "texture.frag.spv")
  }

  /** The bindings chosen for `path`, or `None` when the path names no known
      shader. */
  function Reflect(path: string): (r: Option<map<nat, seq<LayoutBinding>>>)
    ensures r.None? <==> !KnownShader(path)
    ensures r.Some? ==> r.value.Keys <= {0, 1}
    ensures r.Some? ==> forall n :: n in r.value ==>
              |r.value[n]| == 1 && r.value[n][0].binding == 0 && r.value[n][0].count == 1
  {
    if Contains(path, "triangle.vert.spv") then Some(map[0 := [VertexUniform]])
    else if Contains(path, "triangle.frag.spv") then Some(map[])
    else if Contains(path, "texture.vert.spv") then Some(map[1 := [VertexUniform]])
    else if Contains(path, "texture.frag.spv") then Some(map[0 := [FragmentSampler]])
    else None
  }

  /** The message reported for an unknown path. */
  function ReflectionError(path: string): string {
    "Shader::create(): Error: Failed to get reflection of " + path
  }

  /** The name tested first wins: a path naming the triangle vertex shader
      gets its uniform buffer at set 0 whatever else it contains. */
  lemma TriangleVertexWins(path: string)
    requires Contains(path, "triangle.vert.spv")
    ensures Reflect(path) == Some(map[0 := [VertexUniform]])
  {
  }

  /** The triangle fragment shader needs no descriptors at all, even when
      its path also names a texture shader. */
  lemma TriangleFragmentHasNone(path: string)
    requires Contains(path, "triangle.frag.spv") && !Contains(path, "triangle.vert.spv")
    ensures Reflect(path) == Some(map[])
  {
  }

  /** The texture vertex shader reads its uniform buffer from set 1. */
  lemma TextureVertexUsesSetOne(path: string)
    requires Contains(path, "texture.vert.spv")
    requires !Contains(path, "triangle.vert.spv") && !Contains(path, "triangle.frag.spv")
    ensures Reflect(path) == Some(map[1 := [VertexUniform]])
  {
  }

  /** The texture fragment shader samples one image at set 0, binding 0. */
  lemma TextureFragmentSamples(path: string)
    requires Contains(path, "texture.frag.spv")
    requires !Contains(path, "triangle.vert.spv") && !Contains(path, "triangle.frag.spv")
    requires !Contains(path, "texture.vert.spv")
    ensures Reflect(path) == Some(map[0 := [FragmentSampler]])
  {
  }

  /** Every binding chosen is for the stage its file name says: the vertex
      files get vertex-stage uniform buffers, the fragment files get
      fragment-stage samplers. */
  lemma StageMatchesName(path: string)
    requires Reflect(path).Some?
    ensures forall n :: n in Reflect(path).value ==>
              var b := Reflect(path).value[n][0];
              (b.stages == {Vertex} && b.descriptorType == UniformBuffer) ||
              (b.stages == {Fragment} && b.descriptorType == CombinedImageSampler)
  {
  }

  /** Every name the dispatch knows starts with `t` and is at least 16
      characters long, so a path with no `t` early enough names none. */
  lemma {:induction false} UnknownWithoutT(path: string)
    requires forall i :: 0 <= i < |path| && i + 16 <= |path| ==> path[i] != 't'
    ensures Reflect(path) == None
  {
    var names := ["triangle.vert.spv", "triangle.frag.spv", "texture.vert.spv", "texture.frag.spv"];
    forall n | n in names ensures !Contains(path, n) {
      assert n[0] == 't' && |n| >= 16;
      if Contains(path, n) {
        var _ := ContainsWitness(path, n);
      }
    }
  }

  /** The shadow shaders that `Renderer::create` loads, under a resource
      directory without a `t` (the default `./resources` is one), are named
      by none of the four known names, so creating either one reports the
      reflection error and stops at the assertion. */
  lemma {:induction false} ShadowShadersUnknown(dir: string)
    requires forall i :: 0 <= i < |dir| ==> dir[i] != 't'
    ensures Reflect(dir + "shaders/shadow.vert.spv") == None
    ensures Reflect(dir + "shaders/shadow.frag.spv") == None
  {
    var v := dir + "shaders/shadow.vert.spv";
    var f := dir + "shaders/shadow.frag.spv";
    forall i | 0 <= i < |v| && i + 16 <= |v| ensures v[i] != 't' && f[i] != 't' {
      if |dir| <= i {
        assert i - |dir| < 8;
        assert v[i] == "shaders/shadow.vert.spv"[i - |dir|];
        assert f[i] == "shaders/shadow.frag.spv"[i - |dir|];
      }
    }
    UnknownWithoutT(v);
    UnknownWithoutT(f);
  }

  /** With the default resource directory, both shadow shaders are unknown. */
  lemma DefaultShadowShadersUnknown()
    ensures Reflect("./resources" + "shaders/shadow.vert.spv") == None
    ensures Reflect("./resources" + "shaders/shadow.frag.spv") == None
  {
    ShadowShadersUnknown("./resources");
  }

  /** `Shader::create`: the module is created first, then the bindings are
      filled in for the first name the path contains. */
  method Create(device: Device, path: string, code: seq<bv8>) returns (r: Result<Shader, string>)
    modifies device
    ensures device.calls == old(device.calls) + [CreateShaderModule(code)]
    ensures r.Ok? <==> KnownShader(path)
    ensures r.Ok? ==> r.value == Shader(Handle(|old(device.calls)|), Reflect(path).value)
    ensures r.Err? ==> r.error == ReflectionError(path)
  {
    var shaderModule := device.Issue(CreateShaderModule(code));
    var setsBindings: map<nat, seq<LayoutBinding>> := map[];

    if Contains(path, "triangle.vert.spv") {
      setsBindings := setsBindings[0 := [LayoutBinding(0, 1, UniformBuffer, {Vertex})]];
    } else if Contains(path, "triangle.frag.spv") {
      // No descriptors.
    } else if Contains(path, "texture.vert.spv") {
      setsBindings := setsBindings[1 := [LayoutBinding(0, 1, UniformBuffer, {Vertex})]];
    } else if Contains(path, "texture.frag.spv") {
      setsBindings := setsBindings[0 := [LayoutBinding(0, 1, CombinedImageSampler, {Fragment})]];
    } else {
      return Err(ReflectionError(path));
    }

    return Ok(Shader(shaderModule, setsBindings));
  }
}
