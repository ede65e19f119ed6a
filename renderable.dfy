/** Renderables (src/Renderable.cpp): a geometry drawn with a material,
    numbered by a process-wide counter, each owning one `Mat4` slot of a
    uniform buffer that all renderables share. */
module Renderables {
  import opened Vk
  import opened Materials

  /** `sizeof(Mat4)`: a 4x4 matrix of 32-bit floats. */
  const Mat4Size: nat := 64

  /** A byte range of the shared uniform buffer. */
  datatype Slot = Slot(offset: nat, range: nat)

  /** The slot of renderable `id`: `id * sizeof(Mat4)` bytes in, one matrix
      long. */
  function SlotOf(id: nat): Slot {
    Slot(id * Mat4Size, Mat4Size)
  }

  /** The bytes `createUniformBuffers` allocates for `maxObjs` renderables. */
  function UniformSize(maxObjs: nat): nat {
    Mat4Size * maxObjs
  }

  /** Slots of distinct renderables never overlap. */
  lemma SlotsDisjoint(a: nat, b: nat)
    requires a != b
    ensures SlotOf(a).offset + SlotOf(a).range <= SlotOf(b).offset
         || SlotOf(b).offset + SlotOf(b).range <= SlotOf(a).offset
  {
    if a < b {
      SlotsAdjacent(a);
      SlotsIncrease(a + 1, b);
    } else {
      SlotsAdjacent(b);
      SlotsIncrease(b + 1, a);
    }
  }

  /** Each slot ends where the next renderable's begins. */
  lemma SlotsAdjacent(id: nat)
    ensures SlotOf(id).offset + SlotOf(id).range == SlotOf(id + 1).offset
  {
  }

  lemma SlotsIncrease(a: nat, b: nat)
    requires a <= b
    ensures SlotOf(a).offset <= SlotOf(b).offset
  {
  }

  /** A slot lies inside the buffer allocated for `maxObjs` renderables
      exactly when its id is below `maxObjs`. */
  lemma SlotFits(id: nat, maxObjs: nat)
    ensures SlotOf(id).offset + SlotOf(id).range <= UniformSize(maxObjs) <==> id < maxObjs
  {
    if id < maxObjs {
      SlotsIncrease(id + 1, maxObjs);
    } else {
      SlotsIncrease(maxObjs, id);
    }
  }

  /** The parts of a `Geometry` the renderer uses: its two buffers and its
      index list. Vertex data lives only in the buffer. */
  datatype Geometry = Geometry(vertexBuffer: Handle, indices: seq<Uint32>, indexBuffer: Handle)

  /** The two statics of `Renderable`: the id counter of the constructor and
      the shared uniform buffer `uniform_`. `issued` remembers every id handed
      out. */
  class Registry {
    var nextId: nat
    var uniform: Handle
    var uniformSize: nat
    ghost var issued: seq<nat>

    /** The ids handed out are 0, 1, 2, ... in order. */
    ghost predicate Valid()
      reads this
    {
      |issued| == nextId && forall i :: 0 <= i < |issued| ==> issued[i] == i
    }

    /** Program start: no id issued yet, no buffer. */
    constructor ()
      ensures Valid() && nextId == 0 && issued == []
      ensures uniform == Null && uniformSize == 0
    {
      nextId := 0;
      uniform := Null;
      uniformSize := 0;
      issued := [];
    }

    /** `createUniformBuffers`: one host-visible buffer of
        `sizeof(Mat4) * maxObjs` bytes, which every renderable binds. */
    method CreateUniformBuffers(device: Device, maxObjs: nat)
      modifies this`uniform, this`uniformSize, device
      ensures device.calls == old(device.calls) + [CreateHostVisibleBuffer(UniformSize(maxObjs))]
      ensures uniform == Handle(|old(device.calls)|) && uniformSize == UniformSize(maxObjs)
    {
      uniform := device.Issue(CreateHostVisibleBuffer(Mat4Size * maxObjs));
      uniformSize := Mat4Size * maxObjs;
    }
  }

  class Renderable {
    const id: nat
    const geometry: Geometry
    const material: Material
    const slot: Slot

    /** Takes the next id, and binds the shared uniform buffer on the
        material at binding 0 as a uniform buffer for the vertex stage, which
        leaves the material to be compiled again. */
    constructor (registry: Registry, geometry: Geometry, material: Material)
      requires registry.Valid() && material.Valid()
      modifies registry`nextId, registry`issued, material`resources, material`order, material`isCompiled
      ensures registry.Valid() && material.Valid()
      ensures id == old(registry.nextId) && registry.nextId == id + 1
      ensures id !in old(registry.issued) && registry.issued == old(registry.issued) + [id]
      ensures this.geometry == geometry && this.material == material
      ensures slot == SlotOf(id)
      ensures material.resources == old(material.resources)[0 :=
                BoundEntry(0, UniformBuffer, {Vertex}, BufferResource(registry.uniform, registry.uniformSize))]
      ensures !material.isCompiled
    {
      id := registry.nextId;
      this.geometry := geometry;
      this.material := material;
      slot := SlotOf(registry.nextId);
      new;
      registry.nextId := registry.nextId + 1;
      registry.issued := registry.issued + [id];
      material.SetBuffer(0, registry.uniform, registry.uniformSize, UniformBuffer, {Vertex});
    }
  }

  /** Ids never repeat: every id issued is below the counter. */
  lemma IssuedBelowCounter(registry: Registry, id: nat)
    requires registry.Valid()
    ensures id in registry.issued <==> id < registry.nextId
  {
    if id < registry.nextId {
      assert registry.issued[id] == id;
    }
  }
}
