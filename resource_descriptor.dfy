/** `ResourceDescriptor` (src/ResourceDescriptor.cpp): a binding table of
    buffers, the descriptor-set layout it describes, and one descriptor set
    written from it.

    The table is an `unordered_map`, so the set builder visits the bound
    numbers in the map's own iteration order; that order is an input of the
    model (`order`), constrained only to list every bound number once. The
    layout is built by the intended reading of the slot-by-slot loop
    (`BindingTable.LayoutBindings`; see `BindingTable.BuildBySlotAsWritten`
    for the loop as written). */
module ResourceDescriptors {
  import opened Wrappers
  import opened Vk
  import opened BindingTable
  import opened Materials
  import opened Ordered

  /** The only descriptor type the set builder writes. */
  predicate IsUniform(e: Entry) {
    e.layout.descriptorType == UniformBuffer
  }

  predicate AllUniform(table: map<nat, Entry>) {
    forall k :: k in table ==> IsUniform(table[k])
  }

  /** The position in `order` of the first entry that is not a uniform
      buffer, or `|order|` when there is none. */
  function FirstNonUniform(table: map<nat, Entry>, order: seq<nat>): (i: nat)
    requires forall j :: 0 <= j < |order| ==> order[j] in table
    ensures i <= |order|
    ensures forall j :: 0 <= j < i ==> IsUniform(table[order[j]])
    ensures i < |order| ==> !IsUniform(table[order[i]])
  {
    if order == [] then 0
    else if !IsUniform(table[order[0]]) then 0
    else 1 + FirstNonUniform(table, order[1..])
  }

  /** The scan stops at the first entry that is not a uniform buffer. */
  lemma {:induction false} FirstNonUniformAt(table: map<nat, Entry>, order: seq<nat>, j: nat)
    requires forall i :: 0 <= i < |order| ==> order[i] in table
    requires j <= |order| && forall i :: 0 <= i < j ==> IsUniform(table[order[i]])
    requires j < |order| ==> !IsUniform(table[order[j]])
    ensures FirstNonUniform(table, order) == j
  {
    if j > 0 {
      FirstNonUniformAt(table, order[1..], j - 1);
    }
  }

  /** The layout the table describes numbers its bindings with the bound
      numbers, in ascending order, each once. */
  lemma LayoutNumbersAreKeys(table: map<nat, Entry>)
    requires forall k :: k in table ==> table[k].layout.binding == k
    ensures |LayoutBindings(table)| == |table|
    ensures forall i :: 0 <= i < |table| ==> LayoutBindings(table)[i].binding in table
    ensures forall k :: k in table ==> exists i :: 0 <= i < |table| && LayoutBindings(table)[i].binding == k
    ensures forall i, j :: 0 <= i < j < |table| ==> LayoutBindings(table)[i].binding < LayoutBindings(table)[j].binding
  {
    KeysSorted(table);
    forall k | k in table ensures exists i :: 0 <= i < |table| && LayoutBindings(table)[i].binding == k {
      LayoutCoversTable(table, k);
    }
  }

  /** On a table of uniform buffers, the set's writes cover every bound
      number once: write `i` targets the set at the `i`-th listed number,
      one uniform-buffer descriptor over the whole of its buffer. */
  lemma {:induction false} WritesCoverTable(dst: Handle, table: map<nat, Entry>, order: seq<nat>)
    requires ListsKeys(order, table) && AllUniform(table)
    requires forall k :: k in table ==> table[k].resource.BufferResource?
    ensures |SetWrites(dst, table, order)| == |table|
    ensures forall i :: 0 <= i < |order| ==>
              var e := table[order[i]];
              SetWrites(dst, table, order)[i]
                == UpdateDescriptorSet(DescriptorWrite(dst, order[i], UniformBuffer, 1,
                                                       BufferInfo(e.resource.buffer, 0, e.resource.size)))
    ensures forall k :: k in table ==>
              exists i :: 0 <= i < |order| && SetWrites(dst, table, order)[i].write.dstBinding == k
    ensures forall i, j :: 0 <= i < j < |order| ==>
              SetWrites(dst, table, order)[i].write.dstBinding != SetWrites(dst, table, order)[j].write.dstBinding
  {
    ListingLength(order, table);
    WritesDescribeEntries(dst, table, order);
    BindingsFollowListing(SetWrites(dst, table, order), order, table);
  }

  /** Write `i` is the uniform-buffer write for the `i`-th listed number. */
  lemma WritesDescribeEntries(dst: Handle, table: map<nat, Entry>, order: seq<nat>)
    requires ListsKeys(order, table) && AllUniform(table)
    requires forall k :: k in table ==> table[k].resource.BufferResource?
    ensures forall i :: 0 <= i < |order| ==>
              var e := table[order[i]];
              SetWrites(dst, table, order)[i]
                == UpdateDescriptorSet(DescriptorWrite(dst, order[i], UniformBuffer, 1,
                                                       BufferInfo(e.resource.buffer, 0, e.resource.size)))
  {
    forall i | 0 <= i < |order|
      ensures SetWrites(dst, table, order)[i]
                == UpdateDescriptorSet(DescriptorWrite(dst, order[i], UniformBuffer, 1,
                     BufferInfo(table[order[i]].resource.buffer, 0, table[order[i]].resource.size)))
    {
      SetWritesAt(dst, table, order, i);
    }
  }

  /** Writes whose targets follow a listing cover each bound number once. */
  lemma BindingsFollowListing(writes: seq<Call>, order: seq<nat>, table: map<nat, Entry>)
    requires ListsKeys(order, table) && |writes| == |order|
    requires forall i :: 0 <= i < |order| ==> writes[i].UpdateDescriptorSet? && writes[i].write.dstBinding == order[i]
    ensures forall k :: k in table ==> exists i :: 0 <= i < |order| && writes[i].write.dstBinding == k
    ensures forall i, j :: 0 <= i < j < |order| ==> writes[i].write.dstBinding != writes[j].write.dstBinding
  {
    forall k | k in table ensures exists i :: 0 <= i < |order| && writes[i].write.dstBinding == k {
      var i :| 0 <= i < |order| && order[i] == k;
    }
  }

  class ResourceDescriptor {
    var resources: map<nat, Entry>

    /** Every stored entry is a buffer bound under its own number, one
        descriptor wide. */
    ghost predicate Valid()
      reads this
    {
      forall k :: k in resources ==>
        && resources[k].layout.binding == k
        && resources[k].layout.count == 1
        && resources[k].resource.BufferResource?
    }

    constructor ()
      ensures resources == map[] && Valid()
    {
      resources := map[];
    }

    /** `bindBuffer`: stores or overwrites the entry at `binding`; every
        other binding keeps its entry. */
    method BindBuffer(binding: nat, buffer: Handle, size: nat, t: DescriptorType, stage: set<ShaderStage>)
      requires Valid()
      modifies this
      ensures Valid()
      ensures resources == old(resources)[binding := BoundEntry(binding, t, stage, BufferResource(buffer, size))]
      ensures forall k :: k in old(resources) && k != binding ==> k in resources && resources[k] == old(resources)[k]
      ensures resources.Keys == old(resources).Keys + {binding}
    {
      resources := resources[binding := BoundEntry(binding, t, stage, BufferResource(buffer, size))];
    }

    /** `buildLayout`: one `vkCreateDescriptorSetLayout` with one binding per
        bound number, in ascending order. */
    method BuildLayout(device: Device) returns (layout: Handle)
      modifies device
      ensures device.calls == old(device.calls) + [CreateDescriptorSetLayout(LayoutBindings(resources))]
      ensures layout == Handle(|old(device.calls)|)
    {
      var keys := Keys(resources);
      var bindings: seq<LayoutBinding> := [];
      for i := 0 to |keys|
        invariant |bindings| == i
        invariant forall j :: 0 <= j < i ==> bindings[j] == resources[keys[j]].layout
      {
        bindings := bindings + [resources[keys[i]].layout];
      }
      assert bindings == LayoutBindings(resources);
      layout := device.Issue(CreateDescriptorSetLayout(bindings));
    }

    /** `buildSet`: one set allocated from `pool` with `layout`, then one
        write per bound number in iteration order. An entry that is not a
        uniform buffer stops the build, after the writes before it. */
    method BuildSet(device: Device, pool: Handle, layout: Handle, order: seq<nat>) returns (r: Result<Handle, BuildError>)
      requires ListsKeys(order, resources)
      modifies device
      ensures var j := FirstNonUniform(resources, order);
              && device.calls == old(device.calls) + [AllocateDescriptorSet(pool, layout)]
                                 + SetWrites(Handle(|old(device.calls)|), resources, order[..j])
              && (r.Ok? <==> j == |order|)
              && (r.Err? ==> r == Err(UnsupportedDescriptorType(resources[order[j]].layout.descriptorType)))
      ensures r.Ok? <==> AllUniform(resources)
      ensures r.Ok? ==> r.value == Handle(|old(device.calls)|)
    {
      ghost var before := device.calls;
      var dst := device.Issue(AllocateDescriptorSet(pool, layout));
      for j := 0 to |order|
        invariant forall i :: 0 <= i < j ==> IsUniform(resources[order[i]])
        invariant device.calls == before + [AllocateDescriptorSet(pool, layout)] + SetWrites(dst, resources, order[..j])
      {
        var e := resources[order[j]];
        if e.layout.descriptorType != UniformBuffer {
          FirstNonUniformAt(resources, order, j);
          return Err(UnsupportedDescriptorType(e.layout.descriptorType));
        }
        var w := DescriptorWrite(dst, order[j], e.layout.descriptorType, 1, InfoFor(e));
        var _ := device.Issue(UpdateDescriptorSet(w));
        assert order[..j + 1][..j] == order[..j];
      }
      FirstNonUniformAt(resources, order, |order|);
      return Ok(dst);
    }
  }
}
