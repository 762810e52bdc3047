/** Descriptor set layouts, descriptor pools and the descriptor writer
    (src/engine/vulkan/descriptors.cpp): two builders that accumulate a
    declaration, the two objects they create on the device, and a writer that
    stages descriptor writes and submits them to one allocated set. */
module Descriptors {
  import opened Vulkan

  // ---------------------------------------------------------------------------
  // DescriptorSetLayout::Builder
  // ---------------------------------------------------------------------------

  /** The binding map after `add_binding` is called once per record of `records`,
      in order, on a builder whose map was `m`. */
  function AddAll(m: map<u32, LayoutBinding>, records: seq<LayoutBinding>): map<u32, LayoutBinding>
    decreases |records|
  {
    if records == [] then m
    else
      var last := records[|records| - 1];
      AddAll(m, records[..|records| - 1])[last.binding := last]
  }

  /** Last write wins: after a series of `add_binding` calls, a slot holds the
      record of the last call that named it, slots no call named keep what they
      held, and the slots present are the old ones plus the named ones. */
  lemma {:induction false} LastBindingWins(m: map<u32, LayoutBinding>, records: seq<LayoutBinding>, b: u32)
    ensures b in AddAll(m, records) <==> b in m || exists i :: 0 <= i < |records| && records[i].binding == b
    ensures forall i :: 0 <= i < |records| && records[i].binding == b &&
                        (forall j :: i < j < |records| ==> records[j].binding != b)
                    ==> b in AddAll(m, records) && AddAll(m, records)[b] == records[i]
    ensures (forall i :: 0 <= i < |records| ==> records[i].binding != b) && b in m
            ==> b in AddAll(m, records) && AddAll(m, records)[b] == m[b]
    decreases |records|
  {
    if records != [] {
      var n := |records| - 1;
      var init := records[..n];
      LastBindingWins(m, init, b);
      assert forall i :: 0 <= i < n ==> records[i] == init[i];
      if records[n].binding != b {
        forall i | 0 <= i < |records| && records[i].binding == b &&
                   (forall j :: i < j < |records| ==> records[j].binding != b)
          ensures b in AddAll(m, records) && AddAll(m, records)[b] == records[i]
        {
          assert i < n;
          assert forall j :: i < j < n ==> init[j].binding != b;
        }
      }
    }
  }

  /** `DescriptorSetLayout::Builder`: accumulates binding slots by index. */
  class DescriptorSetLayoutBuilder {
    const device: Device
    var bindings: map<u32, LayoutBinding>

    constructor (device: Device)
      ensures this.device == device && bindings == map[]
    {
      this.device := device;
      bindings := map[];
    }

    /** Stores the record at its own index; a slot added again is overwritten. */
    method AddBinding(binding: u32, descriptorType: DescriptorType, stageFlags: ShaderStageFlags, count: u32)
      modifies this`bindings
      ensures bindings.Keys == old(bindings).Keys + {binding}
      ensures bindings[binding] == LayoutBinding(binding, descriptorType, count, stageFlags)
      ensures forall k :: k in old(bindings) && k != binding ==> bindings[k] == old(bindings)[k]
      ensures bindings == AddAll(old(bindings), [LayoutBinding(binding, descriptorType, count, stageFlags)])
    {
      var layoutBinding := LayoutBinding(binding, descriptorType, count, stageFlags);
      bindings := bindings[binding := layoutBinding];
    }

    /** Creates the layout from a copy of the accumulated map; the builder is unchanged. */
    method Build(answer: DeviceAnswer) returns (layout: DescriptorSetLayout)
      requires answer.result == VK_SUCCESS
      modifies device`calls
      ensures fresh(layout) && layout.device == device && layout.bindings == bindings
      ensures layout.descriptorSetLayout == answer.handle
      ensures layout.createInfo.bindingCount == ToU32(|bindings|)
      ensures Enumerates(layout.createInfo.bindings, bindings, layout.entryOrder)
      ensures device.calls == old(device.calls) + [VkCreateDescriptorSetLayout(layout.createInfo)]
    {
      layout := new DescriptorSetLayout(device, bindings, answer);
    }
  }

  // ---------------------------------------------------------------------------
  // DescriptorSetLayout
  // ---------------------------------------------------------------------------

  /** `list` holds exactly one record per entry of `m`: entry `order[i]` is at
      position `i`, and every key appears once. */
  ghost predicate Enumerates(list: seq<LayoutBinding>, m: map<u32, LayoutBinding>, order: seq<u32>)
  {
    && |order| == |list|
    && (forall i, j :: 0 <= i < j < |order| ==> order[i] != order[j])
    && (forall i :: 0 <= i < |order| ==> order[i] in m && list[i] == m[order[i]])
    && (forall k :: k in m ==> k in order)
  }

  /** The walk over the `unordered_map` in the layout constructor: its order is
      unspecified, so each step takes any key not yet visited. */
  method CollectBindings(bindings: map<u32, LayoutBinding>) returns (list: seq<LayoutBinding>, ghost order: seq<u32>)
    ensures Enumerates(list, bindings, order)
    ensures |list| == |bindings|
  {
    list, order := [], [];
    var rest := bindings.Keys;
    while rest != {}
      invariant rest <= bindings.Keys
      invariant |order| == |list| && |order| + |rest| == |bindings|
      invariant forall i, j :: 0 <= i < j < |order| ==> order[i] != order[j]
      invariant forall i :: 0 <= i < |order| ==> order[i] in bindings && order[i] !in rest && list[i] == bindings[order[i]]
      invariant forall k :: k in bindings && k !in rest ==> k in order
      decreases rest
    {
      var k :| k in rest;
      list := list + [bindings[k]];
      order := order + [k];
      rest := rest - {k};
    }
  }

  /** `DescriptorSetLayout`: keeps its own copy of the binding map and the
      device-level layout created from it. */
  class DescriptorSetLayout {
    const device: Device
    var bindings: map<u32, LayoutBinding>
    const descriptorSetLayout: Handle
    /** What was passed to the driver, and the map key each of its bindings came from. */
    ghost const createInfo: DescriptorSetLayoutCreateInfo
    ghost const entryOrder: seq<u32>

    /** The process exits when creation fails, so only a successful creation returns. */
    constructor (device: Device, bindings: map<u32, LayoutBinding>, answer: DeviceAnswer)
      requires answer.result == VK_SUCCESS
      modifies device`calls
      ensures this.device == device && this.bindings == bindings
      ensures descriptorSetLayout == answer.handle
      ensures createInfo.bindingCount == ToU32(|bindings|)
      ensures Enumerates(createInfo.bindings, bindings, entryOrder)
      ensures device.calls == old(device.calls) + [VkCreateDescriptorSetLayout(createInfo)]
    {
      this.device := device;
      this.bindings := bindings;
      var setLayoutBindings, order := CollectBindings(bindings);
      var info := DescriptorSetLayoutCreateInfo(ToU32(|setLayoutBindings|), setLayoutBindings);
      var result, handle := device.CreateDescriptorSetLayout(info, answer);
      descriptorSetLayout := handle;
      createInfo := info;
      entryOrder := order;
    }
  }

  // ---------------------------------------------------------------------------
  // DescriptorPool::Builder and DescriptorPool
  // ---------------------------------------------------------------------------

  /** `DescriptorPool::Builder`. Its initial `max_sets` and `pool_flags` are
      declared outside the modelled file, so they are constructor arguments. */
  class DescriptorPoolBuilder {
    const device: Device
    var poolSizes: seq<PoolSize>
    var maxSets: u32
    var poolFlags: DescriptorPoolCreateFlags

    constructor (device: Device, maxSets: u32, poolFlags: DescriptorPoolCreateFlags)
      ensures this.device == device && poolSizes == []
      ensures this.maxSets == maxSets && this.poolFlags == poolFlags
    {
      this.device := device;
      poolSizes := [];
      this.maxSets := maxSets;
      this.poolFlags := poolFlags;
    }

    /** Appends one entry; entries for the same type are kept apart. */
    method AddPoolSize(descriptorType: DescriptorType, count: u32)
      modifies this`poolSizes
      ensures poolSizes == old(poolSizes) + [PoolSize(descriptorType, count)]
    {
      poolSizes := poolSizes + [PoolSize(descriptorType, count)];
    }

    method SetPoolFlags(flags: DescriptorPoolCreateFlags)
      modifies this`poolFlags
      ensures poolFlags == flags
    {
      poolFlags := flags;
    }

    method SetMaxSets(count: u32)
      modifies this`maxSets
      ensures maxSets == count
    {
      maxSets := count;
    }

    method Build(answer: DeviceAnswer) returns (pool: DescriptorPool)
      requires answer.result == VK_SUCCESS
      modifies device`calls
      ensures fresh(pool) && pool.device == device && pool.descriptorPool == answer.handle
      ensures device.calls == old(device.calls) +
        [VkCreateDescriptorPool(DescriptorPoolCreateInfo(ToU32(|poolSizes|), poolSizes, maxSets, poolFlags))]
    {
      pool := new DescriptorPool(device, maxSets, poolFlags, poolSizes, answer);
    }
  }

  /** `DescriptorPool`: the device-level pool; capacity is the driver's business. */
  class DescriptorPool {
    const device: Device
    const descriptorPool: Handle

    /** The process exits when creation fails, so only a successful creation returns. */
    constructor (device: Device, maxSets: u32, poolFlags: DescriptorPoolCreateFlags,
                 poolSizes: seq<PoolSize>, answer: DeviceAnswer)
      requires answer.result == VK_SUCCESS
      modifies device`calls
      ensures this.device == device && descriptorPool == answer.handle
      ensures device.calls == old(device.calls) +
        [VkCreateDescriptorPool(DescriptorPoolCreateInfo(ToU32(|poolSizes|), poolSizes, maxSets, poolFlags))]
    {
      this.device := device;
      var info := DescriptorPoolCreateInfo(ToU32(|poolSizes|), poolSizes, maxSets, poolFlags);
      var result, handle := device.CreateDescriptorPool(info, answer);
      descriptorPool := handle;
    }

    /** Asks for exactly one set of the given layout; true iff the driver succeeded.
        The set handle is whatever the driver wrote to the out-parameter. */
    method AllocateDescriptor(descriptorSetLayout: Handle, answer: DeviceAnswer) returns (ok: bool, descriptor: Handle)
      modifies device`calls
      ensures device.calls == old(device.calls) +
        [VkAllocateDescriptorSets(DescriptorSetAllocateInfo(descriptorPool, 1, [descriptorSetLayout]))]
      ensures ok <==> answer.result == VK_SUCCESS
      ensures descriptor == answer.handle
    {
      var info := DescriptorSetAllocateInfo(descriptorPool, 1, [descriptorSetLayout]);
      var result;
      result, descriptor := device.AllocateDescriptorSets(info, answer);
      ok := result == VK_SUCCESS;
    }

    method FreeDescriptors(descriptors: seq<Handle>)
      modifies device`calls
      ensures device.calls == old(device.calls) +
        [VkFreeDescriptorSets(descriptorPool, ToU32(|descriptors|), descriptors)]
    {
      device.FreeDescriptorSets(descriptorPool, ToU32(|descriptors|), descriptors);
    }

    method ResetPool()
      modifies device`calls
      ensures device.calls == old(device.calls) + [VkResetDescriptorPool(descriptorPool, 0)]
    {
      device.ResetDescriptorPool(descriptorPool, 0);
    }
  }

  // ---------------------------------------------------------------------------
  // DescriptorWriter
  // ---------------------------------------------------------------------------

  /** `bindings[binding]` on an `unordered_map`: a missing slot is inserted
      holding a value-initialised record; present slots are left as they are. */
  function InsertDefault(bindings: map<u32, LayoutBinding>, binding: u32): (r: map<u32, LayoutBinding>)
    ensures r.Keys == bindings.Keys + {binding}
    ensures forall k :: k in bindings ==> r[k] == bindings[k]
    ensures binding !in bindings ==> r[binding] == ZERO_LAYOUT_BINDING
  {
    if binding in bindings then bindings else bindings[binding := ZERO_LAYOUT_BINDING]
  }

  /** A staged write agrees with a binding map: its slot is a key, it carries
      that slot's type, and it writes one descriptor. */
  ghost predicate AgreesWith(write: WriteDescriptorSet, bindings: map<u32, LayoutBinding>)
  {
    && write.dstBinding in bindings
    && write.descriptorType == bindings[write.dstBinding].descriptorType
    && write.descriptorCount == 1
  }

  /** The pending writes with every destination set replaced by `descriptorSet`. */
  function Retarget(writes: seq<WriteDescriptorSet>, descriptorSet: Handle): seq<WriteDescriptorSet>
    decreases |writes|
  {
    if writes == [] then []
    else Retarget(writes[..|writes| - 1], descriptorSet) + [writes[|writes| - 1].(dstSet := descriptorSet)]
  }

  /** Retargeting keeps the number and order of the writes and changes nothing
      in a write but its destination set. */
  lemma {:induction false} RetargetAt(writes: seq<WriteDescriptorSet>, descriptorSet: Handle, i: nat)
    requires i < |writes|
    ensures |Retarget(writes, descriptorSet)| == |writes|
    ensures Retarget(writes, descriptorSet)[i] == writes[i].(dstSet := descriptorSet)
    decreases |writes|
  {
    var n := |writes| - 1;
    if i < n {
      RetargetAt(writes[..n], descriptorSet, i);
    } else if n > 0 {
      RetargetAt(writes[..n], descriptorSet, 0);
    }
  }

  /** Of two overwrites in a row, the later set is the one the writes end up with. */
  lemma {:induction false} RetargetLastSetWins(writes: seq<WriteDescriptorSet>, first: Handle, second: Handle)
    ensures Retarget(Retarget(writes, first), second) == Retarget(writes, second)
    decreases |writes|
  {
    if writes != [] {
      var n := |writes| - 1;
      RetargetLastSetWins(writes[..n], first, second);
      var once := Retarget(writes, first);
      RetargetAt(writes, first, n);
      assert once[..n] == Retarget(writes[..n], first);
    }
  }

  /** Overwriting twice with the same set leaves the pending writes as the first overwrite did. */
  lemma {:induction false} RetargetIdempotent(writes: seq<WriteDescriptorSet>, descriptorSet: Handle)
    ensures Retarget(Retarget(writes, descriptorSet), descriptorSet) == Retarget(writes, descriptorSet)
  {
    RetargetLastSetWins(writes, descriptorSet, descriptorSet);
  }

  /** Retargeting never breaks agreement with the layout's binding map. */
  lemma {:induction false} RetargetAgrees(writes: seq<WriteDescriptorSet>, descriptorSet: Handle, bindings: map<u32, LayoutBinding>)
    requires forall i :: 0 <= i < |writes| ==> AgreesWith(writes[i], bindings)
    ensures forall i :: 0 <= i < |Retarget(writes, descriptorSet)| ==> AgreesWith(Retarget(writes, descriptorSet)[i], bindings)
  {
    forall i | 0 <= i < |Retarget(writes, descriptorSet)|
      ensures AgreesWith(Retarget(writes, descriptorSet)[i], bindings)
    {
      if writes == [] {
        assert false;
      }
      RetargetAt(writes, descriptorSet, 0);
      RetargetAt(writes, descriptorSet, i);
    }
  }

  /** `DescriptorWriter`: stages writes for one layout and one pool. */
  class DescriptorWriter {
    const setLayout: DescriptorSetLayout
    const pool: DescriptorPool
    var writes: seq<WriteDescriptorSet>

    /** Every staged write agrees with the layout's binding map. */
    ghost predicate Valid()
      reads this, setLayout
    {
      forall i :: 0 <= i < |writes| ==> AgreesWith(writes[i], setLayout.bindings)
    }

    constructor (setLayout: DescriptorSetLayout, pool: DescriptorPool)
      ensures this.setLayout == setLayout && this.pool == pool
      ensures writes == [] && Valid()
    {
      this.setLayout := setLayout;
      this.pool := pool;
      writes := [];
    }

    /** Stages one buffer write at the end, typed by the layout's slot (inserted
        with type 0 when the slot is absent). */
    method WriteToBuffer(binding: u32, bufferInfo: nat)
      modifies this`writes, setLayout`bindings
      ensures setLayout.bindings == InsertDefault(old(setLayout.bindings), binding)
      ensures writes == old(writes) +
        [WriteDescriptorSet(NULL_HANDLE, binding, 1, setLayout.bindings[binding].descriptorType, BufferInfo(bufferInfo))]
      ensures old(Valid()) ==> Valid()
    {
      setLayout.bindings := InsertDefault(setLayout.bindings, binding);
      var bindingDescription := setLayout.bindings[binding];
      var write := WriteDescriptorSet(NULL_HANDLE, binding, 1, bindingDescription.descriptorType, BufferInfo(bufferInfo));
      writes := writes + [write];
    }

    /** Stages one image write at the end, typed by the layout's slot (inserted
        with type 0 when the slot is absent). */
    method WriteImage(binding: u32, imageInfo: nat)
      modifies this`writes, setLayout`bindings
      ensures setLayout.bindings == InsertDefault(old(setLayout.bindings), binding)
      ensures writes == old(writes) +
        [WriteDescriptorSet(NULL_HANDLE, binding, 1, setLayout.bindings[binding].descriptorType, ImageInfo(imageInfo))]
      ensures old(Valid()) ==> Valid()
    {
      setLayout.bindings := InsertDefault(setLayout.bindings, binding);
      var bindingDescription := setLayout.bindings[binding];
      var write := WriteDescriptorSet(NULL_HANDLE, binding, 1, bindingDescription.descriptorType, ImageInfo(imageInfo));
      writes := writes + [write];
    }

    /** Allocates one set and, only when that succeeds, applies every pending write to it. */
    method Build(answer: DeviceAnswer) returns (ok: bool, descriptorSet: Handle)
      modifies this`writes, pool.device`calls
      ensures ok <==> answer.result == VK_SUCCESS
      ensures descriptorSet == answer.handle
      ensures var allocate := VkAllocateDescriptorSets(
                DescriptorSetAllocateInfo(pool.descriptorPool, 1, [setLayout.descriptorSetLayout]));
              if ok then
                && writes == Retarget(old(writes), descriptorSet)
                && pool.device.calls == old(pool.device.calls) + [allocate, VkUpdateDescriptorSets(ToU32(|writes|), writes)]
              else
                && writes == old(writes)
                && pool.device.calls == old(pool.device.calls) + [allocate]
      ensures old(Valid()) ==> Valid()
    {
      ok, descriptorSet := pool.AllocateDescriptor(setLayout.descriptorSetLayout, answer);
      if !ok {
        return;
      }
      Overwrite(descriptorSet);
    }

    /** Points every pending write at `descriptorSet`, in place, and submits them all in one update. */
    method Overwrite(descriptorSet: Handle)
      modifies this`writes, pool.device`calls
      ensures writes == Retarget(old(writes), descriptorSet)
      ensures pool.device.calls == old(pool.device.calls) + [VkUpdateDescriptorSets(ToU32(|writes|), writes)]
      ensures old(Valid()) ==> Valid()
    {
      var i := 0;
      while i < |writes|
        invariant 0 <= i <= |writes| == |old(writes)|
        invariant writes[..i] == Retarget(old(writes)[..i], descriptorSet)
        invariant writes[i..] == old(writes)[i..]
        invariant pool.device.calls == old(pool.device.calls)
      {
        assert old(writes)[..i + 1][..i] == old(writes)[..i];
        writes := writes[i := writes[i].(dstSet := descriptorSet)];
        i := i + 1;
      }
      assert old(writes)[..i] == old(writes);
      if old(Valid()) {
        RetargetAgrees(old(writes), descriptorSet, setLayout.bindings);
      }
      pool.device.UpdateDescriptorSets(ToU32(|writes|), writes);
    }
  }
}
