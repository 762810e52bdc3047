/** The slice of the Vulkan API that the descriptor code talks to.
    Handles are opaque integers, every call the modelled operations make on the device is
    appended to a ghost log, and what the driver answers (a result code and
    the handle it writes back) is an input of the call: the driver's own
    bookkeeping (pool capacity, validation) is not modelled. */
module Vulkan {

  /** `uint32_t`. */
  newtype u32 = x: int | 0 <= x < 0x1_0000_0000

  /** `static_cast<uint32_t>` of a container size: the size modulo 2^32. */
  function ToU32(n: nat): (r: u32)
    ensures n < 0x1_0000_0000 ==> r as int == n
    ensures r as int <= n
  {
    (n % 0x1_0000_0000) as u32
  }

  /** A non-dispatchable handle (`VkDescriptorSetLayout`, `VkDescriptorPool`,
      `VkDescriptorSet`, ...); 0 is `VK_NULL_HANDLE`. */
  type Handle = nat
  const NULL_HANDLE: Handle := 0

  /** `VkResult`: 0 is `VK_SUCCESS`, errors are negative. */
  type VkResult = int
  const VK_SUCCESS: VkResult := 0

  /** `VkDescriptorType`. A value-initialised record holds 0, `VK_DESCRIPTOR_TYPE_SAMPLER`. */
  type DescriptorType = int
  const DESCRIPTOR_TYPE_SAMPLER: DescriptorType := 0

  /** `VkShaderStageFlags`, `VkDescriptorPoolCreateFlags`: plain bit masks. */
  type ShaderStageFlags = u32
  type DescriptorPoolCreateFlags = u32

  /** `VkDescriptorSetLayoutBinding` (its immutable-sampler pointer is always null here). */
  datatype LayoutBinding = LayoutBinding(
    binding: u32,
    descriptorType: DescriptorType,
    descriptorCount: u32,
    stageFlags: ShaderStageFlags)

  /** `VkDescriptorSetLayoutBinding{}`: every member zero. */
  const ZERO_LAYOUT_BINDING := LayoutBinding(0, DESCRIPTOR_TYPE_SAMPLER, 0, 0)

  /** `VkDescriptorPoolSize`. */
  datatype PoolSize = PoolSize(descriptorType: DescriptorType, descriptorCount: u32)

  /** The caller-owned `VkDescriptorBufferInfo*` or `VkDescriptorImageInfo*` a write
      points at, as an opaque address. */
  datatype ResourceInfo = BufferInfo(bufferInfo: nat) | ImageInfo(imageInfo: nat)

  /** `VkWriteDescriptorSet` (array element 0, no texel-buffer view). */
  datatype WriteDescriptorSet = WriteDescriptorSet(
    dstSet: Handle,
    dstBinding: u32,
    descriptorCount: u32,
    descriptorType: DescriptorType,
    info: ResourceInfo)

  datatype DescriptorSetLayoutCreateInfo = DescriptorSetLayoutCreateInfo(
    bindingCount: u32,
    bindings: seq<LayoutBinding>)

  datatype DescriptorPoolCreateInfo = DescriptorPoolCreateInfo(
    poolSizeCount: u32,
    poolSizes: seq<PoolSize>,
    maxSets: u32,
    flags: DescriptorPoolCreateFlags)

  datatype DescriptorSetAllocateInfo = DescriptorSetAllocateInfo(
    descriptorPool: Handle,
    descriptorSetCount: u32,
    setLayouts: seq<Handle>)

  /** One entry point called on the device, with what was passed to it. */
  datatype DeviceCall =
    | VkCreateDescriptorSetLayout(layoutInfo: DescriptorSetLayoutCreateInfo)
    | VkCreateDescriptorPool(poolInfo: DescriptorPoolCreateInfo)
    | VkAllocateDescriptorSets(allocInfo: DescriptorSetAllocateInfo)
    | VkUpdateDescriptorSets(descriptorWriteCount: u32, descriptorWrites: seq<WriteDescriptorSet>)
    | VkFreeDescriptorSets(pool: Handle, descriptorSetCount: u32, descriptorSets: seq<Handle>)
    | VkResetDescriptorPool(pool: Handle, resetFlags: u32)

  /** What the driver reports for a call that creates or allocates something:
      its result code and the handle it wrote to the out-parameter. */
  datatype DeviceAnswer = DeviceAnswer(result: VkResult, handle: Handle)

  /** The logical device. `calls` is the history of descriptor entry points the
      code has invoked on it, oldest first. */
  class Device {
    const device: Handle
    ghost var calls: seq<DeviceCall>

    constructor (device: Handle)
      ensures this.device == device && calls == []
    {
      this.device := device;
      calls := [];
    }

    method CreateDescriptorSetLayout(info: DescriptorSetLayoutCreateInfo, answer: DeviceAnswer)
      returns (result: VkResult, layout: Handle)
      modifies this`calls
      ensures calls == old(calls) + [VkCreateDescriptorSetLayout(info)]
      ensures result == answer.result && layout == answer.handle
    {
      calls := calls + [VkCreateDescriptorSetLayout(info)];
      result, layout := answer.result, answer.handle;
    }

    method CreateDescriptorPool(info: DescriptorPoolCreateInfo, answer: DeviceAnswer)
      returns (result: VkResult, pool: Handle)
      modifies this`calls
      ensures calls == old(calls) + [VkCreateDescriptorPool(info)]
      ensures result == answer.result && pool == answer.handle
    {
      calls := calls + [VkCreateDescriptorPool(info)];
      result, pool := answer.result, answer.handle;
    }

    method AllocateDescriptorSets(info: DescriptorSetAllocateInfo, answer: DeviceAnswer)
      returns (result: VkResult, descriptorSet: Handle)
      modifies this`calls
      ensures calls == old(calls) + [VkAllocateDescriptorSets(info)]
      ensures result == answer.result && descriptorSet == answer.handle
    {
      calls := calls + [VkAllocateDescriptorSets(info)];
      result, descriptorSet := answer.result, answer.handle;
    }

    /** Called with no descriptor copies. */
    method UpdateDescriptorSets(writeCount: u32, writes: seq<WriteDescriptorSet>)
      modifies this`calls
      ensures calls == old(calls) + [VkUpdateDescriptorSets(writeCount, writes)]
    {
      calls := calls + [VkUpdateDescriptorSets(writeCount, writes)];
    }

    method FreeDescriptorSets(pool: Handle, count: u32, sets: seq<Handle>)
      modifies this`calls
      ensures calls == old(calls) + [VkFreeDescriptorSets(pool, count, sets)]
    {
      calls := calls + [VkFreeDescriptorSets(pool, count, sets)];
    }

    method ResetDescriptorPool(pool: Handle, flags: u32)
      modifies this`calls
      ensures calls == old(calls) + [VkResetDescriptorPool(pool, flags)]
    {
      calls := calls + [VkResetDescriptorPool(pool, flags)];
    }
  }
}
