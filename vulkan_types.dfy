/** The driver-side records the core reads. Every driver query of the
    original (`vkGetPhysicalDeviceProperties`, `...Features`,
    `...QueueFamilyProperties`, the surface and format queries) is replaced
    by one of these input values; handles are modelled by identities. */
module VulkanTypes {

  import opened Versions

  // `VkQueueFlagBits`.
  const QueueGraphicsBit: bv32 := 0x1
  const QueueComputeBit: bv32 := 0x2
  const QueueTransferBit: bv32 := 0x4

  datatype QueueFamily = QueueFamily(queueFlags: bv32, queueCount: nat)

  // `VkPhysicalDeviceType`.
  datatype DeviceType = OtherType | IntegratedGpu | DiscreteGpu | VirtualGpu | Cpu

  /** The six `VkPhysicalDeviceFeatures` members the configuration can name;
      `VK_TRUE` is `true`.  Every other member is left out of the model (the
      decoders only ever leave them zero). */
  datatype DeviceFeatures = DeviceFeatures(
    geometryShader: bool,
    sparseBinding: bool,
    tessellationShader: bool,
    wideLines: bool,
    shaderInt64: bool,
    shaderFloat64: bool)

  const NoFeatures := DeviceFeatures(false, false, false, false, false, false)

  /** One enumerated physical device: its properties, features and queue
      families as the driver reports them. */
  datatype PhysicalDevice = PhysicalDevice(
    deviceName: string,
    apiVersion: Word,
    vendorId: Word,
    deviceType: DeviceType,
    features: DeviceFeatures,
    queueFamilies: seq<QueueFamily>)

  /** A dispatchable or non-dispatchable handle; `NullHandle` is
      `VK_NULL_HANDLE`. */
  datatype Handle = NullHandle | Handle(id: nat)

  /** A `VkQueue`, identified by the (family, index) pair it was retrieved
      with from `vkGetDeviceQueue`. */
  datatype Queue = NullQueue | Queue(family: nat, index: nat)

  // `VkFormat` codes.
  type Format = nat
  const FormatUndefined: Format := 0
  const FormatB8G8R8A8Unorm: Format := 44
  const FormatD16Unorm: Format := 124
  const FormatD32Sfloat: Format := 126
  const FormatD16UnormS8Uint: Format := 128
  const FormatD24UnormS8Uint: Format := 129
  const FormatD32SfloatS8Uint: Format := 130

  // `VK_FORMAT_FEATURE_DEPTH_STENCIL_ATTACHMENT_BIT`.
  const FormatFeatureDepthStencilAttachmentBit: bv32 := 0x200

  /** A `VkSurfaceFormatKHR`. */
  datatype SurfaceFormat = SurfaceFormat(format: Format, colorSpace: nat)
}
