/**
 * The standard requests of the default pipe: `usb_setAddress`, `usb_getDescriptor`
 * with its two wrappers the driver uses, `usb_setConfiguration` and
 * `usb_setInterface`. Each builds its setup packet and runs it through `Request`,
 * which deletes the queue `usb_control` built.
 */
module Requests {
  import opened Usb
  import opened Memory
  import opened Ehci
  import opened Queues
  import opened Usbd
  import opened Transfers

  /** `usb_setAddress`: SET_ADDRESS to `address`, no data stage. */
  method SetAddress(ctx: Context, dev: Device, ep: Endpoint, address: bv8) returns (retval: int)
    requires Valid(ctx)
    modifies ctx`queues, ctx`ring, ctx.ring`next, ctx.ring`prev, ctx.hc`qhs, ctx.hc`qtds, ctx.hc`log
    modifies ctx.heap`live, ctx.heap`pending, ctx.heap`dma
    ensures Valid(ctx)
    ensures retval == EOK || retval == -ENOMEM
    ensures ctx.ring == old(ctx.ring)
    ensures Live(ctx.hc, ctx.heap, old(ctx.hc.qhs), old(ctx.hc.qtds), old(ctx.heap.live))
    ensures ctx.heap.pending == old(ctx.heap.pending) && ctx.heap.dma == old(ctx.heap.dma)
    ensures Steps(ctx.hc.log)
            == Steps(old(ctx.hc.log)) + RequestSteps(retval == EOK, SetAddressPacket(address), old(TargetOf(dev, ep)))
  {
    retval := Request(ctx, dev, ep, SetAddressPacket(address), NoBuffer, 0);
  }

  /** `usb_getDescriptor`: GET_DESCRIPTOR of `size` bytes of descriptor `descriptor`
      number `index` into `buffer`; the data stage is IN. */
  method GetDescriptor(ctx: Context, dev: Device, ep: Endpoint, descriptor: bv8, index: bv8,
                       buffer: Address, size: bv16)
    returns (retval: int)
    requires Valid(ctx)
    modifies ctx`queues, ctx`ring, ctx.ring`next, ctx.ring`prev, ctx.hc`qhs, ctx.hc`qtds, ctx.hc`log
    modifies ctx.heap`live, ctx.heap`pending, ctx.heap`dma
    ensures Valid(ctx)
    ensures retval == EOK || retval == -ENOMEM
    ensures ctx.ring == old(ctx.ring)
    ensures Live(ctx.hc, ctx.heap, old(ctx.hc.qhs), old(ctx.hc.qtds), old(ctx.heap.live))
    ensures ctx.heap.pending == old(ctx.heap.pending) && ctx.heap.dma == old(ctx.heap.dma)
    ensures Steps(ctx.hc.log) == Steps(old(ctx.hc.log))
              + RequestSteps(retval == EOK, GetDescriptorPacket(descriptor, index, size), old(TargetOf(dev, ep)))
  {
    retval := Request(ctx, dev, ep, GetDescriptorPacket(descriptor, index, size), DataBuffer(buffer), size as int);
  }

  /** `usb_getConfigurationDescriptor`: the first `length` bytes of configuration `index`. */
  method GetConfigurationDescriptor(ctx: Context, dev: Device, ep: Endpoint, desc: Address, index: bv8, length: bv16)
    returns (retval: int)
    requires Valid(ctx)
    modifies ctx`queues, ctx`ring, ctx.ring`next, ctx.ring`prev, ctx.hc`qhs, ctx.hc`qtds, ctx.hc`log
    modifies ctx.heap`live, ctx.heap`pending, ctx.heap`dma
    ensures Valid(ctx)
    ensures retval == EOK || retval == -ENOMEM
    ensures ctx.ring == old(ctx.ring)
    ensures Live(ctx.hc, ctx.heap, old(ctx.hc.qhs), old(ctx.hc.qtds), old(ctx.heap.live))
    ensures ctx.heap.pending == old(ctx.heap.pending) && ctx.heap.dma == old(ctx.heap.dma)
    ensures Steps(ctx.hc.log) == Steps(old(ctx.hc.log))
              + RequestSteps(retval == EOK, GetDescriptorPacket(DESC_CONFIG, index, length), old(TargetOf(dev, ep)))
  {
    retval := GetDescriptor(ctx, dev, ep, DESC_CONFIG, index, desc, length);
  }

  /** `usb_getDeviceDescriptor`: the whole 18-byte device descriptor. */
  method GetDeviceDescriptor(ctx: Context, dev: Device, ep: Endpoint, desc: Address) returns (retval: int)
    requires Valid(ctx)
    modifies ctx`queues, ctx`ring, ctx.ring`next, ctx.ring`prev, ctx.hc`qhs, ctx.hc`qtds, ctx.hc`log
    modifies ctx.heap`live, ctx.heap`pending, ctx.heap`dma
    ensures Valid(ctx)
    ensures retval == EOK || retval == -ENOMEM
    ensures ctx.ring == old(ctx.ring)
    ensures Live(ctx.hc, ctx.heap, old(ctx.hc.qhs), old(ctx.hc.qtds), old(ctx.heap.live))
    ensures ctx.heap.pending == old(ctx.heap.pending) && ctx.heap.dma == old(ctx.heap.dma)
    ensures Steps(ctx.hc.log) == Steps(old(ctx.hc.log))
              + RequestSteps(retval == EOK, GetDescriptorPacket(DESC_DEVICE, 0, DEVICE_DESC_SIZE), old(TargetOf(dev, ep)))
  {
    retval := GetDescriptor(ctx, dev, ep, DESC_DEVICE, 0, desc, DEVICE_DESC_SIZE);
  }

  /** `usb_setConfiguration`: SET_CONFIGURATION to `value`, no data stage. */
  method SetConfiguration(ctx: Context, dev: Device, ep: Endpoint, value: bv16) returns (retval: int)
    requires Valid(ctx)
    modifies ctx`queues, ctx`ring, ctx.ring`next, ctx.ring`prev, ctx.hc`qhs, ctx.hc`qtds, ctx.hc`log
    modifies ctx.heap`live, ctx.heap`pending, ctx.heap`dma
    ensures Valid(ctx)
    ensures retval == EOK || retval == -ENOMEM
    ensures ctx.ring == old(ctx.ring)
    ensures Live(ctx.hc, ctx.heap, old(ctx.hc.qhs), old(ctx.hc.qtds), old(ctx.heap.live))
    ensures ctx.heap.pending == old(ctx.heap.pending) && ctx.heap.dma == old(ctx.heap.dma)
    ensures Steps(ctx.hc.log)
            == Steps(old(ctx.hc.log)) + RequestSteps(retval == EOK, SetConfigurationPacket(value), old(TargetOf(dev, ep)))
  {
    retval := Request(ctx, dev, ep, SetConfigurationPacket(value), NoBuffer, 0);
  }

  /** `usb_setInterface`: SET_INTERFACE of interface `index` to setting `alt`. */
  method SetInterface(ctx: Context, dev: Device, ep: Endpoint, alt: bv16, index: bv16) returns (retval: int)
    requires Valid(ctx)
    modifies ctx`queues, ctx`ring, ctx.ring`next, ctx.ring`prev, ctx.hc`qhs, ctx.hc`qtds, ctx.hc`log
    modifies ctx.heap`live, ctx.heap`pending, ctx.heap`dma
    ensures Valid(ctx)
    ensures retval == EOK || retval == -ENOMEM
    ensures ctx.ring == old(ctx.ring)
    ensures Live(ctx.hc, ctx.heap, old(ctx.hc.qhs), old(ctx.hc.qtds), old(ctx.heap.live))
    ensures ctx.heap.pending == old(ctx.heap.pending) && ctx.heap.dma == old(ctx.heap.dma)
    ensures Steps(ctx.hc.log)
            == Steps(old(ctx.hc.log)) + RequestSteps(retval == EOK, SetInterfacePacket(alt, index), old(TargetOf(dev, ep)))
  {
    retval := Request(ctx, dev, ep, SetInterfacePacket(alt, index), NoBuffer, 0);
  }
}
