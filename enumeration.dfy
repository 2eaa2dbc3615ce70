/**
 * Enumeration of a newly attached device (`usb_deviceAttach`) and the port
 * event handler (`usb_handleEvents`). The values the driver reads back from the
 * device (the descriptors the controller writes into its buffers) are parameters.
 */
module Enumeration {
  import opened Usb
  import opened Memory
  import opened Ehci
  import opened Queues
  import opened Usbd
  import opened Transfers
  import opened Requests

  /** The default pipe before the device has an address: address 0, endpoint 0,
      high speed and the given maximum packet size. */
  function DefaultPipe(address: int, maxPacketLen: int): Target
  {
    Target(address, 0, HighSpeed, maxPacketLen)
  }

  /** The protocol steps of an enumeration in which request i could be built
      exactly when `oks[i]`: port reset and wait; the device descriptor read with a
      maximum packet size of 64; port reset and an unbounded wait; then, with the
      maximum packet size the device announced, SET_ADDRESS 1 to address 0 and the
      two reads of the configuration descriptor from address 1, first its 9-byte
      header and then all `total` bytes. */
  function AttachSteps(oks: seq<bool>, mps: u8, total: bv16): seq<Step>
    requires |oks| == 4
  {
    [Reset, Wait(Timeout)]
    + RequestSteps(oks[0], GetDescriptorPacket(DESC_DEVICE, 0, DEVICE_DESC_SIZE), DefaultPipe(0, 64))
    + [Reset, Wait(Forever)]
    + RequestSteps(oks[1], SetAddressPacket(1), DefaultPipe(0, mps as int))
    + RequestSteps(oks[2], GetDescriptorPacket(DESC_CONFIG, 0, CONFIG_DESC_SIZE), DefaultPipe(1, mps as int))
    + RequestSteps(oks[3], GetDescriptorPacket(DESC_CONFIG, 0, total), DefaultPipe(1, mps as int))
  }

  /** Every request among the steps `s` before position `k` reads the 18-byte
      device descriptor from address 0 with a maximum packet size of 64. */
  ghost predicate ProbedBefore(s: seq<Step>, k: int)
  {
    forall i | 0 <= i < k && i < |s| && s[i].Setup? ::
      s[i] == Setup(GetDescriptorPacket(DESC_DEVICE, 0, DEVICE_DESC_SIZE), 0, 64)
  }

  /** Every request among the steps `s` after position `k` uses the maximum packet
      size `mps`; it goes to address 0 exactly when it is SET_ADDRESS 1, and to
      address 1 exactly when it reads the configuration descriptor; and once a
      request went to address 1, every later one does. */
  ghost predicate AddressedAfter(s: seq<Step>, k: int, mps: u8)
  {
    && (forall i | k < i < |s| && 0 <= i && s[i].Setup? ::
          && s[i].maxPacketLen == mps as int
          && (s[i].address == 0 <==> s[i].packet == SetAddressPacket(1))
          && (s[i].address == 1 <==> ValueHigh(s[i].packet) == DESC_CONFIG && s[i].packet.bRequest == GET_DESCRIPTOR))
    && (forall i, j | k < i < j < |s| && 0 <= i && s[i].Setup? && s[j].Setup? ::
          s[i].address == 1 ==> s[j].address == 1)
  }

  /** The splitting of the enumeration steps at the unbounded wait after the
      second reset. */
  lemma {:induction false} SplitAttach(oks: seq<bool>, mps: u8, total: bv16)
    requires |oks| == 4
    ensures var a := [Reset, Wait(Timeout)]
                     + RequestSteps(oks[0], GetDescriptorPacket(DESC_DEVICE, 0, DEVICE_DESC_SIZE), DefaultPipe(0, 64));
            var c := RequestSteps(oks[1], SetAddressPacket(1), DefaultPipe(0, mps as int))
                     + RequestSteps(oks[2], GetDescriptorPacket(DESC_CONFIG, 0, CONFIG_DESC_SIZE), DefaultPipe(1, mps as int))
                     + RequestSteps(oks[3], GetDescriptorPacket(DESC_CONFIG, 0, total), DefaultPipe(1, mps as int));
            AttachSteps(oks, mps, total) == a + [Reset, Wait(Forever)] + c
  {
  }

  /** The requests after the second reset: SET_ADDRESS 1 to address 0, then the
      configuration reads from address 1, all with maximum packet size `mps`. */
  lemma AssignSteps(oks: seq<bool>, mps: u8, total: bv16, r1: seq<Step>, r2: seq<Step>, r3: seq<Step>)
    requires |oks| == 4
    requires r1 == RequestSteps(oks[1], SetAddressPacket(1), DefaultPipe(0, mps as int))
    requires r2 == RequestSteps(oks[2], GetDescriptorPacket(DESC_CONFIG, 0, CONFIG_DESC_SIZE), DefaultPipe(1, mps as int))
    requires r3 == RequestSteps(oks[3], GetDescriptorPacket(DESC_CONFIG, 0, total), DefaultPipe(1, mps as int))
    ensures forall i | 0 <= i < |r1 + r2 + r3| && (r1 + r2 + r3)[i].Setup? ::
              && (r1 + r2 + r3)[i].maxPacketLen == mps as int
              && (i < |r1| ==> (r1 + r2 + r3)[i] == Setup(SetAddressPacket(1), 0, mps as int))
              && (i >= |r1| ==> && ValueHigh((r1 + r2 + r3)[i].packet) == DESC_CONFIG
                                && (r1 + r2 + r3)[i].packet.bRequest == GET_DESCRIPTOR
                                && (r1 + r2 + r3)[i].address == 1)
  {
    var c := r1 + r2 + r3;
    var p2, p3 := GetDescriptorPacket(DESC_CONFIG, 0, CONFIG_DESC_SIZE), GetDescriptorPacket(DESC_CONFIG, 0, total);
    forall i | 0 <= i < |c| && c[i].Setup?
      ensures c[i].maxPacketLen == mps as int
      ensures i < |r1| ==> c[i] == Setup(SetAddressPacket(1), 0, mps as int)
      ensures i >= |r1| ==> && ValueHigh(c[i].packet) == DESC_CONFIG && c[i].packet.bRequest == GET_DESCRIPTOR
                            && c[i].address == 1
    {
      if i < |r1| {
        assert c[i] == r1[i];
        RequestStepAt(oks[1], SetAddressPacket(1), DefaultPipe(0, mps as int), i);
      } else if i < |r1| + |r2| {
        assert c[i] == r2[i - |r1|];
        RequestStepAt(oks[2], p2, DefaultPipe(1, mps as int), i - |r1|);
      } else {
        assert c[i] == r3[i - |r1| - |r2|];
        RequestStepAt(oks[3], p3, DefaultPipe(1, mps as int), i - |r1| - |r2|);
      }
    }
  }

  /** A request among the steps of one standard request is that request. */
  lemma RequestStepAt(ok: bool, packet: SetupPacket, target: Target, j: int)
    requires 0 <= j < |RequestSteps(ok, packet, target)| && RequestSteps(ok, packet, target)[j].Setup?
    ensures RequestSteps(ok, packet, target)[j] == Setup(packet, target.address, target.maxPacketLen)
  {
  }

  /** The values `usb_deviceAttach` puts on the bus, whichever of its requests could
      be built: up to the unbounded wait after the second port reset the only
      request is the device-descriptor read from address 0 with a maximum packet
      size of 64; after it every request uses the announced `bMaxPacketSize0`,
      SET_ADDRESS 1 is the only request to address 0, and the configuration reads
      go to address 1 and come last. */
  lemma EnumerationValues(oks: seq<bool>, mps: u8, total: bv16)
    requires |oks| == 4
    ensures var s := AttachSteps(oks, mps, total);
            exists k :: 0 <= k < |s| && s[k] == Wait(Forever) && ProbedBefore(s, k) && AddressedAfter(s, k, mps)
  {
    var s := AttachSteps(oks, mps, total);
    var p0 := GetDescriptorPacket(DESC_DEVICE, 0, DEVICE_DESC_SIZE);
    var a := [Reset, Wait(Timeout)] + RequestSteps(oks[0], p0, DefaultPipe(0, 64));
    var r1 := RequestSteps(oks[1], SetAddressPacket(1), DefaultPipe(0, mps as int));
    var r2 := RequestSteps(oks[2], GetDescriptorPacket(DESC_CONFIG, 0, CONFIG_DESC_SIZE), DefaultPipe(1, mps as int));
    var r3 := RequestSteps(oks[3], GetDescriptorPacket(DESC_CONFIG, 0, total), DefaultPipe(1, mps as int));
    var c := r1 + r2 + r3;
    SplitAttach(oks, mps, total);
    var k := |a| + 1;
    assert s[k] == Wait(Forever);
    forall i | 0 <= i < k && i < |s| && s[i].Setup?
      ensures s[i] == Setup(p0, 0, 64)
    {
      assert s[i] == a[i];
    }
    assert forall i | 0 <= i < |c| :: s[k + 1 + i] == c[i];
    AssignSteps(oks, mps, total, r1, r2, r3);
    forall i | k < i < |s| && s[i].Setup?
      ensures s[i].maxPacketLen == mps as int
      ensures s[i].address == 0 <==> s[i].packet == SetAddressPacket(1)
      ensures s[i].address == 1 <==> ValueHigh(s[i].packet) == DESC_CONFIG && s[i].packet.bRequest == GET_DESCRIPTOR
    {
      assert s[i] == c[i - k - 1];
      assert SetAddressPacket(1).bRequest != GET_DESCRIPTOR;
    }
    forall i, j | k < i < j < |s| && s[i].Setup? && s[j].Setup? && s[i].address == 1
      ensures s[j].address == 1
    {
      assert s[i] == c[i - k - 1] && s[j] == c[j - k - 1];
    }
    assert ProbedBefore(s, k) && AddressedAfter(s, k, mps);
  }

  // Each step of the enumeration that changes state is a method of its own that
  // keeps the resource invariant, so that the invariant passes from call to call.

  /** The two `dma_alloc64` buffers for the device and the configuration descriptor. */
  method Buffers(ctx: Context) returns (ddesc: Address, cdesc: Address)
    requires Valid(ctx)
    modifies ctx.heap`dma
    ensures Valid(ctx) && ctx.heap.dma == old(ctx.heap.dma) + multiset{ddesc} + multiset{cdesc}
    ensures ddesc !in old(ctx.heap.dma) && cdesc !in old(ctx.heap.dma) && ddesc != cdesc
  {
    ddesc := AllocDma(ctx);
    cdesc := AllocDma(ctx);
  }

  /** `dma_free64` of both buffers and `munmap` of the configuration buffer, which
      leave the pool and the mappings as they were before the two DMA buffers
      (`dma`) and the configuration buffer (`mapped`) were allocated. */
  method Release(ctx: Context, ddesc: Address, cdesc: Address, buf: Address, cfgsz: nat,
                 ghost dma: multiset<Address>, ghost mapped: multiset<Address>)
    requires Valid(ctx)
    requires ctx.heap.dma == dma + multiset{ddesc} + multiset{cdesc}
    requires ctx.heap.mapped == mapped + multiset{buf}
    modifies ctx.heap`dma, ctx.heap`mapped
    ensures Valid(ctx) && ctx.heap.dma == dma && ctx.heap.mapped == mapped
  {
    CancelFirst(dma, ddesc, cdesc);
    FreeDma(ctx, ddesc);
    CancelLast(dma, cdesc);
    FreeDma(ctx, cdesc);
    CancelLast(mapped, buf);
    Unmap(ctx, buf, cfgsz);
  }

  lemma CancelLast(m: multiset<Address>, x: Address)
    ensures x in m + multiset{x} && m + multiset{x} - multiset{x} == m
  {
  }

  lemma CancelFirst(m: multiset<Address>, x: Address, y: Address)
    ensures x in m + multiset{x} + multiset{y}
    ensures m + multiset{x} + multiset{y} - multiset{x} == m + multiset{y}
  {
  }

  /** `ehci_resetPort` followed by `ehci_await(wait)`. */
  method ResetAndWait(ctx: Context, wait: Wait)
    requires Valid(ctx)
    modifies ctx.hc`log
    ensures Valid(ctx)
    ensures Steps(ctx.hc.log) == Steps(old(ctx.hc.log)) + [Reset, Wait(wait)]
  {
    ghost var log := ctx.hc.log;
    ctx.hc.ResetPort();
    var _ := ctx.hc.Await(wait);
    StepsSnoc(log, ResetCall);
    StepsSnoc(log + [ResetCall], AwaitCall(wait));
  }

  /** The zero-filled device and endpoint records `calloc` returns, set up as the
      default pipe with a maximum packet size of 64. */
  method NewRecords() returns (dev: Device, ep: Endpoint)
    ensures fresh(dev) && fresh(ep) && dev.endpoints == ep
    ensures dev.address == 0 && dev.descriptor == None && TargetOf(dev, ep) == DefaultPipe(0, 64)
  {
    dev := new Device();
    ep := new Endpoint();
    dev.endpoints := ep;
    ep.number, ep.speed, ep.maxPacketLen := 0, HighSpeed, 64;
  }

  /** `usbd_common.devices = dev`. */
  method Register(ctx: Context, dev: Device)
    requires Valid(ctx)
    modifies ctx`devices
    ensures Valid(ctx) && ctx.devices == dev
  {
    ctx.devices := dev;
  }

  /** The records of the default pipe, allocated and registered. */
  method NewPipe(ctx: Context) returns (dev: Device, ep: Endpoint)
    requires Valid(ctx)
    modifies ctx`devices, ctx.heap`live
    ensures Valid(ctx) && fresh(dev) && fresh(ep) && ctx.devices == dev && dev.endpoints == ep
    ensures dev.address == 0 && dev.descriptor == None && TargetOf(dev, ep) == DefaultPipe(0, 64)
    ensures ctx.heap.live == old(ctx.heap.live) + {dev, ep}
  {
    dev, ep := NewRecords();
    Adopt(ctx, dev);
    Register(ctx, dev);
    Adopt(ctx, ep);
  }

  /** Reset and wait, then the records of the default pipe. */
  method Start(ctx: Context) returns (dev: Device, ep: Endpoint)
    requires Valid(ctx)
    modifies ctx`devices, ctx.heap`live, ctx.hc`log
    ensures Valid(ctx) && fresh(dev) && fresh(ep) && ctx.devices == dev && dev.endpoints == ep
    ensures dev.address == 0 && dev.descriptor == None && TargetOf(dev, ep) == DefaultPipe(0, 64)
    ensures ctx.heap.live == old(ctx.heap.live) + {dev, ep}
    ensures Steps(ctx.hc.log) == Steps(old(ctx.hc.log)) + [Reset, Wait(Timeout)]
  {
    ResetAndWait(ctx, Timeout);
    dev, ep := NewPipe(ctx);
  }

  /** The device record keeps the descriptor buffer, and its endpoint takes the
      announced maximum packet size. */
  method Keep(ctx: Context, dev: Device, ep: Endpoint, ddesc: Address, bMaxPacketSize0: u8)
    requires Valid(ctx)
    modifies dev`descriptor, ep`maxPacketLen
    ensures Valid(ctx) && dev.descriptor == Some(ddesc)
    ensures TargetOf(dev, ep) == old(TargetOf(dev, ep)).(maxPacketLen := bMaxPacketSize0 as int)
  {
    dev.descriptor := Some(ddesc);
    ep.maxPacketLen := bMaxPacketSize0 as int;
  }

  /** The device descriptor read into `ddesc` with a maximum packet size of 64, the
      second reset with its unbounded wait, and the records updated with the
      descriptor buffer and the announced `bMaxPacketSize0`. */
  method Probe(ctx: Context, dev: Device, ep: Endpoint, ddesc: Address, bMaxPacketSize0: u8) returns (ghost ok: bool)
    requires Valid(ctx) && TargetOf(dev, ep) == DefaultPipe(0, 64)
    modifies ctx`queues, ctx`ring, ctx.ring`next, ctx.ring`prev, ctx.hc`qhs, ctx.hc`qtds, ctx.hc`log
    modifies ctx.heap`live, ctx.heap`pending, ctx.heap`dma, dev`descriptor, ep`maxPacketLen
    ensures Valid(ctx) && ctx.ring == old(ctx.ring)
    ensures Steps(ctx.hc.log) == Steps(old(ctx.hc.log))
              + RequestSteps(ok, GetDescriptorPacket(DESC_DEVICE, 0, DEVICE_DESC_SIZE), DefaultPipe(0, 64))
              + [Reset, Wait(Forever)]
    ensures dev.descriptor == Some(ddesc) && TargetOf(dev, ep) == DefaultPipe(0, bMaxPacketSize0 as int)
    ensures Live(ctx.hc, ctx.heap, old(ctx.hc.qhs), old(ctx.hc.qtds), old(ctx.heap.live))
    ensures ctx.heap.pending == old(ctx.heap.pending) && ctx.heap.dma == old(ctx.heap.dma)
  {
    var r := GetDeviceDescriptor(ctx, dev, ep, ddesc);
    ok := r == EOK;
    ResetAndWait(ctx, Forever);
    Keep(ctx, dev, ep, ddesc, bMaxPacketSize0);
  }

  /** SET_ADDRESS 1, after which the device record has address 1. */
  method Address(ctx: Context, dev: Device, ep: Endpoint, ghost mps: int) returns (ghost ok: bool)
    requires Valid(ctx) && TargetOf(dev, ep) == DefaultPipe(0, mps)
    modifies ctx`queues, ctx`ring, ctx.ring`next, ctx.ring`prev, ctx.hc`qhs, ctx.hc`qtds, ctx.hc`log
    modifies ctx.heap`live, ctx.heap`pending, ctx.heap`dma, dev`address
    ensures Valid(ctx) && ctx.ring == old(ctx.ring)
    ensures Steps(ctx.hc.log) == Steps(old(ctx.hc.log)) + RequestSteps(ok, SetAddressPacket(1), DefaultPipe(0, mps))
    ensures TargetOf(dev, ep) == DefaultPipe(1, mps)
    ensures Live(ctx.hc, ctx.heap, old(ctx.hc.qhs), old(ctx.hc.qtds), old(ctx.heap.live))
    ensures ctx.heap.pending == old(ctx.heap.pending) && ctx.heap.dma == old(ctx.heap.dma)
  {
    var r := SetAddress(ctx, dev, ep, 1);
    ok := r == EOK;
    dev.address := 1;
  }

  /** The configuration header read into `cdesc`, and the whole configuration read
      into a buffer mmapped with `cfgsz` bytes, `wTotalLength` rounded up to whole
      pages. */
  method Configure(ctx: Context, dev: Device, ep: Endpoint, cdesc: Address, wTotalLength: bv16, ghost target: Target)
    returns (buf: Address, cfgsz: bv32, ghost oks: seq<bool>)
    requires Valid(ctx) && TargetOf(dev, ep) == target
    modifies ctx`queues, ctx`ring, ctx.ring`next, ctx.ring`prev, ctx.hc`qhs, ctx.hc`qtds, ctx.hc`log
    modifies ctx.heap`live, ctx.heap`pending, ctx.heap`dma, ctx.heap`mapped
    ensures Valid(ctx) && ctx.ring == old(ctx.ring)
    ensures |oks| == 2 && Steps(ctx.hc.log) == Steps(old(ctx.hc.log))
              + RequestSteps(oks[0], GetDescriptorPacket(DESC_CONFIG, 0, CONFIG_DESC_SIZE), target)
              + RequestSteps(oks[1], GetDescriptorPacket(DESC_CONFIG, 0, wTotalLength), target)
    ensures cfgsz == RoundUpToPage(wTotalLength)
    ensures ctx.heap.mapped == old(ctx.heap.mapped) + multiset{buf}
    ensures Live(ctx.hc, ctx.heap, old(ctx.hc.qhs), old(ctx.hc.qtds), old(ctx.heap.live))
    ensures ctx.heap.pending == old(ctx.heap.pending) && ctx.heap.dma == old(ctx.heap.dma)
  {
    var r1 := GetConfigurationDescriptor(ctx, dev, ep, cdesc, 0, CONFIG_DESC_SIZE);
    cfgsz := RoundUpToPage(wTotalLength);
    buf := Map(ctx, cfgsz as nat);
    var r2 := GetConfigurationDescriptor(ctx, dev, ep, buf, 0, wTotalLength);
    oks := [r1 == EOK, r2 == EOK];
  }

  /** The first reset, the records of the default pipe, and the device descriptor
      read with a maximum packet size of 64 before the second reset. */
  method Greet(ctx: Context, ddesc: Address, bMaxPacketSize0: u8) returns (dev: Device, ep: Endpoint, ghost ok: bool)
    requires Valid(ctx)
    modifies ctx`devices, ctx`queues, ctx`ring, ctx.ring`next, ctx.ring`prev, ctx.hc`qhs, ctx.hc`qtds, ctx.hc`log
    modifies ctx.heap`live, ctx.heap`pending, ctx.heap`dma
    ensures Valid(ctx) && ctx.ring == old(ctx.ring)
    ensures Steps(ctx.hc.log) == Steps(old(ctx.hc.log)) + [Reset, Wait(Timeout)]
              + RequestSteps(ok, GetDescriptorPacket(DESC_DEVICE, 0, DEVICE_DESC_SIZE), DefaultPipe(0, 64))
              + [Reset, Wait(Forever)]
    ensures fresh(dev) && fresh(ep) && ctx.devices == dev && dev.endpoints == ep
    ensures dev.descriptor == Some(ddesc) && TargetOf(dev, ep) == DefaultPipe(0, bMaxPacketSize0 as int)
    ensures Live(ctx.hc, ctx.heap, old(ctx.hc.qhs), old(ctx.hc.qtds), old(ctx.heap.live) + {dev, ep})
    ensures ctx.heap.pending == old(ctx.heap.pending) && ctx.heap.dma == old(ctx.heap.dma)
  {
    dev, ep := Start(ctx);
    ok := Probe(ctx, dev, ep, ddesc, bMaxPacketSize0);
  }

  /** SET_ADDRESS 1 and the two reads of the configuration descriptor from the new
      address. */
  method Assign(ctx: Context, dev: Device, ep: Endpoint, cdesc: Address, bMaxPacketSize0: u8, wTotalLength: bv16)
    returns (buf: Address, cfgsz: bv32, ghost oks: seq<bool>)
    requires Valid(ctx) && TargetOf(dev, ep) == DefaultPipe(0, bMaxPacketSize0 as int)
    modifies ctx`queues, ctx`ring, ctx.ring`next, ctx.ring`prev, ctx.hc`qhs, ctx.hc`qtds, ctx.hc`log
    modifies ctx.heap`live, ctx.heap`pending, ctx.heap`dma, ctx.heap`mapped, dev`address
    ensures Valid(ctx) && ctx.ring == old(ctx.ring)
    ensures |oks| == 3 && Steps(ctx.hc.log) == Steps(old(ctx.hc.log))
              + RequestSteps(oks[0], SetAddressPacket(1), DefaultPipe(0, bMaxPacketSize0 as int))
              + RequestSteps(oks[1], GetDescriptorPacket(DESC_CONFIG, 0, CONFIG_DESC_SIZE), DefaultPipe(1, bMaxPacketSize0 as int))
              + RequestSteps(oks[2], GetDescriptorPacket(DESC_CONFIG, 0, wTotalLength), DefaultPipe(1, bMaxPacketSize0 as int))
    ensures TargetOf(dev, ep) == DefaultPipe(1, bMaxPacketSize0 as int)
    ensures cfgsz == RoundUpToPage(wTotalLength) && ctx.heap.mapped == old(ctx.heap.mapped) + multiset{buf}
    ensures Live(ctx.hc, ctx.heap, old(ctx.hc.qhs), old(ctx.hc.qtds), old(ctx.heap.live))
    ensures ctx.heap.pending == old(ctx.heap.pending) && ctx.heap.dma == old(ctx.heap.dma)
  {
    ghost var ok := Address(ctx, dev, ep, bMaxPacketSize0 as int);
    ghost var rest;
    buf, cfgsz, rest := Configure(ctx, dev, ep, cdesc, wTotalLength, DefaultPipe(1, bMaxPacketSize0 as int));
    oks := [ok] + rest;
  }

  /** The device state and the protocol steps of an enumeration, between the
      allocation of the two DMA buffers and their release. */
  method Enumerate(ctx: Context, ddesc: Address, cdesc: Address, bMaxPacketSize0: u8, wTotalLength: bv16)
    returns (dev: Device, ep: Endpoint, buf: Address, cfgsz: bv32, ghost oks: seq<bool>)
    requires Valid(ctx)
    modifies ctx`devices, ctx`queues, ctx`ring, ctx.ring`next, ctx.ring`prev, ctx.hc`qhs, ctx.hc`qtds, ctx.hc`log
    modifies ctx.heap`live, ctx.heap`pending, ctx.heap`dma, ctx.heap`mapped
    ensures Valid(ctx) && ctx.ring == old(ctx.ring)
    ensures |oks| == 4 && Steps(ctx.hc.log) == Steps(old(ctx.hc.log)) + AttachSteps(oks, bMaxPacketSize0, wTotalLength)
    ensures fresh(dev) && fresh(ep) && ctx.devices == dev && dev.endpoints == ep && dev.descriptor == Some(ddesc)
    ensures TargetOf(dev, ep) == DefaultPipe(1, bMaxPacketSize0 as int)
    ensures Live(ctx.hc, ctx.heap, old(ctx.hc.qhs), old(ctx.hc.qtds), old(ctx.heap.live) + {dev, ep})
    ensures ctx.heap.pending == old(ctx.heap.pending) && ctx.heap.dma == old(ctx.heap.dma)
    ensures cfgsz == RoundUpToPage(wTotalLength) && ctx.heap.mapped == old(ctx.heap.mapped) + multiset{buf}
  {
    ghost var s0 := Steps(ctx.hc.log);
    ghost var ok;
    dev, ep, ok := Greet(ctx, ddesc, bMaxPacketSize0);
    ghost var s1 := Steps(ctx.hc.log);
    ghost var rest;
    buf, cfgsz, rest := Assign(ctx, dev, ep, cdesc, bMaxPacketSize0, wTotalLength);
    oks := [ok] + rest;
    AttachStepsAre(s0, s1, Steps(ctx.hc.log), oks, bMaxPacketSize0, wTotalLength);
  }

  lemma AttachStepsAre(s0: seq<Step>, s1: seq<Step>, s2: seq<Step>, oks: seq<bool>, mps: u8, total: bv16)
    requires |oks| == 4
    requires s1 == s0 + [Reset, Wait(Timeout)]
                  + RequestSteps(oks[0], GetDescriptorPacket(DESC_DEVICE, 0, DEVICE_DESC_SIZE), DefaultPipe(0, 64))
                  + [Reset, Wait(Forever)]
    requires s2 == s1
                  + RequestSteps(oks[1], SetAddressPacket(1), DefaultPipe(0, mps as int))
                  + RequestSteps(oks[2], GetDescriptorPacket(DESC_CONFIG, 0, CONFIG_DESC_SIZE), DefaultPipe(1, mps as int))
                  + RequestSteps(oks[3], GetDescriptorPacket(DESC_CONFIG, 0, total), DefaultPipe(1, mps as int))
    ensures s2 == s0 + AttachSteps(oks, mps, total)
  {
  }

  /** `usb_deviceAttach`. The device descriptor is read into one 64-byte DMA buffer
      with the default maximum packet size and the port is reset again; the device
      record keeps that buffer as its descriptor, and the endpoint takes the maximum
      packet size the device announced, `bMaxPacketSize0`. The device is given
      address 1, the configuration header is read into the second DMA buffer, and
      the whole configuration of `wTotalLength` bytes into an mmapped buffer rounded
      up to whole pages. Results of the requests are ignored; both DMA buffers and
      the mapping are released at the end, so the descriptor the device record
      keeps is a freed buffer. `ddesc` is that buffer. */
  method DeviceAttach(ctx: Context, bMaxPacketSize0: u8, wTotalLength: bv16)
    returns (ghost oks: seq<bool>, ghost ddesc: Address)
    requires Valid(ctx)
    modifies ctx`devices, ctx`queues, ctx`ring, ctx.ring`next, ctx.ring`prev, ctx.hc`qhs, ctx.hc`qtds, ctx.hc`log
    modifies ctx.heap`live, ctx.heap`pending, ctx.heap`dma, ctx.heap`mapped
    ensures Valid(ctx) && ctx.ring == old(ctx.ring)
    ensures |oks| == 4 && Steps(ctx.hc.log) == Steps(old(ctx.hc.log)) + AttachSteps(oks, bMaxPacketSize0, wTotalLength)
    ensures ctx.devices != null && fresh(ctx.devices) && ctx.devices.endpoints != null && fresh(ctx.devices.endpoints)
    ensures ctx.devices.descriptor == Some(ddesc) && ddesc !in ctx.heap.dma
    ensures TargetOf(ctx.devices, ctx.devices.endpoints) == DefaultPipe(1, bMaxPacketSize0 as int)
    ensures ctx.heap.live == old(ctx.heap.live) + {ctx.devices, ctx.devices.endpoints}
    ensures ctx.hc.qhs == old(ctx.hc.qhs) && ctx.hc.qtds == old(ctx.hc.qtds)
    ensures ctx.heap.pending == old(ctx.heap.pending)
    ensures ctx.heap.dma == old(ctx.heap.dma) && ctx.heap.mapped == old(ctx.heap.mapped)
  {
    ghost var dma, mapped := ctx.heap.dma, ctx.heap.mapped;
    var dd, cdesc := Buffers(ctx);
    ddesc := dd;
    var dev, ep, buf, cfgsz;
    dev, ep, buf, cfgsz, oks := Enumerate(ctx, dd, cdesc, bMaxPacketSize0, wTotalLength);
    Release(ctx, dd, cdesc, buf, cfgsz as nat, dma, mapped);
  }

  /** `usb_handleEvents`: a port change with a device attached enumerates that
      device (which answers with `bMaxPacketSize0` and `wTotalLength`); any other
      event changes nothing. `attached` says whether the enumeration ran. */
  method HandleEvents(ctx: Context, portChange: bool, bMaxPacketSize0: u8, wTotalLength: bv16)
    returns (ghost attached: bool, ghost oks: seq<bool>, ghost ddesc: Address)
    requires Valid(ctx)
    modifies ctx`devices, ctx`queues, ctx`ring, ctx.ring`next, ctx.ring`prev, ctx.hc`qhs, ctx.hc`qtds, ctx.hc`log
    modifies ctx.heap`live, ctx.heap`pending, ctx.heap`dma, ctx.heap`mapped
    ensures Valid(ctx) && ctx.ring == old(ctx.ring)
    ensures attached ==> portChange
    ensures ctx.hc.qhs == old(ctx.hc.qhs) && ctx.hc.qtds == old(ctx.hc.qtds) && ctx.heap.pending == old(ctx.heap.pending)
    ensures ctx.heap.dma == old(ctx.heap.dma) && ctx.heap.mapped == old(ctx.heap.mapped)
    ensures !attached ==> ctx.hc.log == old(ctx.hc.log) && ctx.devices == old(ctx.devices)
                          && ctx.heap.live == old(ctx.heap.live)
    ensures attached ==> && |oks| == 4
                         && Steps(ctx.hc.log) == Steps(old(ctx.hc.log)) + AttachSteps(oks, bMaxPacketSize0, wTotalLength)
                         && ctx.devices != null && fresh(ctx.devices) && ctx.devices.endpoints != null
                         && TargetOf(ctx.devices, ctx.devices.endpoints) == DefaultPipe(1, bMaxPacketSize0 as int)
                         && ctx.devices.descriptor == Some(ddesc) && ddesc !in ctx.heap.dma
                         && ctx.heap.live == old(ctx.heap.live) + {ctx.devices, ctx.devices.endpoints}
  {
    attached, oks, ddesc := false, [], 0;
    if portChange {
      var present := ctx.hc.DeviceAttached();
      if present {
        oks, ddesc := DeviceAttach(ctx, bMaxPacketSize0, wTotalLength);
        attached := true;
      }
    }
  }
}
