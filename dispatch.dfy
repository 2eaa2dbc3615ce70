/**
 * The message interface of the driver: clients connect (`usb_connect`) and hand
 * in transfer requests (`usb_urb`), and the message thread (`msgthr`) routes each
 * received message to one of them and answers with an error code.
 */
module Dispatch {
  import opened Usb
  import opened Memory
  import opened Ehci
  import opened Queues
  import opened Registry
  import opened Usbd
  import opened Transfers

  /** The type of a received message: a device control message or anything else. */
  datatype MsgType = DevCtl | OtherMsg(code: int)

  /** The driver's own message inside a device control message. */
  datatype UsbMsg =
    | ConnectMsg(port: u32, filter: DeviceId)
    | UrbMsg(urb: Urb)
    | UnknownMsg(code: int)

  /** A received message: its type, the sender, the driver message, the sizes and
      addresses of the input buffer (data from the client) and of the output buffer
      (room for data to the client), and the error code the reply holds before the
      driver sets it. */
  datatype Message = Message(kind: MsgType, pid: u32, umsg: UsbMsg,
                             iSize: nat, iData: Address, oSize: nat, oData: Address, err: int)

  // ----- usb_connect -----

  /** A `usb_driver_t` record filled in from the connect message. */
  method NewDriver(pid: u32, port: u32, filter: DeviceId) returns (d: Driver)
    ensures fresh(d) && d.pid == pid && d.port == port && d.filter == filter && d.requests == []
  {
    d := new Driver(pid, port, filter);
  }

  /** The record is built in the block `malloc` returned. */
  method PlaceDriver(ctx: Context, d: Driver)
    requires Valid(ctx) && ctx.heap.pending > 0 && d !in ctx.heap.live
    modifies ctx.heap`pending, ctx.heap`live
    ensures Valid(ctx) && ctx.heap.live == old(ctx.heap.live) + {d}
    ensures ctx.heap.pending == old(ctx.heap.pending) - 1
  {
    ghost var live := ctx.heap.live;
    ctx.heap.Place(d);
    Grow(Views(ctx.ring), ctx.hc.qhs, ctx.hc.qtds, live, ctx.hc.qhs, ctx.hc.qtds, ctx.heap.live);
  }

  /** `lib_rbInsert` of the record into the client tree. */
  method InsertDriver(ctx: Context, d: Driver)
    requires Valid(ctx)
    modifies ctx`drivers
    ensures Valid(ctx) && ctx.drivers == Insert(old(ctx.drivers), d)
  {
    ctx.drivers := Insert(ctx.drivers, d);
  }

  /** `usb_connect`: when `malloc` fails the answer is -ENOMEM and nothing changes;
      otherwise a record `d` with the client's pid, port and filter and no pending
      requests joins the client tree in port order, and the answer is EOK. */
  method Connect(ctx: Context, port: u32, filter: DeviceId, pid: u32) returns (err: int, ghost d: Driver?)
    requires Valid(ctx)
    modifies ctx`drivers, ctx.heap`pending, ctx.heap`live
    ensures Valid(ctx)
    ensures err == EOK || err == -ENOMEM
    ensures err == -ENOMEM ==> && d == null && ctx.drivers == old(ctx.drivers)
                               && ctx.heap.live == old(ctx.heap.live)
    ensures err == EOK ==> && d != null && fresh(d) && d.pid == pid && d.port == port && d.filter == filter
                           && d.requests == [] && ctx.drivers == Insert(old(ctx.drivers), d)
                           && ctx.heap.live == old(ctx.heap.live) + {d}
    ensures ctx.heap.pending == old(ctx.heap.pending)
  {
    var ok := ctx.heap.Malloc();
    if !ok {
      return -ENOMEM, null;
    }
    var driver := NewDriver(pid, port, filter);
    PlaceDriver(ctx, driver);
    InsertDriver(ctx, driver);
    return EOK, driver;
  }

  // ----- usb_urb -----

  /** The signed size and the buffer of a client's control request: the input
      buffer, sent to the device, when it is not empty; otherwise the output
      buffer, filled by the device, when it is not empty; otherwise no data stage. */
  function UrbData(iSize: nat, iData: Address, oSize: nat, oData: Address): (r: (Buffer, int))
    ensures iSize != 0 ==> r.1 < 0 && DataToken(r.1) == OutToken && r.0 == DataBuffer(iData)
    ensures iSize == 0 && oSize != 0 ==> r.1 > 0 && DataToken(r.1) == InToken && r.0 == DataBuffer(oData)
    ensures iSize == 0 && oSize == 0 ==> r.0 == NoBuffer && r.1 == 0
    ensures Abs(r.1) == if iSize != 0 then iSize else oSize
  {
    if iSize != 0 then (DataBuffer(iData), -(iSize as int))
    else if oSize != 0 then (DataBuffer(oData), oSize)
    else (NoBuffer, 0)
  }

  /** `ehci_await(USB_TIMEOUT)`, whose result becomes the answer. */
  method AwaitResult(ctx: Context) returns (err: int)
    requires Valid(ctx)
    modifies ctx.hc`log
    ensures Valid(ctx) && ctx.hc.log == old(ctx.hc.log) + [AwaitCall(Timeout)]
  {
    err := ctx.hc.Await(Timeout);
  }

  /** The backend calls of a control transfer that is submitted and waited for but
      not deleted, read as protocol steps: the request, then the wait. */
  lemma SubmitLog(log: seq<Call>, ts: seq<Transfer>, r: seq<Queue>, q: Queue,
                  packet: SetupPacket, ssize: int, buffer: Buffer, target: Target)
    requires ControlStages(ts, packet, ssize, buffer)
    requires q.qh.address == target.address && q.qh.maxPacketLen == target.maxPacketLen
    ensures Steps(log + ConsCalls(ts, q.qh) + LinkCalls(r, q) + [AwaitCall(Timeout)])
            == Steps(log) + RequestSteps(true, packet, target)
  {
    var unlink := UnlinkCall(q.qh, q.qh, q.qh);
    RequestLog(log, ts, r, q, unlink, packet, ssize, buffer, target);
    StepsSnoc(log + ConsCalls(ts, q.qh) + LinkCalls(r, q) + [AwaitCall(Timeout)], unlink);
  }

  /** `usb_control` of a client's setup packet and data, and the wait. The queue is
      never deleted: when it could be built it stays on the ring. */
  method SubmitUrb(ctx: Context, dev: Device, ep: Endpoint, packet: SetupPacket, buffer: Buffer, ssize: int)
    returns (err: int, ghost q: Queue?)
    requires Valid(ctx)
    modifies ctx`queues, ctx`ring, ctx.ring`next, ctx.ring`prev, ctx.hc`qhs, ctx.hc`qtds, ctx.hc`log
    modifies ctx.heap`live, ctx.heap`pending
    ensures Valid(ctx)
    ensures ctx.ring == old(ctx.ring) + (if q == null then [] else [q])
    ensures q != null ==> fresh(q) && ControlQueue(q, dev, ep, old(TargetOf(dev, ep)), packet, ssize, buffer)
    ensures Steps(ctx.hc.log) == Steps(old(ctx.hc.log)) + RequestSteps(q != null, packet, old(TargetOf(dev, ep)))
    ensures q == null ==> Live(ctx.hc, ctx.heap, old(ctx.hc.qhs), old(ctx.hc.qtds), old(ctx.heap.live))
    ensures q != null ==> Added(q, old(ctx.hc.qhs), old(ctx.hc.qtds), old(ctx.heap.live), ctx.hc, ctx.heap)
    ensures ctx.heap.pending == old(ctx.heap.pending)
  {
    ghost var log, r, target := ctx.hc.log, ctx.ring, TargetOf(dev, ep);
    var _, queue := Control(ctx, dev, ep, packet, buffer, ssize);
    q := queue;
    err := AwaitResult(ctx);
    if queue == null {
      WaitLog(log, packet, target);
    } else {
      SubmitLog(log, queue.transfers, r, queue, packet, ssize, buffer, target);
    }
  }

  /** The control branch of `usb_urb`: the client's setup packet is copied into a
      DMA buffer, the control transfer is issued with the client's data, the answer
      is the result of the wait, and the DMA buffer `setup` is freed again, while
      the queue built on it stays scheduled. */
  method ControlUrb(ctx: Context, dev: Device, ep: Endpoint, packet: SetupPacket,
                    iSize: nat, iData: Address, oSize: nat, oData: Address)
    returns (err: int, ghost q: Queue?, ghost setup: Address)
    requires Valid(ctx)
    modifies ctx`queues, ctx`ring, ctx.ring`next, ctx.ring`prev, ctx.hc`qhs, ctx.hc`qtds, ctx.hc`log
    modifies ctx.heap`live, ctx.heap`pending, ctx.heap`dma
    ensures Valid(ctx)
    ensures ctx.ring == old(ctx.ring) + (if q == null then [] else [q])
    ensures q != null ==> fresh(q) && ControlQueue(q, dev, ep, old(TargetOf(dev, ep)), packet,
                                                   UrbData(iSize, iData, oSize, oData).1,
                                                   UrbData(iSize, iData, oSize, oData).0)
    ensures Steps(ctx.hc.log) == Steps(old(ctx.hc.log)) + RequestSteps(q != null, packet, old(TargetOf(dev, ep)))
    ensures q == null ==> Live(ctx.hc, ctx.heap, old(ctx.hc.qhs), old(ctx.hc.qtds), old(ctx.heap.live))
    ensures q != null ==> Added(q, old(ctx.hc.qhs), old(ctx.hc.qtds), old(ctx.heap.live), ctx.hc, ctx.heap)
    ensures ctx.heap.pending == old(ctx.heap.pending) && ctx.heap.dma == old(ctx.heap.dma)
    ensures setup !in ctx.heap.dma
  {
    var block := AllocDma(ctx);
    setup := block;
    var (buffer, ssize) := UrbData(iSize, iData, oSize, oData);
    err, q := SubmitUrb(ctx, dev, ep, packet, buffer, ssize);
    FreeDma(ctx, block);
  }

  /** The bulk branch of `usb_urb`: a bulk OUT transfer of the input buffer when it
      is not empty, then a bulk IN transfer into the output buffer when it is not
      empty; their results are ignored and the answer is EOK. Both queues are
      deleted again, so the ring and the live resources end as they began. `sent`
      says whether the OUT transfer was built, as `qOut` carrying `tsOut`, and
      `received` whether the IN transfer was, as `qIn` carrying `tsIn`; a transfer
      that was not built reached the hardware with no call at all. */
  method BulkUrb(ctx: Context, dev: Device, ep: Endpoint, iSize: nat, iData: Address, oSize: nat, oData: Address)
    returns (err: int, ghost sent: bool, ghost qOut: Queue?, ghost tsOut: seq<Transfer>,
             ghost received: bool, ghost qIn: Queue?, ghost tsIn: seq<Transfer>)
    requires Valid(ctx)
    modifies ctx`queues, ctx`ring, ctx.ring`next, ctx.ring`prev, ctx.hc`qhs, ctx.hc`qtds, ctx.hc`log
    modifies ctx.heap`live, ctx.heap`pending
    ensures Valid(ctx) && err == EOK
    ensures ctx.ring == old(ctx.ring)
    ensures Live(ctx.hc, ctx.heap, old(ctx.hc.qhs), old(ctx.hc.qtds), old(ctx.heap.live))
    ensures ctx.heap.pending == old(ctx.heap.pending)
    ensures sent ==> && iSize != 0 && qOut != null && QueueFor(qOut, dev, ep, old(TargetOf(dev, ep)), BulkTransfer)
                     && BulkStages(tsOut, OutToken, DataBuffer(iData), iSize)
    ensures received ==> && oSize != 0 && qIn != null && QueueFor(qIn, dev, ep, old(TargetOf(dev, ep)), BulkTransfer)
                         && BulkStages(tsIn, InToken, DataBuffer(oData), oSize)
    ensures ctx.hc.log == old(ctx.hc.log)
                          + (if sent then BulkCalls(old(ctx.ring), qOut, tsOut) else [])
                          + (if received then BulkCalls(old(ctx.ring), qIn, tsIn) else [])
  {
    sent, qOut, tsOut := BulkOnce(ctx, dev, ep, OutToken, DataBuffer(iData), iSize);
    received, qIn, tsIn := BulkOnce(ctx, dev, ep, InToken, DataBuffer(oData), oSize);
    err := EOK;
  }

  /** One `usb_bulk` of `usb_urb`, issued only for a buffer that is not empty, its
      result ignored: `done` says whether its queue `q` carrying `ts` was built. */
  method BulkOnce(ctx: Context, dev: Device, ep: Endpoint, token: Token, buffer: Buffer, size: nat)
    returns (ghost done: bool, ghost q: Queue?, ghost ts: seq<Transfer>)
    requires Valid(ctx)
    modifies ctx`queues, ctx`ring, ctx.ring`next, ctx.ring`prev, ctx.hc`qhs, ctx.hc`qtds, ctx.hc`log
    modifies ctx.heap`live, ctx.heap`pending
    ensures Valid(ctx)
    ensures ctx.ring == old(ctx.ring)
    ensures Live(ctx.hc, ctx.heap, old(ctx.hc.qhs), old(ctx.hc.qtds), old(ctx.heap.live))
    ensures ctx.heap.pending == old(ctx.heap.pending)
    ensures done ==> && size != 0 && q != null && QueueFor(q, dev, ep, old(TargetOf(dev, ep)), BulkTransfer)
                     && BulkStages(ts, token, buffer, size)
    ensures ctx.hc.log == old(ctx.hc.log) + (if done then BulkCalls(old(ctx.ring), q, ts) else [])
  {
    done, q, ts := false, null, [];
    if size != 0 {
      var e;
      e, q, ts := Bulk(ctx, dev, ep, token, buffer, size);
      done := e == EOK;
    }
  }

  /** `usb_urb`. The client is looked up by `port`, the port of a lookup key whose
      port field the driver never sets; an unknown client is answered with -EINVAL
      before anything happens. `dev` and `ep` are the records the request is sent
      to, which the driver never sets either. Control and bulk requests are issued
      as above; interrupt, isochronous and unknown requests are answered with
      -ENOSYS. */
  method UrbRequest(ctx: Context, urb: Urb, port: u32, dev: Device, ep: Endpoint,
                    iSize: nat, iData: Address, oSize: nat, oData: Address)
    returns (err: int, ghost q: Queue?)
    requires Valid(ctx)
    modifies ctx`queues, ctx`ring, ctx.ring`next, ctx.ring`prev, ctx.hc`qhs, ctx.hc`qtds, ctx.hc`log
    modifies ctx.heap`live, ctx.heap`pending, ctx.heap`dma
    ensures Valid(ctx)
    ensures ctx.heap.pending == old(ctx.heap.pending) && ctx.heap.dma == old(ctx.heap.dma)
    ensures ctx.ring == old(ctx.ring) + (if q == null then [] else [q])
    ensures q == null ==> Live(ctx.hc, ctx.heap, old(ctx.hc.qhs), old(ctx.hc.qtds), old(ctx.heap.live))
    ensures q != null ==> Added(q, old(ctx.hc.qhs), old(ctx.hc.qtds), old(ctx.heap.live), ctx.hc, ctx.heap)
    ensures q != null ==> Find(ctx.drivers, port).Some? && urb.kind.UrbControl?
    ensures Find(ctx.drivers, port).None? ==> err == -EINVAL && ctx.hc.log == old(ctx.hc.log)
    ensures Find(ctx.drivers, port).Some? && urb.kind.UrbBulk? ==> err == EOK
    ensures Find(ctx.drivers, port).Some? && !urb.kind.UrbControl? && !urb.kind.UrbBulk? ==>
              err == -ENOSYS && ctx.hc.log == old(ctx.hc.log)
    ensures Find(ctx.drivers, port).Some? && urb.kind.UrbControl? ==>
              Steps(ctx.hc.log) == Steps(old(ctx.hc.log)) + RequestSteps(q != null, urb.setup, old(TargetOf(dev, ep)))
  {
    q := null;
    if Find(ctx.drivers, port).None? {
      return -EINVAL, q;
    }
    match urb.kind
    case UrbControl =>
      ghost var setup;
      err, q, setup := ControlUrb(ctx, dev, ep, urb.setup, iSize, iData, oSize, oData);
    case UrbBulk =>
      ghost var sent, qOut, tsOut, received, qIn, tsIn;
      err, sent, qOut, tsOut, received, qIn, tsIn := BulkUrb(ctx, dev, ep, iSize, iData, oSize, oData);
    case _ =>
      err := -ENOSYS;
  }

  // ----- msgthr -----

  /** One round of `msgthr`: the answer to a device control message comes from
      `usb_connect` or `usb_urb`, a device control message of an unknown kind keeps
      the error code the reply already held, and any other message is answered
      with -EINVAL. `port`, `dev` and `ep` are the values of the fields `usb_urb`
      never sets; `d` is the record a connect inserted and `q` the queue a control
      request left on the ring. */
  method HandleMessage(ctx: Context, msg: Message, port: u32, dev: Device, ep: Endpoint)
    returns (err: int, ghost d: Driver?, ghost q: Queue?)
    requires Valid(ctx)
    modifies ctx`drivers, ctx`queues, ctx`ring, ctx.ring`next, ctx.ring`prev, ctx.hc`qhs, ctx.hc`qtds, ctx.hc`log
    modifies ctx.heap`live, ctx.heap`pending, ctx.heap`dma
    ensures Valid(ctx)
    ensures ctx.heap.pending == old(ctx.heap.pending) && ctx.heap.dma == old(ctx.heap.dma)
    ensures !msg.kind.DevCtl? ==> err == -EINVAL && ctx.hc.log == old(ctx.hc.log) && ctx.drivers == old(ctx.drivers)
    ensures msg.kind.DevCtl? && msg.umsg.UnknownMsg? ==>
              err == msg.err && ctx.hc.log == old(ctx.hc.log) && ctx.drivers == old(ctx.drivers)
    ensures msg.kind.DevCtl? && msg.umsg.ConnectMsg? ==>
              && (err == EOK || err == -ENOMEM) && ctx.hc.log == old(ctx.hc.log) && ctx.ring == old(ctx.ring)
              && (err == -ENOMEM ==> ctx.drivers == old(ctx.drivers) && ctx.heap.live == old(ctx.heap.live))
              && (err == EOK ==> && d != null && fresh(d) && d.pid == msg.pid && d.port == msg.umsg.port
                                 && d.filter == msg.umsg.filter && d.requests == []
                                 && ctx.drivers == Insert(old(ctx.drivers), d)
                                 && ctx.heap.live == old(ctx.heap.live) + {d})
    ensures msg.kind.DevCtl? && msg.umsg.UrbMsg? ==>
              && ctx.drivers == old(ctx.drivers)
              && ctx.ring == old(ctx.ring) + (if q == null then [] else [q])
              && (Find(ctx.drivers, port).None? ==> err == -EINVAL && ctx.hc.log == old(ctx.hc.log))
              && (Find(ctx.drivers, port).Some? && msg.umsg.urb.kind.UrbBulk? ==> err == EOK)
              && (Find(ctx.drivers, port).Some? && !msg.umsg.urb.kind.UrbControl? && !msg.umsg.urb.kind.UrbBulk? ==>
                    err == -ENOSYS && ctx.hc.log == old(ctx.hc.log))
              && (Find(ctx.drivers, port).Some? && msg.umsg.urb.kind.UrbControl? ==>
                    Steps(ctx.hc.log) == Steps(old(ctx.hc.log)) + RequestSteps(q != null, msg.umsg.urb.setup, old(TargetOf(dev, ep))))
  {
    d, q := null, null;
    if msg.kind.DevCtl? {
      match msg.umsg
      case ConnectMsg(p, filter) =>
        err, d := Connect(ctx, p, filter, msg.pid);
      case UrbMsg(urb) =>
        err, q := UrbRequest(ctx, urb, port, dev, ep, msg.iSize, msg.iData, msg.oSize, msg.oData);
      case UnknownMsg(_) =>
        err := msg.err;
    } else {
      err := -EINVAL;
    }
  }
}
