/**
 * The host-controller backend as the driver sees it: queue heads and
 * transfer descriptors it can allocate and free, the calls that wire them
 * into the controller, a port reset and a blocking wait. The backend keeps
 * the set of live resources and a log of the calls that reach the hardware;
 * what the hardware does with them is not modelled.
 */
module Ehci {
  import opened Usb

  /** The memory a transfer descriptor points at. */
  datatype Buffer = NoBuffer | SetupBuffer(packet: SetupPacket) | DataBuffer(address: nat)

  /** A queue head: one endpoint's transfer context (EHCI 1.0 section 3.6). */
  class Qh {
    const address: int
    const endpoint: int
    const transfer: TransferType
    const speed: Speed
    const maxPacketLen: int

    constructor (address: int, endpoint: int, transfer: TransferType, speed: Speed, maxPacketLen: int)
      ensures this.address == address && this.endpoint == endpoint && this.transfer == transfer
      ensures this.speed == speed && this.maxPacketLen == maxPacketLen
    {
      this.address := address;
      this.endpoint := endpoint;
      this.transfer := transfer;
      this.speed := speed;
      this.maxPacketLen := maxPacketLen;
    }
  }

  /** A transfer descriptor (EHCI 1.0 section 3.5): one fragment of a transfer,
      covering `length` bytes of its buffer. */
  class Qtd {
    const token: Token
    const buffer: Buffer
    const toggle: int
    const length: nat
    /** Interrupt on completion. */
    var ioc: bool

    constructor (token: Token, buffer: Buffer, toggle: int, length: nat)
      ensures this.token == token && this.buffer == buffer && this.toggle == toggle
      ensures this.length == length && !ioc
    {
      this.token := token;
      this.buffer := buffer;
      this.toggle := toggle;
      this.length := length;
      ioc := false;
    }
  }

  /** `ehci_await(USB_TIMEOUT)` and `ehci_await(0)`, the unconditional wait. */
  datatype Wait = Timeout | Forever

  /** A backend call that reaches the hardware. */
  datatype Call =
    | ConsCall(qtd: Qtd, qh: Qh)
    | LinkCall(qh: Qh, next: Qh)
    | UnlinkCall(prev: Qh, qh: Qh, next: Qh)
    | ResetCall
    | AwaitCall(wait: Wait)

  class Controller {
    /** Live queue heads and transfer descriptors. */
    ghost var qhs: set<Qh>
    ghost var qtds: set<Qtd>
    /** Every call that reached the hardware, oldest first. */
    ghost var log: seq<Call>

    constructor ()
      ensures qhs == {} && qtds == {} && log == []
    {
      qhs, qtds, log := {}, {}, [];
    }

    /** `ehci_allocQh`: may fail; a new queue head carries the given endpoint parameters. */
    method AllocQh(address: int, endpoint: int, transfer: TransferType, speed: Speed, maxPacketLen: int)
      returns (qh: Qh?)
      modifies this`qhs
      ensures qh != null ==> fresh(qh) && qhs == old(qhs) + {qh}
      ensures qh != null ==> qh.address == address && qh.endpoint == endpoint && qh.transfer == transfer
                             && qh.speed == speed && qh.maxPacketLen == maxPacketLen
      ensures qh == null ==> qhs == old(qhs)
    {
      var ok: bool :| true;
      if ok {
        qh := new Qh(address, endpoint, transfer, speed, maxPacketLen);
        qhs := qhs + {qh};
      } else {
        qh := null;
      }
    }

    /** `ehci_allocQtd(token, buffer, size, datax)`: may fail. With a size it takes
        a non-empty part of the remaining size and returns what is left, which is
        strictly less when something was left; without a size (NULL) it covers nothing. */
    method AllocQtd(token: Token, buffer: Buffer, size: Option<nat>, toggle: int)
      returns (qtd: Qtd?, rest: Option<nat>)
      modifies this`qtds
      ensures rest.Some? <==> size.Some?
      ensures size.Some? ==> rest.value <= size.value
      ensures size.Some? && size.value > 0 && qtd != null ==> rest.value < size.value
      ensures qtd != null ==> fresh(qtd) && qtds == old(qtds) + {qtd}
      ensures qtd != null ==> qtd.token == token && qtd.buffer == buffer && qtd.toggle == toggle && !qtd.ioc
      ensures qtd != null ==> qtd.length == if size.Some? then size.value - rest.value else 0
      ensures qtd == null ==> qtds == old(qtds)
    {
      if size.Some? && size.value > 0 {
        var left: nat :| left < size.value;
        rest := Some(left);
      } else {
        rest := size;
      }
      var ok: bool :| true;
      if ok {
        qtd := new Qtd(token, buffer, toggle, if size.Some? then size.value - rest.value else 0);
        qtds := qtds + {qtd};
      } else {
        qtd := null;
      }
    }

    /** `ehci_freeQtd`. */
    method FreeQtd(qtd: Qtd)
      requires qtd in qtds
      modifies this`qtds
      ensures qtds == old(qtds) - {qtd}
    {
      qtds := qtds - {qtd};
    }

    /** `ehci_freeQh`. */
    method FreeQh(qh: Qh)
      requires qh in qhs
      modifies this`qhs
      ensures qhs == old(qhs) - {qh}
    {
      qhs := qhs - {qh};
    }

    /** `ehci_consQtd`: chains a descriptor into a queue head. */
    method ConsQtd(qtd: Qtd, qh: Qh)
      modifies this`log
      ensures log == old(log) + [ConsCall(qtd, qh)]
    {
      log := log + [ConsCall(qtd, qh)];
    }

    /** `ehci_linkQh`: makes `next` follow `qh` in the asynchronous schedule. */
    method LinkQh(qh: Qh, next: Qh)
      modifies this`log
      ensures log == old(log) + [LinkCall(qh, next)]
    {
      log := log + [LinkCall(qh, next)];
    }

    /** `ehci_unlinkQh`: takes `qh` out from between its neighbours. */
    method UnlinkQh(prev: Qh, qh: Qh, next: Qh)
      modifies this`log
      ensures log == old(log) + [UnlinkCall(prev, qh, next)]
    {
      log := log + [UnlinkCall(prev, qh, next)];
    }

    /** `ehci_resetPort`. */
    method ResetPort()
      modifies this`log
      ensures log == old(log) + [ResetCall]
    {
      log := log + [ResetCall];
    }

    /** `ehci_await`: blocks; its result code is not modelled. */
    method Await(wait: Wait) returns (err: int)
      modifies this`log
      ensures log == old(log) + [AwaitCall(wait)]
    {
      err :| true;
      log := log + [AwaitCall(wait)];
    }

    /** `ehci_deviceAttached`: the port status, not modelled. */
    method DeviceAttached() returns (attached: bool)
    {
      attached :| true;
    }
  }

  /** A step of the bus protocol, read off the call log: a port reset, a wait,
      or a control request issued through a queue head (its setup packet and the
      queue head's device address and maximum packet size). */
  datatype Step = Reset | Wait(wait: Wait) | Setup(packet: SetupPacket, address: int, maxPacketLen: int)

  function StepOf(c: Call): seq<Step>
  {
    match c
    case ResetCall => [Reset]
    case AwaitCall(w) => [Wait(w)]
    case ConsCall(qtd, qh) =>
      if qtd.token == SetupToken && qtd.buffer.SetupBuffer? then
        [Setup(qtd.buffer.packet, qh.address, qh.maxPacketLen)]
      else []
    case _ => []
  }

  /** The protocol steps of a call log, in order. */
  function Steps(log: seq<Call>): seq<Step>
  {
    if log == [] then [] else Steps(log[..|log| - 1]) + StepOf(log[|log| - 1])
  }

  /** Steps distribute over the concatenation of logs. */
  lemma {:induction false} StepsAppend(a: seq<Call>, b: seq<Call>)
    ensures Steps(a + b) == Steps(a) + Steps(b)
    decreases |b|
  {
    if b == [] {
      assert a + b == a;
    } else {
      var b' := b[..|b| - 1];
      assert (a + b)[..|a + b| - 1] == a + b';
      StepsAppend(a, b');
    }
  }

  /** One more call adds its steps at the end. */
  lemma StepsSnoc(log: seq<Call>, c: Call)
    ensures Steps(log + [c]) == Steps(log) + StepOf(c)
  {
    assert (log + [c])[..|log|] == log;
  }
}
