/**
 * Devices, endpoints, transfers and queues of the host driver, and the
 * lifecycle of one queue: allocation with its queue head, appending transfer
 * fragments at the tail of its transfer list, wiring the list into the queue
 * head, and the drain-and-free teardown of a queue that is not scheduled.
 */
module Queues {
  import opened Usb
  import opened Ehci
  import opened Memory

  /** An endpoint of the attached device (`usb_endpoint_t`). */
  class Endpoint {
    var number: int
    var speed: Speed
    var maxPacketLen: int

    /** The zero-filled record calloc returns. */
    constructor ()
      ensures number == 0 && speed == FullSpeed && maxPacketLen == 0
    {
      number, speed, maxPacketLen := 0, FullSpeed, 0;
    }
  }

  /** The attached device (`usb_device_t`). */
  class Device {
    var address: int
    /** The buffer holding the device descriptor, once enumeration stored it. */
    var descriptor: Option<Address>
    var endpoints: Endpoint?

    /** The zero-filled record calloc returns. */
    constructor ()
      ensures address == 0 && descriptor == None && endpoints == null
    {
      address, descriptor, endpoints := 0, None, null;
    }
  }

  /** A node of a queue's transfer list (`usb_transfer_t`), owning one descriptor. */
  class Transfer {
    const qtd: Qtd

    constructor (qtd: Qtd)
      ensures this.qtd == qtd
    {
      this.qtd := qtd;
    }
  }

  /** A queue (`usb_queue_t`): one queue head and the circular list of its transfers,
      kept here as the sequence of its nodes from the list head, that is in append
      order; `next` and `prev` link it into the asynchronous schedule. */
  class Queue {
    var next: Queue?
    var prev: Queue?
    var transfers: seq<Transfer>
    const device: Device
    const endpoint: Endpoint
    const qh: Qh
    /** The transfer list has been chained into the queue head. */
    ghost var wired: bool

    constructor (device: Device, endpoint: Endpoint, qh: Qh)
      ensures this.device == device && this.endpoint == endpoint && this.qh == qh
      ensures transfers == [] && next == null && prev == null && !wired
    {
      this.device := device;
      this.endpoint := endpoint;
      this.qh := qh;
      transfers := [];
      next, prev := null, null;
      wired := false;
    }
  }

  /** What the hardware sees of one transfer fragment. */
  datatype Fragment = Fragment(token: Token, buffer: Buffer, toggle: int)

  function FragmentOf(t: Transfer): Fragment
  {
    Fragment(t.qtd.token, t.qtd.buffer, t.qtd.toggle)
  }

  /** The fragments of a transfer list, in list order. */
  function Chain(ts: seq<Transfer>): seq<Fragment>
  {
    if ts == [] then [] else Chain(ts[..|ts| - 1]) + [FragmentOf(ts[|ts| - 1])]
  }

  /** The i-th fragment is that of the i-th node. */
  lemma {:induction false} ChainAt(ts: seq<Transfer>)
    ensures |Chain(ts)| == |ts|
    ensures forall i :: 0 <= i < |ts| ==> Chain(ts)[i] == FragmentOf(ts[i])
  {
    if ts != [] {
      ChainAt(ts[..|ts| - 1]);
    }
  }

  /** The number of buffer bytes each fragment of a transfer list covers. */
  function Lengths(ts: seq<Transfer>): seq<nat>
  {
    if ts == [] then [] else Lengths(ts[..|ts| - 1]) + [ts[|ts| - 1].qtd.length]
  }

  function Sum(s: seq<nat>): nat
  {
    if s == [] then 0 else s[0] + Sum(s[1..])
  }

  /** The fragments and lengths of two lists one after the other. */
  lemma {:induction false} ChainAppend(a: seq<Transfer>, b: seq<Transfer>)
    ensures Chain(a + b) == Chain(a) + Chain(b)
    ensures Lengths(a + b) == Lengths(a) + Lengths(b)
    decreases |b|
  {
    if b == [] {
      assert a + b == a;
    } else {
      var b' := b[..|b| - 1];
      assert (a + b)[..|a + b| - 1] == a + b';
      ChainAppend(a, b');
    }
  }

  /** Sum distributes over concatenation. */
  lemma {:induction false} SumAppend(s: seq<nat>, s': seq<nat>)
    ensures Sum(s + s') == Sum(s) + Sum(s')
  {
    if s == [] {
      assert s + s' == s';
    } else {
      assert (s + s')[1..] == s[1..] + s';
      SumAppend(s[1..], s');
    }
  }

  ghost function Qtds(ts: seq<Transfer>): set<Qtd>
  {
    set t | t in ts :: t.qtd
  }

  ghost function Nodes(ts: seq<Transfer>): set<object>
  {
    set o: object | o in multiset(ts)
  }

  lemma NodesSnoc(ts: seq<Transfer>, t: Transfer)
    ensures Nodes(ts + [t]) == Nodes(ts) + {t}
    ensures Qtds(ts + [t]) == Qtds(ts) + {t.qtd}
  {
    assert forall x :: x in ts + [t] <==> x in ts || x == t;
  }

  lemma NodesAppend(a: seq<Transfer>, b: seq<Transfer>)
    ensures Nodes(a + b) == Nodes(a) + Nodes(b)
    ensures Qtds(a + b) == Qtds(a) + Qtds(b)
  {
    assert forall x :: x in a + b <==> x in a || x in b;
  }

  /** Two successive growths of a set by fresh elements are one growth. */
  lemma GrowTwice<T>(s0: set<T>, s1: set<T>, s2: set<T>, a: set<T>, b: set<T>)
    requires s1 == s0 + a && a !! s0
    requires s2 == s1 + b && b !! s1
    ensures s2 == s0 + (a + b) && (a + b) !! s0
  {
  }

  /** Freeing a queue and the nodes `ts` from live sets that gained exactly them
      gives the live sets back. */
  lemma Released(q: Queue, ts: seq<Transfer>, qhs: set<Qh>, qtds: set<Qtd>, live: set<object>)
    requires q !in live && Nodes(ts) !! live && q.qh !in qhs && Qtds(ts) !! qtds
    ensures qhs + {q.qh} - {q.qh} == qhs
    ensures qtds + Qtds(ts) - Qtds(ts) == qtds
    ensures live + {q} + Nodes(ts) - {q} - Nodes(ts) == live
  {
  }

  /** No node and no descriptor appears twice in a transfer list. */
  ghost predicate Distinct(ts: seq<Transfer>)
  {
    forall i, j :: DistinctNodesAt(ts, i, j)
  }

  ghost predicate DistinctNodesAt(ts: seq<Transfer>, i: int, j: int)
  {
    0 <= i < j < |ts| ==> ts[i] != ts[j] && ts[i].qtd != ts[j].qtd
  }

  /** A node and descriptor new to a list keep it free of repetitions. */
  lemma DistinctSnoc(ts: seq<Transfer>, t: Transfer)
    requires Distinct(ts) && t !in ts && t.qtd !in Qtds(ts)
    ensures Distinct(ts + [t])
  {
    var ts' := ts + [t];
    forall i, j ensures DistinctNodesAt(ts', i, j) {
      if 0 <= i < j < |ts'| {
        assert ts'[i] == ts[i];
        if j < |ts| {
          assert ts'[j] == ts[j] && DistinctNodesAt(ts, i, j);
        } else {
          assert ts[i].qtd in Qtds(ts);
        }
      }
    }
  }

  /** The nodes after the first of a list without repetitions do not hold its node or
      its descriptor. */
  lemma DistinctHead(ts: seq<Transfer>)
    requires Distinct(ts) && ts != []
    ensures Distinct(ts[1..]) && ts[0] !in ts[1..] && ts[0].qtd !in Qtds(ts[1..])
  {
    forall i, j ensures DistinctNodesAt(ts[1..], i, j) {
      assert DistinctNodesAt(ts, i + 1, j + 1);
    }
    forall i | 0 <= i < |ts| - 1 ensures ts[1..][i] != ts[0] && ts[1..][i].qtd != ts[0].qtd {
      assert DistinctNodesAt(ts, 0, i + 1);
    }
  }

  /** The queue, the nodes `ts`, its queue head and their descriptors are all live,
      and no node or descriptor appears twice. */
  ghost predicate OwnedBy(q: Queue, ts: seq<Transfer>, qhs: set<Qh>, qtds: set<Qtd>, live: set<object>)
  {
    && q in live
    && q.qh in qhs
    && Distinct(ts)
    && (forall t | t in ts :: t in live && t.qtd in qtds)
  }

  /** The queue owns its transfer list and its queue head. */
  ghost predicate Owned(q: Queue, hc: Controller, heap: Heap)
    reads q`transfers, hc`qhs, hc`qtds, heap`live
  {
    OwnedBy(q, q.transfers, hc.qhs, hc.qtds, heap.live)
  }

  /** What a queue head is built from: the device address and the endpoint's number,
      speed and maximum packet size. */
  datatype Target = Target(address: int, endpoint: int, speed: Speed, maxPacketLen: int)

  function TargetOf(dev: Device, ep: Endpoint): Target
    reads dev`address, ep`number, ep`speed, ep`maxPacketLen
  {
    Target(dev.address, ep.number, ep.speed, ep.maxPacketLen)
  }

  /** A queue for `dev`/`ep` whose queue head carries `target` and the transfer type. */
  predicate QueueFor(q: Queue, dev: Device, ep: Endpoint, target: Target, transfer: TransferType)
  {
    && q.device == dev && q.endpoint == ep
    && q.qh.address == target.address && q.qh.endpoint == target.endpoint && q.qh.transfer == transfer
    && q.qh.speed == target.speed && q.qh.maxPacketLen == target.maxPacketLen
  }

  /** `usb_allocQueue`: a queue for `dev`/`ep` with a fresh queue head built from the
      device address and the endpoint's number, speed and maximum packet size. If malloc
      or the queue-head allocation fails, nothing stays allocated. */
  method AllocQueue(dev: Device, ep: Endpoint, transfer: TransferType, hc: Controller, heap: Heap)
    returns (q: Queue?)
    modifies hc`qhs, heap`live, heap`pending
    ensures q == null ==> heap.live == old(heap.live) && hc.qhs == old(hc.qhs)
    ensures q != null ==> && fresh(q) && fresh(q.qh)
                          && QueueFor(q, dev, ep, old(TargetOf(dev, ep)), transfer)
                          && q.transfers == [] && q.next == null && q.prev == null && !q.wired
                          && heap.live == old(heap.live) + {q} && hc.qhs == old(hc.qhs) + {q.qh}
                          && q !in old(heap.live) && q.qh !in old(hc.qhs)
                          && Owned(q, hc, heap)
    ensures heap.pending == old(heap.pending)
  {
    var ok := heap.Malloc();
    if !ok {
      return null;
    }
    var qh := hc.AllocQh(dev.address, ep.number, transfer, ep.speed, ep.maxPacketLen);
    if qh == null {
      heap.Release();
      return null;
    }
    q := new Queue(dev, ep, qh);
    heap.Place(q);
  }

  /** `usb_appendTransfer`: a new fragment at the tail of the queue's transfer list.
      `size` is the by-reference size (None for NULL) and `rest` its value afterwards.
      If malloc or the descriptor allocation fails, the list and the live resources are
      as before. */
  method AppendTransfer(q: Queue, token: Token, buffer: Buffer, size: Option<nat>, datax: int,
                        hc: Controller, heap: Heap)
    returns (t: Transfer?, rest: Option<nat>)
    requires Owned(q, hc, heap)
    modifies q`transfers, hc`qtds, heap`live, heap`pending
    ensures Owned(q, hc, heap)
    ensures rest.Some? <==> size.Some?
    ensures size.Some? ==> rest.value <= size.value
    ensures t == null ==> q.transfers == old(q.transfers) && heap.live == old(heap.live) && hc.qtds == old(hc.qtds)
    ensures t != null ==> && fresh(t) && fresh(t.qtd)
                          && q.transfers == old(q.transfers) + [t]
                          && t.qtd.token == token && t.qtd.buffer == buffer && t.qtd.toggle == datax
                          && !t.qtd.ioc
                          && t.qtd.length == (if size.Some? then size.value - rest.value else 0)
                          && (size.Some? && size.value > 0 ==> rest.value < size.value)
                          && heap.live == old(heap.live) + {t} && hc.qtds == old(hc.qtds) + {t.qtd}
                          && t !in old(heap.live) && t.qtd !in old(hc.qtds)
    ensures heap.pending == old(heap.pending)
  {
    var ok := heap.Malloc();
    if !ok {
      return null, size;
    }
    var qtd;
    qtd, rest := hc.AllocQtd(token, buffer, size, datax);
    if qtd == null {
      heap.Release();
      return null, rest;
    }
    t := new Transfer(qtd);
    heap.Place(t);
    DistinctSnoc(q.transfers, t);
    q.transfers := q.transfers + [t];
  }

  /** The `ehci_consQtd` calls that walk a transfer list backwards, from its last
      node to its first. */
  function ConsCalls(ts: seq<Transfer>, qh: Qh): seq<Call>
  {
    if ts == [] then [] else ConsCalls(ts[1..], qh) + [ConsCall(ts[0].qtd, qh)]
  }

  /** The k-th chaining call is for the k-th node counted from the tail. */
  lemma {:induction false} ConsCallsBackwards(ts: seq<Transfer>, qh: Qh)
    ensures |ConsCalls(ts, qh)| == |ts|
    ensures forall k :: 0 <= k < |ts| ==> ConsCalls(ts, qh)[k] == ConsCall(ts[|ts| - 1 - k].qtd, qh)
  {
    if ts != [] {
      ConsCallsBackwards(ts[1..], qh);
    }
  }

  function Last(ts: seq<Transfer>): Transfer
    requires ts != []
  {
    ts[|ts| - 1]
  }

  /** `usb_linkTransfers`: sets interrupt-on-completion on the last appended fragment,
      then chains every fragment into the queue head, starting at that fragment and
      following `prev` links round the circular list until it is reached again. */
  method LinkTransfers(q: Queue, hc: Controller)
    requires q.transfers != []
    modifies q`wired, Last(q.transfers).qtd`ioc, hc`log
    ensures q.wired && Last(q.transfers).qtd.ioc
    ensures hc.log == old(hc.log) + ConsCalls(q.transfers, q.qh)
  {
    var ts := q.transfers;
    var n := |ts|;
    var i := n - 1;
    ts[i].qtd.ioc := true;
    var first := true;
    ghost var done := 0;
    while first || i != n - 1
      invariant 0 <= done <= n && 0 <= i < n
      invariant first <==> done == 0
      invariant i == if done == n then n - 1 else n - 1 - done
      invariant hc.log == old(hc.log) + ConsCalls(ts[n - done..], q.qh)
      invariant hc.qhs == old(hc.qhs) && hc.qtds == old(hc.qtds)
      invariant ts[n - 1].qtd.ioc
      decreases n - done
    {
      assert ts[i..][1..] == ts[i + 1..];
      hc.ConsQtd(ts[i].qtd, q.qh);
      i := if i == 0 then n - 1 else i - 1;
      done := done + 1;
      first := false;
    }
    q.wired := true;
  }

  /** `usb_deleteUnlinkedQueue`: frees the descriptor and the node of every transfer,
      list head first, then the queue head and the queue. */
  method DeleteUnlinkedQueue(q: Queue, hc: Controller, heap: Heap)
    requires Owned(q, hc, heap)
    modifies q`transfers, hc`qhs, hc`qtds, heap`live
    ensures q.transfers == []
    ensures heap.live == old(heap.live) - {q} - Nodes(old(q.transfers))
    ensures hc.qtds == old(hc.qtds) - Qtds(old(q.transfers))
    ensures hc.qhs == old(hc.qhs) - {q.qh}
  {
    ghost var ts := q.transfers;
    ghost var k := 0;
    while q.transfers != []
      invariant 0 <= k <= |ts| && q.transfers == ts[k..]
      invariant q in heap.live && q.qh in hc.qhs
      invariant heap.live == old(heap.live) - Nodes(ts[..k])
      invariant hc.qtds == old(hc.qtds) - Qtds(ts[..k])
      invariant hc.qhs == old(hc.qhs) && hc.log == old(hc.log)
      decreases |q.transfers|
    {
      var t := q.transfers[0];
      assert t == ts[k];
      assert t.qtd !in Qtds(ts[..k]) && t !in Nodes(ts[..k]) by {
        forall i | 0 <= i < k ensures ts[i].qtd != t.qtd && ts[i] != t {
          assert DistinctNodesAt(ts, i, k);
        }
      }
      hc.FreeQtd(t.qtd);
      q.transfers := q.transfers[1..];
      heap.Free(t);
      assert ts[..k + 1] == ts[..k] + [t];
      NodesSnoc(ts[..k], t);
      k := k + 1;
    }
    assert ts[..k] == ts;
    hc.FreeQh(q.qh);
    heap.Free(q);
  }
}
