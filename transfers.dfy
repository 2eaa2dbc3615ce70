/**
 * Building and running transfers: `usb_control` (setup, data and status stages
 * of a control transfer), `usb_bulk`, and the standard requests issued through
 * a control transfer on the default pipe (`usb_setAddress`, `usb_getDescriptor`
 * and its wrappers, `usb_setConfiguration`, `usb_setInterface`).
 */
module Transfers {
  import opened Usb
  import opened Memory
  import opened Ehci
  import opened Queues
  import opened Usbd
  import opened Registry

  // ----- The fragment chains the builders produce -----

  /** Toggle of the i-th data fragment: a control transfer's data stage alternates
      starting at DATA1; a bulk transfer's fragments all carry DATA0. */
  function DataToggle(alternating: bool, i: nat): int
  {
    if alternating && i % 2 == 0 then 1 else 0
  }

  /** Each fragment flips the toggle of the one before when toggles alternate. */
  lemma DataToggleStep(alternating: bool, i: nat)
    ensures DataToggle(alternating, i + 1) == if alternating then 1 - DataToggle(alternating, i) else 0
  {
    if alternating {
      assert (i + 1) % 2 == 0 <==> i % 2 == 1;
    }
  }

  /** m data fragments of one direction, all pointing at the caller's buffer. */
  function DataChain(token: Token, buffer: Buffer, alternating: bool, m: nat): seq<Fragment>
  {
    if m == 0 then [] else DataChain(token, buffer, alternating, m - 1) + [Fragment(token, buffer, DataToggle(alternating, m - 1))]
  }

  /** The i-th data fragment. */
  lemma {:induction false} DataChainAt(token: Token, buffer: Buffer, alternating: bool, m: nat)
    ensures |DataChain(token, buffer, alternating, m)| == m
    ensures forall i :: 0 <= i < m ==> DataChain(token, buffer, alternating, m)[i] == Fragment(token, buffer, DataToggle(alternating, i))
  {
    if m > 0 {
      DataChainAt(token, buffer, alternating, m - 1);
    }
  }

  /** The chain of a control transfer with m data fragments for a signed size. */
  function ControlChain(packet: SetupPacket, ssize: int, buffer: Buffer, m: nat): seq<Fragment>
  {
    [Fragment(SetupToken, SetupBuffer(packet), 0)]
    + DataChain(DataToken(ssize), buffer, true, m)
    + [Fragment(StatusToken(DataToken(ssize)), NoBuffer, 1)]
  }

  /** A control transfer in the order USB 2.0 section 8.5.3 gives it: the setup
      fragment with DATA0 first, then data fragments of one direction whose toggles
      alternate from DATA1, and last a status fragment with DATA1 and no buffer going
      the other way. */
  lemma ControlChainStages(packet: SetupPacket, ssize: int, buffer: Buffer, m: nat)
    ensures var c := ControlChain(packet, ssize, buffer, m);
            && |c| == m + 2
            && c[0] == Fragment(SetupToken, SetupBuffer(packet), 0)
            && c[m + 1].token != SetupToken && c[m + 1].buffer == NoBuffer && c[m + 1].toggle == 1
            && (forall i :: 1 <= i <= m ==> c[i].token == DataToken(ssize) && c[i].buffer == buffer
                                            && c[i].token != c[m + 1].token)
            && (m > 0 ==> c[1].toggle == 1)
            && (forall i :: 1 <= i < m ==> c[i + 1].toggle == 1 - c[i].toggle)
  {
    var c := ControlChain(packet, ssize, buffer, m);
    var d := DataChain(DataToken(ssize), buffer, true, m);
    DirectionRule(ssize);
    DataChainAt(DataToken(ssize), buffer, true, m);
    forall i | 1 <= i <= m
      ensures c[i] == Fragment(DataToken(ssize), buffer, DataToggle(true, i - 1))
    {
      assert c[i] == d[i - 1];
    }
    forall i | 1 <= i < m ensures c[i + 1].toggle == 1 - c[i].toggle {
      DataToggleStep(true, i - 1);
    }
  }

  /** Number of bytes the data fragments of a control chain cover. */
  function DataBytes(ts: seq<Transfer>): nat
    requires |ts| >= 2
  {
    Sum(Lengths(ts[1..|ts| - 1]))
  }

  function Abs(x: int): nat
  {
    if x < 0 then -x else x
  }

  lemma ChainSnoc(ts: seq<Transfer>, t: Transfer, token: Token, buffer: Buffer, alternating: bool)
    requires Chain(ts) == DataChain(token, buffer, alternating, |ts|)
    requires t.qtd.token == token && t.qtd.buffer == buffer && t.qtd.toggle == DataToggle(alternating, |ts|)
    ensures Chain(ts + [t]) == DataChain(token, buffer, alternating, |ts| + 1)
    ensures Sum(Lengths(ts + [t])) == Sum(Lengths(ts)) + t.qtd.length
  {
    assert (ts + [t])[..|ts|] == ts;
    SumAppend(Lengths(ts), [t.qtd.length]);
  }

  /** The state of the `while (size)` loop of `usb_control` and `usb_bulk` once the
      fragments `added` were appended to the list `first`, `left` bytes still to go:
      the new nodes and descriptors are live and were not live before, and the
      fragments are a data chain of non-empty parts covering the rest of `size`. */
  ghost predicate Filled(q: Queue, hc: Controller, heap: Heap, first: seq<Transfer>, qtds: set<Qtd>,
                         live: set<object>, added: seq<Transfer>, token: Token, buffer: Buffer,
                         alternating: bool, size: nat, left: nat)
    reads q`transfers, hc`qhs, hc`qtds, heap`live
  {
    && Owned(q, hc, heap)
    && q.transfers == first + added
    && heap.live == live + Nodes(added) && Nodes(added) !! live
    && hc.qtds == qtds + Qtds(added) && Qtds(added) !! qtds
    && Chain(added) == DataChain(token, buffer, alternating, |added|)
    && Sum(Lengths(added)) + left == size
    && (forall t | t in added :: t.qtd.length > 0)
  }

  /** One pass of that loop: `usb_appendTransfer` with the remaining size and the
      current toggle. On success the fragment takes a non-empty part of what is left. */
  method AppendNext(q: Queue, token: Token, buffer: Buffer, left: nat, dt: int, hc: Controller, heap: Heap,
                    ghost first: seq<Transfer>, ghost qtds: set<Qtd>, ghost live: set<object>,
                    ghost added: seq<Transfer>, ghost alternating: bool, ghost size: nat)
    returns (t: Transfer?, rest: nat)
    requires Filled(q, hc, heap, first, qtds, live, added, token, buffer, alternating, size, left)
    requires left > 0 && dt == DataToggle(alternating, |added|)
    modifies q`transfers, hc`qtds, heap`live, heap`pending
    ensures t == null ==> Filled(q, hc, heap, first, qtds, live, added, token, buffer, alternating, size, left)
    ensures t != null ==> && fresh(t.qtd) && rest < left
                          && Filled(q, hc, heap, first, qtds, live, added + [t], token, buffer, alternating, size, rest)
    ensures heap.pending == old(heap.pending)
  {
    var r;
    t, r := AppendTransfer(q, token, buffer, Some(left), dt, hc, heap);
    if t == null {
      return null, left;
    }
    rest := r.value;
    ChainSnoc(added, t, token, buffer, alternating);
    NodesSnoc(added, t);
    assert first + added + [t] == first + (added + [t]);
  }

  /** The `while (size)` loop of `usb_control` and `usb_bulk`: appends fragments of
      `token` until the backend has taken the whole size, toggling between fragments
      when `alternating`. On failure the fragments appended so far stay on the queue. */
  method AppendData(q: Queue, token: Token, buffer: Buffer, size: nat, alternating: bool,
                    hc: Controller, heap: Heap)
    returns (ok: bool, ghost added: seq<Transfer>)
    requires Owned(q, hc, heap)
    modifies q`transfers, hc`qtds, heap`live, heap`pending
    ensures Owned(q, hc, heap)
    ensures q.transfers == old(q.transfers) + added
    ensures heap.live == old(heap.live) + Nodes(added) && Nodes(added) !! old(heap.live)
    ensures hc.qtds == old(hc.qtds) + Qtds(added) && Qtds(added) !! old(hc.qtds)
    ensures Chain(added) == DataChain(token, buffer, alternating, |added|)
    ensures ok ==> Sum(Lengths(added)) == size
    ensures forall t | t in added :: t.qtd.length > 0
    ensures fresh(Qtds(added))
    ensures heap.pending == old(heap.pending)
  {
    ghost var first, qtds, live := q.transfers, hc.qtds, heap.live;
    var left := size;
    var dt := DataToggle(alternating, 0);
    added := [];
    assert Nodes([]) == {} && Qtds([]) == {} && first + [] == first;
    while left != 0
      invariant Filled(q, hc, heap, first, qtds, live, added, token, buffer, alternating, size, left)
      invariant dt == DataToggle(alternating, |added|)
      invariant fresh(Qtds(added))
      invariant heap.pending == old(heap.pending)
      decreases left
    {
      var t, r := AppendNext(q, token, buffer, left, dt, hc, heap, first, qtds, live, added, alternating, size);
      if t == null {
        return false, added;
      }
      DataToggleStep(alternating, |added|);
      added := added + [t];
      left := r;
      if alternating {
        dt := 1 - dt;
      }
    }
    ok := true;
  }

  /** Transfers whose fragments are those of `ControlChain`, the data fragments
      covering `|ssize|` bytes. */
  ghost predicate ControlStages(ts: seq<Transfer>, packet: SetupPacket, ssize: int, buffer: Buffer)
  {
    && |ts| >= 2
    && Chain(ts) == ControlChain(packet, ssize, buffer, |ts| - 2)
    && DataBytes(ts) == Abs(ssize)
  }

  /** A setup fragment, data fragments and a status fragment make a control chain. */
  lemma StagesChain(first: seq<Transfer>, added: seq<Transfer>, status: Transfer,
                    packet: SetupPacket, ssize: int, buffer: Buffer)
    requires |first| == 1
    requires first[0].qtd.token == SetupToken && first[0].qtd.buffer == SetupBuffer(packet)
    requires first[0].qtd.toggle == 0
    requires Chain(added) == DataChain(DataToken(ssize), buffer, true, |added|)
    requires Sum(Lengths(added)) == Abs(ssize)
    requires status.qtd.token == StatusToken(DataToken(ssize)) && status.qtd.buffer == NoBuffer
    requires status.qtd.toggle == 1
    ensures ControlStages(first + added + [status], packet, ssize, buffer)
  {
    var ts := first + added + [status];
    ChainAppend(first, added);
    assert Chain(first) == [FragmentOf(first[0])] by {
      assert first[..0] == [];
    }
    assert ts[..|ts| - 1] == first + added;
    assert ts[1..|ts| - 1] == added;
  }

  /** A list of one node. */
  lemma NodesOne(t: Transfer)
    ensures Nodes([] + [t]) == {t} && Qtds([] + [t]) == {t.qtd}
  {
    assert [] + [t] == [t];
  }

  /** The three stages `usb_control` appends to a fresh queue. */
  method AppendStages(q: Queue, packet: SetupPacket, buffer: Buffer, ssize: int, hc: Controller, heap: Heap)
    returns (ok: bool)
    requires Owned(q, hc, heap) && q.transfers == []
    modifies q`transfers, hc`qtds, heap`live, heap`pending
    ensures Owned(q, hc, heap)
    ensures heap.live == old(heap.live) + Nodes(q.transfers) && Nodes(q.transfers) !! old(heap.live)
    ensures hc.qtds == old(hc.qtds) + Qtds(q.transfers) && Qtds(q.transfers) !! old(hc.qtds)
    ensures ok ==> ControlStages(q.transfers, packet, ssize, buffer) && fresh(Last(q.transfers).qtd)
    ensures heap.pending == old(heap.pending)
  {
    var dataToken := DataToken(ssize);
    var statusToken := StatusToken(dataToken);
    ghost var live0, qtds0 := heap.live, hc.qtds;
    var setup, _ := AppendTransfer(q, SetupToken, SetupBuffer(packet), Some(SETUP_PACKET_SIZE), 0, hc, heap);
    if setup == null {
      assert Nodes([]) == {} && Qtds([]) == {};
      return false;
    }
    ghost var first := q.transfers;
    NodesOne(setup);
    ghost var live1, qtds1 := heap.live, hc.qtds;
    var data;
    ghost var added;
    data, added := AppendData(q, dataToken, buffer, Abs(ssize), true, hc, heap);
    NodesAppend(first, added);
    GrowTwice(live0, live1, heap.live, {setup}, Nodes(added));
    GrowTwice(qtds0, qtds1, hc.qtds, {setup.qtd}, Qtds(added));
    if !data {
      return false;
    }
    ghost var live2, qtds2 := heap.live, hc.qtds;
    var status, _ := AppendTransfer(q, statusToken, NoBuffer, None, 1, hc, heap);
    if status == null {
      return false;
    }
    NodesSnoc(first + added, status);
    GrowTwice(live0, live2, heap.live, Nodes(first + added), {status});
    GrowTwice(qtds0, qtds2, hc.qtds, Qtds(first + added), {status.qtd});
    StagesChain(first, added, status, packet, ssize, buffer);
    ok := true;
  }

  /** The resources of a new queue: it owns its transfers and queue head, and none
      of them was live in the state with live sets `qhs`, `qtds` and `live`. */
  ghost predicate Added(q: Queue, qhs: set<Qh>, qtds: set<Qtd>, live: set<object>, hc: Controller, heap: Heap)
    reads q`transfers, hc`qhs, hc`qtds, heap`live
  {
    && q.transfers != [] && Owned(q, hc, heap)
    && q !in live && Nodes(q.transfers) !! live && heap.live == live + {q} + Nodes(q.transfers)
    && q.qh !in qhs && hc.qhs == qhs + {q.qh}
    && Qtds(q.transfers) !! qtds && hc.qtds == qtds + Qtds(q.transfers)
  }

  /** A queue holding a control transfer to `dev`/`ep`: the setup, data and
      status fragments of `ControlChain`, the data fragments covering `|ssize|` bytes. */
  ghost predicate ControlQueue(q: Queue, dev: Device, ep: Endpoint, target: Target,
                               packet: SetupPacket, ssize: int, buffer: Buffer)
    reads q`transfers
  {
    QueueFor(q, dev, ep, target, ControlTransfer) && ControlStages(q.transfers, packet, ssize, buffer)
  }

  /** The live queue heads, descriptors and objects are `qhs`, `qtds` and `live`. */
  ghost predicate Live(hc: Controller, heap: Heap, qhs: set<Qh>, qtds: set<Qtd>, live: set<object>)
    reads hc`qhs, hc`qtds, heap`live
  {
    hc.qhs == qhs && hc.qtds == qtds && heap.live == live
  }

  /** The allocating half of `usb_control`: a queue with the setup, data and status
      fragments, or, when an allocation fails, nothing left allocated. */
  method BuildControl(dev: Device, ep: Endpoint, packet: SetupPacket, buffer: Buffer, ssize: int,
                      hc: Controller, heap: Heap)
    returns (q: Queue?)
    modifies hc`qhs, hc`qtds, heap`live, heap`pending
    ensures q == null ==> Live(hc, heap, old(hc.qhs), old(hc.qtds), old(heap.live))
    ensures q != null ==> && fresh(q) && ControlQueue(q, dev, ep, old(TargetOf(dev, ep)), packet, ssize, buffer) && !q.wired
                          && Added(q, old(hc.qhs), old(hc.qtds), old(heap.live), hc, heap)
                          && fresh(Last(q.transfers).qtd)
    ensures heap.pending == old(heap.pending)
  {
    ghost var qhs, qtds, live := hc.qhs, hc.qtds, heap.live;
    q := AllocQueue(dev, ep, ControlTransfer, hc, heap);
    if q == null {
      return null;
    }
    var ok := AppendStages(q, packet, buffer, ssize, hc, heap);
    if !ok {
      ghost var ts := q.transfers;
      DeleteUnlinkedQueue(q, hc, heap);
      Released(q, ts, qhs, qtds, live);
      return null;
    }
  }

  // ----- Transfers on the asynchronous schedule -----

  /** `usb_control`: a control transfer to `dev`/`ep` with setup packet `packet` and
      signed size `ssize` (positive: the device sends `ssize` bytes into `buffer`, an
      IN data stage; negative: the host sends `-ssize` bytes, an OUT data stage; zero:
      no data stage). On success the
      queue is wired and scheduled behind the ring; when any allocation fails
      everything allocated for it is freed and nothing reached the hardware. The new
      queue is returned as well, which `usb_control` itself does not do. */
  method Control(ctx: Context, dev: Device, ep: Endpoint, packet: SetupPacket, buffer: Buffer, ssize: int)
    returns (err: int, q: Queue?)
    requires Valid(ctx)
    modifies ctx`queues, ctx`ring, ctx.ring`next, ctx.ring`prev, ctx.hc`qhs, ctx.hc`qtds, ctx.hc`log
    modifies ctx.heap`live, ctx.heap`pending
    ensures Valid(ctx)
    ensures (err == EOK && q != null) || (err == -ENOMEM && q == null)
    ensures q == null ==> && ctx.ring == old(ctx.ring) && ctx.hc.log == old(ctx.hc.log)
                          && Live(ctx.hc, ctx.heap, old(ctx.hc.qhs), old(ctx.hc.qtds), old(ctx.heap.live))
    ensures q != null ==> && fresh(q) && ctx.ring == old(ctx.ring) + [q]
                          && ControlQueue(q, dev, ep, old(TargetOf(dev, ep)), packet, ssize, buffer) && Last(q.transfers).qtd.ioc
                          && Added(q, old(ctx.hc.qhs), old(ctx.hc.qtds), old(ctx.heap.live), ctx.hc, ctx.heap)
                          && ctx.hc.log == old(ctx.hc.log) + ConsCalls(q.transfers, q.qh) + LinkCalls(old(ctx.ring), q)
    ensures ctx.heap.pending == old(ctx.heap.pending)
  {
    ghost var qhs, qtds, live := ctx.hc.qhs, ctx.hc.qtds, ctx.heap.live;
    q := Prepare(ctx, dev, ep, packet, buffer, ssize);
    if q == null {
      return -ENOMEM, null;
    }
    Submit(ctx, q, qhs, qtds, live);
    err := EOK;
  }

  /** `BuildControl` in a valid driver state, which the new queue's allocations
      leave as it was. */
  method Prepare(ctx: Context, dev: Device, ep: Endpoint, packet: SetupPacket, buffer: Buffer, ssize: int)
    returns (q: Queue?)
    requires Valid(ctx)
    modifies ctx.hc`qhs, ctx.hc`qtds, ctx.heap`live, ctx.heap`pending
    ensures q == null ==> Valid(ctx) && Live(ctx.hc, ctx.heap, old(ctx.hc.qhs), old(ctx.hc.qtds), old(ctx.heap.live))
    ensures q != null ==> && Shape(ctx) && Sorted(ctx.drivers)
                          && AllScheduled(Views(ctx.ring), old(ctx.hc.qhs), old(ctx.hc.qtds), old(ctx.heap.live))
                          && fresh(q) && ControlQueue(q, dev, ep, old(TargetOf(dev, ep)), packet, ssize, buffer) && !q.wired
                          && Added(q, old(ctx.hc.qhs), old(ctx.hc.qtds), old(ctx.heap.live), ctx.hc, ctx.heap)
                          && fresh(Last(q.transfers).qtd)
    ensures ctx.heap.pending == old(ctx.heap.pending)
  {
    q := BuildControl(dev, ep, packet, buffer, ssize, ctx.hc, ctx.heap);
  }

  /** `usb_linkTransfers` and then `usb_linkAsync` of a queue whose resources were
      all allocated since the state with live sets `qhs`, `qtds` and `live`, where
      the driver state was valid and the ring the same. */
  method Submit(ctx: Context, q: Queue, ghost qhs: set<Qh>, ghost qtds: set<Qtd>, ghost live: set<object>)
    requires Shape(ctx) && Sorted(ctx.drivers) && AllScheduled(Views(ctx.ring), qhs, qtds, live)
    requires Added(q, qhs, qtds, live, ctx.hc, ctx.heap)
    modifies ctx`queues, ctx`ring, ctx.ring`next, ctx.ring`prev, q`next, q`prev, q`wired
    modifies Last(q.transfers).qtd`ioc, ctx.hc`log
    ensures Valid(ctx)
    ensures ctx.ring == old(ctx.ring) + [q]
    ensures q.transfers == old(q.transfers) && Last(q.transfers).qtd.ioc
    ensures ctx.hc.log == old(ctx.hc.log) + ConsCalls(q.transfers, q.qh) + LinkCalls(old(ctx.ring), q)
    ensures Added(q, qhs, qtds, live, ctx.hc, ctx.heap)
  {
    Wire(ctx, q, qhs, qtds, live);
    Enqueue(ctx, q, qhs, qtds, live);
  }

  /** `usb_linkTransfers` of a queue whose resources were all allocated since the
      state with live sets `qhs`, `qtds` and `live`: the ring and what it owns are
      untouched. */
  method Wire(ctx: Context, q: Queue, ghost qhs: set<Qh>, ghost qtds: set<Qtd>, ghost live: set<object>)
    requires Shape(ctx) && Sorted(ctx.drivers) && AllScheduled(Views(ctx.ring), qhs, qtds, live)
    requires Added(q, qhs, qtds, live, ctx.hc, ctx.heap)
    modifies q`wired, Last(q.transfers).qtd`ioc, ctx.hc`log
    ensures Shape(ctx) && Sorted(ctx.drivers) && AllScheduled(Views(ctx.ring), qhs, qtds, live)
    ensures Added(q, qhs, qtds, live, ctx.hc, ctx.heap) && q.wired
    ensures q.transfers == old(q.transfers) && Last(q.transfers).qtd.ioc
    ensures ctx.hc.log == old(ctx.hc.log) + ConsCalls(q.transfers, q.qh)
  {
    ghost var vs := Views(ctx.ring);
    ViewsAt(ctx.ring);
    label Before:
    LinkTransfers(q, ctx.hc);
    assert forall i :: 0 <= i < |ctx.ring| ==> ViewOf(ctx.ring[i]) == vs[i] by {
      forall i | 0 <= i < |ctx.ring| ensures ctx.ring[i] != q {
        assert ScheduledAt(vs, i, qhs, qtds, live);
      }
    }
    ViewsAre(ctx.ring, vs);
    ShapeFrame@Before(ctx);
  }

  /** `usb_linkAsync` of a queue whose resources were all allocated since the state
      with live sets `qhs`, `qtds` and `live`, where the driver state was valid. */
  method Enqueue(ctx: Context, q: Queue, ghost qhs: set<Qh>, ghost qtds: set<Qtd>, ghost live: set<object>)
    requires Shape(ctx) && Sorted(ctx.drivers) && AllScheduled(Views(ctx.ring), qhs, qtds, live)
    requires Added(q, qhs, qtds, live, ctx.hc, ctx.heap) && q.wired
    modifies ctx`queues, ctx`ring, ctx.ring`next, ctx.ring`prev, q`next, q`prev, ctx.hc`log
    ensures Valid(ctx)
    ensures ctx.ring == old(ctx.ring) + [q]
    ensures ctx.hc.log == old(ctx.hc.log) + LinkCalls(old(ctx.ring), q)
  {
    var vs := Views(ctx.ring);
    Grow(vs, qhs, qtds, live, ctx.hc.qhs, ctx.hc.qtds, ctx.heap.live);
    FreshApart(vs, ViewOf(q), qhs, qtds, live);
    LinkAsync(ctx, q);
  }

  /** `ehci_await(USB_TIMEOUT)` and then `usb_deleteQueue` of the queue linked last,
      which the ring has at its tail: the ring is as before that queue joined it,
      and what the queue owned is freed. */
  method Retire(ctx: Context, q: Queue)
    requires Valid(ctx) && ctx.ring != [] && ctx.ring[|ctx.ring| - 1] == q
    modifies ctx`queues, ctx`ring, ctx.ring`next, ctx.ring`prev, q`transfers, ctx.hc`qhs, ctx.hc`qtds, ctx.hc`log
    modifies ctx.heap`live
    ensures Valid(ctx)
    ensures ctx.ring == old(ctx.ring)[..|old(ctx.ring)| - 1]
    ensures ctx.hc.log == old(ctx.hc.log) + [AwaitCall(Timeout)] + [UnlinkLast(ctx.ring, q)]
    ensures ctx.hc.qhs == old(ctx.hc.qhs) - {q.qh}
    ensures ctx.hc.qtds == old(ctx.hc.qtds) - Qtds(old(q.transfers))
    ensures ctx.heap.live == old(ctx.heap.live) - {q} - Nodes(old(q.transfers))
  {
    ghost var r := ctx.ring;
    ghost var n := |r|;
    assert forall i :: 0 <= i < n - 1 ==> r[i] != q by {
      forall i | 0 <= i < n - 1 ensures r[i] != q {
        assert DistinctAt(r, i, n - 1);
      }
    }
    var _ := ctx.hc.Await(Timeout);
    var k := DeleteQueue(ctx, q);
    assert k == n - 1;
  }

  /** The `ehci_unlinkQh` call that takes `q` off the tail of the ring `r + [q]`:
      between the tail and the head of `r`, or from between itself when alone. */
  function UnlinkLast(r: seq<Queue>, q: Queue): Call
  {
    if r == [] then UnlinkCall(q.qh, q.qh, q.qh) else UnlinkCall(r[|r| - 1].qh, q.qh, r[0].qh)
  }

  /** The backend calls of a `usb_bulk` on the ring `r` whose queue `q` carrying
      `ts` was built: the chaining calls, the link calls, the wait and the unlink. */
  function BulkCalls(r: seq<Queue>, q: Queue, ts: seq<Transfer>): seq<Call>
  {
    ConsCalls(ts, q.qh) + LinkCalls(r, q) + [AwaitCall(Timeout)] + [UnlinkLast(r, q)]
  }

  /** Transfers whose fragments are those of a bulk transfer: one direction, one
      buffer, all DATA0, covering `size` bytes. */
  ghost predicate BulkStages(ts: seq<Transfer>, token: Token, buffer: Buffer, size: nat)
  {
    ts != [] && Chain(ts) == DataChain(token, buffer, false, |ts|) && Sum(Lengths(ts)) == size
  }

  /** Every fragment of a bulk transfer carries the transfer's token, its buffer and
      DATA0, and together they cover its size. */
  lemma BulkChain(ts: seq<Transfer>, token: Token, buffer: Buffer, size: nat)
    requires BulkStages(ts, token, buffer, size)
    ensures forall i :: 0 <= i < |ts| ==> FragmentOf(ts[i]) == Fragment(token, buffer, 0)
    ensures Sum(Lengths(ts)) == size
  {
    ChainAt(ts);
    DataChainAt(token, buffer, false, |ts|);
  }

  /** The allocating half of `usb_bulk`: a queue whose fragments cover the whole
      size, or, when an allocation fails, nothing left allocated. */
  method BuildBulk(dev: Device, ep: Endpoint, token: Token, buffer: Buffer, size: nat,
                   hc: Controller, heap: Heap)
    returns (q: Queue?)
    requires size > 0
    modifies hc`qhs, hc`qtds, heap`live, heap`pending
    ensures q == null ==> Live(hc, heap, old(hc.qhs), old(hc.qtds), old(heap.live))
    ensures q != null ==> && fresh(q) && QueueFor(q, dev, ep, old(TargetOf(dev, ep)), BulkTransfer)
                          && BulkStages(q.transfers, token, buffer, size) && !q.wired
                          && fresh(Last(q.transfers).qtd)
                          && Added(q, old(hc.qhs), old(hc.qtds), old(heap.live), hc, heap)
    ensures heap.pending == old(heap.pending)
  {
    ghost var qhs, qtds, live := hc.qhs, hc.qtds, heap.live;
    q := AllocQueue(dev, ep, BulkTransfer, hc, heap);
    if q == null {
      return null;
    }
    var ok, added := AppendData(q, token, buffer, size, false, hc, heap);
    assert q.transfers == added;
    if !ok {
      DeleteUnlinkedQueue(q, hc, heap);
      Released(q, added, qhs, qtds, live);
      return null;
    }
  }

  /** `usb_bulk`: a bulk transfer of `size` bytes of `buffer` in the direction of
      `token`. The queue is built, wired and scheduled, the driver waits, and the
      queue is deleted again, so that the ring and the live resources end as they
      began; when an allocation fails nothing reached the hardware. `q` and `ts` are
      the queue and the transfers it carried. */
  method Bulk(ctx: Context, dev: Device, ep: Endpoint, token: Token, buffer: Buffer, size: nat)
    returns (err: int, ghost q: Queue?, ghost ts: seq<Transfer>)
    requires Valid(ctx) && size > 0
    modifies ctx`queues, ctx`ring, ctx.ring`next, ctx.ring`prev, ctx.hc`qhs, ctx.hc`qtds, ctx.hc`log
    modifies ctx.heap`live, ctx.heap`pending
    ensures Valid(ctx)
    ensures err == EOK || err == -ENOMEM
    ensures ctx.ring == old(ctx.ring)
    ensures Live(ctx.hc, ctx.heap, old(ctx.hc.qhs), old(ctx.hc.qtds), old(ctx.heap.live))
    ensures ctx.heap.pending == old(ctx.heap.pending)
    ensures err == -ENOMEM ==> ctx.hc.log == old(ctx.hc.log)
    ensures err == EOK ==> && q != null && QueueFor(q, dev, ep, old(TargetOf(dev, ep)), BulkTransfer)
                           && BulkStages(ts, token, buffer, size) && Last(ts).qtd.ioc
                           && ctx.hc.log == old(ctx.hc.log) + ConsCalls(ts, q.qh) + LinkCalls(old(ctx.ring), q)
                                            + [AwaitCall(Timeout)] + [UnlinkLast(old(ctx.ring), q)]
  {
    ghost var qhs, qtds, live := ctx.hc.qhs, ctx.hc.qtds, ctx.heap.live;
    var queue := BuildBulk(dev, ep, token, buffer, size, ctx.hc, ctx.heap);
    q, ts := queue, [];
    if queue == null {
      return -ENOMEM, q, ts;
    }
    ts := queue.transfers;
    Transact(ctx, queue, qhs, qtds, live);
    err := EOK;
  }

  /** The rest of `usb_bulk` once its queue is built: `usb_linkTransfers`,
      `usb_linkAsync`, the wait, and `usb_deleteQueue` of the queue, after which the
      ring and the live resources are those of the state with live sets `qhs`,
      `qtds` and `live`, where the driver state was valid and the ring the same. */
  method Transact(ctx: Context, q: Queue, ghost qhs: set<Qh>, ghost qtds: set<Qtd>, ghost live: set<object>)
    requires Shape(ctx) && Sorted(ctx.drivers) && AllScheduled(Views(ctx.ring), qhs, qtds, live)
    requires Added(q, qhs, qtds, live, ctx.hc, ctx.heap)
    modifies ctx`queues, ctx`ring, ctx.ring`next, ctx.ring`prev, q`next, q`prev, q`wired, q`transfers
    modifies Last(q.transfers).qtd`ioc, ctx.hc`qhs, ctx.hc`qtds, ctx.hc`log, ctx.heap`live
    ensures Valid(ctx)
    ensures ctx.ring == old(ctx.ring)
    ensures Live(ctx.hc, ctx.heap, qhs, qtds, live)
    ensures Last(old(q.transfers)).qtd.ioc
    ensures ctx.hc.log == old(ctx.hc.log) + ConsCalls(old(q.transfers), q.qh) + LinkCalls(old(ctx.ring), q)
                          + [AwaitCall(Timeout)] + [UnlinkLast(old(ctx.ring), q)]
  {
    ghost var ts := q.transfers;
    Submit(ctx, q, qhs, qtds, live);
    Retire(ctx, q);
    Released(q, ts, qhs, qtds, live);
  }

  // ----- Standard requests on the default pipe -----

  /** Chaining descriptors none of which is a setup fragment issues no request. */
  lemma {:induction false} NoSetupSteps(ts: seq<Transfer>, qh: Qh)
    requires forall i :: 0 <= i < |ts| ==> ts[i].qtd.token != SetupToken
    ensures Steps(ConsCalls(ts, qh)) == []
  {
    if ts != [] {
      var c := ConsCall(ts[0].qtd, qh);
      NoSetupSteps(ts[1..], qh);
      StepsSnoc(ConsCalls(ts[1..], qh), c);
    }
  }

  /** Chaining a control transfer into its queue head issues exactly one request:
      the setup packet to the queue head's address, with its maximum packet size. */
  lemma ControlSteps(ts: seq<Transfer>, qh: Qh, packet: SetupPacket, ssize: int, buffer: Buffer)
    requires ControlStages(ts, packet, ssize, buffer)
    ensures Steps(ConsCalls(ts, qh)) == [Setup(packet, qh.address, qh.maxPacketLen)]
  {
    var m := |ts| - 2;
    ChainAt(ts);
    ControlChainStages(packet, ssize, buffer, m);
    forall i | 0 <= i < |ts[1..]| ensures ts[1..][i].qtd.token != SetupToken {
      assert FragmentOf(ts[i + 1]) == ControlChain(packet, ssize, buffer, m)[i + 1];
    }
    NoSetupSteps(ts[1..], qh);
    var c := ConsCall(ts[0].qtd, qh);
    assert FragmentOf(ts[0]) == ControlChain(packet, ssize, buffer, m)[0];
    StepsSnoc(ConsCalls(ts[1..], qh), c);
  }

  /** Linking a queue head into the schedule issues no protocol step. */
  lemma LinkSteps(r: seq<Queue>, q: Queue)
    ensures Steps(LinkCalls(r, q)) == []
  {
    var c := LinkCall(q.qh, if r == [] then q.qh else r[0].qh);
    StepsSnoc([], c);
    assert [] + [c] == [c];
    if r != [] {
      StepsSnoc([c], LinkCall(r[|r| - 1].qh, q.qh));
    }
  }

  /** The protocol steps of one standard request: the request when its transfer
      could be built, then the wait. */
  function RequestSteps(ok: bool, packet: SetupPacket, target: Target): seq<Step>
  {
    (if ok then [Setup(packet, target.address, target.maxPacketLen)] else []) + [Wait(Timeout)]
  }

  /** The backend calls of one request through the default pipe, read as protocol
      steps: the request to the queue head's target, then the wait; linking and
      unlinking are not steps. */
  lemma RequestLog(log: seq<Call>, ts: seq<Transfer>, r: seq<Queue>, q: Queue, unlink: Call,
                   packet: SetupPacket, ssize: int, buffer: Buffer, target: Target)
    requires ControlStages(ts, packet, ssize, buffer) && unlink.UnlinkCall?
    requires q.qh.address == target.address && q.qh.maxPacketLen == target.maxPacketLen
    ensures Steps(log + ConsCalls(ts, q.qh) + LinkCalls(r, q) + [AwaitCall(Timeout)] + [unlink])
            == Steps(log) + RequestSteps(true, packet, target)
  {
    var l1 := log + ConsCalls(ts, q.qh);
    var l2 := l1 + LinkCalls(r, q);
    var setup := Setup(packet, q.qh.address, q.qh.maxPacketLen);
    calc {
      Steps(l2 + [AwaitCall(Timeout)] + [unlink]);
    == { StepsSnoc(l2 + [AwaitCall(Timeout)], unlink); }
      Steps(l2 + [AwaitCall(Timeout)]) + [];
    == { StepsSnoc(l2, AwaitCall(Timeout)); }
      Steps(l2) + [Wait(Timeout)];
    == { StepsAppend(l1, LinkCalls(r, q)); LinkSteps(r, q); assert Steps(l1) + [] == Steps(l1); }
      Steps(l1) + [Wait(Timeout)];
    == { StepsAppend(log, ConsCalls(ts, q.qh)); ControlSteps(ts, q.qh, packet, ssize, buffer); }
      Steps(log) + [setup] + [Wait(Timeout)];
    == { assert [setup] + [Wait(Timeout)] == RequestSteps(true, packet, target); }
      Steps(log) + RequestSteps(true, packet, target);
    }
  }

  /** A request whose transfer could not be built leaves only the wait. */
  lemma WaitLog(log: seq<Call>, packet: SetupPacket, target: Target)
    ensures Steps(log + [AwaitCall(Timeout)]) == Steps(log) + RequestSteps(false, packet, target)
  {
    StepsSnoc(log, AwaitCall(Timeout));
    assert [] + [Wait(Timeout)] == [Wait(Timeout)];
  }

  /** The exchange at the heart of a standard request, with the queue that is
      deleted corrected to the one `usb_control` built: the control transfer is
      submitted, the driver waits, and the transfer's queue is deleted. Everything
      allocated is freed again, and the only protocol steps are the request, when
      its transfer could be built, and the wait. */
  method Exchange(ctx: Context, dev: Device, ep: Endpoint, packet: SetupPacket, buffer: Buffer, ssize: int)
    returns (retval: int)
    requires Valid(ctx)
    modifies ctx`queues, ctx`ring, ctx.ring`next, ctx.ring`prev, ctx.hc`qhs, ctx.hc`qtds, ctx.hc`log
    modifies ctx.heap`live, ctx.heap`pending
    ensures Valid(ctx)
    ensures retval == EOK || retval == -ENOMEM
    ensures ctx.ring == old(ctx.ring)
    ensures Live(ctx.hc, ctx.heap, old(ctx.hc.qhs), old(ctx.hc.qtds), old(ctx.heap.live))
    ensures ctx.heap.pending == old(ctx.heap.pending)
    ensures Steps(ctx.hc.log) == Steps(old(ctx.hc.log)) + RequestSteps(retval == EOK, packet, old(TargetOf(dev, ep)))
  {
    ghost var log, r, target := ctx.hc.log, ctx.ring, TargetOf(dev, ep);
    ghost var qhs, qtds, live := ctx.hc.qhs, ctx.hc.qtds, ctx.heap.live;
    var q := Prepare(ctx, dev, ep, packet, buffer, ssize);
    if q == null {
      var _ := ctx.hc.Await(Timeout);
      WaitLog(log, packet, target);
      return -ENOMEM;
    }
    Deliver(ctx, q, qhs, qtds, live, dev, ep, target, packet, ssize, buffer);
    retval := EOK;
  }

  /** `Transact` of a built control queue, read as protocol steps. */
  method Deliver(ctx: Context, q: Queue, ghost qhs: set<Qh>, ghost qtds: set<Qtd>, ghost live: set<object>,
                 ghost dev: Device, ghost ep: Endpoint, ghost target: Target,
                 ghost packet: SetupPacket, ghost ssize: int, ghost buffer: Buffer)
    requires Shape(ctx) && Sorted(ctx.drivers) && AllScheduled(Views(ctx.ring), qhs, qtds, live)
    requires Added(q, qhs, qtds, live, ctx.hc, ctx.heap) && ControlQueue(q, dev, ep, target, packet, ssize, buffer)
    modifies ctx`queues, ctx`ring, ctx.ring`next, ctx.ring`prev, q`next, q`prev, q`wired, q`transfers
    modifies Last(q.transfers).qtd`ioc, ctx.hc`qhs, ctx.hc`qtds, ctx.hc`log, ctx.heap`live
    ensures Valid(ctx)
    ensures ctx.ring == old(ctx.ring)
    ensures Live(ctx.hc, ctx.heap, qhs, qtds, live)
    ensures Steps(ctx.hc.log) == Steps(old(ctx.hc.log)) + RequestSteps(true, packet, target)
  {
    ghost var log, r, ts := ctx.hc.log, ctx.ring, q.transfers;
    Transact(ctx, q, qhs, qtds, live);
    RequestLog(log, ts, r, q, UnlinkLast(r, q), packet, ssize, buffer, target);
  }

  /** The common body of `usb_setAddress`, `usb_getDescriptor`, `usb_setConfiguration`
      and `usb_setInterface`, corrected as `Exchange` is: the setup packet goes into
      a DMA buffer for the exchange and is freed after it. */
  method Request(ctx: Context, dev: Device, ep: Endpoint, packet: SetupPacket, buffer: Buffer, ssize: int)
    returns (retval: int)
    requires Valid(ctx)
    modifies ctx`queues, ctx`ring, ctx.ring`next, ctx.ring`prev, ctx.hc`qhs, ctx.hc`qtds, ctx.hc`log
    modifies ctx.heap`live, ctx.heap`pending, ctx.heap`dma
    ensures Valid(ctx)
    ensures retval == EOK || retval == -ENOMEM
    ensures ctx.ring == old(ctx.ring)
    ensures Live(ctx.hc, ctx.heap, old(ctx.hc.qhs), old(ctx.hc.qtds), old(ctx.heap.live))
    ensures ctx.heap.pending == old(ctx.heap.pending) && ctx.heap.dma == old(ctx.heap.dma)
    ensures Steps(ctx.hc.log) == Steps(old(ctx.hc.log)) + RequestSteps(retval == EOK, packet, old(TargetOf(dev, ep)))
  {
    var setup := AllocDma(ctx);
    retval := Exchange(ctx, dev, ep, packet, buffer, ssize);
    FreeDma(ctx, setup);
  }

  /** `usb_deleteQueue(usbd_common.queues)`: deletes the head of the ring, which
      leaves the ring. */
  method DeleteHead(ctx: Context, ghost r: seq<Queue>, ghost extra: seq<Queue>)
    requires Valid(ctx) && ctx.queues != null && ctx.ring == r + extra
    modifies ctx`queues, ctx`ring, r`next, r`prev, r`transfers, extra`next, extra`prev, extra`transfers
    modifies ctx.hc`qhs, ctx.hc`qtds, ctx.hc`log, ctx.heap`live
    ensures Valid(ctx)
    ensures old(ctx.ring) != [] && ctx.ring == old(ctx.ring)[1..] && old(ctx.ring)[0] !in ctx.ring
  {
    ghost var s := ctx.ring;
    assert forall o | o in s :: o in r || o in extra;
    var k := DeleteQueue(ctx, ctx.queues);
    assert DistinctAt(s, 0, k);
    HeadGone(s);
  }

  lemma HeadGone(s: seq<Queue>)
    requires s != [] && forall i, j :: DistinctAt(s, i, j)
    ensures s[0] !in s[1..]
  {
    forall i | 0 <= i < |s[1..]| ensures s[1..][i] != s[0] {
      assert DistinctAt(s, 0, i + 1);
    }
  }

  /** The wait and `usb_deleteQueue(usbd_common.queues)` of the standard requests as
      written, in a ring made of `r` and then the queues `extra` (none or one) that
      `usb_control` added. `nullDeref` reports that the ring was empty, where the
      driver dereferences a null pointer. When both parts are there, the added queue
      stays and the oldest one goes. */
  method AwaitHead(ctx: Context, ghost r: seq<Queue>, ghost extra: seq<Queue>) returns (nullDeref: bool)
    requires Valid(ctx) && ctx.ring == r + extra && |extra| <= 1
    modifies ctx`queues, ctx`ring, r`next, r`prev, r`transfers, extra`next, extra`prev, extra`transfers
    modifies ctx.hc`qhs, ctx.hc`qtds, ctx.hc`log, ctx.heap`live
    ensures nullDeref <==> r + extra == []
    ensures !nullDeref ==> Valid(ctx) && ctx.ring == (r + extra)[1..] && (r + extra)[0] !in ctx.ring
    ensures extra != [] && r != [] ==> extra[0] in ctx.ring
  {
    ghost var s := ctx.ring;
    var _ := ctx.hc.Await(Timeout);
    if ctx.queues == null {
      return true;
    }
    DeleteHead(ctx, r, extra);
    nullDeref := false;
    if extra != [] && r != [] {
      assert ctx.ring[|ctx.ring| - 1] == s[|s| - 1] == extra[0];
    }
  }

  /** The exchange of the standard requests as written: after the wait it deletes
      the head of the ring, `usbd_common.queues`, rather than the queue `usb_control`
      built. `nullDeref` reports that the ring was empty there, which happens exactly
      when the transfer could not be built into an empty ring; the driver then
      dereferences a null pointer and the model stops. Otherwise, when other queues
      were scheduled, the new queue stays in the ring and the oldest one is deleted
      in its place. */
  method ExchangeAsWritten(ctx: Context, dev: Device, ep: Endpoint, packet: SetupPacket, buffer: Buffer, ssize: int)
    returns (retval: int, nullDeref: bool, ghost q: Queue?)
    requires Valid(ctx)
    modifies ctx`queues, ctx`ring, ctx.ring`next, ctx.ring`prev, ctx.ring`transfers, ctx.hc`qhs, ctx.hc`qtds
    modifies ctx.hc`log, ctx.heap`live, ctx.heap`pending
    ensures retval == EOK || retval == -ENOMEM
    ensures nullDeref <==> retval != EOK && old(ctx.ring) == []
    ensures !nullDeref ==> Valid(ctx)
    ensures retval == EOK ==> q != null && ctx.ring == (old(ctx.ring) + [q])[1..]
    ensures retval != EOK && !nullDeref ==> ctx.ring == old(ctx.ring)[1..]
    ensures retval == EOK && old(ctx.ring) != [] ==> q in ctx.ring && old(ctx.ring)[0] !in ctx.ring
  {
    ghost var r := ctx.ring;
    var queue;
    retval, queue := Control(ctx, dev, ep, packet, buffer, ssize);
    q := queue;
    nullDeref := AwaitHead(ctx, r, if retval == EOK then [q] else []);
  }

  /** The common body of the four standard requests as written: `ExchangeAsWritten`
      between the allocation and the release of the setup packet's DMA buffer. */
  method RequestAsWritten(ctx: Context, dev: Device, ep: Endpoint, packet: SetupPacket, buffer: Buffer, ssize: int)
    returns (retval: int, nullDeref: bool, ghost q: Queue?)
    requires Valid(ctx)
    modifies ctx`queues, ctx`ring, ctx.ring`next, ctx.ring`prev, ctx.ring`transfers, ctx.hc`qhs, ctx.hc`qtds
    modifies ctx.hc`log, ctx.heap`live, ctx.heap`pending, ctx.heap`dma
    ensures retval == EOK || retval == -ENOMEM
    ensures nullDeref <==> retval != EOK && old(ctx.ring) == []
    ensures !nullDeref ==> Valid(ctx) && ctx.heap.dma == old(ctx.heap.dma)
    ensures retval == EOK ==> q != null && ctx.ring == (old(ctx.ring) + [q])[1..]
    ensures retval != EOK && !nullDeref ==> ctx.ring == old(ctx.ring)[1..]
    ensures retval == EOK && old(ctx.ring) != [] ==> q in ctx.ring && old(ctx.ring)[0] !in ctx.ring
  {
    var setup := AllocDma(ctx);
    retval, nullDeref, q := ExchangeAsWritten(ctx, dev, ep, packet, buffer, ssize);
    if !nullDeref {
      FreeDma(ctx, setup);
    }
  }
}
