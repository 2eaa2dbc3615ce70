/**
 * The driver's global state and the asynchronous schedule: the circular,
 * doubly linked list of scheduled queues whose head is `queues`, modelled both
 * by the links themselves and by the ghost sequence `ring` of the queues in list
 * order from the head. Linking appends at the tail and wires the queue head into
 * the controller between its new neighbours; deletion unwires it, takes it out of
 * the ring and frees everything it owns.
 */
module Usbd {
  import opened Usb
  import opened Memory
  import opened Ehci
  import opened Queues
  import opened Registry

  /** `usbd_common` together with the backend and the allocator it uses. */
  class Context {
    var queues: Queue?
    ghost var ring: seq<Queue>
    var devices: Device?
    var drivers: seq<Driver>
    const hc: Controller
    const heap: Heap

    /** The state `main` sets up: nothing scheduled, no device, no client. */
    constructor (hc: Controller, heap: Heap)
      ensures this.hc == hc && this.heap == heap
      ensures queues == null && ring == [] && devices == null && drivers == []
    {
      this.hc := hc;
      this.heap := heap;
      queues, ring, devices, drivers := null, [], null, [];
    }
  }

  function Succ(i: nat, n: nat): nat
  {
    if i + 1 >= n then 0 else i + 1
  }

  function Pred(i: nat, n: nat): nat
  {
    if i == 0 then if n == 0 then 0 else n - 1 else i - 1
  }

  /** The links match the ring: `queues` is its head (NULL when empty), every queue
      occurs once, and `next`/`prev` go to the ring successor/predecessor, the last
      queue being followed by the first. */
  ghost predicate Shape(ctx: Context)
    reads ctx`queues, ctx`ring, ctx.ring`next, ctx.ring`prev
  {
    var r := ctx.ring;
    && (r == [] <==> ctx.queues == null)
    && (r != [] ==> ctx.queues == r[0])
    && (forall i, j :: DistinctAt(r, i, j))
    && (forall i :: LinkedAt(r, i))
  }

  ghost predicate DistinctAt(r: seq<Queue>, i: int, j: int)
  {
    0 <= i < |r| && 0 <= j < |r| && i != j ==> r[i] != r[j]
  }

  ghost predicate LinkedAt(r: seq<Queue>, i: int)
    reads r`next, r`prev
  {
    0 <= i < |r| ==> r[i].next == r[Succ(i, |r|)] && r[i].prev == r[Pred(i, |r|)]
  }

  /** `Shape` spelled out for the proofs that take the list apart. */
  lemma ShapeFacts(ctx: Context)
    requires Shape(ctx)
    ensures var r := ctx.ring;
            forall i, j :: 0 <= i < |r| && 0 <= j < |r| && i != j ==> r[i] != r[j]
    ensures var r := ctx.ring;
            forall i :: 0 <= i < |r| ==> r[i].next == r[Succ(i, |r|)] && r[i].prev == r[Pred(i, |r|)]
  {
    var r := ctx.ring;
    forall i, j | 0 <= i < |r| && 0 <= j < |r| && i != j ensures r[i] != r[j] {
      assert DistinctAt(r, i, j);
    }
    forall i | 0 <= i < |r| ensures r[i].next == r[Succ(i, |r|)] && r[i].prev == r[Pred(i, |r|)] {
      assert LinkedAt(r, i);
    }
  }

  /** What the resource invariant needs to know of a queue in a given state: the
      queue itself (its queue head is a constant of it), its transfers and whether
      they are wired into the queue head. */
  datatype View = View(queue: Queue, transfers: seq<Transfer>, wired: bool)

  ghost function ViewOf(q: Queue): View
    reads q`transfers, q`wired
  {
    View(q, q.transfers, q.wired)
  }

  ghost function Views(r: seq<Queue>): (vs: seq<View>)
    reads r`transfers, r`wired
    ensures |vs| == |r|
  {
    if r == [] then [] else Views(r[..|r| - 1]) + [ViewOf(r[|r| - 1])]
  }

  /** The view of a ring is the view of each of its queues, in ring order. */
  lemma {:induction false} ViewsAt(r: seq<Queue>)
    ensures forall i :: 0 <= i < |r| ==> Views(r)[i] == ViewOf(r[i])
  {
    if r != [] {
      ViewsAt(r[..|r| - 1]);
      assert forall i :: 0 <= i < |r| - 1 ==> r[..|r| - 1][i] == r[i];
    }
  }

  /** A scheduled queue owns live resources and has its transfers wired in. */
  ghost predicate Scheduled(v: View, qhs: set<Qh>, qtds: set<Qtd>, live: set<object>)
  {
    OwnedBy(v.queue, v.transfers, qhs, qtds, live) && v.wired && v.transfers != []
  }

  /** Two queues own nothing in common. */
  ghost predicate Apart(v: View, w: View)
  {
    && v.queue != w.queue && v.queue.qh != w.queue.qh
    && Nodes(v.transfers) !! Nodes(w.transfers)
    && Qtds(v.transfers) !! Qtds(w.transfers)
  }

  ghost predicate ScheduledAt(vs: seq<View>, i: int, qhs: set<Qh>, qtds: set<Qtd>, live: set<object>)
  {
    0 <= i < |vs| ==> Scheduled(vs[i], qhs, qtds, live)
  }

  ghost predicate ApartAt(vs: seq<View>, i: int, j: int)
  {
    0 <= i < |vs| && 0 <= j < |vs| && i != j ==> Apart(vs[i], vs[j])
  }

  ghost predicate ApartFrom(vs: seq<View>, i: int, v: View)
  {
    0 <= i < |vs| ==> Apart(vs[i], v)
  }

  /** A queue shares nothing with any queue of a ring. */
  ghost predicate ApartFromAll(vs: seq<View>, v: View)
  {
    forall i :: ApartFrom(vs, i, v)
  }

  /** The resources of a ring: every queue scheduled, any two apart. Stated through
      `ScheduledAt` and `ApartAt` so that each fact is drawn on only where a proof
      names it. */
  ghost predicate AllScheduled(vs: seq<View>, qhs: set<Qh>, qtds: set<Qtd>, live: set<object>)
  {
    && (forall i :: ScheduledAt(vs, i, qhs, qtds, live))
    && (forall i, j :: ApartAt(vs, i, j))
  }

  /** The resources of the driver state; clients are kept in port order. */
  ghost predicate Holds(ctx: Context)
    reads ctx`ring, ctx`drivers, ctx.ring`transfers, ctx.ring`wired, ctx.hc`qhs, ctx.hc`qtds, ctx.heap`live
  {
    AllScheduled(Views(ctx.ring), ctx.hc.qhs, ctx.hc.qtds, ctx.heap.live) && Sorted(ctx.drivers)
  }

  ghost predicate Valid(ctx: Context)
    reads ctx`queues, ctx`ring, ctx`drivers, ctx.ring`next, ctx.ring`prev, ctx.ring`transfers, ctx.ring`wired
    reads ctx.hc`qhs, ctx.hc`qtds, ctx.heap`live
  {
    Shape(ctx) && Holds(ctx)
  }

  /** `LIST_ADD(&queues, q)`: `q` goes between the tail and the head, or links to
      itself in an empty ring; the head stays. */
  method ListAdd(ctx: Context, q: Queue)
    requires Shape(ctx) && q !in ctx.ring
    modifies ctx`queues, ctx`ring, ctx.ring`next, ctx.ring`prev, q`next, q`prev
    ensures Shape(ctx)
    ensures ctx.ring == old(ctx.ring) + [q]
    ensures old(ctx.ring) == [] ==> q.next == q && q.prev == q
    ensures old(ctx.ring) != [] ==> q.next == old(ctx.ring)[0] && q.prev == old(ctx.ring)[|old(ctx.ring)| - 1]
  {
    ghost var r := ctx.ring;
    ghost var n := |r|;
    ShapeFacts(ctx);
    if ctx.queues == null {
      q.next, q.prev := q, q;
      ctx.queues := q;
    } else {
      var head := ctx.queues;
      var tail := head.prev;
      assert tail == r[n - 1] && tail in r && head in r;
      q.prev := tail;
      tail.next := q;
      q.next := head;
      head.prev := q;
    }
    ctx.ring := r + [q];
    AppendShape(ctx, r, q);
  }

  /** The `ehci_linkQh` calls that put `q` behind the ring `r`: a lone queue head is
      linked to itself; otherwise it is linked in front of the head's, then the
      tail's is linked in front of it. */
  function LinkCalls(r: seq<Queue>, q: Queue): seq<Call>
  {
    if r == [] then [LinkCall(q.qh, q.qh)]
    else [LinkCall(q.qh, r[0].qh)] + [LinkCall(r[|r| - 1].qh, q.qh)]
  }

  /** `usb_linkAsync`: the queue joins the ring at its tail. A queue alone in the
      ring is linked to itself; otherwise its queue head is linked in front of the
      head's and behind the tail's, in that order. */
  method LinkAsync(ctx: Context, q: Queue)
    requires Valid(ctx)
    requires Scheduled(ViewOf(q), ctx.hc.qhs, ctx.hc.qtds, ctx.heap.live)
    requires ApartFromAll(Views(ctx.ring), ViewOf(q))
    modifies ctx`queues, ctx`ring, ctx.ring`next, ctx.ring`prev, q`next, q`prev, ctx.hc`log
    ensures Valid(ctx)
    ensures ctx.ring == old(ctx.ring) + [q]
    ensures ctx.hc.log == old(ctx.hc.log) + LinkCalls(old(ctx.ring), q)
  {
    ghost var r := ctx.ring;
    ghost var vs := Views(r);
    ViewsAt(r);
    ghost var v := ViewOf(q);
    assert q !in r by {
      forall i | 0 <= i < |r| ensures r[i] != q {
        assert ApartFrom(vs, i, v);
      }
    }
    ListAdd(ctx, q);
    label LinkAdded:
    assert r != [] ==> r[0] != q;
    if q == q.next {
      ctx.hc.LinkQh(q.qh, q.qh);
    } else {
      ctx.hc.LinkQh(q.qh, q.next.qh);
      ctx.hc.LinkQh(q.prev.qh, q.qh);
    }
    ShapeFrame@LinkAdded(ctx);
    assert Views(ctx.ring) == vs + [v] by {
      assert forall i :: 0 <= i < |r| ==> ViewOf(r[i]) == vs[i];
      assert ViewOf(q) == v;
      ViewsAre(r + [q], vs + [v]);
    }
    AppendScheduled(vs, v, ctx.hc.qhs, ctx.hc.qtds, ctx.heap.live);
  }

  twostate lemma ShapeFrame(ctx: Context)
    requires old(Shape(ctx))
    requires ctx.queues == old(ctx.queues) && ctx.ring == old(ctx.ring)
    requires forall i :: 0 <= i < |ctx.ring| ==> ctx.ring[i].next == old(ctx.ring[i].next) && ctx.ring[i].prev == old(ctx.ring[i].prev)
    ensures Shape(ctx)
  {
    forall i ensures LinkedAt(ctx.ring, i) {
      assert old(LinkedAt(ctx.ring, i));
    }
    forall i, j ensures DistinctAt(ctx.ring, i, j) {
      assert old(DistinctAt(ctx.ring, i, j));
    }
  }

  /** The links after appending `q` to the ring `r` behind its tail. */
  lemma AppendShape(ctx: Context, r: seq<Queue>, q: Queue)
    requires ctx.ring == r + [q] && ctx.queues == ctx.ring[0]
    requires forall i, j :: 0 <= i < |r| && 0 <= j < |r| && i != j ==> r[i] != r[j]
    requires forall i :: 0 <= i < |r| ==> r[i] != q
    requires q.next == ctx.ring[0] && q.prev == ctx.ring[|r| - 1 + (if r == [] then 1 else 0)]
    requires r != [] ==> r[|r| - 1].next == q && r[0].prev == q
    requires forall i :: 0 < i < |r| ==> r[i].prev == r[i - 1]
    requires forall i :: 0 <= i < |r| - 1 ==> r[i].next == r[i + 1]
    ensures Shape(ctx)
  {
    forall i ensures LinkedAt(ctx.ring, i) {
    }
    forall i, j ensures DistinctAt(ctx.ring, i, j) {
    }
  }

  /** A sequence of views that agrees with the ring element by element is its view. */
  lemma {:induction false} ViewsAre(r: seq<Queue>, vs: seq<View>)
    requires |vs| == |r| && forall i :: 0 <= i < |r| ==> vs[i] == ViewOf(r[i])
    ensures Views(r) == vs
  {
    if r != [] {
      ViewsAre(r[..|r| - 1], vs[..|r| - 1]);
    }
  }

  /** A scheduled queue apart from every queue of a ring can join it. */
  lemma AppendScheduled(vs: seq<View>, v: View, qhs: set<Qh>, qtds: set<Qtd>, live: set<object>)
    requires AllScheduled(vs, qhs, qtds, live) && Scheduled(v, qhs, qtds, live)
    requires ApartFromAll(vs, v)
    ensures AllScheduled(vs + [v], qhs, qtds, live)
  {
    var ws := vs + [v];
    forall i ensures ScheduledAt(ws, i, qhs, qtds, live) {
      if 0 <= i < |vs| {
        assert ws[i] == vs[i] && ScheduledAt(vs, i, qhs, qtds, live);
      }
    }
    forall i, j ensures ApartAt(ws, i, j) {
      if 0 <= i < |ws| && 0 <= j < |ws| && i != j {
        if j == |vs| {
          assert ws[i] == vs[i] && ApartFrom(vs, i, v);
        } else if i == |vs| {
          assert ws[j] == vs[j] && ApartFrom(vs, j, v);
        } else {
          assert ws[i] == vs[i] && ws[j] == vs[j] && ApartAt(vs, i, j);
        }
      }
    }
  }

  /** Resources stay live when the live sets grow. */
  lemma Grow(vs: seq<View>, qhs: set<Qh>, qtds: set<Qtd>, live: set<object>,
             qhs': set<Qh>, qtds': set<Qtd>, live': set<object>)
    requires AllScheduled(vs, qhs, qtds, live)
    requires qhs <= qhs' && qtds <= qtds' && live <= live'
    ensures AllScheduled(vs, qhs', qtds', live')
  {
    forall i ensures ScheduledAt(vs, i, qhs', qtds', live') {
      assert ScheduledAt(vs, i, qhs, qtds, live);
    }
  }

  /** A queue whose resources are all new to a state keeps apart from the ring
      scheduled in that state. */
  lemma FreshApart(vs: seq<View>, v: View, qhs: set<Qh>, qtds: set<Qtd>, live: set<object>)
    requires AllScheduled(vs, qhs, qtds, live)
    requires v.queue !in live && v.queue.qh !in qhs
    requires Nodes(v.transfers) !! live && Qtds(v.transfers) !! qtds
    ensures ApartFromAll(vs, v)
  {
    forall i | 0 <= i < |vs| ensures Apart(vs[i], v) {
      var w := vs[i];
      assert ScheduledAt(vs, i, qhs, qtds, live);
      assert Nodes(w.transfers) <= live by {
        forall o | o in Nodes(w.transfers) ensures o in live {
          var t: Transfer :| t in w.transfers && t == o;
        }
      }
      assert Qtds(w.transfers) <= qtds;
    }
    forall i ensures ApartFrom(vs, i, v) {
    }
  }

  /** A sequence without its k-th element. */
  function Without<T>(r: seq<T>, k: nat): (s: seq<T>)
    requires k < |r|
    ensures |s| == |r| - 1
  {
    r[..k] + r[k + 1..]
  }

  /** The pointer updates of `LIST_REMOVE(&queues, q)` for the k-th queue of the
      ring `r`: a queue alone in the ring leaves it empty; otherwise its neighbours
      are joined and the head moves on if `q` was the head. No other link changes,
      and the removed queue's links are cleared. */
  method Splice(ctx: Context, q: Queue, ghost r: seq<Queue>, ghost k: nat)
    requires r == ctx.ring && k < |r| && r[k] == q && (forall i, j :: DistinctAt(r, i, j))
    requires ctx.queues == r[0] && LinkedAt(r, k)
    modifies ctx`queues, ctx`ring, r`next, r`prev
    ensures ctx.ring == Without(r, k)
    ensures |r| == 1 ==> ctx.queues == null
    ensures |r| > 1 ==> ctx.queues == (if k == 0 then r[1] else r[0])
    ensures |r| > 1 ==> r[Pred(k, |r|)].next == r[Succ(k, |r|)] && r[Succ(k, |r|)].prev == r[Pred(k, |r|)]
    ensures forall j :: 0 <= j < |r| && j != k && j != Pred(k, |r|) ==> r[j].next == old(r[j].next)
    ensures forall j :: 0 <= j < |r| && j != k && j != Succ(k, |r|) ==> r[j].prev == old(r[j].prev)
    ensures q.next == null && q.prev == null
    ensures forall i :: 0 <= i < |r| ==> ViewOf(r[i]) == old(ViewOf(r[i]))
  {
    ghost var n := |r|;
    ghost var a, b := Pred(k, n), Succ(k, n);
    assert DistinctAt(r, k, 0) && DistinctAt(r, a, k) && DistinctAt(r, b, k);
    if q.next == q && q.prev == q {
      assert b == k;
      ctx.queues := null;
    } else {
      q.prev.next := q.next;
      q.next.prev := q.prev;
      if q == ctx.queues {
        ctx.queues := q.next;
      }
    }
    q.next, q.prev := null, null;
    ctx.ring := Without(r, k);
    forall j | 0 <= j < n && j != k && j != a ensures r[j].next == old(r[j].next) {
      assert DistinctAt(r, j, k) && DistinctAt(r, j, a);
    }
    forall j | 0 <= j < n && j != k && j != b ensures r[j].prev == old(r[j].prev) {
      assert DistinctAt(r, j, k) && DistinctAt(r, j, b);
    }
  }

  /** `LIST_REMOVE(&queues, q)` of the k-th queue: the ring loses that queue and the
      links match the shorter ring. */
  method ListRemove(ctx: Context, q: Queue, ghost k: nat)
    requires Shape(ctx) && k < |ctx.ring| && ctx.ring[k] == q
    modifies ctx`queues, ctx`ring, ctx.ring`next, ctx.ring`prev
    ensures ctx.ring == Without(old(ctx.ring), k)
    ensures Views(ctx.ring) == Without(old(Views(ctx.ring)), k) && q !in ctx.ring
    ensures Shape(ctx)
    ensures q.next == null && q.prev == null
  {
    ghost var r := ctx.ring;
    ghost var n := |r|;
    ghost var vs := Views(r);
    assert LinkedAt(r, k);
    ViewsAt(r);
    Splice(ctx, q, r, k);
    ViewsWithout(r, vs, k);
    forall j | 0 <= j < n && j != k && j != Pred(k, n) ensures r[j].next == r[Succ(j, n)] {
      assert old(LinkedAt(r, j));
    }
    forall j | 0 <= j < n && j != k && j != Succ(k, n) ensures r[j].prev == r[Pred(j, n)] {
      assert old(LinkedAt(r, j));
    }
    RemoveShape(ctx, r, k);
  }

  /** Index `i` of a sequence without its k-th element, as an index of the whole. */
  function Skip(i: nat, k: nat): nat
  {
    if i < k then i else i + 1
  }

  lemma WithoutAt<T>(r: seq<T>, k: nat, i: nat)
    requires k < |r| && i < |r| - 1
    ensures Without(r, k)[i] == r[Skip(i, k)]
  {
  }

  /** Successors and predecessors in the shorter ring skip over the removed index. */
  lemma SkipNeighbours(i: nat, k: nat, n: nat)
    requires 2 <= n && k < n && i < n - 1
    ensures Skip(Succ(i, n - 1), k) == if Succ(Skip(i, k), n) == k then Succ(k, n) else Succ(Skip(i, k), n)
    ensures Skip(Pred(i, n - 1), k) == if Pred(Skip(i, k), n) == k then Pred(k, n) else Pred(Skip(i, k), n)
  {
  }

  /** The links after taking the k-th queue out of the ring `r`. */
  lemma RemoveShape(ctx: Context, r: seq<Queue>, k: nat)
    requires k < |r| && ctx.ring == Without(r, k)
    requires forall i, j :: DistinctAt(r, i, j)
    requires |r| == 1 ==> ctx.queues == null
    requires |r| > 1 ==> ctx.queues == (if k == 0 then r[1] else r[0])
    requires |r| > 1 ==> r[Pred(k, |r|)].next == r[Succ(k, |r|)] && r[Succ(k, |r|)].prev == r[Pred(k, |r|)]
    requires forall j :: 0 <= j < |r| && j != k && j != Pred(k, |r|) ==> r[j].next == r[Succ(j, |r|)]
    requires forall j :: 0 <= j < |r| && j != k && j != Succ(k, |r|) ==> r[j].prev == r[Pred(j, |r|)]
    ensures Shape(ctx)
  {
    var n := |r|;
    var r' := ctx.ring;
    if n > 1 {
      WithoutAt(r, k, 0);
    }
    forall i, j ensures DistinctAt(r', i, j) {
      if 0 <= i < n - 1 && 0 <= j < n - 1 && i != j {
        WithoutAt(r, k, i);
        WithoutAt(r, k, j);
        assert DistinctAt(r, Skip(i, k), Skip(j, k));
      }
    }
    forall i ensures LinkedAt(r', i) {
      if 0 <= i < n - 1 {
        WithoutAt(r, k, i);
        WithoutAt(r, k, Succ(i, n - 1));
        WithoutAt(r, k, Pred(i, n - 1));
        SkipNeighbours(i, k, n);
      }
    }
  }

  /** Freeing the k-th queue of a ring keeps the others' resources live. */
  lemma RemoveScheduled(vs: seq<View>, k: nat, qhs: set<Qh>, qtds: set<Qtd>, live: set<object>)
    requires AllScheduled(vs, qhs, qtds, live) && k < |vs|
    ensures AllScheduled(Without(vs, k), qhs - {vs[k].queue.qh}, qtds - Qtds(vs[k].transfers),
                         live - {vs[k].queue} - Nodes(vs[k].transfers))
  {
    var ws := Without(vs, k);
    var v := vs[k];
    var qhs', qtds', live' := qhs - {v.queue.qh}, qtds - Qtds(v.transfers), live - {v.queue} - Nodes(v.transfers);
    forall i ensures ScheduledAt(ws, i, qhs', qtds', live') {
      if 0 <= i < |ws| {
        WithoutAt(vs, k, i);
        var w := vs[Skip(i, k)];
        assert ScheduledAt(vs, Skip(i, k), qhs, qtds, live) && ApartAt(vs, Skip(i, k), k);
        forall t | t in w.transfers ensures t in live' && t.qtd in qtds' {
          assert t in Nodes(w.transfers) && t.qtd in Qtds(w.transfers);
        }
      }
    }
    forall i, j ensures ApartAt(ws, i, j) {
      if 0 <= i < |ws| && 0 <= j < |ws| && i != j {
        WithoutAt(vs, k, i);
        WithoutAt(vs, k, j);
        assert ApartAt(vs, Skip(i, k), Skip(j, k));
      }
    }
  }

  /** The unlinking half of `usb_deleteQueue`: the k-th queue's head is unwired from
      between its neighbours and the queue is taken out of the ring; the other
      queues and everything they own are untouched. */
  method Detach(ctx: Context, q: Queue, ghost k: nat)
    requires Valid(ctx) && k < |ctx.ring| && ctx.ring[k] == q
    modifies ctx`queues, ctx`ring, ctx.ring`next, ctx.ring`prev, ctx.hc`log
    ensures Shape(ctx) && Sorted(ctx.drivers) && q !in ctx.ring
    ensures ctx.ring == Without(old(ctx.ring), k)
    ensures Views(ctx.ring) == Without(old(Views(ctx.ring)), k)
    ensures ctx.hc.log == old(ctx.hc.log)
              + [UnlinkCall(old(ctx.ring)[Pred(k, |old(ctx.ring)|)].qh, q.qh, old(ctx.ring)[Succ(k, |old(ctx.ring)|)].qh)]
    ensures q.next == null && q.prev == null && ViewOf(q) == old(ViewOf(q)) && q.transfers == old(q.transfers)
    ensures ctx.hc.qhs == old(ctx.hc.qhs) && ctx.hc.qtds == old(ctx.hc.qtds) && ctx.heap.live == old(ctx.heap.live)
  {
    ghost var r := ctx.ring;
    assert LinkedAt(r, k);
    ctx.hc.UnlinkQh(q.prev.qh, q.qh, q.next.qh);
    ListRemove(ctx, q, k);
  }

  /** Taking the k-th queue out of a ring of distinct queues whose views are `vs`
      takes its view out of them, and the queue is no longer in the ring. */
  lemma ViewsWithout(r: seq<Queue>, vs: seq<View>, k: nat)
    requires k < |r| && forall i, j :: DistinctAt(r, i, j)
    requires |vs| == |r| && forall i :: 0 <= i < |r| ==> vs[i] == ViewOf(r[i])
    ensures Views(Without(r, k)) == Without(vs, k)
    ensures r[k] !in Without(r, k)
  {
    forall i | 0 <= i < |r| - 1 ensures Without(vs, k)[i] == ViewOf(Without(r, k)[i]) && Without(r, k)[i] != r[k] {
      WithoutAt(r, k, i);
      WithoutAt(vs, k, i);
      assert DistinctAt(r, Skip(i, k), k);
    }
    ViewsAre(Without(r, k), Without(vs, k));
  }

  /** The freeing half of `usb_deleteQueue`: the queue, taken out of the ring whose
      views were `vs` at index `k`, is freed with everything it owns, and the rest
      of the ring keeps its resources. */
  method Free(ctx: Context, q: Queue, ghost vs: seq<View>, ghost k: nat)
    requires Shape(ctx)
    requires Sorted(ctx.drivers)
    requires q !in ctx.ring
    requires k < |vs|
    requires vs[k] == ViewOf(q)
    requires Views(ctx.ring) == Without(vs, k)
    requires AllScheduled(vs, ctx.hc.qhs, ctx.hc.qtds, ctx.heap.live)
    modifies q`transfers, ctx.hc`qhs, ctx.hc`qtds, ctx.heap`live
    ensures Valid(ctx)
    ensures ctx.hc.qhs == old(ctx.hc.qhs) - {q.qh}
    ensures ctx.hc.qtds == old(ctx.hc.qtds) - Qtds(old(q.transfers))
    ensures ctx.heap.live == old(ctx.heap.live) - {q} - Nodes(old(q.transfers))
    ensures q.transfers == [] && ctx.hc.log == old(ctx.hc.log)
    ensures ctx.ring == old(ctx.ring) && q.next == old(q.next) && q.prev == old(q.prev)
  {
    ghost var qhs, qtds, live := ctx.hc.qhs, ctx.hc.qtds, ctx.heap.live;
    assert ScheduledAt(vs, k, qhs, qtds, live);
    DeleteUnlinkedQueue(q, ctx.hc, ctx.heap);
    RemoveScheduled(vs, k, qhs, qtds, live);
  }

  /** `usb_deleteQueue`: unwires the queue head from between its neighbours, takes the
      queue out of the ring and frees it. */
  method DeleteQueue(ctx: Context, q: Queue) returns (ghost k: nat)
    requires Valid(ctx) && q in ctx.ring
    modifies ctx`queues, ctx`ring, ctx.ring`next, ctx.ring`prev, q`transfers, ctx.hc`qhs, ctx.hc`qtds, ctx.hc`log
    modifies ctx.heap`live
    ensures k < |old(ctx.ring)| && old(ctx.ring)[k] == q
    ensures Valid(ctx)
    ensures ctx.ring == Without(old(ctx.ring), k)
    ensures ctx.hc.log == old(ctx.hc.log)
              + [UnlinkCall(old(ctx.ring)[Pred(k, |old(ctx.ring)|)].qh, q.qh, old(ctx.ring)[Succ(k, |old(ctx.ring)|)].qh)]
    ensures ctx.hc.qhs == old(ctx.hc.qhs) - {q.qh}
    ensures ctx.hc.qtds == old(ctx.hc.qtds) - Qtds(old(q.transfers))
    ensures ctx.heap.live == old(ctx.heap.live) - {q} - Nodes(old(q.transfers))
    ensures q.next == null && q.prev == null && q.transfers == []
  {
    ghost var r := ctx.ring;
    ghost var vs := Views(r);
    ViewsAt(r);
    k :| 0 <= k < |r| && r[k] == q;
    Detach(ctx, q, k);
    Free(ctx, q, vs, k);
  }

  // ----- Allocator calls that keep the resource invariant -----

  /** A `calloc` that the resource invariant survives. */
  method Adopt(ctx: Context, o: object)
    requires Valid(ctx) && o !in ctx.heap.live
    modifies ctx.heap`live
    ensures Valid(ctx) && ctx.heap.live == old(ctx.heap.live) + {o}
  {
    ghost var live := ctx.heap.live;
    ctx.heap.Calloc(o);
    Grow(Views(ctx.ring), ctx.hc.qhs, ctx.hc.qtds, live, ctx.hc.qhs, ctx.hc.qtds, ctx.heap.live);
  }

  /** `dma_alloc64`, keeping the resource invariant. */
  method AllocDma(ctx: Context) returns (r: Address)
    requires Valid(ctx)
    modifies ctx.heap`dma
    ensures Valid(ctx) && r !in old(ctx.heap.dma) && ctx.heap.dma == old(ctx.heap.dma) + multiset{r}
  {
    r := ctx.heap.DmaAlloc();
  }

  /** `dma_free64`, keeping the resource invariant. */
  method FreeDma(ctx: Context, r: Address)
    requires Valid(ctx) && r in ctx.heap.dma
    modifies ctx.heap`dma
    ensures Valid(ctx) && ctx.heap.dma == old(ctx.heap.dma) - multiset{r}
  {
    ctx.heap.DmaFree(r);
  }

  /** `mmap` of `size` bytes, keeping the resource invariant. */
  method Map(ctx: Context, size: nat) returns (r: Address)
    requires Valid(ctx)
    modifies ctx.heap`mapped
    ensures Valid(ctx) && ctx.heap.mapped == old(ctx.heap.mapped) + multiset{r}
  {
    r := ctx.heap.Mmap(size);
  }

  /** `munmap` of `size` bytes, keeping the resource invariant. */
  method Unmap(ctx: Context, r: Address, size: nat)
    requires Valid(ctx) && r in ctx.heap.mapped
    modifies ctx.heap`mapped
    ensures Valid(ctx) && ctx.heap.mapped == old(ctx.heap.mapped) - multiset{r}
  {
    ctx.heap.Munmap(r, size);
  }
}
