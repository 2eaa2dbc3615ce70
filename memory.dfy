/**
 * The allocators the driver uses, as bookkeeping: malloc/calloc/free for the
 * driver's own records, the 64-byte DMA pool (`dma_alloc64`, `dma_free64`) for
 * setup packets and small descriptors, and `mmap`/`munmap` for the full
 * configuration buffer. Whether `malloc` fails is left open; `calloc`,
 * `dma_alloc64` and `mmap`, whose results the driver never checks, are taken
 * to succeed.
 */
module Memory {

  /** The address of a buffer obtained from the DMA pool or from `mmap`. */
  type Address = nat

  class Heap {
    /** Objects whose storage came from malloc or calloc and is not freed. */
    ghost var live: set<object>
    /** Blocks malloc returned that no object occupies yet. */
    ghost var pending: nat
    /** Addresses of live DMA buffers. */
    var dma: multiset<Address>
    /** Addresses of mapped regions, counted with multiplicity. */
    ghost var mapped: multiset<Address>

    constructor ()
      ensures live == {} && pending == 0 && dma == multiset{} && mapped == multiset{}
    {
      live, pending, dma, mapped := {}, 0, multiset{}, multiset{};
    }

    /** `malloc`: may fail; on success one more block is pending. */
    method Malloc() returns (ok: bool)
      modifies this`pending
      ensures pending == old(pending) + (if ok then 1 else 0)
    {
      ok :| true;
      if ok {
        pending := pending + 1;
      }
    }

    /** `free` of a block no object was placed in. */
    method Release()
      requires pending > 0
      modifies this`pending
      ensures pending == old(pending) - 1
    {
      pending := pending - 1;
    }

    /** The record `o` is built in a pending block. */
    method Place(o: object)
      requires pending > 0 && o !in live
      modifies this`pending, this`live
      ensures pending == old(pending) - 1 && live == old(live) + {o}
    {
      pending := pending - 1;
      live := live + {o};
    }

    /** `calloc` whose result the driver never checks: it is taken to succeed. */
    method Calloc(o: object)
      requires o !in live
      modifies this`live
      ensures live == old(live) + {o}
    {
      live := live + {o};
    }

    /** `free` of a record. */
    method Free(o: object)
      requires o in live
      modifies this`live
      ensures live == old(live) - {o}
    {
      live := live - {o};
    }

    /** `dma_alloc64`, whose result the driver never checks: a block no live DMA
        buffer occupies, here the address just above every live one. */
    method DmaAlloc() returns (r: Address)
      modifies this`dma
      ensures r !in old(dma) && dma == old(dma) + multiset{r}
    {
      var left := dma;
      r := 0;
      while left != multiset{}
        invariant left <= dma
        invariant forall x :: x in dma ==> x in left || x < r
        decreases |left|
      {
        var x :| x in left;
        if x >= r {
          r := x + 1;
        }
        left := left - multiset{x};
      }
      dma := dma + multiset{r};
    }

    /** `dma_free64`. */
    method DmaFree(r: Address)
      requires r in dma
      modifies this`dma
      ensures dma == old(dma) - multiset{r}
    {
      dma := dma - multiset{r};
    }

    /** `mmap` of an anonymous uncached region, whose result the driver never checks. */
    method Mmap(size: nat) returns (r: Address)
      modifies this`mapped
      ensures mapped == old(mapped) + multiset{r}
    {
      r :| true;
      mapped := mapped + multiset{r};
    }

    /** `munmap` of a whole region. */
    method Munmap(r: Address, size: nat)
      requires r in mapped
      modifies this`mapped
      ensures mapped == old(mapped) - multiset{r}
    {
      mapped := mapped - multiset{r};
    }
  }
}
