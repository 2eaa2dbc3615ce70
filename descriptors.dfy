/**
 * The walk of `usb_dumpConfiguration` over a configuration descriptor and the
 * descriptors that follow it: each descriptor starts with its length
 * `bLength`, so the next one starts `bLength` bytes further on, until
 * `wTotalLength` bytes are used up or a descriptor claims a length of zero.
 * Printing each descriptor is not modelled; the walk yields the offsets of the
 * descriptor headers it visits, in order.
 */
module Descriptors {
  import opened Usb

  /** `wTotalLength` of a configuration descriptor: bytes 2 and 3, little-endian
      (USB 2.0 table 9-10). */
  function TotalLength(bytes: seq<u8>): (total: nat)
    requires |bytes| >= 4
    ensures total < 0x1_0000
  {
    bytes[2] as nat + bytes[3] as nat * 0x100
  }

  /** The headers visited from `offset` with `remaining` bytes still to go. */
  function Walk(bytes: seq<u8>, offset: nat, remaining: int): seq<nat>
    requires offset + remaining <= |bytes|
    decreases if remaining < 0 then 0 else remaining
  {
    if remaining <= 0 then []
    else if bytes[offset] == 0 then [offset]
    else [offset] + Walk(bytes, offset + bytes[offset] as nat, remaining - bytes[offset] as int)
  }

  /** The walk visits nothing exactly when no bytes remain, and otherwise starts at
      `offset`. */
  lemma WalkStart(bytes: seq<u8>, offset: nat, remaining: int)
    requires offset + remaining <= |bytes|
    ensures Walk(bytes, offset, remaining) == [] <==> remaining <= 0
    ensures remaining > 0 ==> Walk(bytes, offset, remaining)[0] == offset
  {
  }

  /** Every header visited lies before `offset + remaining`. */
  lemma {:induction false} WalkBounds(bytes: seq<u8>, offset: nat, remaining: int)
    requires offset + remaining <= |bytes|
    ensures forall i | 0 <= i < |Walk(bytes, offset, remaining)| ::
              offset <= Walk(bytes, offset, remaining)[i] < offset + remaining
    decreases if remaining < 0 then 0 else remaining
  {
    if remaining > 0 && bytes[offset] != 0 {
      var b := bytes[offset] as nat;
      WalkBounds(bytes, offset + b, remaining - b);
      var rest := Walk(bytes, offset + b, remaining - b);
      assert Walk(bytes, offset, remaining) == [offset] + rest;
    }
  }

  /** Each header after the first is `bLength` bytes after the one before it, and
      that `bLength` is not zero. */
  lemma {:induction false} WalkSteps(bytes: seq<u8>, offset: nat, remaining: int)
    requires offset + remaining <= |bytes|
    ensures forall i | 0 <= i < |Walk(bytes, offset, remaining)| ::
              offset <= Walk(bytes, offset, remaining)[i] < offset + remaining
    ensures var w := Walk(bytes, offset, remaining);
            forall i | 0 <= i < |w| - 1 :: bytes[w[i]] != 0 && w[i + 1] == w[i] + bytes[w[i]] as nat
    decreases if remaining < 0 then 0 else remaining
  {
    WalkBounds(bytes, offset, remaining);
    if remaining > 0 && bytes[offset] != 0 {
      var b := bytes[offset] as nat;
      WalkSteps(bytes, offset + b, remaining - b);
      WalkStart(bytes, offset + b, remaining - b);
      var w := Walk(bytes, offset, remaining);
      var rest := Walk(bytes, offset + b, remaining - b);
      assert w == [offset] + rest;
      forall i | 0 <= i < |w| - 1
        ensures bytes[w[i]] != 0 && w[i + 1] == w[i] + bytes[w[i]] as nat
      {
        if i > 0 {
          assert w[i] == rest[i - 1] && w[i + 1] == rest[i];
        } else {
          assert w[1] == rest[0];
        }
      }
    }
  }

  /** The walk ends at a header whose length is zero or that reaches
      `offset + remaining`. */
  lemma {:induction false} WalkEnd(bytes: seq<u8>, offset: nat, remaining: int)
    requires offset + remaining <= |bytes|
    ensures forall i | 0 <= i < |Walk(bytes, offset, remaining)| ::
              offset <= Walk(bytes, offset, remaining)[i] < offset + remaining
    ensures var w := Walk(bytes, offset, remaining);
            w != [] ==> bytes[w[|w| - 1]] == 0 || w[|w| - 1] + bytes[w[|w| - 1]] as nat >= offset + remaining
    decreases if remaining < 0 then 0 else remaining
  {
    WalkBounds(bytes, offset, remaining);
    if remaining > 0 && bytes[offset] != 0 {
      var b := bytes[offset] as nat;
      WalkEnd(bytes, offset + b, remaining - b);
      var w := Walk(bytes, offset, remaining);
      var rest := Walk(bytes, offset + b, remaining - b);
      assert w == [offset] + rest;
      if rest == [] {
        assert w == [offset];
      } else {
        assert w[|w| - 1] == rest[|rest| - 1];
      }
    }
  }

  /** `usb_dumpConfiguration`: the loop over the headers of the configuration in
      `bytes`, which holds at least the `wTotalLength` bytes it announces. The
      headers are those of the walk over `wTotalLength` bytes from the start. */
  method DumpConfiguration(bytes: seq<u8>) returns (headers: seq<nat>)
    requires |bytes| >= 4 && TotalLength(bytes) <= |bytes|
    ensures headers == Walk(bytes, 0, TotalLength(bytes))
  {
    var remaining: int := TotalLength(bytes);
    var header: nat := 0;
    headers := [];
    while remaining > 0
      invariant header + remaining == TotalLength(bytes)
      invariant headers + Walk(bytes, header, remaining) == Walk(bytes, 0, TotalLength(bytes))
      decreases remaining
    {
      headers := headers + [header];
      if bytes[header] == 0 {
        break;
      }
      remaining := remaining - bytes[header] as int;
      header := header + bytes[header] as nat;
    }
  }
}
