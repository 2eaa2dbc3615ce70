/**
 * The registry of client drivers: one record per connected client, kept in a
 * search tree ordered by the client's port. The tree is modelled by the in-order
 * sequence of its records.
 */
module Registry {
  import opened Usb

  /** A connected client (`usb_driver_t`). */
  class Driver {
    const pid: u32
    const port: u32
    const filter: DeviceId
    var requests: seq<Urb>

    constructor (pid: u32, port: u32, filter: DeviceId)
      ensures this.pid == pid && this.port == port && this.filter == filter && requests == []
    {
      this.pid := pid;
      this.port := port;
      this.filter := filter;
      requests := [];
    }
  }

  /** `usb_driver_cmp`: three-way comparison of two records by port. */
  function DriverCmp(a: Driver, b: Driver): (r: int)
    ensures r == 1 || r == 0 || r == -1
  {
    if a.port > b.port then 1 else if a.port < b.port then -1 else 0
  }

  /** The comparison is a strict total order on ports: antisymmetric, zero exactly
      on equal ports, and transitive. */
  lemma DriverCmpOrder(a: Driver, b: Driver, c: Driver)
    ensures DriverCmp(a, b) == -DriverCmp(b, a)
    ensures DriverCmp(a, b) == 0 <==> a.port == b.port
    ensures DriverCmp(a, b) < 0 <==> a.port < b.port
    ensures DriverCmp(a, b) < 0 && DriverCmp(b, c) < 0 ==> DriverCmp(a, c) < 0
  {
  }

  /** The in-order sequence of a search tree under `DriverCmp`: ports strictly increase. */
  ghost predicate Sorted(s: seq<Driver>)
  {
    forall i, j :: 0 <= i < j < |s| ==> s[i].port < s[j].port
  }

  predicate HasPort(s: seq<Driver>, port: u32)
  {
    exists i :: 0 <= i < |s| && s[i].port == port
  }

  lemma HasPortCons(s: seq<Driver>, port: u32)
    requires s != []
    ensures HasPort(s, port) <==> s[0].port == port || HasPort(s[1..], port)
  {
    if HasPort(s, port) && s[0].port != port {
      var i :| 0 <= i < |s| && s[i].port == port;
      assert s[1..][i - 1] == s[i];
    }
    if HasPort(s[1..], port) {
      var i :| 0 <= i < |s[1..]| && s[1..][i].port == port;
      assert s[i + 1] == s[1..][i];
    }
  }

  lemma SortedCons(d: Driver, s: seq<Driver>)
    requires Sorted(s) && forall x | x in s :: d.port < x.port
    ensures Sorted([d] + s)
  {
    forall i, j | 0 <= i < j < |[d] + s| ensures ([d] + s)[i].port < ([d] + s)[j].port {
      if i > 0 {
        assert ([d] + s)[i] == s[i - 1];
      }
      assert ([d] + s)[j] == s[j - 1];
    }
  }

  /** A record whose port precedes every port of the tree goes in front. */
  lemma InsertFront(d: Driver, s: seq<Driver>)
    requires Sorted(s) && s != [] && d.port < s[0].port
    ensures !HasPort(s, d.port)
    ensures Sorted([d] + s) && HasPort([d] + s, d.port)
  {
    assert forall x | x in s :: d.port < x.port by {
      forall x | x in s ensures d.port < x.port {
        var i :| 0 <= i < |s| && s[i] == x;
        if i > 0 { assert s[0].port < s[i].port; }
      }
    }
    SortedCons(d, s);
    assert ([d] + s)[0] == d;
  }

  /** A record whose port follows the first one is inserted into the rest. */
  lemma InsertBehind(d: Driver, s: seq<Driver>, t: seq<Driver>)
    requires Sorted(s) && s != [] && s[0].port < d.port
    requires Sorted(t) && HasPort(t, d.port) && forall x | x in t :: x in s[1..] || x == d
    ensures HasPort(s, d.port) <==> HasPort(s[1..], d.port)
    ensures Sorted([s[0]] + t) && HasPort([s[0]] + t, d.port)
    ensures forall x | x in [s[0]] + t :: x in s || x == d
    ensures s == [s[0]] + s[1..]
  {
    HasPortCons(s, d.port);
    FirstBelow(d, s, t);
    SortedCons(s[0], t);
    ConsHasPort(s[0], t, d.port);
  }

  /** The first port of a tree precedes every record drawn from the rest of it or
      from a record with a later port. */
  lemma FirstBelow(d: Driver, s: seq<Driver>, t: seq<Driver>)
    requires Sorted(s) && s != [] && s[0].port < d.port
    requires forall x | x in t :: x in s[1..] || x == d
    ensures forall x | x in t :: s[0].port < x.port
  {
    forall x | x in t ensures s[0].port < x.port {
      if x != d {
        var i :| 0 <= i < |s[1..]| && s[1..][i] == x;
        assert s[i + 1] == x;
      }
    }
  }

  /** A port present in a sequence is present once a record is put in front. */
  lemma ConsHasPort(e: Driver, t: seq<Driver>, port: u32)
    requires HasPort(t, port)
    ensures HasPort([e] + t, port)
  {
    var i :| 0 <= i < |t| && t[i].port == port;
    assert ([e] + t)[i + 1] == t[i];
  }

  /** Insertion of a record into the tree: a record whose port is already present
      is not inserted; otherwise it joins the others at its place in port order. */
  function Insert(s: seq<Driver>, d: Driver): (r: seq<Driver>)
    requires Sorted(s)
    ensures Sorted(r)
    ensures HasPort(s, d.port) ==> r == s
    ensures !HasPort(s, d.port) ==> multiset(r) == multiset(s) + multiset{d}
    ensures forall x | x in r :: x in s || x == d
    ensures HasPort(r, d.port)
  {
    if s == [] then
      assert [d][0].port == d.port;
      [d]
    else if DriverCmp(d, s[0]) < 0 then
      InsertFront(d, s);
      [d] + s
    else if DriverCmp(d, s[0]) == 0 then
      assert s[0].port == d.port;
      s
    else
      var t := Insert(s[1..], d);
      InsertBehind(d, s, t);
      [s[0]] + t
  }

  /** Looking a port up in the tree. */
  function Find(s: seq<Driver>, port: u32): (r: Option<Driver>)
    ensures r.Some? <==> HasPort(s, port)
    ensures r.Some? ==> r.value in s && r.value.port == port
  {
    if s == [] then None
    else if s[0].port == port then Some(s[0])
    else
      HasPortCons(s, port);
      Find(s[1..], port)
  }

  /** After a connection the client is found by its port: the new record when the
      port was free, the earlier record otherwise. */
  lemma {:induction false} FindAfterInsert(s: seq<Driver>, d: Driver)
    requires Sorted(s)
    ensures Find(Insert(s, d), d.port).Some?
    ensures !HasPort(s, d.port) ==> Find(Insert(s, d), d.port) == Some(d)
    ensures HasPort(s, d.port) ==> Find(Insert(s, d), d.port) == Find(s, d.port)
  {
    if s != [] && DriverCmp(d, s[0]) > 0 {
      FindAfterInsert(s[1..], d);
      assert Insert(s, d)[1..] == Insert(s[1..], d);
    }
  }
}
