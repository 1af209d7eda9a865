/** The linked interface list: `add_or_find_if` walks it and splices a new node in. */
module InterfaceList {
  import opened InterfaceOrder

  class Node {
    const entry: Entry
    var next: Node?

    constructor (entry: Entry)
      ensures this.entry == entry && next == null
    {
      this.entry := entry;
      next := null;
    }
  }

  /** `nodes` are linked in this order, and the last one ends the list. */
  ghost predicate Chained(nodes: seq<Node>)
    reads nodes
  {
    && (forall i, j :: 0 <= i < j < |nodes| ==> nodes[i] != nodes[j])
    && forall i {:trigger nodes[i].next} :: 0 <= i < |nodes| ==>
      nodes[i].next == if i == |nodes| - 1 then null else nodes[i + 1]
  }

  ghost function Entries(nodes: seq<Node>): (es: seq<Entry>)
    ensures |es| == |nodes| && forall i :: 0 <= i < |es| ==> es[i] == nodes[i].entry
  {
    seq(|nodes|, i requires 0 <= i < |nodes| => nodes[i].entry)
  }

  function HeadOf(nodes: seq<Node>): Node? {
    if nodes == [] then null else nodes[0]
  }

  class List {
    var alldevs: Node?
    ghost var nodes: seq<Node>
    /** The requests served so far. */
    ghost var served: seq<Request>

    ghost predicate Valid()
      reads this, nodes
    {
      Chained(nodes) && alldevs == HeadOf(nodes) && Entries(nodes) == AddAll(served)
    }

    constructor ()
      ensures Valid() && nodes == [] && served == []
    {
      alldevs := null;
      nodes, served := [], [];
    }

    /** The walk for an entry of the same name. */
    method Find(name: string) returns (cur: Node?)
      requires Chained(nodes) && alldevs == HeadOf(nodes)
      ensures cur != null ==> cur in nodes && cur.entry.name == name
      ensures cur == null <==> !Listed(Entries(nodes), name)
    {
      cur := alldevs;
      ghost var i := 0;
      while cur != null
        invariant i <= |nodes| && cur == if i < |nodes| then nodes[i] else null
        invariant forall j :: 0 <= j < i ==> nodes[j].entry.name != name
        decreases |nodes| - i
      {
        if cur.entry.name == name {
          assert Entries(nodes)[i].name == name;
          return;
        }
        cur := cur.next;
        i := i + 1;
      }
    }

    /** The walk for the place of a new entry: between `prev` and `next`. */
    method FindPlace(e: Entry) returns (prev: Node?, next: Node?)
      requires Chained(nodes) && alldevs == HeadOf(nodes)
      ensures var k := Place(Entries(nodes), e);
              && prev == (if k == 0 then null else nodes[k - 1])
              && next == (if k == |nodes| then null else nodes[k])
    {
      var instance := GetInstance(e.name);
      prev := null;
      ghost var i := 0;
      while true
        invariant i <= |nodes| && prev == if i == 0 then null else nodes[i - 1]
        invariant forall j :: 0 <= j < i ==> !Before(e, nodes[j].entry)
        decreases |nodes| - i
      {
        next := if prev == null then alldevs else prev.next;
        assert next == if i == |nodes| then null else nodes[i];
        if next == null {
          PlaceIs(Entries(nodes), e, i);
          return;
        }
        if !e.loopback && next.entry.loopback {
          PlaceIs(Entries(nodes), e, i);
          return;
        }
        var other := GetInstance(next.entry.name);
        if instance < other && (!e.loopback || next.entry.loopback) {
          PlaceIs(Entries(nodes), e, i);
          return;
        }
        prev := next;
        i := i + 1;
      }
    }

    /** `add_or_find_if`: the entry of that name if there is one; nothing if the interface cannot be
        opened; else a new entry in its place. */
    method AddOrFindIf(name: string, loopback: bool, openable: bool) returns (cur: Node?)
      requires Valid()
      modifies this, nodes
      ensures Valid() && served == old(served) + [Request(name, loopback, openable)]
      ensures forall n :: n in nodes ==> n in old(nodes) || fresh(n)
      ensures Entries(nodes) == Add(old(Entries(nodes)), Request(name, loopback, openable))
      ensures cur == null <==> !old(Listed(Entries(nodes), name)) && !openable
      ensures cur != null ==> cur in nodes && cur.entry.name == name
    {
      AddAllStep(served, Request(name, loopback, openable));
      cur := Find(name);
      if cur == null && openable {
        cur := InsertNew(Entry(name, loopback));
      }
      served := served + [Request(name, loopback, openable)];
    }

    method InsertNew(e: Entry) returns (cur: Node)
      requires Chained(nodes) && alldevs == HeadOf(nodes)
      modifies this`alldevs, this`nodes, nodes
      ensures Chained(nodes) && alldevs == HeadOf(nodes)
      ensures fresh(cur) && cur.entry == e && cur in nodes && forall n :: n in nodes ==> n in old(nodes) || n == cur
      ensures Entries(nodes) == Insert(old(Entries(nodes)), e)
    {
      cur := new Node(e);
      var prev, next := FindPlace(e);
      ghost var k := Place(Entries(nodes), e);
      EntriesSpliced(nodes, cur, k);
      Splice(cur, prev, next, k);
    }

    method Splice(cur: Node, prev: Node?, next: Node?, ghost k: nat)
      requires Chained(nodes) && alldevs == HeadOf(nodes) && cur !in nodes && k <= |nodes|
      requires prev == (if k == 0 then null else nodes[k - 1]) && next == (if k == |nodes| then null else nodes[k])
      modifies this`alldevs, this`nodes, cur, nodes
      ensures Chained(nodes) && alldevs == HeadOf(nodes) && nodes == old(nodes)[..k] + [cur] + old(nodes)[k..]
    {
      cur.next := next;
      if prev == null {
        alldevs := cur;
      } else {
        prev.next := cur;
      }
      nodes := nodes[..k] + [cur] + nodes[k..];
    }
  }

  lemma AddAllStep(rs: seq<Request>, r: Request)
    ensures AddAll(rs + [r]) == Add(AddAll(rs), r)
  {
    assert (rs + [r])[..|rs|] == rs;
  }

  lemma EntriesSpliced(nodes: seq<Node>, cur: Node, k: nat)
    requires k <= |nodes|
    ensures Entries(nodes[..k] + [cur] + nodes[k..]) == Entries(nodes)[..k] + [cur.entry] + Entries(nodes)[k..]
    ensures cur in nodes[..k] + [cur] + nodes[k..]
  {
    assert (nodes[..k] + [cur] + nodes[k..])[k] == cur;
  }

  lemma PlaceIs(es: seq<Entry>, e: Entry, i: nat)
    requires i <= |es| && (i < |es| ==> Before(e, es[i])) && forall j :: 0 <= j < i ==> !Before(e, es[j])
    ensures Place(es, e) == i
  {
  }
}
