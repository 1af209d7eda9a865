/** The order of the interface list: instance numbers (`get_instance`), where a new interface goes, and
    what that means for every sequence of additions. */
module InterfaceOrder {
  import opened Collections

  datatype Entry = Entry(name: string, loopback: bool)

  const INT_MAX: nat := 0x7fff_ffff

  predicate IsDigit(c: char) { '0' <= c <= '9' }

  /** The number spelled by the leading digits, continuing from `acc`. */
  function Leading(s: string, acc: nat): nat {
    if s == [] || !IsDigit(s[0]) then acc else Leading(s[1..], 10 * acc + (s[0] as nat - '0' as nat))
  }

  /** The number spelled by the first run of digits; 0 if there is none. */
  function FirstNumber(s: string): nat {
    if s == [] then 0 else if IsDigit(s[0]) then Leading(s, 0) else FirstNumber(s[1..])
  }

  function Instance(name: string): nat {
    if name == "any" then INT_MAX else FirstNumber(name)
  }

  function Digit(d: nat): char
    requires d < 10
  {
    "0123456789"[d]
  }

  /** A number as it is written, without leading zeros. */
  function Decimal(n: nat): (s: string)
    ensures |s| > 0
  {
    (if n < 10 then "" else Decimal(n / 10)) + [Digit(n % 10)]
  }

  lemma DigitRead(d: nat, rest: string, acc: nat)
    requires d < 10
    ensures IsDigit(Digit(d)) && Leading([Digit(d)] + rest, acc) == Leading(rest, 10 * acc + d)
  {
    assert Digit(d) as nat - '0' as nat == d;
    assert ([Digit(d)] + rest)[1..] == rest;
  }

  lemma LastDigit(n: nat, rest: string)
    ensures Decimal(n) + rest == (if n < 10 then "" else Decimal(n / 10)) + ([Digit(n % 10)] + rest)
    ensures Decimal(n)[0] == if n < 10 then Digit(n) else Decimal(n / 10)[0]
  {
  }

  lemma {:induction false} DecimalRead(n: nat, rest: string)
    ensures Leading(Decimal(n) + rest, 0) == Leading(rest, n) && IsDigit(Decimal(n)[0])
    decreases n
  {
    var next := [Digit(n % 10)] + rest;
    LastDigit(n, rest);
    if n < 10 {
      DigitRead(n, rest, 0);
      assert "" + next == next;
    } else {
      DecimalRead(n / 10, next);
      DigitRead(n % 10, rest, n / 10);
    }
  }

  lemma {:induction false} NumberAfter(pre: string, s: string)
    requires forall i :: 0 <= i < |pre| ==> !IsDigit(pre[i])
    ensures FirstNumber(pre + s) == FirstNumber(s)
  {
    if pre == [] {
      assert pre + s == s;
    } else {
      assert !IsDigit(pre[0]) && (pre + s)[1..] == pre[1..] + s;
      NumberAfter(pre[1..], s);
    }
  }

  /** The instance is the number that the first run of digits writes in decimal, whatever stands around it; */
  lemma InstanceOf(pre: string, n: nat, post: string)
    requires forall i :: 0 <= i < |pre| ==> !IsDigit(pre[i])
    requires post == [] || !IsDigit(post[0])
    ensures Instance(pre + Decimal(n) + post) == n
  {
    var name := pre + Decimal(n) + post;
    DecimalRead(n, post);
    assert name == pre + (Decimal(n) + post);
    NumberAfter(pre, Decimal(n) + post);
    assert name[|pre|] == Decimal(n)[0];
  }

  /** it is 0 without a digit, and above all others for "any". */
  lemma NoInstance(name: string)
    requires forall i :: 0 <= i < |name| ==> !IsDigit(name[i])
    ensures Instance(name) == if name == "any" then 0x7fff_ffff else 0
  {
    NumberAfter(name, "");
    assert name + "" == name;
  }

  /** `get_instance` */
  method GetInstance(name: string) returns (n: nat)
    ensures n == Instance(name)
  {
    if name == "any" {
      return INT_MAX;
    }
    var i := 0;
    while i < |name| && !IsDigit(name[i])
      invariant i <= |name| && FirstNumber(name) == FirstNumber(name[i..])
    {
      assert name[i..][1..] == name[i + 1..];
      i := i + 1;
    }
    if i == |name| {
      return 0;
    }
    n := 0;
    var start := i;
    while i < |name| && IsDigit(name[i])
      invariant start <= i <= |name| && Leading(name[start..], 0) == Leading(name[i..], n)
    {
      assert name[i..][1..] == name[i + 1..];
      n := 10 * n + (name[i] as nat - '0' as nat);
      i := i + 1;
    }
  }

  /** The new entry goes before `next`. */
  predicate Before(e: Entry, next: Entry) {
    || (!e.loopback && next.loopback)
    || (Instance(e.name) < Instance(next.name) && (!e.loopback || next.loopback))
  }

  /** The first place where it can go. */
  function Place(es: seq<Entry>, e: Entry): (i: nat)
    ensures i <= |es| && (i < |es| ==> Before(e, es[i])) && forall j :: 0 <= j < i ==> !Before(e, es[j])
  {
    if es == [] || Before(e, es[0]) then 0
    else
      var i := Place(es[1..], e);
      assert forall j :: 1 <= j < 1 + i ==> es[j] == es[1..][j - 1];
      1 + i
  }

  function Insert(es: seq<Entry>, e: Entry): seq<Entry> {
    var i := Place(es, e);
    es[..i] + [e] + es[i..]
  }

  predicate Listed(es: seq<Entry>, name: string) {
    exists i :: 0 <= i < |es| && es[i].name == name
  }

  /** `a` may stand before `b`: loopbacks last, instances not falling in either group. */
  predicate InOrder(a: Entry, b: Entry) {
    if a.loopback == b.loopback then Instance(a.name) <= Instance(b.name) else b.loopback
  }

  predicate Ordered(es: seq<Entry>) {
    forall i, j :: 0 <= i < j < |es| ==> InOrder(es[i], es[j])
  }

  predicate Unique(es: seq<Entry>) {
    forall i, j :: 0 <= i < j < |es| ==> es[i].name != es[j].name
  }

  lemma InOrderTrans(a: Entry, b: Entry, c: Entry)
    requires InOrder(a, b) && InOrder(b, c)
    ensures InOrder(a, c)
  {
  }

  /** Before `e` exactly when not in order the other way round. */
  lemma BeforeIsStrict(e: Entry, f: Entry)
    ensures Before(e, f) <==> !InOrder(f, e)
  {
  }

  /** The place found keeps the list in order. */
  lemma InsertOrdered(es: seq<Entry>, e: Entry)
    requires Ordered(es)
    ensures Ordered(Insert(es, e))
  {
    var k, r := Place(es, e), Insert(es, e);
    forall i, j | 0 <= i < j < |r| ensures InOrder(r[i], r[j]) {
      if i < k && j == k {
        BeforeIsStrict(e, es[i]);
      } else if i == k {
        BeforeIsStrict(e, es[k]);
        if k < j - 1 {
          assert InOrder(es[k], es[j - 1]);
          InOrderTrans(e, es[k], es[j - 1]);
        }
      } else {
        var i', j' := if i < k then i else i - 1, if j < k then j else j - 1;
        assert r[i] == es[i'] && r[j] == es[j'] && InOrder(es[i'], es[j']);
      }
    }
  }

  lemma InsertUnique(es: seq<Entry>, e: Entry)
    requires Unique(es) && !Listed(es, e.name)
    ensures Unique(Insert(es, e))
  {
    var k, r := Place(es, e), Insert(es, e);
    forall i, j | 0 <= i < j < |r| ensures r[i].name != r[j].name {
      var i', j' := if i < k then i else i - 1, if j < k then j else j - 1;
      assert i != k ==> r[i] == es[i'];
      assert j != k ==> r[j] == es[j'];
      assert r[k] == e;
    }
  }

  /** A request to list an interface; `openable` is whether it can be opened for capture. */
  datatype Request = Request(name: string, loopback: bool, openable: bool)

  predicate Adds(es: seq<Entry>, r: Request) {
    !Listed(es, r.name) && r.openable
  }

  function Add(es: seq<Entry>, r: Request): seq<Entry> {
    if Adds(es, r) then Insert(es, Entry(r.name, r.loopback)) else es
  }

  /** The list after any sequence of requests. */
  function AddAll(rs: seq<Request>): seq<Entry> {
    if rs == [] then [] else Add(AddAll(rs[..|rs| - 1]), rs[|rs| - 1])
  }

  /** The same entries in order of arrival: the first openable request for each name. */
  function Arrivals(rs: seq<Request>): seq<Entry> {
    if rs == [] then []
    else
      var before, r := Arrivals(rs[..|rs| - 1]), rs[|rs| - 1];
      if Adds(before, r) then before + [Entry(r.name, r.loopback)] else before
  }

  predicate SameKey(a: Entry, b: Entry) {
    a.loopback == b.loopback && Instance(a.name) == Instance(b.name)
  }

  /** `a` arrived before `b`. */
  predicate Arrived(arrivals: seq<Entry>, a: Entry, b: Entry) {
    exists i, j :: 0 <= i < j < |arrivals| && arrivals[i] == a && arrivals[j] == b
  }

  /** Entries that the order does not distinguish stand as they arrived. */
  predicate Stable(es: seq<Entry>, arrivals: seq<Entry>) {
    forall i, j :: 0 <= i < j < |es| && SameKey(es[i], es[j]) ==> Arrived(arrivals, es[i], es[j])
  }

  predicate SameEntries(es: seq<Entry>, arrivals: seq<Entry>) {
    multiset(es) == multiset(arrivals)
  }

  lemma SameListed(es: seq<Entry>, arrivals: seq<Entry>, name: string)
    requires SameEntries(es, arrivals)
    ensures Listed(es, name) <==> Listed(arrivals, name)
  {
    if Listed(es, name) {
      var i :| 0 <= i < |es| && es[i].name == name;
      assert es[i] in multiset(arrivals);
      var j :| 0 <= j < |arrivals| && arrivals[j] == es[i];
    }
    if Listed(arrivals, name) {
      var i :| 0 <= i < |arrivals| && arrivals[i].name == name;
      assert arrivals[i] in multiset(es);
      var j :| 0 <= j < |es| && es[j] == arrivals[i];
    }
  }

  lemma InsertEntries(es: seq<Entry>, e: Entry)
    ensures multiset(Insert(es, e)) == multiset(es + [e])
  {
    var k := Place(es, e);
    assert es == es[..k] + es[k..];
  }

  lemma LaterKeysDiffer(es: seq<Entry>, e: Entry, j: nat)
    requires Ordered(es) && Place(es, e) <= j < |es|
    ensures !SameKey(e, es[j])
  {
    var k := Place(es, e);
    BeforeIsStrict(e, es[k]);
    assert k < j ==> InOrder(es[k], es[j]);
  }

  lemma InsertAt(es: seq<Entry>, e: Entry, i: nat)
    requires i <= |es|
    ensures |Insert(es, e)| == |es| + 1
    ensures Insert(es, e)[i] == if i < Place(es, e) then es[i] else if i == Place(es, e) then e else es[i - 1]
  {
  }

  lemma ArrivedEarlier(arrivals: seq<Entry>, a: Entry, b: Entry, e: Entry)
    requires Arrived(arrivals, a, b)
    ensures Arrived(arrivals + [e], a, b)
  {
    var i, j :| 0 <= i < j < |arrivals| && arrivals[i] == a && arrivals[j] == b;
    assert (arrivals + [e])[i] == a && (arrivals + [e])[j] == b;
  }

  lemma ArrivedLast(arrivals: seq<Entry>, a: Entry, e: Entry)
    requires a in arrivals
    ensures Arrived(arrivals + [e], a, e)
  {
    var i :| 0 <= i < |arrivals| && arrivals[i] == a;
    assert (arrivals + [e])[i] == a && (arrivals + [e])[|arrivals|] == e;
  }

  /** A new arrival comes after every entry with its key. */
  lemma InsertStable(es: seq<Entry>, arrivals: seq<Entry>, e: Entry)
    requires Stable(es, arrivals) && SameEntries(es, arrivals) && Ordered(es)
    ensures Stable(Insert(es, e), arrivals + [e])
  {
    var k, r := Place(es, e), Insert(es, e);
    forall j | k < j < |r| ensures r[j] == es[j - 1] && !SameKey(e, r[j]) {
      InsertAt(es, e, j);
      LaterKeysDiffer(es, e, j - 1);
    }
    forall i, j | 0 <= i < j < |r| && SameKey(r[i], r[j]) ensures Arrived(arrivals + [e], r[i], r[j]) {
      InsertAt(es, e, i);
      InsertAt(es, e, j);
      if j == k {
        assert es[i] in multiset(arrivals);
        ArrivedLast(arrivals, es[i], e);
      } else if i != k {
        var i', j' := if i < k then i else i - 1, if j < k then j else j - 1;
        ArrivedEarlier(arrivals, es[i'], es[j'], e);
      }
    }
  }

  /** After any sequence of requests: names are unique, non-loopback interfaces come first, instances do
      not fall in either group, and ties are in order of arrival. */
  lemma {:induction false} ListInvariant(rs: seq<Request>)
    ensures var es, arrivals := AddAll(rs), Arrivals(rs);
            Unique(es) && Ordered(es) && SameEntries(es, arrivals) && Stable(es, arrivals)
  {
    if rs != [] {
      var rs0, r := rs[..|rs| - 1], rs[|rs| - 1];
      ListInvariant(rs0);
      var es, arrivals, e := AddAll(rs0), Arrivals(rs0), Entry(r.name, r.loopback);
      SameListed(es, arrivals, r.name);
      if Adds(es, r) {
        InsertOrdered(es, e);
        InsertUnique(es, e);
        InsertEntries(es, e);
        InsertStable(es, arrivals, e);
      }
    }
  }

  /** `pcap_lookupdev`: the first interface, unless there is none or it is a loopback. */
  function LookupDev(es: seq<Entry>): Option<string> {
    if es == [] || es[0].loopback then None else Some(es[0].name)
  }

  /** It finds nothing exactly when there is no non-loopback interface; otherwise it finds one with the
      lowest instance number. */
  lemma LookupFinds(rs: seq<Request>)
    ensures var es := AddAll(rs);
            match LookupDev(es)
            case None => forall i :: 0 <= i < |es| ==> es[i].loopback
            case Some(name) =>
              && (exists i :: 0 <= i < |es| && es[i] == Entry(name, false))
              && forall i :: 0 <= i < |es| && !es[i].loopback ==> Instance(name) <= Instance(es[i].name)
  {
    var es := AddAll(rs);
    ListInvariant(rs);
    assert forall i :: 0 < i < |es| ==> InOrder(es[0], es[i]);
    assert es != [] && !es[0].loopback ==> es[0] == Entry(es[0].name, false);
  }
}
