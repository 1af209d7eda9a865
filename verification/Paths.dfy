/** Paths of a finite relation, and what lies on all of them. */
module Paths {

  type Rel = (nat, nat) -> bool
  type Entry = nat -> bool

  ghost predicate IsPath(rel: Rel, path: seq<nat>) {
    |path| > 0 &&
    (|path| > 1 ==> IsPath(rel, path[..|path| - 1]) && rel(path[|path| - 2], path[|path| - 1]))
  }

  /** `path` goes from an entry to `b`. */
  ghost predicate Leads(rel: Rel, entry: Entry, path: seq<nat>, b: nat) {
    IsPath(rel, path) && entry(path[0]) && path[|path| - 1] == b
  }

  ghost predicate Reach(rel: Rel, entry: Entry, b: nat) {
    exists path :: Leads(rel, entry, path, b)
  }

  /** `x` is on every path from an entry to `b`. */
  ghost predicate OnAll(rel: Rel, entry: Entry, b: nat, x: nat) {
    forall path :: Leads(rel, entry, path, b) ==> x in path
  }

  lemma ExtendPath(rel: Rel, entry: Entry, path: seq<nat>, q: nat, b: nat)
    requires Leads(rel, entry, path, q) && rel(q, b)
    ensures Leads(rel, entry, path + [b], b)
  {
    var path' := path + [b];
    assert path'[..|path'| - 1] == path;
  }

  lemma ShortenPath(rel: Rel, entry: Entry, path: seq<nat>, b: nat) returns (q: nat)
    requires Leads(rel, entry, path, b) && |path| > 1
    ensures Leads(rel, entry, path[..|path| - 1], q) && rel(q, b)
  {
    q := path[|path| - 2];
  }

  /** What lies on all paths to `b`: `b`, and what lies on all paths to each predecessor. */
  lemma OnAllStep(rel: Rel, entry: Entry, b: nat, x: nat)
    requires !entry(b)
    ensures OnAll(rel, entry, b, x) <==> x == b || forall q :: rel(q, b) ==> OnAll(rel, entry, q, x)
  {
    if OnAll(rel, entry, b, x) && x != b {
      forall q, path | rel(q, b) && Leads(rel, entry, path, q) ensures x in path {
        ExtendPath(rel, entry, path, q, b);
        assert x in path + [b];
      }
    }
    if x == b || forall q :: rel(q, b) ==> OnAll(rel, entry, q, x) {
      forall path | Leads(rel, entry, path, b) ensures x in path {
        if x != b {
          var q := ShortenPath(rel, entry, path, b);
          assert x in path[..|path| - 1];
        }
      }
    }
  }

  lemma OnAllEntry(rel: Rel, entry: Entry, b: nat, x: nat)
    requires entry(b) && forall q :: rel(q, b) ==> !Reach(rel, entry, q)
    ensures OnAll(rel, entry, b, x) <==> x == b
  {
    assert Leads(rel, entry, [b], b);
    forall path | Leads(rel, entry, path, b) ensures path == [b] {
      if |path| > 1 {
        var q := ShortenPath(rel, entry, path, b);
        assert false;
      }
    }
  }

  /** A set that contains the entries and is closed under the relation contains all that is reached. */
  lemma {:induction false} ReachedIsInside(rel: Rel, entry: Entry, s: set<nat>, path: seq<nat>, b: nat)
    requires Leads(rel, entry, path, b)
    requires forall q :: entry(q) ==> q in s
    requires forall q, q' :: q in s && rel(q, q') ==> q' in s
    ensures b in s && forall x :: x in path ==> x in s
  {
    if |path| > 1 {
      var q := ShortenPath(rel, entry, path, b);
      ReachedIsInside(rel, entry, s, path[..|path| - 1], q);
      assert path == path[..|path| - 1] + [b];
    }
  }

  /** The reachable nodes among the first `n`. */
  ghost function Reachable(rel: Rel, entry: Entry, n: nat): set<nat> {
    set b: nat | b < n && Reach(rel, entry, b)
  }

  /** The nodes among the first `n` that lie on every path to `b`. */
  ghost function OnEvery(rel: Rel, entry: Entry, n: nat, b: nat): set<nat> {
    set x: nat | x < n && OnAll(rel, entry, b, x)
  }

  ghost predicate AgreedOn(rel: Rel, entry: Entry, seen: set<nat>, d: seq<set<nat>>, b: nat, x: nat) {
    !entry(b) && forall q :: q in seen && q < |d| && rel(q, b) ==> x in d[q]
  }

  /** What the visited predecessors of `b` agree on. */
  ghost function Agreed(rel: Rel, entry: Entry, seen: set<nat>, d: seq<set<nat>>, b: nat): set<nat> {
    set x: nat | x < |d| && AgreedOn(rel, entry, seen, d, b, x)
  }

  /** State of a top-down sweep that intersects: visited nodes have exactly what lies on all paths to
      them; the others have what their visited predecessors agree on. */
  ghost predicate MeetInv(rel: Rel, entry: Entry, live: set<nat>, seen: set<nat>, d: seq<set<nat>>) {
    && seen <= live && (forall b :: b in live ==> b < |d|)
    && (forall b :: b in seen ==> d[b] == OnEvery(rel, entry, |d|, b))
    && (forall b :: b in live && b !in seen ==> d[b] == Agreed(rel, entry, seen, d, b))
  }

  /** What visiting `b` does: add `b` to its own set, then intersect that into each successor's. */
  ghost predicate MeetVisited(rel: Rel, live: set<nat>, d: seq<set<nat>>, d': seq<set<nat>>, b: nat) {
    && |d'| == |d| && b < |d|
    && d'[b] == d[b] + {b}
    && forall c :: c in live && c < |d| && c != b ==> d'[c] == if rel(b, c) then d[c] * d'[b] else d[c]
  }

  /** The relation stays among the first `n` nodes. */
  ghost predicate Bounded(rel: Rel, entry: Entry, n: nat) {
    (forall q: nat :: entry(q) ==> q < n) && (forall q: nat, q': nat :: rel(q, q') ==> q' < n)
  }

  lemma ReachBounded(rel: Rel, entry: Entry, n: nat, b: nat)
    requires Bounded(rel, entry, n) && Reach(rel, entry, b)
    ensures b < n
  {
    var path :| Leads(rel, entry, path, b);
    if |path| > 1 {
      var q := ShortenPath(rel, entry, path, b);
    }
  }

  lemma LiveClosed(rel: Rel, entry: Entry, n: nat)
    requires Bounded(rel, entry, n)
    ensures forall q: nat :: entry(q) ==> q in Reachable(rel, entry, n)
    ensures forall q: nat, q': nat :: q in Reachable(rel, entry, n) && rel(q, q') ==> q' in Reachable(rel, entry, n)
  {
    forall q: nat | entry(q) ensures q in Reachable(rel, entry, n) {
      assert Leads(rel, entry, [q], q);
    }
    forall q: nat, q': nat | q in Reachable(rel, entry, n) && rel(q, q') ensures q' in Reachable(rel, entry, n) {
      var path :| Leads(rel, entry, path, q);
      ExtendPath(rel, entry, path, q, q');
    }
  }

  /** A node all of whose live predecessors are visited is right once `b` itself is added. */
  lemma MeetExact(rel: Rel, entry: Entry, live: set<nat>, seen: set<nat>, d: seq<set<nat>>, b: nat)
    requires MeetInv(rel, entry, live, seen, d) && Bounded(rel, entry, |d|) && live == Reachable(rel, entry, |d|)
    requires b in live && b !in seen
    requires forall q :: q in live && rel(q, b) ==> q in seen && !entry(b)
    ensures d[b] + {b} == OnEvery(rel, entry, |d|, b)
  {
    forall x: nat ensures x in d[b] + {b} <==> x in OnEvery(rel, entry, |d|, b) {
      if x < |d| {
        MeetExactAt(rel, entry, live, seen, d, b, x);
      }
    }
  }

  lemma MeetExactAt(rel: Rel, entry: Entry, live: set<nat>, seen: set<nat>, d: seq<set<nat>>, b: nat, x: nat)
    requires MeetInv(rel, entry, live, seen, d) && Bounded(rel, entry, |d|) && live == Reachable(rel, entry, |d|)
    requires b in live && b !in seen && x < |d|
    requires forall q :: q in live && rel(q, b) ==> q in seen && !entry(b)
    ensures x in d[b] + {b} <==> OnAll(rel, entry, b, x)
  {
    assert x in d[b] <==> AgreedOn(rel, entry, seen, d, b, x);
    if entry(b) {
      forall q: nat | rel(q, b) ensures !Reach(rel, entry, q) {
        if Reach(rel, entry, q) {
          ReachBounded(rel, entry, |d|, q);
        }
      }
      OnAllEntry(rel, entry, b, x);
    } else {
      OnAllStep(rel, entry, b, x);
      if x in d[b] {
        forall q: nat | rel(q, b) ensures OnAll(rel, entry, q, x) {
          if Reach(rel, entry, q) {
            ReachBounded(rel, entry, |d|, q);
            assert q in live && q in seen && x in d[q];
          }
        }
      }
      if x != b && OnAll(rel, entry, b, x) {
        forall q | q in seen && q < |d| && rel(q, b) ensures x in d[q] {
          assert OnAll(rel, entry, q, x);
        }
      }
    }
  }

  /** Visiting a node after all its live predecessors keeps the sweep right. */
  lemma MeetVisit(rel: Rel, entry: Entry, live: set<nat>, seen: set<nat>, d: seq<set<nat>>, d': seq<set<nat>>, b: nat)
    requires MeetInv(rel, entry, live, seen, d) && Bounded(rel, entry, |d|) && live == Reachable(rel, entry, |d|)
    requires b in live && b !in seen && MeetVisited(rel, live, d, d', b)
    requires forall q :: q in live && rel(q, b) ==> q in seen && !entry(b)
    requires forall c :: c in seen || c == b || entry(c) ==> !rel(b, c)
    ensures MeetInv(rel, entry, live, seen + {b}, d')
  {
    MeetExact(rel, entry, live, seen, d, b);
    assert forall q :: q in seen ==> d'[q] == d[q];
    forall c | c in live && c !in seen + {b} ensures d'[c] == Agreed(rel, entry, seen + {b}, d', c) {
      forall x: nat ensures x in d'[c] <==> x in Agreed(rel, entry, seen + {b}, d', c) {
        AgreedStep(rel, entry, live, seen, d, d', b, c, x);
      }
    }
  }

  lemma AgreedStep(rel: Rel, entry: Entry, live: set<nat>, seen: set<nat>, d: seq<set<nat>>, d': seq<set<nat>>,
                   b: nat, c: nat, x: nat)
    requires MeetInv(rel, entry, live, seen, d) && b in live && MeetVisited(rel, live, d, d', b)
    requires c in live && c !in seen + {b} && (entry(c) ==> !rel(b, c))
    requires forall q :: q in seen ==> d'[q] == d[q]
    ensures x in d'[c] <==> x in Agreed(rel, entry, seen + {b}, d', c)
  {
    assert x in d[c] <==> x < |d| && AgreedOn(rel, entry, seen, d, c, x);
    assert x in Agreed(rel, entry, seen + {b}, d', c) <==> x < |d'| && AgreedOn(rel, entry, seen + {b}, d', c, x);
    if x < |d| {
      assert AgreedOn(rel, entry, seen + {b}, d', c, x) <==>
             AgreedOn(rel, entry, seen, d, c, x) && (rel(b, c) ==> x in d'[b]);
    }
  }

  ghost predicate FromTo(rel: Rel, x: nat, b: nat) {
    Reach(rel, y => y == x, b)
  }

  lemma FromToStep(rel: Rel, x: nat, b: nat)
    ensures FromTo(rel, x, b) <==> x == b || exists q :: rel(q, b) && FromTo(rel, x, q)
  {
    var entry: Entry := y => y == x;
    assert Leads(rel, entry, [x], x);
    if FromTo(rel, x, b) && x != b {
      var path :| Leads(rel, entry, path, b);
      var q := ShortenPath(rel, entry, path, b);
      assert FromTo(rel, x, q);
    }
    if q: nat :| rel(q, b) && FromTo(rel, x, q) {
      var path :| Leads(rel, entry, path, q);
      ExtendPath(rel, entry, path, q, b);
    }
  }

  /** The live nodes that reach `b`. */
  ghost function Reaching(rel: Rel, live: set<nat>, b: nat): set<nat> {
    set x: nat | x in live && FromTo(rel, x, b)
  }

  ghost predicate OfferedTo(rel: Rel, seen: set<nat>, d: seq<set<nat>>, b: nat, x: nat) {
    exists q :: q in seen && q < |d| && rel(q, b) && x in d[q]
  }

  /** What some visited predecessor of `b` has. */
  ghost function Offered(rel: Rel, live: set<nat>, seen: set<nat>, d: seq<set<nat>>, b: nat): set<nat> {
    set x: nat | x in live && OfferedTo(rel, seen, d, b, x)
  }

  /** State of a top-down sweep that unites: visited nodes have exactly the live nodes that reach
      them; the others have what their visited predecessors have. */
  ghost predicate JoinInv(rel: Rel, live: set<nat>, seen: set<nat>, d: seq<set<nat>>) {
    && seen <= live && (forall b :: b in live ==> b < |d|)
    && (forall b :: b in seen ==> d[b] == Reaching(rel, live, b))
    && (forall b :: b in live && b !in seen ==> d[b] == Offered(rel, live, seen, d, b))
  }

  ghost predicate JoinVisited(rel: Rel, live: set<nat>, d: seq<set<nat>>, d': seq<set<nat>>, b: nat) {
    && |d'| == |d| && b < |d|
    && d'[b] == d[b] + {b}
    && forall c :: c in live && c < |d| && c != b ==> d'[c] == if rel(b, c) then d[c] + d'[b] else d[c]
  }

  lemma {:induction false} LiveForward(rel: Rel, live: set<nat>, x: nat, path: seq<nat>, b: nat)
    requires forall q, q' :: q in live && rel(q, q') ==> q' in live
    requires x in live && Leads(rel, y => y == x, path, b)
    ensures b in live
  {
    if |path| > 1 {
      var q := ShortenPath(rel, y => y == x, path, b);
      LiveForward(rel, live, x, path[..|path| - 1], q);
    }
  }

  lemma JoinExact(rel: Rel, live: set<nat>, seen: set<nat>, d: seq<set<nat>>, b: nat)
    requires JoinInv(rel, live, seen, d) && b in live && b !in seen
    requires forall q, q' :: q in live && rel(q, q') ==> q' in live
    requires forall q :: q in live && rel(q, b) ==> q in seen
    ensures d[b] + {b} == Reaching(rel, live, b)
  {
    forall x: nat ensures x in d[b] + {b} <==> x in Reaching(rel, live, b) {
      FromToStep(rel, x, b);
      assert x in d[b] <==> x in live && OfferedTo(rel, seen, d, b, x);
      if x in live && x != b && FromTo(rel, x, b) {
        var q: nat :| rel(q, b) && FromTo(rel, x, q);
        var path :| Leads(rel, y => y == x, path, q);
        LiveForward(rel, live, x, path, q);
        assert q in seen && x in d[q];
      }
    }
  }

  lemma JoinVisit(rel: Rel, live: set<nat>, seen: set<nat>, d: seq<set<nat>>, d': seq<set<nat>>, b: nat)
    requires JoinInv(rel, live, seen, d) && b in live && b !in seen && JoinVisited(rel, live, d, d', b)
    requires forall q, q' :: q in live && rel(q, q') ==> q' in live
    requires forall q :: q in live && rel(q, b) ==> q in seen
    requires forall c :: c in seen || c == b ==> !rel(b, c)
    ensures JoinInv(rel, live, seen + {b}, d')
  {
    JoinExact(rel, live, seen, d, b);
    assert forall q :: q in seen ==> d'[q] == d[q];
    forall c | c in live && c !in seen + {b} ensures d'[c] == Offered(rel, live, seen + {b}, d', c) {
      forall x: nat ensures x in d'[c] <==> x in Offered(rel, live, seen + {b}, d', c) {
        assert x in d[c] <==> x in live && OfferedTo(rel, seen, d, c, x);
        if OfferedTo(rel, seen, d, c, x) {
          var q :| q in seen && q < |d| && rel(q, c) && x in d[q];
          assert q in seen + {b} && x in d'[q];
        }
        if rel(b, c) && x in d'[b] {
          assert b in seen + {b} && OfferedTo(rel, seen + {b}, d', c, x);
        }
      }
    }
  }
}
