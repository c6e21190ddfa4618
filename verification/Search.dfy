// What a search of the predecessor graph has established while it runs: every node it has seen is
// reached by the walk, and whatever the walk passes leads to a node seen or still to be looked at.
module Search {
  import opened Syntax
  import opened FlowGraph
  import opened Walks

  // The first n indices: what a search can still see shrinks.
  ghost function Indices(n: nat): (r: set<nat>)
    ensures forall i: nat :: i in r <==> i < n
  {
    if n == 0 then {} else Indices(n - 1) + {n - 1}
  }

  // Nil, or the unreachable flow: no walk goes there.
  predicate Nowhere(g: Binding, n: nat) {
    n >= |g.nodes| || g.nodes[n] == Unreachable
  }

  ghost predicate Covered(g: Binding, seen: set<nat>, frontier: seq<nat>, n: nat) {
    n in seen || n in frontier || Nowhere(g, n)
  }

  ghost predicate Searching(g: Binding, w: Walk, f: nat, seen: set<nat>, frontier: seq<nat>) {
    && Covered(g, seen, frontier, f)
    && (forall n :: n in seen ==> n < |g.nodes| && Reaches(g, w, f, n))
    && (forall n :: n in frontier && n < |g.nodes| ==> Reaches(g, w, f, n))
    && (forall n, p :: n in seen && MarkOf(w, g.nodes[n]) == Pass && p in Predecessors(g, n) ==> Covered(g, seen, frontier, p))
  }

  lemma Begin(g: Binding, w: Walk, f: nat)
    ensures Searching(g, w, f, {}, [f])
  {
    if f < |g.nodes| { ReachesItself(g, w, f); }
  }

  lemma {:induction false} PathGoesOn(g: Binding, w: Walk, n: nat, t: nat, p: nat, path: seq<nat>)
    requires LeadsTo(g, w, n, t, path) && t < |g.nodes| && MarkOf(w, g.nodes[t]) == Pass
    requires p in Predecessors(g, t) && p < |g.nodes|
    ensures LeadsTo(g, w, n, p, path + [p])
    decreases |path|
  {
    if |path| > 1 {
      PathGoesOn(g, w, path[1], t, p, path[1..]);
      assert (path + [p])[1..] == path[1..] + [p];
    } else {
      assert (path + [p])[1..] == [p];
    }
  }

  lemma ReachesFurther(g: Binding, w: Walk, n: nat, t: nat, p: nat)
    requires Reaches(g, w, n, t) && t < |g.nodes| && MarkOf(w, g.nodes[t]) == Pass
    requires p in Predecessors(g, t) && p < |g.nodes|
    ensures Reaches(g, w, n, p)
  {
    var path :| LeadsTo(g, w, n, t, path);
    PathGoesOn(g, w, n, t, p, path);
  }

  // One node of the frontier is looked at: its predecessors take its place if the walk passes it.
  lemma LookAt(g: Binding, w: Walk, f: nat, seen: set<nat>, stack: seq<nat>, n: nat, next: seq<nat>)
    requires Searching(g, w, f, seen, stack + [n]) && !Nowhere(g, n)
    requires next == if MarkOf(w, g.nodes[n]) == Pass then Predecessors(g, n) else []
    ensures Searching(g, w, f, seen + {n}, stack + next)
  {
    assert n in stack + [n];
    forall p | p in next && p < |g.nodes| ensures Reaches(g, w, f, p) {
      ReachesFurther(g, w, f, n, p);
    }
    forall m | Covered(g, seen, stack + [n], m) ensures Covered(g, seen + {n}, stack + next, m) {
      if m in stack { assert m in stack + next; }
    }
    forall p | p in next ensures Covered(g, seen + {n}, stack + next, p) {
      assert p in stack + next;
    }
    forall p | p in stack + next && p < |g.nodes| ensures Reaches(g, w, f, p) {
      if p in stack { assert p in stack + [n]; }
    }
  }

  // A node seen before, or leading nowhere, is dropped.
  lemma Drop(g: Binding, w: Walk, f: nat, seen: set<nat>, stack: seq<nat>, n: nat)
    requires Searching(g, w, f, seen, stack + [n]) && (n in seen || Nowhere(g, n))
    ensures Searching(g, w, f, seen, stack)
  {
    forall m | Covered(g, seen, stack + [n], m) ensures Covered(g, seen, stack, m) {
    }
    forall p | p in stack ensures p in stack + [n] {
    }
  }

  // A path that ends leaves nil in its place.
  lemma EndPath(g: Binding, w: Walk, f: nat, seen: set<nat>, stack: seq<nat>, n: nat)
    requires Searching(g, w, f, seen, stack) && n >= |g.nodes|
    ensures Searching(g, w, f, seen, stack + [n])
  {
    forall m | Covered(g, seen, stack, m) ensures Covered(g, seen, stack + [n], m) {
      if m in stack { assert m in stack + [n]; }
    }
  }

  // A finished search has seen all the walk reaches.
  lemma {:induction false} Exhausted(g: Binding, w: Walk, f: nat, seen: set<nat>, n: nat, t: nat, path: seq<nat>)
    requires Searching(g, w, f, seen, []) && LeadsTo(g, w, n, t, path)
    requires n in seen || Nowhere(g, n)
    ensures t in seen || Nowhere(g, t)
    decreases |path|
  {
    if |path| > 1 {
      assert n in seen;
      assert Covered(g, seen, [], path[1]);
      Exhausted(g, w, f, seen, path[1], t, path[1..]);
    }
  }

  // What the search has found among the nodes it has seen.
  ghost predicate Tallied(g: Binding, w: Walk, seen: set<nat>, found: bool, missed: bool, stores: seq<nat>) {
    && (forall n :: n in seen ==> n < |g.nodes|)
    && (found <==> exists n :: n in seen && MarkOf(w, g.nodes[n]) == Found)
    && (missed <==> exists n :: n in seen && MarkOf(w, g.nodes[n]) == Missed)
    && (forall n :: n in stores <==> n in seen && MarkOf(w, g.nodes[n]) == Found)
  }

  lemma Tally(g: Binding, w: Walk, seen: set<nat>, found: bool, missed: bool, stores: seq<nat>, n: nat)
    requires Tallied(g, w, seen, found, missed, stores) && n < |g.nodes|
    ensures var m := MarkOf(w, g.nodes[n]);
      Tallied(g, w, seen + {n}, found || m == Found, missed || m == Missed, if m == Found then stores + [n] else stores)
  {
  }

  lemma MetOne(g: Binding, w: Walk, f: nat, seen: set<nat>, frontier: seq<nat>, n: nat)
    requires Searching(g, w, f, seen, frontier) && n in frontier && n < |g.nodes|
    ensures Meets(g, w, f, MarkOf(w, g.nodes[n]))
  {
  }

  lemma {:induction false} Finished(g: Binding, w: Walk, f: nat, seen: set<nat>, stack: seq<nat>, found: bool, missed: bool, stores: seq<nat>)
    requires Searching(g, w, f, seen, stack) && Tallied(g, w, seen, found, missed, stores)
    requires stack == [] || (found && missed)
    ensures found <==> Meets(g, w, f, Found)
    ensures missed <==> Meets(g, w, f, Missed)
    ensures forall t :: t in stores ==> t < |g.nodes| && Reaches(g, w, f, t) && MarkOf(w, g.nodes[t]) == Found
    ensures !missed ==> forall t: nat :: t < |g.nodes| && Reaches(g, w, f, t) && MarkOf(w, g.nodes[t]) == Found ==> t in stores
  {
    if stack == [] {
      forall t: nat | t < |g.nodes| && MarkOf(w, g.nodes[t]) != Stop && Reaches(g, w, f, t) ensures t in seen {
        var path :| LeadsTo(g, w, f, t, path);
        Exhausted(g, w, f, seen, f, t, path);
      }
    }
  }
}
