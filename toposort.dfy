/**
 * The topological sort the decomposer asks of `graphlib.TopologicalSorter`:
 * every node exactly once, each after all of its prerequisites, or a
 * CycleError. The tie-break among unordered nodes is left open.
 */
module TopoSort {
  import opened Wrappers
  import opened Seqs

  /** Each node mapped to the nodes it depends on (its prerequisites). */
  type Graph = map<string, set<string>>

  /** Carries the nodes the sort could not place; no order exists for them. */
  datatype CycleError = CycleError(stuck: set<string>)

  /** Every prerequisite is itself a node. */
  predicate Closed(g: Graph) {
    forall n | n in g :: g[n] <= g.Keys
  }

  /** `order` lists every node of `g` exactly once, each after all its prerequisites. */
  predicate IsTopoOrder(g: Graph, order: seq<string>) {
    && NoDups(order)
    && (forall i | 0 <= i < |order| :: order[i] in g)
    && (forall n | n in g :: n in order)
    && (forall i, d | 0 <= i < |order| && order[i] in g && d in g[order[i]] :: d in order[..i])
  }

  /** A non-empty set of nodes each of which depends on a member of the set. */
  predicate Stuck(g: Graph, s: set<string>) {
    && s != {}
    && s <= g.Keys
    && forall n | n in s :: g[n] * s != {}
  }

  /** `c[0] -> c[1] -> ... -> c[0]`, each node depending on the next. */
  predicate IsCycle(g: Graph, c: seq<string>) {
    && |c| >= 1
    && forall k | 0 <= k < |c| :: c[k] in g && c[(k + 1) % |c|] in g[c[k]]
  }

  /** The earliest position of `order` holding a member of `s`. */
  lemma EarliestIn(order: seq<string>, s: set<string>, k: nat) returns (i: nat)
    requires k < |order| && order[k] in s
    ensures i <= k && order[i] in s
    ensures forall j | 0 <= j < i :: order[j] !in s
  {
    i := 0;
    while i < k && order[i] !in s
      invariant i <= k
      invariant forall j | 0 <= j < i :: order[j] !in s
    {
      i := i + 1;
    }
  }

  /** In any listing of all nodes, the first member of a stuck set comes before one of its prerequisites. */
  lemma StuckViolation(g: Graph, s: set<string>, order: seq<string>) returns (i: nat, d: string)
    requires Stuck(g, s)
    requires forall n | n in g :: n in order
    ensures i < |order| && order[i] in g && d in g[order[i]] && d !in order[..i]
  {
    var x :| x in s;
    var k :| 0 <= k < |order| && order[k] == x;
    i := EarliestIn(order, s, k);
    d :| d in g[order[i]] * s;
  }

  /** A stuck set rules out every topological order. */
  lemma StuckHasNoOrder(g: Graph, s: set<string>)
    requires Stuck(g, s)
    ensures forall order :: !IsTopoOrder(g, order)
  {
    forall order | forall n | n in g :: n in order
      ensures !IsTopoOrder(g, order)
    {
      var i, d := StuckViolation(g, s, order);
    }
  }

  /** A dependency cycle rules out every topological order, so Sort reports a CycleError. */
  lemma CycleHasNoOrder(g: Graph, c: seq<string>)
    requires IsCycle(g, c)
    ensures forall order :: !IsTopoOrder(g, order)
  {
    var s := set k | 0 <= k < |c| :: c[k];
    assert c[0] in s;
    forall n | n in s
      ensures g[n] * s != {}
    {
      var k :| 0 <= k < |c| && c[k] == n;
      assert c[(k + 1) % |c|] in g[n] * s;
    }
    StuckHasNoOrder(g, s);
  }

  /**
   * Kahn's algorithm: repeatedly place a node none of whose prerequisites is
   * still unplaced. It fails exactly when no topological order exists.
   */
  method Sort(g: Graph) returns (r: Result<seq<string>, CycleError>)
    requires Closed(g)
    ensures r.Success? ==> IsTopoOrder(g, r.value)
    ensures r.Failure? ==> Stuck(g, r.error.stuck) && forall order :: !IsTopoOrder(g, order)
  {
    var done: seq<string> := [];
    var remaining := g.Keys;
    while remaining != {}
      invariant remaining <= g.Keys
      invariant NoDups(done)
      invariant forall i | 0 <= i < |done| :: done[i] in g && done[i] !in remaining
      invariant forall n | n in g :: n in remaining || n in done
      invariant forall i, d | 0 <= i < |done| && done[i] in g && d in g[done[i]] :: d in done[..i]
      decreases |remaining|
    {
      if n :| n in remaining && g[n] * remaining == {} {
        forall d | d in g[n]
          ensures d in done
        {
          assert d in g && d !in g[n] * remaining;
        }
        assert (done + [n])[..|done|] == done;
        done := done + [n];
        remaining := remaining - {n};
      } else {
        StuckHasNoOrder(g, remaining);
        return Failure(CycleError(remaining));
      }
    }
    return Success(done);
  }
}
