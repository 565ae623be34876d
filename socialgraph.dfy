/** The social graph: agents are linked by the edges of a generated random graph,
    each edge entered in the neighbour lists of both of its ends. Agents are named by
    their index in the engine's agent list. */
module SocialGraph {

  /** Neighbour lists, one per agent. */
  type Lists = seq<seq<nat>>

  /** Every edge end names an agent. */
  predicate EdgesWithin(n: nat, edges: seq<(nat, nat)>) {
    forall k :: 0 <= k < |edges| ==> edges[k].0 < n && edges[k].1 < n
  }

  /** Adding edge (u, v): `v` is appended to the list of `u`, then `u` to that of `v`. */
  function Link(adj: Lists, u: nat, v: nat): (r: Lists)
    requires u < |adj| && v < |adj|
    ensures |r| == |adj|
    ensures u != v ==> r[u] == adj[u] + [v] && r[v] == adj[v] + [u]
    ensures u == v ==> r[u] == adj[u] + [u, u]
    ensures forall w :: 0 <= w < |adj| && w != u && w != v ==> r[w] == adj[w]
  {
    var a := adj[u := adj[u] + [v]];
    a[v := a[v] + [u]]
  }

  /** The neighbour lists after adding the edges in order. */
  function Connect(adj: Lists, edges: seq<(nat, nat)>): (r: Lists)
    requires EdgesWithin(|adj|, edges)
    ensures |r| == |adj|
    decreases |edges|
  {
    if edges == [] then adj
    else Connect(Link(adj, edges[0].0, edges[0].1), edges[1..])
  }

  /** `v` occurs in the list of `u` as often as `u` in the list of `v`. */
  predicate Symmetric(adj: Lists) {
    forall u, v :: 0 <= u < |adj| && 0 <= v < |adj| ==> multiset(adj[u])[v] == multiset(adj[v])[u]
  }

  /** Total number of list entries. */
  function Entries(adj: Lists): nat {
    if adj == [] then 0 else Entries(adj[..|adj| - 1]) + |adj[|adj| - 1]|
  }

  /** Adding one edge keeps the lists symmetric. */
  lemma LinkSymmetric(adj: Lists, u: nat, v: nat)
    requires u < |adj| && v < |adj| && Symmetric(adj)
    ensures Symmetric(Link(adj, u, v))
  {
    var r := Link(adj, u, v);
    forall a, b | 0 <= a < |r| && 0 <= b < |r|
      ensures multiset(r[a])[b] == multiset(r[b])[a]
    {
      assert multiset(adj[a])[b] == multiset(adj[b])[a];
      if u == v {
        assert multiset(r[u]) == multiset(adj[u]) + multiset{u, u};
      } else {
        assert multiset(r[u]) == multiset(adj[u]) + multiset{v};
        assert multiset(r[v]) == multiset(adj[v]) + multiset{u};
      }
    }
  }

  /** Changing one list changes the entry count by the change of its length. */
  lemma EntriesUpdate(adj: Lists, i: nat, s: seq<nat>)
    requires i < |adj|
    ensures Entries(adj[i := s]) + |adj[i]| == Entries(adj) + |s|
    decreases |adj|
  {
    var n := |adj| - 1;
    if i < n {
      assert adj[i := s][..n] == adj[..n][i := s];
      EntriesUpdate(adj[..n], i, s);
    } else {
      assert adj[i := s][..n] == adj[..n];
    }
  }

  /** The graph built from a symmetric start is symmetric, and every edge adds two
      entries: one in each end's list. */
  lemma {:induction false} ConnectSymmetric(adj: Lists, edges: seq<(nat, nat)>)
    requires EdgesWithin(|adj|, edges) && Symmetric(adj)
    ensures |Connect(adj, edges)| == |adj|
    ensures Symmetric(Connect(adj, edges))
    ensures Entries(Connect(adj, edges)) == Entries(adj) + 2 * |edges|
    decreases |edges|
  {
    if edges != [] {
      var (u, v) := edges[0];
      var a := Link(adj, u, v);
      LinkSymmetric(adj, u, v);
      var a1 := adj[u := adj[u] + [v]];
      EntriesUpdate(adj, u, adj[u] + [v]);
      EntriesUpdate(a1, v, a1[v] + [u]);
      assert Entries(a) == Entries(adj) + 2;
      ConnectSymmetric(a, edges[1..]);
    }
  }

  /** After the loop, the agents linked to `u` are those linked before and the other
      ends of the edges at `u`. */
  lemma {:induction false} ConnectMembers(adj: Lists, edges: seq<(nat, nat)>, u: nat, w: nat)
    requires EdgesWithin(|adj|, edges) && u < |adj|
    ensures |Connect(adj, edges)| == |adj|
    ensures w in Connect(adj, edges)[u] <==>
              w in adj[u] || exists k :: 0 <= k < |edges| && (edges[k] == (u, w) || edges[k] == (w, u))
    decreases |edges|
  {
    if edges != [] {
      var (a, b) := edges[0];
      var l := Link(adj, a, b);
      ConnectMembers(l, edges[1..], u, w);
      assert w in l[u] <==> w in adj[u] || edges[0] == (u, w) || edges[0] == (w, u);
      if w in Connect(adj, edges)[u] && w !in adj[u] && edges[0] != (u, w) && edges[0] != (w, u) {
        var k :| 0 <= k < |edges[1..]| && (edges[1..][k] == (u, w) || edges[1..][k] == (w, u));
        assert edges[k + 1] == edges[1..][k];
      }
      if exists k :: 0 <= k < |edges| && (edges[k] == (u, w) || edges[k] == (w, u)) {
        var k :| 0 <= k < |edges| && (edges[k] == (u, w) || edges[k] == (w, u));
        if k > 0 {
          assert edges[1..][k - 1] == edges[k];
        }
      }
    }
  }

  /** Adding the edges in order is adding all but the last, then the last: the
      order in which a loop over the edges builds the lists. */
  lemma {:induction false} ConnectLast(adj: Lists, edges: seq<(nat, nat)>)
    requires EdgesWithin(|adj|, edges) && edges != []
    ensures EdgesWithin(|adj|, edges[..|edges| - 1])
    ensures var last := edges[|edges| - 1];
            Connect(adj, edges) == Link(Connect(adj, edges[..|edges| - 1]), last.0, last.1)
    decreases |edges|
  {
    var n := |edges|;
    var init := edges[..n - 1];
    assert EdgesWithin(|adj|, init) by {
      forall k | 0 <= k < |init| ensures init[k].0 < |adj| && init[k].1 < |adj| {
        assert init[k] == edges[k];
      }
    }
    if n > 1 {
      var a := Link(adj, edges[0].0, edges[0].1);
      var rest := edges[1..];
      assert EdgesWithin(|a|, rest) by {
        forall k | 0 <= k < |rest| ensures rest[k].0 < |a| && rest[k].1 < |a| {
          assert rest[k] == edges[k + 1];
        }
      }
      ConnectLast(a, rest);
      assert init[0] == edges[0] && init[1..] == rest[..|rest| - 1];
    }
  }
}
