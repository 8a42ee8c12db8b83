/**
 * The count of how often each id is queued, taken in rounds.
 *
 * A round gives each id what the last round's counts make it due. Counts only ever rise. One that still rises after as
 * many rounds as there are ids has that many edges behind it, so it stands on a directed cycle; and by then every id of
 * the cycle is past the arrival that brings its in-degree to zero, so that each rise is passed on to the next id, all
 * the way round, for ever. No finite account can hold that. Where there is one, the rounds have come to rest.
 */
module Recounts {
  import opened Schema
  import opened Topology
  import opened Turning
  import opened Accounts

  /** What each id is due, if its sources are taken as often as `account` says. */
  function Round(g: Graph, nodes: seq<Node>, account: multiset<string>): multiset<string> {
    if nodes == [] then multiset{}
    else
      var id := nodes[|nodes| - 1].id;
      Round(g, nodes[..|nodes| - 1], account)[id := Due(g, id, account)]
  }

  lemma {:induction false} RoundIs(g: Graph, nodes: seq<Node>, account: multiset<string>, id: string)
    ensures Round(g, nodes, account)[id] == if id in IdSet(nodes) then Due(g, id, account) else 0
  {
    if nodes != [] { RoundIs(g, nodes[..|nodes| - 1], account, id); }
  }

  function Rounds(g: Graph, j: nat): multiset<string> {
    if j == 0 then multiset{} else Round(g, g.nodes, Rounds(g, j - 1))
  }

  /** Counts that differ come from a source whose counts differ. */
  lemma {:induction false} DifferentSource(edges: seq<Edge>, id: string, a: multiset<string>, b: multiset<string>)
    returns (i: nat)
    requires Arrived(edges, id, a) != Arrived(edges, id, b)
    ensures i < |edges| && edges[i].target == id && a[edges[i].source] != b[edges[i].source]
  {
    var n := |edges| - 1;
    if edges[n].target == id && a[edges[n].source] != b[edges[n].source] {
      i := n;
    } else {
      i := DifferentSource(edges[..n], id, a, b);
    }
  }

  /** Ids, each followed by a source of it. */
  ghost predicate BackWalk(g: Graph, path: seq<string>) {
    && (forall i :: 0 <= i < |path| ==> path[i] in Ids(g))
    && (forall i {:trigger path[i]} :: 0 <= i < |path| - 1 ==> HasEdge(g, path[i + 1], path[i]))
  }

  // ---- counts only rise ---------------------------------------------------------------------------------------

  lemma DueMonotone(g: Graph, id: string, a: multiset<string>, b: multiset<string>)
    requires a <= b
    ensures Due(g, id, a) <= Due(g, id, b)
  {
    ArrivedMonotone(g.edges, id, a, b);
  }

  lemma BalancedAt(g: Graph, account: multiset<string>, id: string)
    requires Balanced(g, account) && id in Ids(g)
    ensures Due(g, id, account) <= account[id]
  {
  }

  lemma {:induction false} RoundsGrow(g: Graph, j: nat)
    ensures Rounds(g, j) <= Rounds(g, j + 1)
  {
    hide Due, Round;
    if j > 0 {
      RoundsGrow(g, j - 1);
      forall id ensures Rounds(g, j)[id] <= Rounds(g, j + 1)[id] {
        RoundIs(g, g.nodes, Rounds(g, j - 1), id);
        RoundIs(g, g.nodes, Rounds(g, j), id);
        DueMonotone(g, id, Rounds(g, j - 1), Rounds(g, j));
      }
    }
  }

  lemma {:induction false} RoundsMonotone(g: Graph, i: nat, j: nat)
    requires i <= j
    ensures Rounds(g, i) <= Rounds(g, j)
    decreases j
  {
    hide Round;
    if i < j {
      RoundsMonotone(g, i, j - 1);
      RoundsGrow(g, j - 1);
    }
  }

  /** No round outgrows a finite account. */
  lemma {:induction false} RoundsWithin(g: Graph, account: multiset<string>, j: nat)
    requires Balanced(g, account)
    ensures Rounds(g, j) <= account
  {
    hide Due, Round, Balanced;
    if j > 0 {
      RoundsWithin(g, account, j - 1);
      forall id ensures Rounds(g, j)[id] <= account[id] {
        RoundIs(g, g.nodes, Rounds(g, j - 1), id);
        if id in Ids(g) {
          DueMonotone(g, id, Rounds(g, j - 1), account);
          BalancedAt(g, account, id);
        }
      }
    }
  }

  // ---- a count that rises late stands on a cycle ----------------------------------------------------------------

  /** Round `j + 1` counts `id` higher than round `j`. */
  predicate Rises(g: Graph, j: nat, id: string) {
    Rounds(g, j)[id] < Rounds(g, j + 1)[id]
  }

  lemma Unbalanced(g: Graph, j: nat) returns (id: string)
    requires !Balanced(g, Rounds(g, j))
    ensures id in Ids(g) && Rises(g, j, id)
  {
    hide Due, Round;
    id :| id in Ids(g) && Due(g, id, Rounds(g, j)) > Rounds(g, j)[id];
    RoundIs(g, g.nodes, Rounds(g, j), id);
  }

  /** What rises one round rises because a source of it rose the round before. */
  lemma RisenSource(g: Graph, j: nat, id: string) returns (source: string)
    requires j > 0 && id in Ids(g) && Rises(g, j, id)
    ensures source in Ids(g) && HasEdge(g, source, id) && Rises(g, j - 1, source)
  {
    hide Round;
    RoundIs(g, g.nodes, Rounds(g, j), id);
    RoundIs(g, g.nodes, Rounds(g, j - 1), id);
    var i := DifferentSource(g.edges, id, Rounds(g, j), Rounds(g, j - 1));
    source := g.edges[i].source;
    RoundsGrow(g, j - 1);
    RoundIs(g, g.nodes, Rounds(g, j - 1), source);
    assert HasEdge(g, source, id);
  }

  /** A count still rising after `j` rounds has that many edges behind it, each source risen one round earlier. */
  lemma {:induction false} StillRising(g: Graph, j: nat, id: string) returns (path: seq<string>)
    requires id in Ids(g) && Rises(g, j, id)
    ensures |path| == j + 1 && path[0] == id && BackWalk(g, path)
    ensures forall i {:trigger path[i]} :: 0 <= i <= j ==> Rises(g, j - i, path[i])
  {
    hide Rises, HasEdge;
    if j == 0 {
      path := [id];
    } else {
      var source := RisenSource(g, j, id);
      var rest := StillRising(g, j - 1, source);
      path := [id] + rest;
      forall k | 0 <= k < |path| - 1 ensures HasEdge(g, path[k + 1], path[k]) {
        if k > 0 {
          var l := k - 1;
          assert HasEdge(g, rest[l + 1], rest[l]);
        }
      }
      forall i | 0 <= i <= j ensures Rises(g, j - i, path[i]) {
        if i > 0 {
          var l := i - 1;
          assert rest[l] == path[i] && Rises(g, j - 1 - l, rest[l]);
        }
      }
    }
  }

  lemma DistinctFits(path: seq<string>, ids: set<string>)
    requires forall j, k :: 0 <= j < k < |path| ==> path[j] != path[k]
    requires forall i :: 0 <= i < |path| ==> path[i] in ids
    ensures |path| <= |ids|
  {
    DistinctSize(path);
    SubsetSize(set k | 0 <= k < |path| :: path[k], ids);
  }

  lemma LoopCycles(g: Graph, path: seq<string>, j: nat, k: nat)
    requires BackWalk(g, path) && j < k < |path| && path[j] == path[k]
    ensures DirectedCycle(g, path[j..k])
  {
    hide HasEdge;
    var c, last := path[j..k], k - 1;
    forall i | 0 <= i < |c| - 1 ensures HasEdge(g, c[i + 1], c[i]) {
      var at := j + i;
      assert c[i] == path[at] && c[i + 1] == path[at + 1];
    }
    assert c[|c| - 1] == path[last] && HasEdge(g, path[last + 1], path[last]);
  }

  /** A walk longer than there are ids comes back to one of them. */
  lemma LongWalkCycles(g: Graph, path: seq<string>)
    requires BackWalk(g, path) && |path| > |Ids(g)|
    ensures exists c :: DirectedCycle(g, c)
  {
    hide BackWalk, DirectedCycle;
    var j, k := Repeats(g, path);
    LoopCycles(g, path, j, k);
  }

  // ---- a rise goes round the cycle for ever -----------------------------------------------------------------------

  /** The next arrival at `id` is one more place in the queue. */
  predicate Open(g: Graph, j: nat, id: string) {
    InDegree(g, id) <= Arrived(g.edges, id, Rounds(g, j)) + 1
  }

  lemma RisesOpen(g: Graph, j: nat, id: string)
    requires j > 0 && id in Ids(g) && Rises(g, j, id)
    ensures Open(g, j, id)
  {
    hide Round, Arrived, Pending;
    RoundIs(g, g.nodes, Rounds(g, j), id);
    RoundIs(g, g.nodes, Rounds(g, j - 1), id);
  }

  lemma OpenLater(g: Graph, i: nat, j: nat, id: string)
    requires i <= j && Open(g, i, id)
    ensures Open(g, j, id)
  {
    hide Rounds, Arrived, Pending;
    RoundsMonotone(g, i, j);
    ArrivedMonotone(g.edges, id, Rounds(g, i), Rounds(g, j));
  }

  lemma {:induction false} ArrivedRises(edges: seq<Edge>, id: string, a: multiset<string>, b: multiset<string>, i: nat)
    requires a <= b && i < |edges| && edges[i].target == id && a[edges[i].source] < b[edges[i].source]
    ensures Arrived(edges, id, a) < Arrived(edges, id, b)
  {
    var n := |edges| - 1;
    if i == n {
      ArrivedMonotone(edges[..n], id, a, b);
    } else {
      ArrivedRises(edges[..n], id, a, b, i);
    }
  }

  /** An open id passes a rise on. */
  lemma PassOn(g: Graph, j: nat, source: string, target: string)
    requires HasEdge(g, source, target) && target in Ids(g) && Open(g, j, target) && Rises(g, j, source)
    ensures Rises(g, j + 1, target)
  {
    hide Round, Arrived, Pending, Copies;
    var e :| e in g.edges && e.source == source && e.target == target;
    var i :| 0 <= i < |g.edges| && g.edges[i] == e;
    RoundsGrow(g, j);
    ArrivedRises(g.edges, target, Rounds(g, j), Rounds(g, j + 1), i);
    RoundIs(g, g.nodes, Rounds(g, j), target);
    RoundIs(g, g.nodes, Rounds(g, j + 1), target);
    CopiesIff(g.nodes, target);
  }

  lemma {:induction false} AroundTo(g: Graph, path: seq<string>, i: nat, b: nat, j: nat)
    requires BackWalk(g, path) && i <= b < |path| && Rises(g, j, path[b])
    requires forall k {:trigger path[k]} :: i <= k < b ==> Open(g, j, path[k])
    ensures Rises(g, j + (b - i), path[i])
    decreases b - i
  {
    hide Rises, Open, HasEdge;
    if i < b {
      var next := i + 1;
      AroundTo(g, path, next, b, j);
      assert HasEdge(g, path[next], path[i]);
      OpenLater(g, j, j + (b - next), path[i]);
      PassOn(g, j + (b - next), path[next], path[i]);
    }
  }

  /** So a count on an open cycle passes any bound. */
  lemma {:induction false} Unbounded(g: Graph, path: seq<string>, a: nat, b: nat, j: nat, bound: nat) returns (r: nat)
    requires BackWalk(g, path) && a < b < |path| && path[a] == path[b] && Rises(g, j, path[b])
    requires forall k {:trigger path[k]} :: a <= k < b ==> Open(g, j, path[k])
    ensures j <= r && Rises(g, r, path[b]) && Rounds(g, r)[path[b]] >= bound
    decreases bound
  {
    hide Rounds, Open, BackWalk;
    if bound == 0 {
      r := j;
    } else {
      var before := Unbounded(g, path, a, b, j, bound - 1);
      forall k {:trigger path[k]} | a <= k < b ensures Open(g, before, path[k]) { OpenLater(g, j, before, path[k]); }
      AroundTo(g, path, a, b, before);
      r := before + (b - a);
      RoundsMonotone(g, before + 1, r);
    }
  }

  /** Where there is any finite account, one round for each id is enough to come to rest. */
  lemma RoundsSettle(g: Graph, account: multiset<string>)
    requires Balanced(g, account)
    ensures Balanced(g, Rounds(g, |Ids(g)|))
  {
    hide Balanced, Rounds, BackWalk, Open, Rises;
    var n := |Ids(g)|;
    if !Balanced(g, Rounds(g, n)) {
      var id := Unbalanced(g, n);
      var path := StillRising(g, n, id);
      var a, b := Repeats(g, path);
      forall k {:trigger path[k]} | a <= k < b ensures Open(g, n - a, path[k]) {
        assert path[k] in Ids(g) by { WalkIds(g, path, k); }
        RisesOpen(g, n - k, path[k]);
        OpenLater(g, n - k, n - a, path[k]);
      }
      assert Rises(g, n - a, path[a]);
      var r := Unbounded(g, path, a, b, n - a, account[path[b]] + 1);
      RoundsWithin(g, account, r);
    }
  }

  lemma WalkIds(g: Graph, path: seq<string>, k: nat)
    requires BackWalk(g, path) && k < |path|
    ensures path[k] in Ids(g)
  {
  }

  lemma Repeats(g: Graph, path: seq<string>) returns (a: nat, b: nat)
    requires BackWalk(g, path) && |path| > |Ids(g)|
    ensures a < b < |path| && path[a] == path[b]
  {
    hide HasEdge;
    if forall j, k :: 0 <= j < k < |path| ==> path[j] != path[k] {
      DistinctFits(path, Ids(g));
    }
    a, b :| a < b < |path| && path[a] == path[b];
  }
}
