/**
 * The union-find structure the percolation grid is built on, specified by
 * its partition contract: two vertices are in the same block exactly when
 * the unions performed so far link them.
 *
 * The implementation is a component-id array ("quick-find"): vertex x is in
 * block id[x], and a union relabels one whole block. The weighting and the
 * tree shapes of the library version affect only running time, so the model
 * keeps just the partition.
 */
module DisjointSets {
  import opened Graph

  /** Every performed union joins two vertices of the same block. */
  ghost predicate LinksWithinBlocks(ids: seq<int>, E: set<Link>)
  {
    forall e :: e in E ==> 0 <= e.0 < |ids| && 0 <= e.1 < |ids| && ids[e.0] == ids[e.1]
  }

  /** Every block is held together by performed unions. */
  ghost predicate BlocksConnected(ids: seq<int>, E: set<Link>)
  {
    forall x, y :: 0 <= x < |ids| && 0 <= y < |ids| && ids[x] == ids[y] ==> Reach(E, x, y)
  }

  /** The labelling `ids` is the partition generated by the unions in E. */
  ghost predicate Represents(ids: seq<int>, E: set<Link>)
  {
    LinksWithinBlocks(ids, E) && BlocksConnected(ids, E)
  }

  /** Under Represents, sharing a label is the same as being linked by unions. */
  lemma SameBlockIffReach(ids: seq<int>, E: set<Link>, x: int, y: int)
    requires Represents(ids, E)
    requires 0 <= x < |ids| && 0 <= y < |ids|
    ensures ids[x] == ids[y] <==> Reach(E, x, y)
  {
    if Reach(E, x, y) {
      ClosedUnderReach(E, u => 0 <= u < |ids| && ids[u] == ids[x], x, y);
    }
  }

  /** The labelling after every vertex labelled `from` is relabelled `to`. */
  function Relabel(ids: seq<int>, from: int, to: int): seq<int>
  {
    seq(|ids|, k requires 0 <= k < |ids| => if ids[k] == from then to else ids[k])
  }

  /** Relabelling p's block as q's keeps the labelling faithful to the unions plus (p, q). */
  lemma MergeKeepsRepresents(ids: seq<int>, E: set<Link>, p: int, q: int)
    requires Represents(ids, E)
    requires 0 <= p < |ids| && 0 <= q < |ids|
    ensures Represents(Relabel(ids, ids[p], ids[q]), E + {(p, q)})
  {
    var r := Relabel(ids, ids[p], ids[q]);
    var F := E + {(p, q)};
    forall x, y | 0 <= x < |r| && 0 <= y < |r| && r[x] == r[y]
      ensures Reach(F, x, y)
    {
      ReachLink(F, p, q);
      ReachLink(F, q, p);
      if ids[x] == ids[y] {
        ReachMono(E, F, x, y);
      } else if ids[x] == ids[p] {
        ReachMono(E, F, x, p);
        ReachMono(E, F, q, y);
        ReachTrans(F, x, p, q);
        ReachTrans(F, x, q, y);
      } else {
        ReachMono(E, F, x, q);
        ReachMono(E, F, p, y);
        ReachTrans(F, x, q, p);
        ReachTrans(F, x, p, y);
      }
    }
  }

  /**
   * A union merges exactly the two blocks of its arguments: afterwards x and y
   * share a block iff they did before, or one was with p and the other with q.
   */
  lemma MergeJoinsBlocks(ids: seq<int>, E: set<Link>, p: int, q: int, x: int, y: int)
    requires Represents(ids, E)
    requires 0 <= p < |ids| && 0 <= q < |ids| && 0 <= x < |ids| && 0 <= y < |ids|
    ensures Reach(E + {(p, q)}, x, y) <==>
            Reach(E, x, y) || (Reach(E, x, p) && Reach(E, q, y)) || (Reach(E, x, q) && Reach(E, p, y))
  {
    var r := Relabel(ids, ids[p], ids[q]);
    MergeKeepsRepresents(ids, E, p, q);
    SameBlockIffReach(r, E + {(p, q)}, x, y);
    SameBlockIffReach(ids, E, x, y);
    SameBlockIffReach(ids, E, x, p);
    SameBlockIffReach(ids, E, q, y);
    SameBlockIffReach(ids, E, x, q);
    SameBlockIffReach(ids, E, p, y);
  }

  class UnionFind {
    /** The number of vertices, 0 .. n - 1. */
    const n: nat
    const id: array<int>
    /** The unions performed so far. */
    ghost var Links: set<Link>

    ghost predicate Valid()
      reads this, id
    {
      id.Length == n && Represents(id[..], Links)
    }

    /** Every vertex starts in a block of its own. */
    constructor (size: nat)
      ensures Valid() && n == size && Links == {} && fresh(id)
      ensures forall x, y :: 0 <= x < n && 0 <= y < n ==> (Reach(Links, x, y) <==> x == y)
    {
      n := size;
      id := new int[size](k => k);
      Links := {};
      new;
      forall x, y | 0 <= x < n && 0 <= y < n && id[x] == id[y]
        ensures Reach(Links, x, y)
      {
        ReachRefl(Links, x);
      }
      forall x, y | 0 <= x < n && 0 <= y < n
        ensures Reach(Links, x, y) <==> x == y
      {
        SameBlockIffReach(id[..], Links, x, y);
      }
    }

    /** Whether p and q are in the same block. */
    method Connected(p: int, q: int) returns (b: bool)
      requires Valid()
      requires 0 <= p < n && 0 <= q < n
      ensures b <==> Reach(Links, p, q)
    {
      b := id[p] == id[q];
      SameBlockIffReach(id[..], Links, p, q);
    }

    /** Merges the blocks of p and q. */
    method Union(p: int, q: int)
      requires Valid()
      requires 0 <= p < n && 0 <= q < n
      modifies this, id
      ensures Valid()
      ensures Links == old(Links) + {(p, q)}
      ensures forall x, y :: 0 <= x < n && 0 <= y < n ==>
                (Reach(Links, x, y) <==>
                   Reach(old(Links), x, y) ||
                   (Reach(old(Links), x, p) && Reach(old(Links), q, y)) ||
                   (Reach(old(Links), x, q) && Reach(old(Links), p, y)))
      ensures forall x :: 0 <= x < n ==>
                id[x] == if old(id[x]) == old(id[p]) then old(id[q]) else old(id[x])
    {
      var pid, qid := id[p], id[q];
      ghost var before := id[..];
      ghost var links := Links;
      MergeKeepsRepresents(before, links, p, q);
      if pid == qid {
        assert Relabel(before, pid, qid) == before;
        Links := Links + {(p, q)};
      } else {
        var k := 0;
        while k < id.Length
          modifies id
          invariant 0 <= k <= id.Length
          invariant forall m :: 0 <= m < k ==> id[m] == if before[m] == pid then qid else before[m]
          invariant forall m :: k <= m < id.Length ==> id[m] == before[m]
        {
          if id[k] == pid {
            id[k] := qid;
          }
          k := k + 1;
        }
        assert id[..] == Relabel(before, pid, qid);
        Links := Links + {(p, q)};
      }
      forall x, y | 0 <= x < n && 0 <= y < n
        ensures Reach(Links, x, y) <==>
                  Reach(links, x, y) ||
                  (Reach(links, x, p) && Reach(links, q, y)) ||
                  (Reach(links, x, q) && Reach(links, p, y))
      {
        MergeJoinsBlocks(before, links, p, q, x, y);
      }
    }
  }
}
