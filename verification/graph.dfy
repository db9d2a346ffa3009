/**
 * Undirected reachability over a set of links between integer vertices:
 * the meaning a union-find structure gives to the unions performed on it.
 */
module Graph {

  /** A union performed between two vertices; the direction does not matter. */
  type Link = (int, int)

  predicate Linked(E: set<Link>, a: int, b: int)
  {
    (a, b) in E || (b, a) in E
  }

  /** A non-empty vertex sequence in which consecutive vertices are linked. */
  ghost predicate IsWalk(E: set<Link>, w: seq<int>)
  {
    |w| > 0 && forall k :: 0 <= k < |w| - 1 ==> Linked(E, w[k], w[k + 1])
  }

  ghost predicate Reach(E: set<Link>, x: int, y: int)
  {
    exists w :: IsWalk(E, w) && w[0] == x && w[|w| - 1] == y
  }

  lemma ReachRefl(E: set<Link>, x: int)
    ensures Reach(E, x, x)
  {
    assert IsWalk(E, [x]);
  }

  lemma ReachLink(E: set<Link>, a: int, b: int)
    requires Linked(E, a, b)
    ensures Reach(E, a, b)
  {
    assert IsWalk(E, [a, b]);
  }

  lemma ReachTrans(E: set<Link>, x: int, y: int, z: int)
    requires Reach(E, x, y) && Reach(E, y, z)
    ensures Reach(E, x, z)
  {
    var w1 :| IsWalk(E, w1) && w1[0] == x && w1[|w1| - 1] == y;
    var w2 :| IsWalk(E, w2) && w2[0] == y && w2[|w2| - 1] == z;
    var w := w1 + w2[1..];
    forall k | 0 <= k < |w| - 1
      ensures Linked(E, w[k], w[k + 1])
    {
      if k < |w1| - 1 {
        assert w[k] == w1[k] && w[k + 1] == w1[k + 1];
      } else {
        var m := k - |w1| + 1;
        assert w[k] == w2[m] && w[k + 1] == w2[m + 1];
      }
    }
    assert IsWalk(E, w);
  }

  /** Adding links never disconnects anything. */
  lemma ReachMono(E: set<Link>, F: set<Link>, x: int, y: int)
    requires E <= F && Reach(E, x, y)
    ensures Reach(F, x, y)
  {
    var w :| IsWalk(E, w) && w[0] == x && w[|w| - 1] == y;
    assert IsWalk(F, w);
  }

  /** A vertex property that every link carries forward holds all along a walk. */
  lemma {:induction false} ClosedAlongWalk(E: set<Link>, w: seq<int>, P: int -> bool)
    requires IsWalk(E, w) && P(w[0])
    requires forall a, b :: P(a) && Linked(E, a, b) ==> P(b)
    ensures P(w[|w| - 1])
    decreases |w|
  {
    if |w| > 1 {
      var u := w[..|w| - 1];
      assert IsWalk(E, u) by {
        forall k | 0 <= k < |u| - 1
          ensures Linked(E, u[k], u[k + 1])
        {
          assert u[k] == w[k] && u[k + 1] == w[k + 1];
        }
      }
      ClosedAlongWalk(E, u, P);
      assert Linked(E, w[|w| - 2], w[|w| - 1]);
    }
  }

  /** Hence such a property is shared by everything reachable. */
  lemma ClosedUnderReach(E: set<Link>, P: int -> bool, x: int, y: int)
    requires Reach(E, x, y) && P(x)
    requires forall a, b :: P(a) && Linked(E, a, b) ==> P(b)
    ensures P(y)
  {
    var w :| IsWalk(E, w) && w[0] == x && w[|w| - 1] == y;
    ClosedAlongWalk(E, w, P);
  }
}
