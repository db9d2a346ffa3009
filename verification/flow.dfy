/**
 * What the percolation grid's answers mean, stated on the set of open sites
 * alone: a site is full when a path of open, 4-adjacent sites leads to it from
 * the top row, and the system percolates when such a path joins the top row to
 * the bottom row. The lemmas here connect these statements to reachability
 * over the unions the grid performs.
 */
module Flow {
  import opened Sites
  import opened Graph

  /** A non-empty sequence of open sites of the grid, each 4-adjacent to the next. */
  ghost predicate IsOpenPath(n: int, open: set<Site>, p: seq<Site>)
  {
    |p| > 0 &&
    (forall k :: 0 <= k < |p| ==> InGrid(n, p[k]) && p[k] in open) &&
    (forall k :: 0 <= k < |p| - 1 ==> Adjacent(p[k], p[k + 1]))
  }

  /** s is full: an open path leads from the top row to s. */
  ghost predicate Full(n: int, open: set<Site>, s: Site)
  {
    exists p: seq<Site> :: IsOpenPath(n, open, p) && p[0].0 == 1 && p[|p| - 1] == s
  }

  /** An open path leads from s down to the bottom row. */
  ghost predicate DrainsToBottom(n: int, open: set<Site>, s: Site)
  {
    exists p: seq<Site> :: IsOpenPath(n, open, p) && p[0] == s && p[|p| - 1].0 == n
  }

  /** The system percolates: an open path joins the top row to the bottom row. */
  ghost predicate Percolated(n: int, open: set<Site>)
  {
    exists p: seq<Site> :: IsOpenPath(n, open, p) && p[0].0 == 1 && p[|p| - 1].0 == n
  }

  /** The unions (0, k) of the virtual top with the first m sites of the top row. */
  function TopWiring(m: int): set<Link>
  {
    set k | 1 <= k <= m :: (0, k)
  }

  /**
   * The unions (n*n - k + 1, n*n + 1), k = 1 .. m, of the last m sites with the
   * virtual bottom, written with a = n*n - k + 1.
   */
  function BottomWiring(n: int, m: int): set<Link>
  {
    set a | n * n - m + 1 <= a <= n * n :: ToBottom(n, a)
  }

  function ToBottom(n: int, a: int): Link
  {
    (a, n * n + 1)
  }

  predicate TopLink(n: int, a: int, b: int)
  {
    a == 0 && 1 <= b <= n
  }

  predicate BottomLink(n: int, a: int, b: int)
  {
    n * n - n + 1 <= a <= n * n && b == n * n + 1
  }

  /** A union between two open, 4-adjacent sites. */
  ghost predicate SiteLink(n: int, open: set<Site>, a: int, b: int)
  {
    n > 0 && 1 <= a <= n * n && 1 <= b <= n * n &&
    SiteOf(n, a) in open && SiteOf(n, b) in open &&
    Adjacent(SiteOf(n, a), SiteOf(n, b))
  }

  /** Every union is a top wiring or joins two open neighbours. */
  ghost predicate Sound(n: int, open: set<Site>, E: set<Link>)
  {
    forall e :: e in E ==> TopLink(n, e.0, e.1) || SiteLink(n, open, e.0, e.1)
  }

  /** The whole top row is wired and every pair of open neighbours is joined. */
  ghost predicate Complete(n: int, open: set<Site>, E: set<Link>)
  {
    TopWiring(n) <= E && forall a, b :: SiteLink(n, open, a, b) ==> Linked(E, a, b)
  }

  /** Two open neighbours of the grid make a site link between their numbers. */
  lemma NeighboursLinked(n: int, open: set<Site>, s: Site, t: Site)
    requires n >= 1 && InGrid(n, s) && InGrid(n, t)
    requires s in open && t in open && Adjacent(s, t)
    ensures SiteLink(n, open, Index(n, s), Index(n, t))
  {
    IndexInRange(n, s);
    IndexInRange(n, t);
    DecodeIndex(n, s);
    DecodeIndex(n, t);
  }

  /**
   * Opening s keeps the unions complete once s is joined to each of its open
   * neighbours: every other pair of open neighbours was joined already.
   */
  lemma CompleteAfterOpen(n: int, open: set<Site>, E: set<Link>, E': set<Link>, s: Site)
    requires n >= 1 && InGrid(n, s) && Complete(n, open, E) && E <= E'
    requires forall t :: t in open && InGrid(n, t) && Adjacent(s, t) ==> Linked(E', Index(n, s), Index(n, t))
    ensures Complete(n, open + {s}, E')
  {
    forall a, b | SiteLink(n, open + {s}, a, b)
      ensures Linked(E', a, b)
    {
      EncodeSite(n, a);
      EncodeSite(n, b);
      var sa, sb := SiteOf(n, a), SiteOf(n, b);
      if sa == s {
        assert sb in open;
      } else if sb == s {
        assert sa in open && Adjacent(s, sa);
      } else {
        assert SiteLink(n, open, a, b);
      }
    }
  }

  /** The union joining s to t, when t is an open site of the grid; none otherwise. */
  function JoinIfOpen(n: int, open: set<Site>, s: Site, t: Site): set<Link>
  {
    if InGrid(n, t) && t in open then {(Index(n, s), Index(n, t))} else {}
  }

  /** The unions joining site (i, j) to its open neighbours above, below, left and right. */
  function Joins(n: int, open: set<Site>, i: int, j: int): set<Link>
  {
    JoinIfOpen(n, open, (i, j), (i - 1, j)) + JoinIfOpen(n, open, (i, j), (i + 1, j)) +
    JoinIfOpen(n, open, (i, j), (i, j - 1)) + JoinIfOpen(n, open, (i, j), (i, j + 1))
  }

  /** Making the four unions of Joins one neighbour at a time adds Joins. */
  lemma JoinsInTurn(n: int, open: set<Site>, i: int, j: int, E0: set<Link>, E1: set<Link>, E2: set<Link>, E3: set<Link>, E4: set<Link>)
    requires E1 == E0 + JoinIfOpen(n, open, (i, j), (i - 1, j))
    requires E2 == E1 + JoinIfOpen(n, open, (i, j), (i + 1, j))
    requires E3 == E2 + JoinIfOpen(n, open, (i, j), (i, j - 1))
    requires E4 == E3 + JoinIfOpen(n, open, (i, j), (i, j + 1))
    ensures E4 == E0 + Joins(n, open, i, j)
  {
  }

  /**
   * Joining a newly opened site (i, j) to its open neighbours makes complete
   * unions complete again, and each of those unions joins (i, j) to an open
   * neighbour.
   */
  lemma JoinsComplete(n: int, before: set<Site>, E: set<Link>, i: int, j: int)
    requires n >= 1 && InGrid(n, (i, j)) && Complete(n, before, E)
    ensures Complete(n, before + {(i, j)}, E + Joins(n, before + {(i, j)}, i, j))
    ensures forall e :: e in Joins(n, before + {(i, j)}, i, j) ==>
              e.0 == Index(n, (i, j)) && SiteLink(n, before + {(i, j)}, e.0, e.1)
  {
    var s := (i, j);
    var open := before + {s};
    var E' := E + Joins(n, open, i, j);
    forall t | t in before && InGrid(n, t) && Adjacent(s, t)
      ensures Linked(E', Index(n, s), Index(n, t))
    {
      assert (Index(n, s), Index(n, t)) in JoinIfOpen(n, open, s, t);
    }
    CompleteAfterOpen(n, before, E, E', s);
    forall e | e in Joins(n, open, i, j)
      ensures e.0 == Index(n, s) && SiteLink(n, open, e.0, e.1)
    {
      if e in JoinIfOpen(n, open, s, (i - 1, j)) {
        NeighboursLinked(n, open, s, (i - 1, j));
      } else if e in JoinIfOpen(n, open, s, (i + 1, j)) {
        NeighboursLinked(n, open, s, (i + 1, j));
      } else if e in JoinIfOpen(n, open, s, (i, j - 1)) {
        NeighboursLinked(n, open, s, (i, j - 1));
      } else {
        NeighboursLinked(n, open, s, (i, j + 1));
      }
    }
  }

  /** Opening a site keeps every union sound: an open neighbour stays open. */
  lemma SoundAfterOpen(n: int, open: set<Site>, E: set<Link>, s: Site)
    requires Sound(n, open, E)
    ensures Sound(n, open + {s}, E)
  {
  }

  /** With every site blocked, the top wiring alone is sound and complete. */
  lemma InitialWiring(n: int)
    ensures Sound(n, {}, TopWiring(n)) && Complete(n, {}, TopWiring(n))
  {
  }

  /** Unions added to a set of links are added to it again once extra links are put beside it. */
  lemma AddedBeside(F0: set<Link>, F1: set<Link>, B: set<Link>, J: set<Link>)
    requires F1 == F0 + J
    ensures F1 + B == (F0 + B) + J
  {
  }

  /** Links that never touch the virtual bottom are new in uf exactly when new in isFullUF. */
  lemma SameNewLinks(n: int, F0: set<Link>, F1: set<Link>)
    requires forall e :: e in F1 - F0 ==> e.1 <= n * n
    ensures (F1 + BottomWiring(n, n)) - (F0 + BottomWiring(n, n)) == F1 - F0
  {
  }

  lemma TopWiringStep(m: int)
    requires m >= 0
    ensures TopWiring(m + 1) == TopWiring(m) + {(0, m + 1)}
  {
  }

  lemma BottomWiringStep(n: int, m: int)
    requires m >= 0
    ensures BottomWiring(n, m + 1) == BottomWiring(n, m) + {(n * n - (m + 1) + 1, n * n + 1)}
  {
    var a := n * n - (m + 1) + 1;
    assert ToBottom(n, a) in BottomWiring(n, m + 1);
  }

  /** The unions with site i of the top row and site i from the end of the bottom row extend both wirings. */
  lemma WiringStep(n: int, i: int, F: set<Link>, E: set<Link>)
    requires i >= 1
    requires F == TopWiring(i - 1) + {(0, i)}
    requires E == TopWiring(i - 1) + BottomWiring(n, i - 1) + {(0, i)} + {(n * n - i + 1, n * n + 1)}
    ensures F == TopWiring(i)
    ensures E == TopWiring(i) + BottomWiring(n, i)
  {
    TopWiringStep(i - 1);
    BottomWiringStep(n, i - 1);
  }

  lemma BottomWiringLinks(n: int, a: int, b: int)
    ensures (a, b) in BottomWiring(n, n) <==> BottomLink(n, a, b)
  {
    if BottomLink(n, a, b) {
      assert (a, b) == ToBottom(n, a);
    }
  }

  lemma Symmetric(a: Site, b: Site)
    ensures Adjacent(a, b) <==> Adjacent(b, a)
  {
  }

  // ---------------------------------------------------------------------------
  // From open paths to walks over the unions

  /** The vertex numbers of the sites of a path, preceded by the virtual top. */
  function TopWalk(n: int, p: seq<Site>): seq<int>
  {
    [0] + seq(|p|, k requires 0 <= k < |p| => Index(n, p[k]))
  }

  /** An open path from the top row is a walk from the virtual top over complete unions. */
  lemma OpenPathIsWalk(n: int, open: set<Site>, E: set<Link>, p: seq<Site>)
    requires n >= 1 && Complete(n, open, E)
    requires IsOpenPath(n, open, p) && p[0].0 == 1
    ensures IsWalk(E, TopWalk(n, p))
  {
    var w := TopWalk(n, p);
    forall k | 0 <= k < |w| - 1
      ensures Linked(E, w[k], w[k + 1])
    {
      if k == 0 {
        FirstRow(n, p[0].1);
        assert (0, p[0].1) in TopWiring(n);
      } else {
        NeighboursLinked(n, open, p[k - 1], p[k]);
      }
    }
  }

  // ---------------------------------------------------------------------------
  // From walks over the unions to open paths

  /**
   * What holds of every vertex reachable from the virtual top over sound
   * unions: it is the virtual top, a blocked top-row site, or a full site.
   */
  ghost predicate TopSide(n: int, open: set<Site>, u: int)
    requires n > 0
  {
    u == 0 ||
    (1 <= u <= n * n &&
     (SiteOf(n, u) in open ==> Full(n, open, SiteOf(n, u))) &&
     (SiteOf(n, u) !in open ==> u <= n))
  }

  /** With the virtual bottom added, reachable vertices are top-side, or the system percolates. */
  ghost predicate Reached(n: int, open: set<Site>, u: int)
    requires n > 0
  {
    TopSide(n, open, u) ||
    (Percolated(n, open) &&
     (u == n * n + 1 ||
      (1 <= u <= n * n && (SiteOf(n, u) in open ==> DrainsToBottom(n, open, SiteOf(n, u))))))
  }

  lemma FullFromTopRow(n: int, open: set<Site>, v: int)
    requires 1 <= v <= n && (1, v) in open
    ensures SiteOf(n, v) == (1, v) && Full(n, open, (1, v))
  {
    FirstRow(n, v);
    assert IsOpenPath(n, open, [(1, v)]);
  }

  lemma FullExtends(n: int, open: set<Site>, s: Site, t: Site)
    requires Full(n, open, s) && t in open && InGrid(n, t) && Adjacent(s, t)
    ensures Full(n, open, t)
  {
    var p: seq<Site> :| IsOpenPath(n, open, p) && p[0].0 == 1 && p[|p| - 1] == s;
    var q := p + [t];
    assert IsOpenPath(n, open, q);
  }

  lemma DrainExtends(n: int, open: set<Site>, s: Site, t: Site)
    requires DrainsToBottom(n, open, s) && t in open && InGrid(n, t) && Adjacent(t, s)
    ensures DrainsToBottom(n, open, t)
  {
    var p: seq<Site> :| IsOpenPath(n, open, p) && p[0] == s && p[|p| - 1].0 == n;
    var q := [t] + p;
    assert IsOpenPath(n, open, q) by {
      forall k | 0 <= k < |q| - 1
        ensures Adjacent(q[k], q[k + 1])
      {
        if k > 0 {
          assert q[k] == p[k - 1] && q[k + 1] == p[k];
        }
      }
    }
  }

  /** One union step keeps a walk from the virtual top on the top side. */
  lemma TopSideStep(n: int, open: set<Site>, E: set<Link>, u: int, u': int)
    requires n >= 1 && Sound(n, open, E)
    requires TopSide(n, open, u) && Linked(E, u, u')
    ensures TopSide(n, open, u')
  {
    var e := if (u, u') in E then (u, u') else (u', u);
    assert e in E;
    if TopLink(n, e.0, e.1) {
      if u == 0 && 1 <= u' <= n {
        FirstRow(n, u');
        if SiteOf(n, u') in open {
          FullFromTopRow(n, open, u');
        }
      }
    } else {
      assert SiteLink(n, open, e.0, e.1);
      EncodeSite(n, u');
      Symmetric(SiteOf(n, u), SiteOf(n, u'));
      FullExtends(n, open, SiteOf(n, u), SiteOf(n, u'));
    }
  }

  /** A walk from the virtual top over sound unions reaches only top-side vertices. */
  lemma ReachTopSide(n: int, open: set<Site>, E: set<Link>, v: int)
    requires n >= 1 && Sound(n, open, E) && Reach(E, 0, v)
    ensures TopSide(n, open, v)
  {
    forall a, b | TopSide(n, open, a) && Linked(E, a, b)
      ensures TopSide(n, open, b)
    {
      TopSideStep(n, open, E, a, b);
    }
    ClosedUnderReach(E, u => TopSide(n, open, u), 0, v);
  }

  /**
   * isFullUF answers fullness exactly: with sound and complete unions, an open
   * site is joined to the virtual top iff an open path leads to it from row 1.
   */
  lemma FullIffReachTop(n: int, open: set<Site>, E: set<Link>, s: Site)
    requires n >= 1 && Sound(n, open, E) && Complete(n, open, E)
    requires InGrid(n, s) && s in open
    ensures Reach(E, 0, Index(n, s)) <==> Full(n, open, s)
  {
    IndexInRange(n, s);
    DecodeIndex(n, s);
    if Reach(E, 0, Index(n, s)) {
      ReachTopSide(n, open, E, Index(n, s));
    }
    if Full(n, open, s) {
      var p: seq<Site> :| IsOpenPath(n, open, p) && p[0].0 == 1 && p[|p| - 1] == s;
      OpenPathIsWalk(n, open, E, p);
    }
  }

  lemma FullAtBottomPercolates(n: int, open: set<Site>, s: Site)
    requires Full(n, open, s) && s.0 == n
    ensures Percolated(n, open)
  {
    var p: seq<Site> :| IsOpenPath(n, open, p) && p[0].0 == 1 && p[|p| - 1] == s;
  }

  lemma LastRowAboveFirst(n: int)
    requires n >= 2
    ensures n * n - n + 1 > n
  {
    assert n * n == (n - 2) * n + 2 * n;
  }

  /** One union step, over the unions including the bottom wiring, keeps a walk reached. */
  lemma ReachedStep(n: int, open: set<Site>, E: set<Link>, u: int, u': int)
    requires n >= 2 && Sound(n, open, E)
    requires Reached(n, open, u) && Linked(E + BottomWiring(n, n), u, u')
    ensures Reached(n, open, u')
  {
    var B := BottomWiring(n, n);
    var e := if (u, u') in E + B then (u, u') else (u', u);
    assert e in E + B;
    if e in E {
      assert Linked(E, u, u');
      if TopSide(n, open, u) {
        TopSideStep(n, open, E, u, u');
      } else if SiteLink(n, open, e.0, e.1) {
        EncodeSite(n, u');
        DrainExtends(n, open, SiteOf(n, u), SiteOf(n, u'));
      }
    } else {
      BottomWiringLinks(n, e.0, e.1);
      LastRowAboveFirst(n);
      LastRow(n, e.0);
      if u == e.0 {
        if TopSide(n, open, u) && SiteOf(n, u) in open {
          FullAtBottomPercolates(n, open, SiteOf(n, u));
        }
      } else if SiteOf(n, u') in open {
        EncodeSite(n, u');
        assert IsOpenPath(n, open, [SiteOf(n, u')]);
      }
    }
  }

  /** Reaching the virtual bottom over sound unions plus the bottom wiring means percolation. */
  lemma ReachBottomPercolates(n: int, open: set<Site>, E: set<Link>)
    requires n >= 2 && Sound(n, open, E)
    requires Reach(E + BottomWiring(n, n), 0, n * n + 1)
    ensures Percolated(n, open)
  {
    var F := E + BottomWiring(n, n);
    forall a, b | Reached(n, open, a) && Linked(F, a, b)
      ensures Reached(n, open, b)
    {
      ReachedStep(n, open, E, a, b);
    }
    ClosedUnderReach(F, u => Reached(n, open, u), 0, n * n + 1);
  }

  /** An open path from row 1 to row n is a walk from the virtual top to the virtual bottom. */
  lemma PercolatesReachBottom(n: int, open: set<Site>, E: set<Link>)
    requires n >= 2 && Complete(n, open, E) && Percolated(n, open)
    ensures Reach(E + BottomWiring(n, n), 0, n * n + 1)
  {
    var F := E + BottomWiring(n, n);
    var p: seq<Site> :| IsOpenPath(n, open, p) && p[0].0 == 1 && p[|p| - 1].0 == n;
    var last := p[|p| - 1];
    var v := Index(n, last);
    OpenPathIsWalk(n, open, E, p);
    assert Reach(E, 0, v) by {
      var w := TopWalk(n, p);
      assert w[|w| - 1] == v;
    }
    ReachMono(E, F, 0, v);
    assert (n - 1) * n == n * n - n;
    BottomWiringLinks(n, v, n * n + 1);
    ReachLink(F, v, n * n + 1);
    ReachTrans(F, 0, v, n * n + 1);
  }

  /**
   * uf answers percolation exactly when n >= 2: over sound and complete unions
   * plus the bottom wiring, the virtual top reaches the virtual bottom iff an
   * open path joins row 1 to row n.
   */
  lemma PercolatedIffReachBottom(n: int, open: set<Site>, E: set<Link>)
    requires n >= 2 && Sound(n, open, E) && Complete(n, open, E)
    ensures Reach(E + BottomWiring(n, n), 0, n * n + 1) <==> Percolated(n, open)
  {
    if Reach(E + BottomWiring(n, n), 0, n * n + 1) {
      ReachBottomPercolates(n, open, E);
    }
    if Percolated(n, open) {
      PercolatesReachBottom(n, open, E);
    }
  }

  /** A 1-by-1 grid percolates exactly when its one site is open. */
  lemma SingleSitePercolated(open: set<Site>)
    ensures Percolated(1, open) <==> (1, 1) in open
  {
    if (1, 1) in open {
      assert IsOpenPath(1, open, [(1, 1)]);
    }
  }

  /**
   * Why a 1-by-1 grid needs its own answer: its only site is wired to both
   * virtual vertices, so they are joined whether the site is open or not.
   */
  lemma SingleSiteWiresThrough()
    ensures Reach(TopWiring(1) + BottomWiring(1, 1), 0, 2)
  {
    var F := TopWiring(1) + BottomWiring(1, 1);
    assert (0, 1) in F;
    assert ToBottom(1, 1) in F;
    assert IsWalk(F, [0, 1, 2]);
  }

  // ---------------------------------------------------------------------------
  // Properties of the specification

  /** Opening more sites never empties a site or stops percolation. */
  lemma FullMonotone(n: int, open: set<Site>, more: set<Site>, s: Site)
    requires open <= more && Full(n, open, s)
    ensures Full(n, more, s)
  {
    var p: seq<Site> :| IsOpenPath(n, open, p) && p[0].0 == 1 && p[|p| - 1] == s;
    assert IsOpenPath(n, more, p);
  }

  lemma PercolatedMonotone(n: int, open: set<Site>, more: set<Site>)
    requires open <= more && Percolated(n, open)
    ensures Percolated(n, more)
  {
    var p: seq<Site> :| IsOpenPath(n, open, p) && p[0].0 == 1 && p[|p| - 1].0 == n;
    assert IsOpenPath(n, more, p);
  }

  /** A full site is open. */
  lemma FullIsOpen(n: int, open: set<Site>, s: Site)
    requires Full(n, open, s)
    ensures s in open && InGrid(n, s)
  {
    var p: seq<Site> :| IsOpenPath(n, open, p) && p[0].0 == 1 && p[|p| - 1] == s;
  }

  /** Opening a whole column fills every site of it and makes the system percolate. */
  lemma OpenColumnFull(n: int, open: set<Site>, c: int)
    requires 1 <= c <= n
    requires forall i :: 1 <= i <= n ==> (i, c) in open
    ensures forall i :: 1 <= i <= n ==> Full(n, open, (i, c))
    ensures Percolated(n, open)
  {
    forall i | 1 <= i <= n
      ensures Full(n, open, (i, c))
    {
      var p := seq(i, k requires 0 <= k < i => (k + 1, c));
      assert IsOpenPath(n, open, p);
    }
    var p := seq(n, k requires 0 <= k < n => (k + 1, c));
    assert IsOpenPath(n, open, p);
  }

  /**
   * With no open site in row 1 nothing is full and nothing percolates; in
   * particular opening only bottom-row sites of an n >= 2 grid fills none of them.
   */
  lemma NothingOpenOnTop(n: int, open: set<Site>)
    requires forall s :: s in open ==> s.0 != 1
    ensures forall s :: !Full(n, open, s)
    ensures !Percolated(n, open)
  {
  }

  /** A full site lies in row 1 or has an open neighbour. */
  lemma FullFromAbove(n: int, open: set<Site>, s: Site)
    requires Full(n, open, s)
    ensures s.0 == 1 || exists t :: Adjacent(t, s) && t in open
  {
    var p: seq<Site> :| IsOpenPath(n, open, p) && p[0].0 == 1 && p[|p| - 1] == s;
    if |p| > 1 {
      var t := p[|p| - 2];
      assert Adjacent(t, s) && t in open;
    }
  }

  /** An open site below row 1 with no open neighbour is not full. */
  lemma IsolatedSiteNotFull(n: int, open: set<Site>, s: Site)
    requires s.0 != 1
    requires forall t :: Adjacent(t, s) ==> t !in open
    ensures !Full(n, open, s)
  {
    if Full(n, open, s) {
      FullFromAbove(n, open, s);
    }
  }

  /** Column 1 open and (3, 3) open in a 3-by-3 grid. */
  function BackwashExample(): set<Site>
  {
    {(1, 1), (2, 1), (3, 1), (3, 3)}
  }

  lemma BackwashExampleLinks(E: set<Link>)
    requires Complete(3, BackwashExample(), E)
    ensures Linked(E, 0, 1) && Linked(E, 1, 4) && Linked(E, 4, 7)
  {
    var open := BackwashExample();
    assert (0, 1) in TopWiring(3);
    NeighboursLinked(3, open, (1, 1), (2, 1));
    assert Index(3, (1, 1)) == 1 && Index(3, (2, 1)) == 4;
    assert SiteLink(3, open, 1, 4);
    NeighboursLinked(3, open, (2, 1), (3, 1));
    assert Index(3, (3, 1)) == 7;
    assert SiteLink(3, open, 4, 7);
  }

  /**
   * Backwash in a single structure: in a 3-by-3 grid with column 1 and site
   * (3, 3) open, a union-find that also holds the bottom wiring joins (3, 3) to
   * the virtual top, yet (3, 3) is not full. This is why fullness is asked of
   * a second structure without the bottom wiring.
   */
  lemma BackwashWithBottomWiring(E: set<Link>)
    requires Complete(3, BackwashExample(), E)
    ensures Reach(E + BottomWiring(3, 3), 0, Index(3, (3, 3)))
    ensures !Full(3, BackwashExample(), (3, 3))
  {
    var F := E + BottomWiring(3, 3);
    BackwashExampleLinks(E);
    assert ToBottom(3, 7) in F && ToBottom(3, 9) in F;
    var w := [0, 1, 4, 7, 10, 9];
    assert IsWalk(F, w);
    IsolatedSiteNotFull(3, BackwashExample(), (3, 3));
  }
}
