/**
 * The percolation grid: an n-by-n grid of sites, each blocked or open, and two
 * union-find structures over the site numbers of module Sites.
 *
 *  - uf holds the sites, the virtual top (0) and the virtual bottom (n*n + 1)
 *    and answers whether the system percolates;
 *  - isFullUF holds the sites and the virtual top only and answers whether a
 *    site is full, without backwash through the virtual bottom.
 *
 * The grid array is (n + 1) by (n + 1) and indexed from 1, like the site
 * coordinates; its row 0 and column 0 are never used.
 */
module Percolation {
  import opened Sites
  import opened DisjointSets
  import opened Flow

  class Percolation {
    const N: int
    const grid: array2<bool>
    const uf: UnionFind
    const isFullUF: UnionFind
    /** The open sites. */
    ghost var Opened: set<Site>

    ghost predicate Shape()
      reads this
    {
      N >= 1 && grid.Length0 == N + 1 && grid.Length1 == N + 1 &&
      uf != isFullUF && uf.id != isFullUF.id &&
      uf.n == N * N + 2 && isFullUF.n == N * N + 1
    }

    /**
     * Everything but completeness: the grid records Opened, the same unions
     * are in both structures except the bottom wiring, which only uf has, and
     * every union is a top wiring or joins two open neighbours.
     */
    ghost predicate Wired()
      reads this, grid, uf, uf.id, isFullUF, isFullUF.id
    {
      Shape() && uf.Valid() && isFullUF.Valid() &&
      (forall i, j :: 1 <= i <= N && 1 <= j <= N ==> (grid[i, j] <==> (i, j) in Opened)) &&
      (forall s :: s in Opened ==> InGrid(N, s)) &&
      uf.Links == isFullUF.Links + BottomWiring(N, N) &&
      Sound(N, Opened, isFullUF.Links)
    }

    /** The object invariant: in addition, every pair of open neighbours is joined. */
    ghost predicate Valid()
      reads this, grid, uf, uf.id, isFullUF, isFullUF.id
    {
      Wired() && Complete(N, Opened, isFullUF.Links)
    }

    /**
     * An n-by-n grid with every site blocked; the top row is wired to the
     * virtual top in both structures, the bottom row to the virtual bottom in
     * uf only.
     */
    constructor (n: int)
      requires n >= 1
      ensures Valid() && N == n && Opened == {}
      ensures forall i, j :: 1 <= i <= n && 1 <= j <= n ==> !grid[i, j]
      ensures isFullUF.Links == TopWiring(n)
      ensures uf.Links == TopWiring(n) + BottomWiring(n, n)
      ensures fresh(grid) && fresh(uf) && fresh(uf.id) && fresh(isFullUF) && fresh(isFullUF.id)
    {
      N := n;
      grid := new bool[n + 1, n + 1]((_, _) => false);
      uf := new UnionFind(1 + n * n + 1);
      isFullUF := new UnionFind(1 + n * n);
      Opened := {};
      new;
      WireTopAndBottom();
      InitialWiring(n);
    }

    /**
     * The loop of the constructor: joins every top-row site to the virtual top
     * in both structures and every bottom-row site to the virtual bottom in uf.
     */
    method WireTopAndBottom()
      requires Shape() && uf.Valid() && isFullUF.Valid()
      requires uf.Links == {} && isFullUF.Links == {}
      modifies uf, uf.id, isFullUF, isFullUF.id
      ensures uf.Valid() && isFullUF.Valid()
      ensures isFullUF.Links == TopWiring(N)
      ensures uf.Links == TopWiring(N) + BottomWiring(N, N)
    {
      var i := 1;
      while i <= N
        invariant 1 <= i <= N + 1
        invariant uf.Valid() && isFullUF.Valid()
        invariant isFullUF.Links == TopWiring(i - 1)
        invariant uf.Links == TopWiring(i - 1) + BottomWiring(N, i - 1)
      {
        WireEnds(i);
        i := i + 1;
      }
    }

    /** One turn of that loop: top-row site i, and site i counted from the end of the bottom row. */
    method WireEnds(i: int)
      requires Shape() && uf.Valid() && isFullUF.Valid() && 1 <= i <= N
      requires isFullUF.Links == TopWiring(i - 1)
      requires uf.Links == TopWiring(i - 1) + BottomWiring(N, i - 1)
      modifies uf, uf.id, isFullUF, isFullUF.id
      ensures uf.Valid() && isFullUF.Valid()
      ensures isFullUF.Links == TopWiring(i)
      ensures uf.Links == TopWiring(i) + BottomWiring(N, i)
    {
      Union(0, i);
      ghost var top := isFullUF.Links;
      uf.Union(N * N - i + 1, N * N + 1);
      WiringStep(N, i, top, uf.Links);
    }

    /** The same union, applied to both structures. */
    method Union(p: int, q: int)
      requires Shape() && uf.Valid() && isFullUF.Valid()
      requires 0 <= p <= N * N && 0 <= q <= N * N
      modifies uf, uf.id, isFullUF, isFullUF.id
      ensures uf.Valid() && isFullUF.Valid()
      ensures uf.Links == old(uf.Links) + {(p, q)}
      ensures isFullUF.Links == old(isFullUF.Links) + {(p, q)}
    {
      uf.Union(p, q);
      isFullUF.Union(p, q);
    }

    /**
     * Opens site (i, j) if it is in the grid and not open yet, then joins it
     * to each open neighbour. Out-of-bounds coordinates change nothing.
     */
    method Open(i: int, j: int) returns (err: Option<BoundsError>)
      requires Valid()
      modifies this, grid, uf, uf.id, isFullUF, isFullUF.id
      ensures Valid()
      ensures err == CheckBounds(N, i, j)
      ensures err.Some? || (i, j) in old(Opened) ==> unchanged(this, grid, uf, uf.id, isFullUF, isFullUF.id)
      ensures Opened == if err.None? then old(Opened) + {(i, j)} else old(Opened)
      ensures forall a, b :: 0 <= a <= N && 0 <= b <= N ==>
                grid[a, b] == (old(grid[a, b]) || (err.None? && (a, b) == (i, j)))
      ensures err.None? && (i, j) !in old(Opened) ==>
                isFullUF.Links == old(isFullUF.Links) + Joins(N, Opened, i, j) &&
                uf.Links == old(uf.Links) + Joins(N, Opened, i, j)
      ensures uf.Links - old(uf.Links) == isFullUF.Links - old(isFullUF.Links)
      ensures forall e :: e in isFullUF.Links - old(isFullUF.Links) ==>
                e.0 == Index(N, (i, j)) && SiteLink(N, Opened, e.0, e.1)
    {
      err := CheckBounds(N, i, j);
      if err.Some? {
        return;
      }
      if grid[i, j] {
        return;
      }
      ghost var before := Opened;
      MarkOpen(i, j);
      JoinNeighbours(i, j, before);
    }

    /** Records site (i, j), blocked so far, as open in the grid and in Opened. */
    method MarkOpen(i: int, j: int)
      requires Valid() && InGrid(N, (i, j)) && (i, j) !in Opened
      modifies this, grid
      ensures Wired() && Complete(N, old(Opened), isFullUF.Links)
      ensures Opened == old(Opened) + {(i, j)}
      ensures forall a, b :: 0 <= a <= N && 0 <= b <= N ==>
                grid[a, b] == (old(grid[a, b]) || (a, b) == (i, j))
      ensures unchanged(uf, uf.id, isFullUF, isFullUF.id)
    {
      grid[i, j] := true;
      SoundAfterOpen(N, Opened, isFullUF.Links, (i, j));
      Opened := Opened + {(i, j)};
    }

    /**
     * The unions of a newly opened site (i, j): with each of its four
     * neighbours that is open, which restores completeness.
     */
    method JoinNeighbours(i: int, j: int, ghost before: set<Site>)
      requires Wired() && InGrid(N, (i, j)) && Opened == before + {(i, j)}
      requires Complete(N, before, isFullUF.Links)
      modifies uf, uf.id, isFullUF, isFullUF.id
      ensures Valid()
      ensures isFullUF.Links == old(isFullUF.Links) + Joins(N, Opened, i, j)
      ensures uf.Links == old(uf.Links) + Joins(N, Opened, i, j)
      ensures uf.Links - old(uf.Links) == isFullUF.Links - old(isFullUF.Links)
      ensures forall e :: e in isFullUF.Links - old(isFullUF.Links) ==>
                e.0 == Index(N, (i, j)) && SiteLink(N, Opened, e.0, e.1)
    {
      ghost var links0 := isFullUF.Links;
      ConnectTop(i, j);
      ghost var links1 := isFullUF.Links;
      ConnectBottom(i, j);
      ghost var links2 := isFullUF.Links;
      ConnectLeft(i, j);
      ghost var links3 := isFullUF.Links;
      ConnectRight(i, j);
      JoinsInTurn(N, Opened, i, j, links0, links1, links2, links3, isFullUF.Links);
      JoinsComplete(N, before, links0, i, j);
      AddedBeside(links0, isFullUF.Links, BottomWiring(N, N), Joins(N, Opened, i, j));
      SameNewLinks(N, links0, isFullUF.Links);
    }

    method ConnectRight(i: int, j: int)
      requires Wired() && InGrid(N, (i, j)) && (i, j) in Opened
      modifies uf, uf.id, isFullUF, isFullUF.id
      ensures Wired()
      ensures isFullUF.Links == old(isFullUF.Links) + JoinIfOpen(N, Opened, (i, j), (i, j + 1))
    {
      if j == N {
        return;
      }
      if grid[i, j + 1] {
        var index := Index(N, (i, j));
        var target := Index(N, (i, j + 1));
        NeighboursLinked(N, Opened, (i, j), (i, j + 1));
        Union(index, target);
      }
    }

    method ConnectLeft(i: int, j: int)
      requires Wired() && InGrid(N, (i, j)) && (i, j) in Opened
      modifies uf, uf.id, isFullUF, isFullUF.id
      ensures Wired()
      ensures isFullUF.Links == old(isFullUF.Links) + JoinIfOpen(N, Opened, (i, j), (i, j - 1))
    {
      if j == 1 {
        return;
      }
      if grid[i, j - 1] {
        var index := Index(N, (i, j));
        var target := Index(N, (i, j - 1));
        NeighboursLinked(N, Opened, (i, j), (i, j - 1));
        Union(index, target);
      }
    }

    method ConnectBottom(i: int, j: int)
      requires Wired() && InGrid(N, (i, j)) && (i, j) in Opened
      modifies uf, uf.id, isFullUF, isFullUF.id
      ensures Wired()
      ensures isFullUF.Links == old(isFullUF.Links) + JoinIfOpen(N, Opened, (i, j), (i + 1, j))
    {
      if i == N {
        return;
      }
      if grid[i + 1, j] {
        var index := Index(N, (i, j));
        var target := Index(N, (i + 1, j));
        NeighboursLinked(N, Opened, (i, j), (i + 1, j));
        Union(index, target);
      }
    }

    method ConnectTop(i: int, j: int)
      requires Wired() && InGrid(N, (i, j)) && (i, j) in Opened
      modifies uf, uf.id, isFullUF, isFullUF.id
      ensures Wired()
      ensures isFullUF.Links == old(isFullUF.Links) + JoinIfOpen(N, Opened, (i, j), (i - 1, j))
    {
      if i == 1 {
        return;
      }
      if grid[i - 1, j] {
        var index := Index(N, (i, j));
        var target := Index(N, (i - 1, j));
        NeighboursLinked(N, Opened, (i, j), (i - 1, j));
        Union(index, target);
      }
    }

    /** Whether site (i, j) is open. */
    method IsOpen(i: int, j: int) returns (r: Result<bool>)
      requires Valid()
      ensures r.Err? <==> !InGrid(N, (i, j))
      ensures r.Err? ==> CheckBounds(N, i, j) == Some(r.error)
      ensures r.Ok? ==> (r.value <==> (i, j) in Opened)
    {
      var err := CheckBounds(N, i, j);
      if err.Some? {
        return Err(err.value);
      }
      return Ok(grid[i, j]);
    }

    /**
     * Whether site (i, j) is full: open and joined to the virtual top in
     * isFullUF, which is the same as reachable from row 1 along open sites.
     */
    method IsFull(i: int, j: int) returns (r: Result<bool>)
      requires Valid()
      ensures r.Err? <==> !InGrid(N, (i, j))
      ensures r.Err? ==> CheckBounds(N, i, j) == Some(r.error)
      ensures r.Ok? ==> (r.value <==> Full(N, Opened, (i, j)))
      ensures r.Ok? && r.value ==> (i, j) in Opened
    {
      var open := IsOpen(i, j);
      if open.Err? {
        return Err(open.error);
      }
      if !open.value {
        if Full(N, Opened, (i, j)) {
          FullIsOpen(N, Opened, (i, j));
        }
        return Ok(false);
      }
      var site := Index(N, (i, j));
      IndexInRange(N, (i, j));
      var full := isFullUF.Connected(0, site);
      FullIffReachTop(N, Opened, isFullUF.Links, (i, j));
      return Ok(full);
    }

    /** Whether an open path joins the top row to the bottom row. */
    method Percolates() returns (b: bool)
      requires Valid()
      ensures b <==> Percolated(N, Opened)
    {
      if N == 1 {
        var open := IsOpen(1, 1);
        SingleSitePercolated(Opened);
        return open.value;
      }
      b := uf.Connected(0, N * N + 1);
      PercolatedIffReachBottom(N, Opened, isFullUF.Links);
    }
  }
}
