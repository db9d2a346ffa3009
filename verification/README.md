# Percolation, verified in Dafny

This project models the `Percolation` class of percolation/src/Percolation.java. The class keeps an N-by-N grid of sites. Each site is blocked or open. A site is *full* when a path of open, 4-adjacent sites leads to it from the top row. The system *percolates* when such a path joins the top row to the bottom row.

The class answers both questions with two union-find structures over the site numbers `(i - 1) * N + j`:

- `uf` also holds a virtual top (vertex 0) and a virtual bottom (vertex `N*N + 1`). The constructor joins every top-row site to the virtual top and every bottom-row site to the virtual bottom. `percolates()` asks whether the two virtual vertices are connected.
- `isFullUF` holds only the virtual top and the sites. `isFull(i, j)` asks it whether a site is connected to the virtual top, so the bottom wiring cannot leak fullness upwards ("backwash").

`open(i, j)` marks a site open. It then makes the same union in both structures between the site and each open neighbour above, below, left and right.

The model has five modules:

- `Sites` (sites.dfy): coordinates, the bounds check, and the site numbering with its inverse.
- `Graph` (graph.dfy): undirected reachability over a set of performed unions.
- `DisjointSets` (union_find.dfy): the union-find structure. It is a class over an `id` array. Its specification says that two vertices are connected exactly when the unions performed so far link them.
- `Flow` (flow.dfy): fullness and percolation, stated on the set of open sites alone, and the lemmas relating them to reachability over the unions.
- `Percolation` (percolation.dfy): the class itself. It has the `grid` array, the two union-find objects, and a ghost set `Opened` of open sites.

The class invariant `Valid()` says four things:

- the grid records `Opened`;
- `uf` holds exactly the unions of `isFullUF` plus the bottom wiring;
- every union in `isFullUF` is a top wiring or joins two open neighbours;
- every pair of open neighbours, and the whole top row, is joined.

From this invariant, `FullIffReachTop` and `PercolatedIffReachBottom` show that the answers of `isFull` and `percolates` are the path-based meanings above.

## Model

| member | source | states |
|---|---|---|
| Sites.CheckBounds | percolation/src/Percolation.java:26-31 | the check passes iff the row and column both lie in [1, N]; a bad row is reported whatever the column, and a bad column only when the row is good |
| Sites.IndexBijection | percolation/src/Percolation.java:33-35 | site numbering maps [1, N] x [1, N] one-to-one into [1, N*N], so 0 and N*N + 1 stay free for the virtual vertices |
| Sites.IndexInRange | percolation/src/Percolation.java:33-35 | every grid site gets a number in [1, N*N] |
| Sites.DecodeIndex | percolation/src/Percolation.java:33-35 | decoding the number of a site gives the site back |
| Sites.EncodeSite | percolation/src/Percolation.java:33-35 | every number in [1, N*N] is the number of an in-grid site |
| Sites.FirstRow | percolation/src/Percolation.java:19-20 | vertices 1 .. N, which the constructor joins to the virtual top, are the sites of row 1 |
| Sites.LastRow | percolation/src/Percolation.java:21-22 | vertices N*N - N + 1 .. N*N, which the constructor joins to the virtual bottom, are the sites of row N |
| DisjointSets.SameBlockIffReach | percolation/src/Percolation.java:134 | under the union-find invariant, two vertices share a component id iff the performed unions link them |
| DisjointSets.MergeKeepsRepresents | percolation/src/Percolation.java:38-39 | relabelling p's component as q's keeps the labelling equal to the partition generated by the unions plus (p, q) |
| DisjointSets.MergeJoinsBlocks | percolation/src/Percolation.java:38-39 | after union(p, q), x and y are connected iff they were before, or one was with p and the other with q |
| DisjointSets.UnionFind.constructor | percolation/src/Percolation.java:16-17 | a new structure of the given size has no unions and every vertex is connected only to itself |
| DisjointSets.UnionFind.Connected | percolation/src/Percolation.java:134 | the answer is true iff the performed unions link p and q |
| DisjointSets.UnionFind.Union | percolation/src/Percolation.java:38-39 | records the union (p, q), merges exactly the blocks of p and q, relabels p's block with q's id, and keeps the invariant |
| Flow.NeighboursLinked | percolation/src/Percolation.java:67-70 | the numbers of two open, adjacent grid sites form a site link, the only kind of union open makes |
| Flow.CompleteAfterOpen | percolation/src/Percolation.java:55-59 | after a site is opened, joining it to each open neighbour makes every pair of open neighbours joined again |
| Flow.JoinsInTurn | percolation/src/Percolation.java:56-59 | the unions of connectTop, connectBottom, connectLeft and connectRight, made one after another, add the four conditional joins |
| Flow.JoinsComplete | percolation/src/Percolation.java:56-59 | those four joins restore completeness, and each joins the new site to an open neighbour |
| Flow.SoundAfterOpen | percolation/src/Percolation.java:55 | opening a site keeps every performed union legitimate |
| Flow.InitialWiring | percolation/src/Percolation.java:18-23 | with every site blocked, the top wiring alone is sound and complete |
| Flow.AddedBeside | percolation/src/Percolation.java:37-40 | a union added to isFullUF is added to uf too, which holds the same unions plus the bottom wiring |
| Flow.SameNewLinks | percolation/src/Percolation.java:37-40 | unions between sites are new in uf exactly when new in isFullUF, since uf differs only by the bottom wiring |
| Flow.TopWiringStep | percolation/src/Percolation.java:20 | one more constructor turn adds the union (0, i) to the top wiring |
| Flow.BottomWiringStep | percolation/src/Percolation.java:22 | one more constructor turn adds the union (N*N - i + 1, N*N + 1) to the bottom wiring |
| Flow.WiringStep | percolation/src/Percolation.java:18-23 | one constructor turn extends both wirings by one site |
| Flow.BottomWiringLinks | percolation/src/Percolation.java:18-23 | the finished bottom wiring holds exactly the unions of row-N sites with the virtual bottom |
| Flow.OpenPathIsWalk | percolation/src/Percolation.java:134 | an open path from row 1, preceded by the virtual top, is a walk over complete unions |
| Flow.ReachTopSide | percolation/src/Percolation.java:134 | over sound unions, anything joined to the virtual top is the virtual top, a top-row site, or a full site |
| Flow.FullIffReachTop | percolation/src/Percolation.java:129-135 | an open site is joined to the virtual top in isFullUF iff it is full |
| Flow.ReachBottomPercolates | percolation/src/Percolation.java:146 | if the virtual top reaches the virtual bottom over sound unions plus the bottom wiring, the system percolates |
| Flow.PercolatesReachBottom | percolation/src/Percolation.java:146 | if the system percolates, the virtual top reaches the virtual bottom over complete unions plus the bottom wiring |
| Flow.PercolatedIffReachBottom | percolation/src/Percolation.java:142-147 | for N >= 2, uf joins the two virtual vertices iff an open path joins row 1 to row N |
| Flow.SingleSitePercolated | percolation/src/Percolation.java:143-144 | a 1-by-1 grid percolates iff its one site is open |
| Flow.SingleSiteWiresThrough | percolation/src/Percolation.java:143-146 | in a 1-by-1 grid the wiring alone joins the two virtual vertices, so uf cannot answer and the N == 1 case is needed |
| Flow.FullMonotone | percolation/src/Percolation.java:55 | opening sites never empties a full site |
| Flow.PercolatedMonotone | percolation/src/Percolation.java:55 | once the system percolates, opening more sites keeps it percolating |
| Flow.FullIsOpen | percolation/src/Percolation.java:130-131 | a full site is an open grid site |
| Flow.FullAtBottomPercolates | percolation/src/Percolation.java:146 | a full site in row N means the system percolates |
| Flow.OpenColumnFull | percolation/src/Percolation.java:129-147 | with a whole column open, every site of it is full and the system percolates |
| Flow.NothingOpenOnTop | percolation/src/Percolation.java:129-147 | with no open site in row 1, no site is full and the system does not percolate |
| Flow.FullFromAbove | percolation/src/Percolation.java:129-135 | a full site is in row 1 or has an open neighbour |
| Flow.IsolatedSiteNotFull | percolation/src/Percolation.java:129-135 | an open site below row 1 with no open neighbour is not full |
| Flow.BackwashWithBottomWiring | percolation/src/Percolation.java:16-17 | in a 3-by-3 grid with column 1 and site (3, 3) open, a structure that also held the bottom wiring would join (3, 3) to the virtual top, although (3, 3) is not full |
| Percolation.Percolation.constructor | percolation/src/Percolation.java:13-24 | all sites are blocked; isFullUF holds exactly the top wiring; uf holds the top and the bottom wiring; the invariant holds |
| Percolation.Percolation.WireTopAndBottom | percolation/src/Percolation.java:18-23 | the constructor loop leaves isFullUF with the top wiring and uf with the top and bottom wiring |
| Percolation.Percolation.WireEnds | percolation/src/Percolation.java:19-22 | turn i of that loop adds (0, i) to both structures and (N*N - i + 1, N*N + 1) to uf only |
| Percolation.Percolation.Union | percolation/src/Percolation.java:37-40 | the same union is added to both structures |
| Percolation.Percolation.Open | percolation/src/Percolation.java:50-60 | reports the bounds error without changing anything; on an open site changes nothing; otherwise sets exactly grid[i, j] (no other cell, row 0 and column 0 included) and adds to both structures exactly the unions of (i, j) with its open neighbours above, below, left and right; the invariant holds |
| Percolation.Percolation.MarkOpen | percolation/src/Percolation.java:55 | sets exactly grid[i, j], adds (i, j) to the open sites, leaves both structures unchanged, and keeps every union legitimate |
| Percolation.Percolation.JoinNeighbours | percolation/src/Percolation.java:56-59 | the four connect calls add to both structures exactly the unions of the new site with its open neighbours, each joining it to an open neighbour, and restore the invariant |
| Percolation.Percolation.ConnectRight | percolation/src/Percolation.java:62-72 | adds the union with (i, j + 1) exactly when j < N and that site is open |
| Percolation.Percolation.ConnectLeft | percolation/src/Percolation.java:74-84 | adds the union with (i, j - 1) exactly when j > 1 and that site is open |
| Percolation.Percolation.ConnectBottom | percolation/src/Percolation.java:86-95 | adds the union with (i + 1, j) exactly when i < N and that site is open |
| Percolation.Percolation.ConnectTop | percolation/src/Percolation.java:97-106 | adds the union with (i - 1, j) exactly when i > 1 and that site is open |
| Percolation.Percolation.IsOpen | percolation/src/Percolation.java:117-120 | fails with the bounds error iff (i, j) is outside the grid; otherwise answers whether the site is open |
| Percolation.Percolation.IsFull | percolation/src/Percolation.java:129-135 | fails with the bounds error iff (i, j) is outside the grid; otherwise answers true iff an open path leads to (i, j) from row 1, which implies the site is open |
| Percolation.Percolation.Percolates | percolation/src/Percolation.java:142-147 | answers true iff an open path joins row 1 to row N, for N == 1 as well |

## Left out

- `WeightedQuickUnionUF` is a library class whose source is not part of this model. `DisjointSets.UnionFind` replaces it with a component-id array ("quick-find") that has the same partition contract. Union by size and tree heights only affect running time, so they are not modelled.
- DisjointSets.UnionFind.Union, DisjointSets.UnionFind.Connected: a vertex outside [0, n) is a precondition. The library throws instead, but the percolation class never passes one.
- Percolation.Percolation.constructor: requires N >= 1. The source does not validate N: N == 0 and N == -1 give an empty grid on which every coordinate call fails its bounds check and `percolates()` answers false, and N <= -2 fails when the arrays are allocated. None of these cases is modelled.
- The source computes `N*N` and the site numbers in 32-bit `int`, which overflows for N above 46340. The model uses unbounded integers.
- `IndexOutOfBoundsException` and its message text are not modelled. `Open` returns the error as an `Option`, and `IsOpen` and `IsFull` return a `Result`. The error says whether the row or the column was out of bounds, and the row is checked first, as in the source.
- The connect helpers read `grid` directly where the source calls `isOpen`. Their guards keep the neighbour inside the grid, so the bounds check inside `isOpen` can never fail there.
- Row 0 and column 0 of the (N + 1)-by-(N + 1) grid array are allocated as in the source and never read or written.
- Running time and memory use are not modelled.
