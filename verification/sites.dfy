/**
 * Sites of an n-by-n percolation grid: 1-based (row, column) coordinates,
 * the bounds check every public coordinate operation starts with, and the
 * row-major numbering that turns a site into a union-find vertex.
 *
 * Vertex 0 is the virtual top, vertices 1 .. n*n are the sites and
 * vertex n*n + 1 is the virtual bottom.
 */
module Sites {

  /** A site as (row, column). */
  type Site = (int, int)

  datatype Option<T> = None | Some(value: T)

  /** The answer to a query about a site, or why the site was refused. */
  datatype Result<T> = Ok(value: T) | Err(error: BoundsError)

  /** The two out-of-bounds conditions, reported in this order of precedence. */
  datatype BoundsError = RowOutOfBounds | ColumnOutOfBounds

  predicate InGrid(n: int, s: Site)
  {
    1 <= s.0 <= n && 1 <= s.1 <= n
  }

  /** The bounds check: the row is examined before the column. */
  function CheckBounds(n: int, i: int, j: int): (r: Option<BoundsError>)
    ensures r.None? <==> InGrid(n, (i, j))
    ensures r == Some(RowOutOfBounds) <==> !(1 <= i <= n)
    ensures r == Some(ColumnOutOfBounds) <==> 1 <= i <= n && !(1 <= j <= n)
  {
    if i < 1 || i > n then Some(RowOutOfBounds)
    else if j < 1 || j > n then Some(ColumnOutOfBounds)
    else None
  }

  /** Row-major vertex number of a site. */
  function Index(n: int, s: Site): int
  {
    (s.0 - 1) * n + s.1
  }

  /** The site a vertex number stands for (meaningful for 1 <= v <= n*n). */
  function SiteOf(n: int, v: int): Site
    requires n > 0
  {
    ((v - 1) / n + 1, (v - 1) % n + 1)
  }

  /** Horizontally or vertically neighbouring sites. */
  predicate Adjacent(a: Site, b: Site)
  {
    (a.0 == b.0 && (a.1 == b.1 + 1 || a.1 + 1 == b.1)) ||
    (a.1 == b.1 && (a.0 == b.0 + 1 || a.0 + 1 == b.0))
  }

  lemma DivModUnique(a: int, n: int, q: int, r: int)
    requires n > 0 && 0 <= r < n && a == q * n + r
    ensures a / n == q && a % n == r
  {
    var q0, r0 := a / n, a % n;
    assert (q - q0) * n == r0 - r;
    if q > q0 {
      MulAtLeast(q - q0, n);
    } else if q < q0 {
      MulAtLeast(q0 - q, n);
    }
  }

  lemma MulAtLeast(d: int, n: int)
    requires d >= 1 && n >= 0
    ensures d * n >= n
  {
    assert d * n == (d - 1) * n + n;
  }

  /** Every site of the grid gets a number in [1, n*n]. */
  lemma IndexInRange(n: int, s: Site)
    requires n >= 1 && InGrid(n, s)
    ensures 1 <= Index(n, s) <= n * n
  {
    assert 0 <= (s.0 - 1) * n <= (n - 1) * n;
  }

  /** Decoding the number of a site gives the site back. */
  lemma DecodeIndex(n: int, s: Site)
    requires n >= 1 && InGrid(n, s)
    ensures SiteOf(n, Index(n, s)) == s
  {
    DivModUnique(Index(n, s) - 1, n, s.0 - 1, s.1 - 1);
  }

  /** Every number in [1, n*n] is the number of exactly the site it decodes to. */
  lemma EncodeSite(n: int, v: int)
    requires n >= 1 && 1 <= v <= n * n
    ensures InGrid(n, SiteOf(n, v)) && Index(n, SiteOf(n, v)) == v
  {
    var q, r := (v - 1) / n, (v - 1) % n;
    assert v - 1 == q * n + r && 0 <= r < n;
    if q >= n {
      assert (q - n + 1) * n == q * n - n * n + n;
      MulAtLeast(q - n + 1, n);
    }
  }

  /**
   * The numbering maps [1, n] x [1, n] one-to-one onto [1, n*n], leaving 0 and
   * n*n + 1 free for the two virtual vertices.
   */
  lemma IndexBijection(n: int, s: Site, t: Site)
    requires n >= 1 && InGrid(n, s) && InGrid(n, t)
    ensures 1 <= Index(n, s) <= n * n
    ensures Index(n, s) == Index(n, t) <==> s == t
  {
    IndexInRange(n, s);
    DecodeIndex(n, s);
    DecodeIndex(n, t);
  }

  /** The first row is numbered 1 .. n. */
  lemma FirstRow(n: int, v: int)
    requires 1 <= v <= n
    ensures SiteOf(n, v) == (1, v) && Index(n, (1, v)) == v
  {
    DecodeIndex(n, (1, v));
  }

  /** The last row is numbered n*n - n + 1 .. n*n. */
  lemma LastRow(n: int, v: int)
    requires n >= 1 && n * n - n + 1 <= v <= n * n
    ensures SiteOf(n, v) == (n, v - (n * n - n)) && Index(n, (n, v - (n * n - n))) == v
  {
    assert (n - 1) * n == n * n - n;
    DecodeIndex(n, (n, v - (n * n - n)));
  }
}
