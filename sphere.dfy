// The lit sphere: a latitude/longitude grid of (n + 1) x (n + 1) points on
// the unit sphere (n = 16 segments), pushed row by row into flat position,
// normal and texture-coordinate arrays, then drawn as two triangles per
// grid cell, each corner read back from the flat arrays by its point index.
// Positions are the normals halved, so the sphere has radius one half.
// `Math.sin` and `Math.cos` are parameters.

module Sphere {
  import opened Colors
  import opened Vectors
  import opened MatrixMath
  import opened Matrices
  import opened Shading

  /** The polar angle of row `lat`: lat * pi / n. */
  function Theta(n: nat, lat: nat): real
    requires n > 0
  {
    lat as real * Pi / n as real
  }

  /** The azimuth of column `lon`: lon * 2 * pi / n. */
  function Phi(n: nat, lon: nat): real
    requires n > 0
  {
    lon as real * 2.0 * Pi / n as real
  }

  /** The grid point at row `lat`, column `lon` on the unit sphere, y up. */
  function Direction(cos: real -> real, sin: real -> real, n: nat, lat: nat, lon: nat): Vec3
    requires n > 0
  {
    Vec3(cos(Phi(n, lon)) * sin(Theta(n, lat)), cos(Theta(n, lat)), sin(Phi(n, lon)) * sin(Theta(n, lat)))
  }

  /** The texture coordinate of the grid point at (lat, lon): (lon / n, lat / n). */
  function TexCoord(n: nat, lat: nat, lon: nat): (real, real)
    requires n > 0
  {
    (lon as real / n as real, lat as real / n as real)
  }

  /** One grid point as the render loop computes it: its normal and texture coordinate. */
  datatype Vertex = Vertex(normal: Vec3, uv: (real, real))

  function GridVertex(cos: real -> real, sin: real -> real, n: nat, lat: nat, lon: nat): Vertex
    requires n > 0
  {
    Vertex(Direction(cos, sin, n, lat, lon), TexCoord(n, lat, lon))
  }

  /** The first `m` points of row `lat`, in push order. */
  function Row(cos: real -> real, sin: real -> real, n: nat, lat: nat, m: nat): (r: seq<Vertex>)
    requires n > 0
    ensures |r| == m
  {
    if m == 0 then [] else Row(cos, sin, n, lat, m - 1) + [GridVertex(cos, sin, n, lat, m - 1)]
  }

  /** The first `rows` rows of n + 1 points each, in push order. */
  function Grid(cos: real -> real, sin: real -> real, n: nat, rows: nat): (r: seq<Vertex>)
    requires n > 0
    ensures |r| == rows * (n + 1)
  {
    if rows == 0 then [] else Grid(cos, sin, n, rows - 1) + Row(cos, sin, n, rows - 1, n + 1)
  }

  /** The `vertices` array for the points `g`: each normal halved, three numbers per point. */
  function Positions(g: seq<Vertex>): (r: seq<real>)
    ensures |r| == 3 * |g|
  {
    if g == [] then []
    else
      var v := g[|g| - 1].normal;
      Positions(g[..|g| - 1]) + [v.x * 0.5, v.y * 0.5, v.z * 0.5]
  }

  /** The `normals` array for the points `g`. */
  function Normals(g: seq<Vertex>): (r: seq<real>)
    ensures |r| == 3 * |g|
  {
    if g == [] then []
    else
      var v := g[|g| - 1].normal;
      Normals(g[..|g| - 1]) + [v.x, v.y, v.z]
  }

  /** The `uvs` array for the points `g`. */
  function Uvs(g: seq<Vertex>): (r: seq<real>)
    ensures |r| == 2 * |g|
  {
    if g == [] then [] else Uvs(g[..|g| - 1]) + [g[|g| - 1].uv.0, g[|g| - 1].uv.1]
  }

  /** Pushing one point extends each array by that point's numbers. */
  lemma PushVertex(g: seq<Vertex>, v: Vertex)
    ensures Positions(g + [v]) == Positions(g) + [v.normal.x * 0.5, v.normal.y * 0.5, v.normal.z * 0.5]
    ensures Normals(g + [v]) == Normals(g) + [v.normal.x, v.normal.y, v.normal.z]
    ensures Uvs(g + [v]) == Uvs(g) + [v.uv.0, v.uv.1]
  {
    assert (g + [v])[..|g|] == g;
  }

  /** Pushing one more point of the row being built. */
  lemma PushOnto(g: seq<Vertex>, row: seq<Vertex>, v: Vertex)
    ensures Positions(g + (row + [v])) == Positions(g + row) + [v.normal.x * 0.5, v.normal.y * 0.5, v.normal.z * 0.5]
    ensures Normals(g + (row + [v])) == Normals(g + row) + [v.normal.x, v.normal.y, v.normal.z]
    ensures Uvs(g + (row + [v])) == Uvs(g + row) + [v.uv.0, v.uv.1]
  {
    assert g + (row + [v]) == g + row + [v];
    PushVertex(g + row, v);
  }

  /** Point `p` sits at 3p, 3p + 1 and 3p + 2 of the position and normal arrays and at 2p, 2p + 1 of the uv array. */
  lemma {:induction false} ArraysAt(g: seq<Vertex>, p: nat)
    requires p < |g|
    ensures var v := g[p];
      Positions(g)[3 * p] == v.normal.x * 0.5 && Positions(g)[3 * p + 1] == v.normal.y * 0.5 &&
      Positions(g)[3 * p + 2] == v.normal.z * 0.5 &&
      Normals(g)[3 * p] == v.normal.x && Normals(g)[3 * p + 1] == v.normal.y && Normals(g)[3 * p + 2] == v.normal.z &&
      Uvs(g)[2 * p] == v.uv.0 && Uvs(g)[2 * p + 1] == v.uv.1
  {
    var init := g[..|g| - 1];
    if p < |g| - 1 {
      ArraysAt(init, p);
      assert init[p] == g[p];
    }
  }

  lemma MulAtLeast(a: int, w: int)
    requires a >= 1 && w > 0
    ensures a * w >= w
  {
    assert (a - 1) * w >= 0;
  }

  /** Row-major numbering: point (row, col) of a grid `w` wide is number row * w + col, and no other. */
  lemma {:induction false} RowMajor(row: nat, col: nat, w: nat)
    requires col < w
    ensures (row * w + col) / w == row && (row * w + col) % w == col
  {
    var k := row * w + col;
    var q, r := k / w, k % w;
    assert q * w + r == k && 0 <= r < w;
    var d := q - row;
    assert d * w == col - r;
    if d > 0 {
      MulAtLeast(d, w);
    } else if d < 0 {
      MulAtLeast(-d, w);
    }
  }

  /** Row-major numbers of an `rows`-row grid `w` wide stay below rows * w. */
  lemma RowMajorBound(row: nat, col: nat, w: nat, rows: nat)
    requires row < rows && col < w
    ensures row * w + col < rows * w
  {
    MulAtLeast(rows - row, w);
    assert (rows - row) * w == rows * w - row * w;
  }

  /** Triangle `t` of an n-by-n mesh belongs to cell (lat, lon) with t / 2 = lat * n + lon. */
  lemma CellOf(n: nat, t: nat) returns (lat: nat, lon: nat)
    requires n > 0 && t < 2 * (n * n)
    ensures lat < n && lon < n && (t == 2 * (lat * n + lon) || t == 2 * (lat * n + lon) + 1)
  {
    var cell := t / 2;
    lat, lon := cell / n, cell % n;
    if lat >= n {
      MulMonotone(n, lat, n);
    }
  }

  lemma MulMonotone(a: int, b: int, w: nat)
    requires a <= b
    ensures a * w <= b * w
  {
    assert (b - a) * w >= 0;
  }

  /** The point pushed as number lat * (n + 1) + lon is the grid point at (lat, lon). */
  lemma {:induction false} GridAt(cos: real -> real, sin: real -> real, n: nat, rows: nat, lat: nat, lon: nat)
    requires n > 0 && lat < rows && lon <= n
    ensures lat * (n + 1) + lon < |Grid(cos, sin, n, rows)|
    ensures Grid(cos, sin, n, rows)[lat * (n + 1) + lon] == GridVertex(cos, sin, n, lat, lon)
  {
    RowMajorBound(lat, lon, n + 1, rows);
    var before := Grid(cos, sin, n, rows - 1);
    if lat < rows - 1 {
      GridAt(cos, sin, n, rows - 1, lat, lon);
    } else {
      assert |before| == lat * (n + 1);
      RowAt(cos, sin, n, lat, n + 1, lon);
    }
  }

  lemma {:induction false} RowAt(cos: real -> real, sin: real -> real, n: nat, lat: nat, m: nat, lon: nat)
    requires n > 0 && lon < m
    ensures Row(cos, sin, n, lat, m)[lon] == GridVertex(cos, sin, n, lat, lon)
  {
    if lon < m - 1 {
      RowAt(cos, sin, n, lat, m - 1, lon);
    }
  }

  /** One vertex of a drawn triangle: position, normal and texture coordinate. */
  datatype Corner = Corner(position: Vec3, normal: Vec3, uv: (real, real))

  /** One `drawTriangleWithNormals` call. */
  datatype Triangle = Triangle(a: Corner, b: Corner, c: Corner)

  /** A pushed point as a triangle corner: its position is its normal halved. */
  function CornerOf(v: Vertex): Corner {
    Corner(Scale(v.normal, 0.5), v.normal, v.uv)
  }

  /** Every point a cell reads lies in the grid: second + 1 < (n + 1) * (n + 1). */
  lemma CellInGrid(n: nat, lat: nat, lon: nat)
    requires lat < n && lon < n
    ensures (lat + 1) * (n + 1) + lon + 1 < (n + 1) * (n + 1)
  {
    RowMajorBound(lat + 1, lon + 1, n + 1, n + 1);
  }

  /**
   * The first triangle of cell (lat, lon) of the pushed grid `g`: points
   * `first` = lat * (n + 1) + lon, `second` = first + n + 1 (one row down)
   * and first + 1 (one column on).
   */
  function Upper(g: seq<Vertex>, n: nat, lat: nat, lon: nat): Triangle
    requires |g| == (n + 1) * (n + 1) && lat < n && lon < n
  {
    CellInGrid(n, lat, lon);
    var first := lat * (n + 1) + lon;
    var second := first + n + 1;
    Triangle(CornerOf(g[first]), CornerOf(g[second]), CornerOf(g[first + 1]))
  }

  /** The second triangle of cell (lat, lon): second, second + 1 and first + 1. */
  function Lower(g: seq<Vertex>, n: nat, lat: nat, lon: nat): Triangle
    requires |g| == (n + 1) * (n + 1) && lat < n && lon < n
  {
    CellInGrid(n, lat, lon);
    var first := lat * (n + 1) + lon;
    var second := first + n + 1;
    Triangle(CornerOf(g[second]), CornerOf(g[second + 1]), CornerOf(g[first + 1]))
  }

  /** The triangles of the first `m` cells of row `lat`, two per cell. */
  function RowCells(g: seq<Vertex>, n: nat, lat: nat, m: nat): (r: seq<Triangle>)
    requires |g| == (n + 1) * (n + 1) && lat < n && m <= n
    ensures |r| == 2 * m
  {
    if m == 0 then [] else RowCells(g, n, lat, m - 1) + [Upper(g, n, lat, m - 1), Lower(g, n, lat, m - 1)]
  }

  /** The triangles of the first `rows` rows of n cells each. */
  function Mesh(g: seq<Vertex>, n: nat, rows: nat): (r: seq<Triangle>)
    requires |g| == (n + 1) * (n + 1) && rows <= n
    ensures |r| == 2 * (rows * n)
  {
    if rows == 0 then []
    else
      assert (rows - 1) * n + n == rows * n;
      Mesh(g, n, rows - 1) + RowCells(g, n, rows - 1, n)
  }

  lemma {:induction false} RowCellsAt(g: seq<Vertex>, n: nat, lat: nat, m: nat, lon: nat)
    requires |g| == (n + 1) * (n + 1) && lat < n && lon < m <= n
    ensures RowCells(g, n, lat, m)[2 * lon] == Upper(g, n, lat, lon)
    ensures RowCells(g, n, lat, m)[2 * lon + 1] == Lower(g, n, lat, lon)
  {
    if lon < m - 1 {
      RowCellsAt(g, n, lat, m - 1, lon);
    }
  }

  /** Cell (lat, lon) is drawn as triangles 2c and 2c + 1, c = lat * n + lon: row-major order. */
  lemma {:induction false} MeshAt(g: seq<Vertex>, n: nat, rows: nat, lat: nat, lon: nat)
    requires |g| == (n + 1) * (n + 1) && lat < rows <= n && lon < n
    ensures 2 * (lat * n + lon) + 1 < |Mesh(g, n, rows)|
    ensures Mesh(g, n, rows)[2 * (lat * n + lon)] == Upper(g, n, lat, lon)
    ensures Mesh(g, n, rows)[2 * (lat * n + lon) + 1] == Lower(g, n, lat, lon)
  {
    RowMajorBound(lat, lon, n, rows);
    var before := Mesh(g, n, rows - 1);
    if lat < rows - 1 {
      MeshAt(g, n, rows - 1, lat, lon);
    } else {
      RowCellsAt(g, n, lat, n, lon);
      assert 2 * (lat * n + lon) == |before| + 2 * lon;
    }
  }

  /**
   * Whatever the points, the triangles share edges as a mesh should: the
   * two triangles of a cell share its diagonal (second, first + 1); the
   * right side of a cell is the left side of the next cell in its row; the
   * bottom side of a cell is the top side of the cell below it.
   */
  lemma CellsShareEdges(g: seq<Vertex>, n: nat, lat: nat, lon: nat)
    requires |g| == (n + 1) * (n + 1) && lat < n && lon < n
    ensures Upper(g, n, lat, lon).b == Lower(g, n, lat, lon).a && Upper(g, n, lat, lon).c == Lower(g, n, lat, lon).c
    ensures lon + 1 < n ==>
      Upper(g, n, lat, lon).c == Upper(g, n, lat, lon + 1).a && Lower(g, n, lat, lon).b == Upper(g, n, lat, lon + 1).b
    ensures lat + 1 < n ==>
      Upper(g, n, lat, lon).b == Upper(g, n, lat + 1, lon).a && Lower(g, n, lat, lon).b == Upper(g, n, lat + 1, lon).c
  {
    if lat + 1 < n {
      assert (lat + 1) * (n + 1) + lon == lat * (n + 1) + lon + n + 1;
    }
  }

  /** On the sphere's grid, the corner for point number lat * (n + 1) + lon is the grid point at (lat, lon). */
  function CornerAt(cos: real -> real, sin: real -> real, n: nat, lat: nat, lon: nat): Corner
    requires n > 0
  {
    var d := Direction(cos, sin, n, lat, lon);
    Corner(Scale(d, 0.5), d, TexCoord(n, lat, lon))
  }

  /** With sin^2 + cos^2 = 1 at every angle, every grid point is on the unit sphere. */
  lemma OnUnitSphere(cos: real -> real, sin: real -> real, n: nat, lat: nat, lon: nat)
    requires n > 0
    requires forall t :: sin(t) * sin(t) + cos(t) * cos(t) == 1.0
    ensures var d := Direction(cos, sin, n, lat, lon); Dot(d, d) == 1.0
    ensures var h := CornerAt(cos, sin, n, lat, lon).position; Dot(h, h) == 0.25
  {
    var t, f := Theta(n, lat), Phi(n, lon);
    var st, ct, sf, cf := sin(t), cos(t), sin(f), cos(f);
    assert st * st + ct * ct == 1.0 && sf * sf + cf * cf == 1.0;
    var d := Direction(cos, sin, n, lat, lon);
    calc {
      Dot(d, d);
      (cf * st) * (cf * st) + ct * ct + (sf * st) * (sf * st);
      (cf * cf + sf * sf) * (st * st) + ct * ct;
      1.0;
    }
    assert Dot(Scale(d, 0.5), Scale(d, 0.5)) == 0.25 * Dot(d, d);
  }

  /** A corner on the sphere of radius one half, with the unit normal pointing straight out through it. */
  ghost predicate OnSphere(c: Corner) {
    Dot(c.normal, c.normal) == 1.0 && c.position == Scale(c.normal, 0.5) && Dot(c.position, c.position) == 0.25
  }

  /** The pushed point at (lat, lon) is read back as a corner on the sphere. */
  lemma PointOnSphere(cos: real -> real, sin: real -> real, n: nat, lat: nat, lon: nat)
    requires n > 0 && lat <= n && lon <= n
    requires forall t :: sin(t) * sin(t) + cos(t) * cos(t) == 1.0
    ensures lat * (n + 1) + lon < |Grid(cos, sin, n, n + 1)|
    ensures OnSphere(CornerOf(Grid(cos, sin, n, n + 1)[lat * (n + 1) + lon]))
  {
    GridCorner(cos, sin, n, lat, lon);
    OnUnitSphere(cos, sin, n, lat, lon);
  }

  /** Both triangles of cell (lat, lon) have their corners on the sphere. */
  lemma CellOnSphere(cos: real -> real, sin: real -> real, n: nat, lat: nat, lon: nat)
    requires n > 0 && lat < n && lon < n
    requires forall t :: sin(t) * sin(t) + cos(t) * cos(t) == 1.0
    ensures var g := Grid(cos, sin, n, n + 1);
      OnSphere(Upper(g, n, lat, lon).a) && OnSphere(Upper(g, n, lat, lon).b) && OnSphere(Upper(g, n, lat, lon).c) &&
      OnSphere(Lower(g, n, lat, lon).a) && OnSphere(Lower(g, n, lat, lon).b) && OnSphere(Lower(g, n, lat, lon).c)
  {
    PointOnSphere(cos, sin, n, lat, lon);
    PointOnSphere(cos, sin, n, lat + 1, lon);
    PointOnSphere(cos, sin, n, lat, lon + 1);
    PointOnSphere(cos, sin, n, lat + 1, lon + 1);
    assert (lat + 1) * (n + 1) + lon == lat * (n + 1) + lon + n + 1;
  }

  /**
   * Every triangle a render draws has its three corners on the sphere of
   * radius one half, with unit normals pointing straight out through them.
   */
  lemma DrawnCornersOnSphere(cos: real -> real, sin: real -> real, n: nat, t: nat)
    requires n > 0 && t < 2 * (n * n)
    requires forall t :: sin(t) * sin(t) + cos(t) * cos(t) == 1.0
    ensures var tri := Mesh(Grid(cos, sin, n, n + 1), n, n)[t];
      OnSphere(tri.a) && OnSphere(tri.b) && OnSphere(tri.c)
  {
    var g := Grid(cos, sin, n, n + 1);
    var lat, lon := CellOf(n, t);
    MeshAt(g, n, n, lat, lon);
    CellOnSphere(cos, sin, n, lat, lon);
  }

  lemma GridCorner(cos: real -> real, sin: real -> real, n: nat, lat: nat, lon: nat)
    requires n > 0 && lat <= n && lon <= n
    ensures lat * (n + 1) + lon < |Grid(cos, sin, n, n + 1)|
    ensures CornerOf(Grid(cos, sin, n, n + 1)[lat * (n + 1) + lon]) == CornerAt(cos, sin, n, lat, lon)
  {
    GridAt(cos, sin, n, n + 1, lat, lon);
  }

  /** The whole first row is the north pole (0, 1, 0) when sin 0 = 0 and cos 0 = 1. */
  lemma NorthPole(cos: real -> real, sin: real -> real, n: nat, lon: nat)
    requires n > 0
    requires sin(0.0) == 0.0 && cos(0.0) == 1.0
    ensures Direction(cos, sin, n, 0, lon) == Vec3(0.0, 1.0, 0.0)
  {
    assert Theta(n, 0) == 0.0;
  }

  /** The whole last row is the south pole (0, -1, 0) when sin pi = 0 and cos pi = -1. */
  lemma SouthPole(cos: real -> real, sin: real -> real, n: nat, lon: nat)
    requires n > 0
    requires sin(Pi) == 0.0 && cos(Pi) == -1.0
    ensures Direction(cos, sin, n, n, lon) == Vec3(0.0, -1.0, 0.0)
  {
    ProductQuotient(Pi, n as real);
    assert Theta(n, n) == Pi;
  }

  /**
   * The last column repeats the first one where cos and sin repeat after
   * 2 pi: the seam is closed, only the texture coordinate jumps from 1 to 0.
   */
  lemma SeamCloses(cos: real -> real, sin: real -> real, n: nat, lat: nat)
    requires n > 0
    requires cos(2.0 * Pi) == cos(0.0) && sin(2.0 * Pi) == sin(0.0)
    ensures Direction(cos, sin, n, lat, n) == Direction(cos, sin, n, lat, 0)
    ensures TexCoord(n, lat, n).0 == 1.0 && TexCoord(n, lat, 0).0 == 0.0
  {
    ProductQuotient(2.0 * Pi, n as real);
    assert Phi(n, n) == 2.0 * Pi && Phi(n, 0) == 0.0;
  }

  lemma ProductQuotient(a: real, m: real)
    requires m > 0.0
    ensures m * a / m == a
  {
  }

  /** Every texture coordinate of the grid lies in the unit square. */
  lemma TexCoordInUnitSquare(n: nat, lat: nat, lon: nat)
    requires n > 0 && lat <= n && lon <= n
    ensures 0.0 <= TexCoord(n, lat, lon).0 <= 1.0 && 0.0 <= TexCoord(n, lat, lon).1 <= 1.0
  {
    RatioInUnitRange(lon, n);
    RatioInUnitRange(lat, n);
  }

  lemma RatioInUnitRange(a: nat, n: nat)
    requires 0 < n && a <= n
    ensures 0.0 <= a as real / n as real <= 1.0
  {
  }

  /** The uniforms one render sets before its triangles. */
  datatype Uniforms = Uniforms(texture: int, color: Rgba, model: seq<real>, normal: seq<real>)

  /** The grid loop of `render`: n + 1 rows of n + 1 points each, pushed row by row. */
  method BuildGrid(cos: real -> real, sin: real -> real, n: nat) returns (vertices: seq<real>, normals: seq<real>, uvs: seq<real>)
    requires n > 0
    ensures vertices == Positions(Grid(cos, sin, n, n + 1))
    ensures normals == Normals(Grid(cos, sin, n, n + 1))
    ensures uvs == Uvs(Grid(cos, sin, n, n + 1))
  {
    vertices, normals, uvs := [], [], [];
    ghost var pushed: seq<Vertex> := [];
    for lat := 0 to n + 1
      invariant pushed == Grid(cos, sin, n, lat)
      invariant vertices == Positions(pushed) && normals == Normals(pushed) && uvs == Uvs(pushed)
    {
      vertices, normals, uvs := PushRow(cos, sin, n, lat, vertices, normals, uvs, pushed);
      pushed := pushed + Row(cos, sin, n, lat, n + 1);
    }
  }

  /** One pass of the inner loop of `render`: the n + 1 points of row `lat`, pushed in order. */
  method PushRow(cos: real -> real, sin: real -> real, n: nat, lat: nat,
                 vertices: seq<real>, normals: seq<real>, uvs: seq<real>, ghost g: seq<Vertex>)
    returns (vertices': seq<real>, normals': seq<real>, uvs': seq<real>)
    requires n > 0 && vertices == Positions(g) && normals == Normals(g) && uvs == Uvs(g)
    ensures vertices' == Positions(g + Row(cos, sin, n, lat, n + 1))
    ensures normals' == Normals(g + Row(cos, sin, n, lat, n + 1))
    ensures uvs' == Uvs(g + Row(cos, sin, n, lat, n + 1))
  {
    var theta := lat as real * Pi / n as real;
    var sinTheta := sin(theta);
    var cosTheta := cos(theta);
    assert theta == Theta(n, lat);
    vertices', normals', uvs' := vertices, normals, uvs;
    ghost var row: seq<Vertex> := [];
    assert g + row == g;
    for lon := 0 to n + 1
      invariant row == Row(cos, sin, n, lat, lon)
      invariant vertices' == Positions(g + row) && normals' == Normals(g + row) && uvs' == Uvs(g + row)
    {
      var x, y, z, u, w := GridPoint(cos, sin, n, lat, lon, sinTheta, cosTheta);
      ghost var v := Vertex(Vec3(x, y, z), (u, w));
      PushOnto(g, row, v);
      vertices' := vertices' + [x * 0.5, y * 0.5, z * 0.5];
      normals' := normals' + [x, y, z];
      uvs' := uvs' + [u, w];
      row := row + [v];
    }
  }

  /** The body of the inner loop of `render` up to the pushes: the point at (lat, lon) and its texture coordinate. */
  method GridPoint(cos: real -> real, sin: real -> real, n: nat, lat: nat, lon: nat, sinTheta: real, cosTheta: real)
    returns (x: real, y: real, z: real, u: real, w: real)
    requires n > 0 && sinTheta == sin(Theta(n, lat)) && cosTheta == cos(Theta(n, lat))
    ensures Vertex(Vec3(x, y, z), (u, w)) == GridVertex(cos, sin, n, lat, lon)
  {
    var phi := lon as real * 2.0 * Pi / n as real;
    var sinPhi := sin(phi);
    var cosPhi := cos(phi);
    assert phi == Phi(n, lon);
    x := cosPhi * sinTheta;
    y := cosTheta;
    z := sinPhi * sinTheta;
    u, w := lon as real / n as real, lat as real / n as real;
  }

  /** The corner for point `p`, read from the flat arrays at 3p, 3p + 1, 3p + 2 and 2p, 2p + 1. */
  method ReadCorner(vertices: seq<real>, normals: seq<real>, uvs: seq<real>, ghost g: seq<Vertex>, p: nat)
    returns (c: Corner)
    requires p < |g| && vertices == Positions(g) && normals == Normals(g) && uvs == Uvs(g)
    ensures c == CornerOf(g[p])
  {
    ArraysAt(g, p);
    var position := Vec3(vertices[p * 3], vertices[p * 3 + 1], vertices[p * 3 + 2]);
    var normal := Vec3(normals[p * 3], normals[p * 3 + 1], normals[p * 3 + 2]);
    var uv := (uvs[p * 2], uvs[p * 2 + 1]);
    c := Corner(position, normal, uv);
  }

  /** The triangle loop of `render`: two triangles per cell, row by row, corners read from the arrays. */
  method DrawCells(n: nat, vertices: seq<real>, normals: seq<real>, uvs: seq<real>, ghost g: seq<Vertex>)
    returns (tris: seq<Triangle>)
    requires |g| == (n + 1) * (n + 1)
    requires vertices == Positions(g) && normals == Normals(g) && uvs == Uvs(g)
    ensures tris == Mesh(g, n, n)
  {
    tris := [];
    for lat := 0 to n
      invariant tris == Mesh(g, n, lat)
    {
      var row := DrawRow(n, lat, vertices, normals, uvs, g);
      tris := tris + row;
    }
  }

  /** One pass of the inner triangle loop: the n cells of row `lat`, in order. */
  method DrawRow(n: nat, lat: nat, vertices: seq<real>, normals: seq<real>, uvs: seq<real>, ghost g: seq<Vertex>)
    returns (tris: seq<Triangle>)
    requires |g| == (n + 1) * (n + 1) && lat < n
    requires vertices == Positions(g) && normals == Normals(g) && uvs == Uvs(g)
    ensures tris == RowCells(g, n, lat, n)
  {
    tris := [];
    for lon := 0 to n
      invariant tris == RowCells(g, n, lat, lon)
    {
      var first := lat * (n + 1) + lon;
      var second := first + n + 1;
      CellInGrid(n, lat, lon);
      var c1 := ReadCorner(vertices, normals, uvs, g, first);
      var c2 := ReadCorner(vertices, normals, uvs, g, second);
      var c3 := ReadCorner(vertices, normals, uvs, g, first + 1);
      var c4 := ReadCorner(vertices, normals, uvs, g, second + 1);
      tris := tris + [Triangle(c1, c2, c3)];
      tris := tris + [Triangle(c2, c4, c3)];
    }
  }

  class Sphere {
    var color: Rgba
    const matrix: Matrix4
    const normalMatrix: Matrix4
    var textureNum: int
    var segments: nat
    /** `Math.cos` and `Math.sin`. */
    const cos: real -> real
    const sin: real -> real

    ghost predicate Valid()
      reads this, matrix, normalMatrix
    {
      matrix.Valid() && normalMatrix.Valid() && matrix.elements != normalMatrix.elements && segments > 0
    }

    /** White, texture -2, identity matrices, 16 segments. */
    constructor(cos: real -> real, sin: real -> real)
      ensures Valid() && fresh(matrix) && fresh(matrix.elements)
      ensures fresh(normalMatrix) && fresh(normalMatrix.elements)
      ensures color == White && textureNum == -2 && segments == 16
      ensures matrix.elements[..] == Identity() && normalMatrix.elements[..] == Identity()
      ensures this.cos == cos && this.sin == sin
    {
      color := White;
      matrix := new Matrix4();
      normalMatrix := new Matrix4();
      textureNum := -2;
      segments := 16;
      this.cos, this.sin := cos, sin;
    }

    /**
     * `render`: texture, colour and model matrix, the recomputed normal
     * matrix, then 2 n^2 triangles covering the grid, cell by cell.
     */
    method Render() returns (u: Uniforms, tris: seq<Triangle>)
      requires Valid()
      modifies normalMatrix.elements
      ensures Valid() && matrix.elements[..] == old(matrix.elements[..])
      ensures normalMatrix.elements[..] == NextNormal(old(normalMatrix.elements[..]), matrix.elements[..])
      ensures u == Uniforms(textureNum, color, matrix.elements[..], normalMatrix.elements[..])
      ensures tris == Mesh(Grid(cos, sin, segments, segments + 1), segments, segments)
      ensures |tris| == 2 * (segments * segments)
    {
      UpdateNormalMatrix(normalMatrix, matrix);
      u := Uniforms(textureNum, color, matrix.elements[..], normalMatrix.elements[..]);
      var vertices, normals, uvs := BuildGrid(cos, sin, segments);
      tris := DrawCells(segments, vertices, normals, uvs, Grid(cos, sin, segments, segments + 1));
    }
  }
}
