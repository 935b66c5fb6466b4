/** The marching-cubes case analysis of one chunk, as functions of a density
    grid value: how corners are sampled, how the configuration index is
    formed, which edge entries a triangulation row yields and which vertices
    a cube, a row of cubes, a layer and the whole chunk emit, in the order
    the chunk's loops visit them. */
module MarchingCubes {
  import opened GameTables
  import opened Bits

  /** Densities indexed [x][y][z]. */
  type Grid = seq<seq<seq<real>>>

  /** A grid of (w+1) x (h+1) x (w+1) sample points. */
  predicate GridShape(g: Grid, w: nat, h: nat) {
    && |g| == w + 1
    && (forall x :: 0 <= x < |g| ==> |g[x]| == h + 1)
    && (forall x, y :: 0 <= x < |g| && 0 <= y < |g[x]| ==> |g[x][y]| == w + 1)
  }

  /** A sample point of a (w+1) x (h+1) x (w+1) grid. */
  predicate InGrid(p: Int3, w: nat, h: nat) {
    0 <= p.x <= w && 0 <= p.y <= h && 0 <= p.z <= w
  }

  /** The minimum corner of one of the w x h x w unit cubes. */
  predicate InCubeRange(p: Int3, w: nat, h: nat) {
    0 <= p.x < w && 0 <= p.y < h && 0 <= p.z < w
  }

  /** v lies in the box [lo, hi] coordinate by coordinate. */
  predicate InBox(v: Vertex, lo: Int3, hi: Int3) {
    && 2 * lo.x <= v.twiceX <= 2 * hi.x
    && 2 * lo.y <= v.twiceY <= 2 * hi.y
    && 2 * lo.z <= v.twiceZ <= 2 * hi.z
  }

  /** Every vertex of vs lies in the box [lo, hi]. */
  predicate AllInBox(vs: seq<Vertex>, lo: Int3, hi: Int3) {
    forall k :: 0 <= k < |vs| ==> InBox(vs[k], lo, hi)
  }

  /** Two buffers inside boxes that both lie in [lo, hi] concatenate to a buffer inside [lo, hi]. */
  lemma AllInBoxConcat(a: seq<Vertex>, loA: Int3, hiA: Int3, b: seq<Vertex>, loB: Int3, hiB: Int3, lo: Int3, hi: Int3)
    requires AllInBox(a, loA, hiA) && AllInBox(b, loB, hiB)
    requires lo.x <= loA.x && lo.y <= loA.y && lo.z <= loA.z && hiA.x <= hi.x && hiA.y <= hi.y && hiA.z <= hi.z
    requires lo.x <= loB.x && lo.y <= loB.y && lo.z <= loB.z && hiB.x <= hi.x && hiB.y <= hi.y && hiB.z <= hi.z
    ensures AllInBox(a + b, lo, hi)
  {
  }

  /** The density the chunk stores at grid point (x, y, z) when it samples
      the height oracle: the point's height above the terrain there. */
  function Density(data: Tables, origin: Int3, x: int, y: int, z: int): real {
    y as real - data.terrainHeight(x + origin.x, z + origin.z)
  }

  function Sample(g: Grid, p: Int3): real
    requires 0 <= p.x < |g| && 0 <= p.y < |g[p.x]| && 0 <= p.z < |g[p.x][p.y]|
  {
    g[p.x][p.y][p.z]
  }

  /** The grid with the one sample at p replaced by v. */
  function GridSet(g: Grid, p: Int3, v: real): (r: Grid)
    requires 0 <= p.x < |g| && 0 <= p.y < |g[p.x]| && 0 <= p.z < |g[p.x][p.y]|
    ensures |r| == |g|
    ensures forall x :: 0 <= x < |g| ==> |r[x]| == |g[x]|
    ensures forall x, y :: 0 <= x < |g| && 0 <= y < |g[x]| ==> |r[x][y]| == |g[x][y]|
    ensures forall x, y, z :: 0 <= x < |g| && 0 <= y < |g[x]| && 0 <= z < |g[x][y]| ==>
              r[x][y][z] == if Int3(x, y, z) == p then v else g[x][y][z]
  {
    g[p.x := g[p.x][p.y := g[p.x][p.y][p.z := v]]]
  }

  /** Two grids of the same shape that agree at every sample are equal. */
  lemma GridExt(a: Grid, b: Grid)
    requires |a| == |b|
    requires forall x :: 0 <= x < |a| ==> |a[x]| == |b[x]|
    requires forall x, y :: 0 <= x < |a| && 0 <= y < |a[x]| ==> |a[x][y]| == |b[x][y]|
    requires forall x, y, z :: 0 <= x < |a| && 0 <= y < |a[x]| && 0 <= z < |a[x][y]| ==> a[x][y][z] == b[x][y][z]
    ensures a == b
  {
    forall x | 0 <= x < |a| ensures a[x] == b[x] {
      forall y | 0 <= y < |a[x]| ensures a[x][y] == b[x][y] {
        assert a[x][y] == b[x][y];
      }
    }
  }

  /** Writing the same value to the same sample twice gives the grid it gives once. */
  lemma GridSetIdempotent(g: Grid, p: Int3, v: real)
    requires 0 <= p.x < |g| && 0 <= p.y < |g[p.x]| && 0 <= p.z < |g[p.x][p.y]|
    ensures GridSet(GridSet(g, p, v), p, v) == GridSet(g, p, v)
  {
    GridExt(GridSet(GridSet(g, p, v), p, v), GridSet(g, p, v));
  }

  // ----- configuration index -----

  /** The configuration index of cube[k..], in Horner form: bit 0 is corner k. */
  function ConfigFrom(cube: seq<real>, surface: real, k: nat): (r: nat)
    requires k <= |cube|
    decreases |cube| - k
  {
    if k == |cube| then 0
    else (if cube[k] > surface then 1 else 0) + 2 * ConfigFrom(cube, surface, k + 1)
  }

  /** The index of cube[k..] fits in |cube| - k bits. */
  lemma {:induction false} ConfigFromBound(cube: seq<real>, surface: real, k: nat)
    requires k <= |cube|
    ensures ConfigFrom(cube, surface, k) < Pow2(|cube| - k)
    decreases |cube| - k
  {
    if k < |cube| {
      ConfigFromBound(cube, surface, k + 1);
    }
  }

  /** Bit i - k of the index of cube[k..] is set exactly when corner i is above the iso level. */
  lemma {:induction false} ConfigFromBits(cube: seq<real>, surface: real, k: nat)
    requires k <= |cube|
    ensures forall i :: k <= i < |cube| ==> (BitSet(ConfigFrom(cube, surface, k), i - k) <==> cube[i] > surface)
    decreases |cube| - k
  {
    if k < |cube| {
      var rest := ConfigFrom(cube, surface, k + 1);
      ConfigFromBits(cube, surface, k + 1);
      assert ConfigFrom(cube, surface, k) / 2 == rest;
    }
  }

  /** The configuration index of a cube's eight corner samples: bit i is set
      exactly when corner i lies above the iso level. */
  function Configuration(cube: seq<real>, surface: real): (r: nat)
    requires |cube| == Corners
    ensures r < 256
  {
    ConfigFromBound(cube, surface, 0);
    Pow2Eight();
    ConfigFrom(cube, surface, 0)
  }

  /** Bit i of a cube's configuration index is set exactly when corner i is above the iso level. */
  lemma ConfigurationBits(cube: seq<real>, surface: real)
    requires |cube| == Corners
    ensures forall i :: 0 <= i < Corners ==> (BitSet(Configuration(cube, surface), i) <==> cube[i] > surface)
  {
    ConfigFromBits(cube, surface, 0);
  }

  /** A cube with corner i alone above the iso level has index 2^i, that is 1 << i:
      corner 2 alone gives 4. */
  lemma SingleCornerIndex(cube: seq<real>, surface: real, i: nat)
    requires |cube| == Corners && i < Corners
    requires forall j :: 0 <= j < Corners ==> (cube[j] > surface <==> j == i)
    ensures Configuration(cube, surface) == Pow2(i)
  {
    var c := Configuration(cube, surface);
    ConfigurationBits(cube, surface);
    Pow2Eight();
    Pow2Below(i, 8);
    forall j: nat | j < 8 ensures BitSet(c, j) <==> BitSet(Pow2(i), j) {
      HighBitsClear(0, 0, j);
      AddClearBit(0, i, j);
    }
    BitsDetermine(c, Pow2(i), 8);
  }

  /** The configuration index is 0 when no corner is above the iso level and 255
      when every corner is. */
  lemma {:induction false} UniformConfiguration(cube: seq<real>, surface: real)
    requires |cube| == Corners
    ensures (forall i :: 0 <= i < Corners ==> cube[i] <= surface) ==> Configuration(cube, surface) == 0
    ensures (forall i :: 0 <= i < Corners ==> cube[i] > surface) ==> Configuration(cube, surface) == 255
  {
    var c := Configuration(cube, surface);
    ConfigurationBits(cube, surface);
    Pow2Eight();
    if forall i :: 0 <= i < Corners ==> cube[i] <= surface {
      forall i: nat | i < 8 ensures BitSet(c, i) <==> BitSet(0, i) {
        HighBitsClear(0, 0, i);
      }
      BitsDetermine(c, 0, 8);
    }
    if forall i :: 0 <= i < Corners ==> cube[i] > surface {
      forall i: nat | i < 8 ensures BitSet(c, i) <==> BitSet(255, i) {
        LowBitsSet(8, i);
      }
      BitsDetermine(c, 255, 8);
    }
  }

  // ----- triangulation rows -----

  /** The position of the first sentinel in row[from..cap], or cap when there is none. */
  function FirstSentinel(row: seq<int>, from: nat, cap: nat): (k: nat)
    requires from <= cap <= |row|
    ensures from <= k <= cap
    decreases cap - from
  {
    if from == cap then cap
    else if row[from] == Sentinel then from
    else FirstSentinel(row, from + 1, cap)
  }

  /** No entry before the first sentinel is the sentinel, and the entry it stops at is. */
  lemma {:induction false} FirstSentinelSpec(row: seq<int>, from: nat, cap: nat)
    requires from <= cap <= |row|
    ensures forall j :: from <= j < FirstSentinel(row, from, cap) ==> row[j] != Sentinel
    ensures FirstSentinel(row, from, cap) < cap ==> row[FirstSentinel(row, from, cap)] == Sentinel
    decreases cap - from
  {
    if from < cap && row[from] != Sentinel {
      FirstSentinelSpec(row, from + 1, cap);
    }
  }

  /** How many edge entries a row yields: those before its first sentinel, at most MaxEntries. */
  function EntryCount(row: seq<int>): (n: nat)
    requires IsTriangulationRow(row)
    ensures n <= MaxEntries
  {
    FirstSentinel(row, 0, MaxEntries)
  }

  /** Every entry before the count is an edge index, and the row holds the sentinel right
      after them unless they fill MaxEntries. */
  lemma EntryCountSpec(row: seq<int>)
    requires IsTriangulationRow(row)
    ensures forall k :: 0 <= k < EntryCount(row) ==> 0 <= row[k] < Edges
    ensures EntryCount(row) < MaxEntries ==> row[EntryCount(row)] == Sentinel
  {
    FirstSentinelSpec(row, 0, MaxEntries);
  }

  /** One entry before the count is an edge index. */
  lemma EntryIsEdge(row: seq<int>, k: nat)
    requires IsTriangulationRow(row) && k < EntryCount(row)
    ensures 0 <= row[k] < Edges
  {
    EntryCountSpec(row);
  }

  /** A row whose first sentinel (within the first MaxEntries entries) sits at a
      multiple of three lists whole triangles. */
  predicate WholeTriangles(row: seq<int>)
    requires IsTriangulationRow(row)
  {
    EntryCount(row) % 3 == 0
  }

  predicate TableOfTriangles(data: Tables)
  {
    forall c :: 0 <= c < 256 ==> WholeTriangles(data.triangleTable[c])
  }

  // ----- vertices -----

  /** (a + b) / 2, held as its doubled coordinates a + b. */
  function Midpoint(a: Int3, b: Int3): Vertex {
    Vertex(a.x + b.x, a.y + b.y, a.z + b.z)
  }

  /** The vertex for edge e of the cube at pos: the midpoint of the edge's two corners. */
  function EdgeVertex(data: Tables, pos: Int3, e: int): (v: Vertex)
    requires 0 <= e < Edges
    ensures InBox(v, pos, pos.Add(Int3(1, 1, 1)))
  {
    var edge := data.edgeIndexes[e];
    var v := Midpoint(pos.Add(data.cornerTable[edge.0]), pos.Add(data.cornerTable[edge.1]));
    assert IsUnitOffset(data.cornerTable[edge.0]) && IsUnitOffset(data.cornerTable[edge.1]);
    v
  }

  /** The vertex of an edge is the midpoint of two different corners of the cube. */
  lemma EdgeVertexIsMidpoint(data: Tables, pos: Int3, e: int)
    requires 0 <= e < Edges
    ensures exists c1, c2 :: 0 <= c1 < Corners && 0 <= c2 < Corners && c1 != c2 &&
              EdgeVertex(data, pos, e) == Midpoint(pos.Add(data.cornerTable[c1]), pos.Add(data.cornerTable[c2]))
  {
    var edge := data.edgeIndexes[e];
    assert IsCubeEdge(edge);
    assert EdgeVertex(data, pos, e) == Midpoint(pos.Add(data.cornerTable[edge.0]), pos.Add(data.cornerTable[edge.1]));
  }

  /** The eight corner samples of the cube at pos, in corner-table order. */
  function CornerSamples(data: Tables, g: Grid, pos: Int3): (cube: seq<real>)
    requires GridShape(g, data.chunkWidth, data.chunkHeight)
    requires InCubeRange(pos, data.chunkWidth, data.chunkHeight)
    ensures |cube| == Corners
  {
    seq(Corners, i requires 0 <= i < Corners =>
      assert IsUnitOffset(data.cornerTable[i]);
      Sample(g, pos.Add(data.cornerTable[i])))
  }

  /** Every corner of a cube in range is a grid point, and sample i is the density at corner i. */
  lemma CornerSamplesAt(data: Tables, g: Grid, pos: Int3)
    requires GridShape(g, data.chunkWidth, data.chunkHeight)
    requires InCubeRange(pos, data.chunkWidth, data.chunkHeight)
    ensures forall i :: 0 <= i < Corners ==>
              InGrid(pos.Add(data.cornerTable[i]), data.chunkWidth, data.chunkHeight) &&
              CornerSamples(data, g, pos)[i] == Sample(g, pos.Add(data.cornerTable[i]))
  {
    forall i | 0 <= i < Corners
      ensures InGrid(pos.Add(data.cornerTable[i]), data.chunkWidth, data.chunkHeight)
    {
      assert IsUnitOffset(data.cornerTable[i]);
    }
  }

  /** The configuration index of the cube at pos. */
  function CubeIndex(data: Tables, g: Grid, pos: Int3): (c: nat)
    requires GridShape(g, data.chunkWidth, data.chunkHeight)
    requires InCubeRange(pos, data.chunkWidth, data.chunkHeight)
    ensures c < 256
  {
    Configuration(CornerSamples(data, g, pos), data.terrainSurface)
  }

  /** Bit i of a cube's configuration index is set exactly when its corner i is above the iso level. */
  lemma CubeIndexBits(data: Tables, g: Grid, pos: Int3)
    requires GridShape(g, data.chunkWidth, data.chunkHeight)
    requires InCubeRange(pos, data.chunkWidth, data.chunkHeight)
    ensures forall i :: 0 <= i < Corners ==>
              (BitSet(CubeIndex(data, g, pos), i) <==> Sample(g, pos.Add(data.cornerTable[i])) > data.terrainSurface)
  {
    CornerSamplesAt(data, g, pos);
    ConfigurationBits(CornerSamples(data, g, pos), data.terrainSurface);
  }

  /** A stretch of the chunk's nested loops, innermost first: the first n entries of the
      triangulation row of configuration c at cube pos; the whole row of c at pos; one cube;
      the first n cubes of the row (x, y); the first n rows of layer x; the first n layers. */
  datatype Span =
    | Entries(pos: Int3, c: nat, n: nat)
    | Triangles(pos: Int3, c: nat)
    | Cube(pos: Int3)
    | Row(x: int, y: int, n: nat)
    | Layer(x: int, n: nat)
    | Prefix(n: nat)

  /** The span lies inside the chunk: an entry walk stays before its row's first sentinel,
      and cubes, rows and layers lie within the chunkWidth x chunkHeight x chunkWidth cubes. */
  predicate SpanInRange(data: Tables, s: Span) {
    var w, h := data.chunkWidth, data.chunkHeight;
    match s
    case Entries(_, c, n) => c < 256 && n <= EntryCount(data.triangleTable[c])
    case Triangles(_, c) => c < 256
    case Cube(pos) => InCubeRange(pos, w, h)
    case Row(x, y, n) => 0 <= x < w && 0 <= y < h && n <= w
    case Layer(x, n) => 0 <= x < w && n <= h
    case Prefix(n) => n <= w
  }

  /** The nesting depth of a span, innermost first. */
  function SpanLevel(s: Span): nat {
    match s
    case Entries(_, _, _) => 0
    case Triangles(_, _) => 1
    case Cube(_) => 2
    case Row(_, _, _) => 3
    case Layer(_, _) => 4
    case Prefix(_) => 5
  }

  /** The vertices a span emits, in loop order. An entry walk emits the midpoint of each
      edge it reads; configuration 0 or 255 (every corner on one side of the iso level)
      emits nothing and any other walks its row up to the first sentinel; a cube emits
      what its own configuration does; rows, layers and prefixes concatenate their parts. */
  function Emitted(data: Tables, g: Grid, s: Span): seq<Vertex>
    requires GridShape(g, data.chunkWidth, data.chunkHeight)
    requires SpanInRange(data, s)
    decreases SpanLevel(s), if s.Triangles? || s.Cube? then 0 else s.n
  {
    match s
    case Entries(pos, c, n) =>
      if n == 0 then []
      else
        EntryIsEdge(data.triangleTable[c], n - 1);
        Emitted(data, g, Entries(pos, c, n - 1)) + [EdgeVertex(data, pos, data.triangleTable[c][n - 1])]
    case Triangles(pos, c) =>
      if c == 0 || c == 255 then []
      else Emitted(data, g, Entries(pos, c, EntryCount(data.triangleTable[c])))
    case Cube(pos) =>
      Emitted(data, g, Triangles(pos, CubeIndex(data, g, pos)))
    case Row(x, y, n) =>
      if n == 0 then [] else Emitted(data, g, Row(x, y, n - 1)) + Emitted(data, g, Cube(Int3(x, y, n - 1)))
    case Layer(x, n) =>
      if n == 0 then [] else Emitted(data, g, Layer(x, n - 1)) + Emitted(data, g, Row(x, n - 1, data.chunkWidth))
    case Prefix(n) =>
      if n == 0 then [] else Emitted(data, g, Prefix(n - 1)) + Emitted(data, g, Layer(n - 1, data.chunkHeight))
  }

  /** An entry walk of n entries emits n vertices. */
  lemma {:induction false} EntriesLength(data: Tables, g: Grid, pos: Int3, c: nat, n: nat)
    requires GridShape(g, data.chunkWidth, data.chunkHeight)
    requires SpanInRange(data, Entries(pos, c, n))
    ensures |Emitted(data, g, Entries(pos, c, n))| == n
  {
    if n > 0 {
      EntriesLength(data, g, pos, c, n - 1);
    }
  }

  /** Entry k of a walk of n entries emits the vertex of the edge the row lists at k. */
  lemma {:induction false} EntryAt(data: Tables, g: Grid, pos: Int3, c: nat, n: nat, k: nat)
    requires GridShape(g, data.chunkWidth, data.chunkHeight)
    requires SpanInRange(data, Entries(pos, c, n)) && k < n
    ensures |Emitted(data, g, Entries(pos, c, n))| == n
    ensures 0 <= data.triangleTable[c][k] < Edges
    ensures Emitted(data, g, Entries(pos, c, n))[k] == EdgeVertex(data, pos, data.triangleTable[c][k])
  {
    EntryIsEdge(data.triangleTable[c], k);
    EntriesLength(data, g, pos, c, n - 1);
    if k < n - 1 {
      EntryAt(data, g, pos, c, n - 1, k);
    }
  }

  /** A walk of n entries emits exactly the vertices of the first n edges its row lists. */
  lemma EntriesAt(data: Tables, g: Grid, pos: Int3, c: nat, n: nat)
    requires GridShape(g, data.chunkWidth, data.chunkHeight)
    requires SpanInRange(data, Entries(pos, c, n))
    ensures |Emitted(data, g, Entries(pos, c, n))| == n
    ensures forall k :: 0 <= k < n ==>
              0 <= data.triangleTable[c][k] < Edges &&
              Emitted(data, g, Entries(pos, c, n))[k] == EdgeVertex(data, pos, data.triangleTable[c][k])
  {
    EntriesLength(data, g, pos, c, n);
    forall k | 0 <= k < n
      ensures 0 <= data.triangleTable[c][k] < Edges
      ensures Emitted(data, g, Entries(pos, c, n))[k] == EdgeVertex(data, pos, data.triangleTable[c][k])
    {
      EntryAt(data, g, pos, c, n, k);
    }
  }

  /** The vertices of a cube's edge entries depend on its position and configuration only,
      not on the samples around it. */
  lemma {:induction false} EntriesIgnoreGrid(data: Tables, g: Grid, g': Grid, pos: Int3, c: nat, n: nat)
    requires GridShape(g, data.chunkWidth, data.chunkHeight)
    requires GridShape(g', data.chunkWidth, data.chunkHeight)
    requires SpanInRange(data, Entries(pos, c, n))
    ensures Emitted(data, g, Entries(pos, c, n)) == Emitted(data, g', Entries(pos, c, n))
  {
    if n > 0 {
      EntriesIgnoreGrid(data, g, g', pos, c, n - 1);
    }
  }

  /** A finished cube extends the row prefix by one cube. */
  lemma RowStep(data: Tables, g: Grid, x: int, y: int, z: nat, done: seq<Vertex>)
    requires GridShape(g, data.chunkWidth, data.chunkHeight)
    requires 0 <= x < data.chunkWidth && 0 <= y < data.chunkHeight && z < data.chunkWidth
    ensures (done + Emitted(data, g, Row(x, y, z))) + Emitted(data, g, Cube(Int3(x, y, z))) ==
            done + Emitted(data, g, Row(x, y, z + 1))
  {
  }

  /** A finished row extends the layer prefix by one row. */
  lemma LayerStep(data: Tables, g: Grid, x: int, y: nat, done: seq<Vertex>)
    requires GridShape(g, data.chunkWidth, data.chunkHeight)
    requires 0 <= x < data.chunkWidth && y < data.chunkHeight
    ensures (done + Emitted(data, g, Layer(x, y))) + Emitted(data, g, Row(x, y, data.chunkWidth)) ==
            done + Emitted(data, g, Layer(x, y + 1))
  {
  }

  /** A finished layer extends the mesh prefix by one layer. */
  lemma MeshStep(data: Tables, g: Grid, x: nat, v0: seq<Vertex>, v1: seq<Vertex>)
    requires GridShape(g, data.chunkWidth, data.chunkHeight)
    requires x < data.chunkWidth
    requires v0 == Emitted(data, g, Prefix(x)) && v1 == v0 + Emitted(data, g, Layer(x, data.chunkHeight))
    ensures v1 == Emitted(data, g, Prefix(x + 1))
  {
  }

  /** The vertex buffer of a full rebuild: every cube's vertices, in loop order. */
  function MeshVertices(data: Tables, g: Grid): seq<Vertex>
    requires GridShape(g, data.chunkWidth, data.chunkHeight)
  {
    Emitted(data, g, Prefix(data.chunkWidth))
  }

  /** The indices start, start + 1, .., start + n - 1. */
  function IndexRun(start: int, n: nat): seq<int> {
    seq(n, k => start + k)
  }

  /** The prefix of s one longer than s[..k] adds s[k]. */
  lemma PrefixSnoc(s: seq<Vertex>, k: nat)
    requires k < |s|
    ensures s[..k + 1] == s[..k] + [s[k]]
  {
  }

  /** A run followed by its next index is the run one longer. */
  lemma IndexRunSnoc(start: int, n: nat)
    ensures IndexRun(start, n) + [start + n] == IndexRun(start, n + 1)
  {
    var run := IndexRun(start, n) + [start + n];
    forall k | 0 <= k < n + 1 ensures run[k] == start + k {
      if k < n {
        assert run[k] == IndexRun(start, n)[k];
      }
    }
  }

  /** Appending the next index to a buffer that ends in a run extends the run. */
  lemma AppendIndex(t: seq<int>, start: int, n: nat)
    ensures (t + IndexRun(start, n)) + [start + n] == t + IndexRun(start, n + 1)
  {
    IndexRunSnoc(start, n);
  }

  /** Two adjacent runs from 0 join into one run. */
  lemma IndexRunConcat(a: nat, b: nat)
    ensures IndexRun(0, a) + IndexRun(a, b) == IndexRun(0, a + b)
  {
    assert forall k :: 0 <= k < a + b ==> (IndexRun(0, a) + IndexRun(a, b))[k] == k;
  }

  // ----- properties -----

  /** The vertices of one cube: none when its configuration is 0 or 255; otherwise one
      per entry before the first sentinel of its row, capped at MaxEntries, each the
      midpoint of the edge that entry names, and whole triangles when the row lists them. */
  lemma CubeEmission(data: Tables, g: Grid, pos: Int3)
    requires GridShape(g, data.chunkWidth, data.chunkHeight)
    requires InCubeRange(pos, data.chunkWidth, data.chunkHeight)
    ensures var c := CubeIndex(data, g, pos);
            var row := data.triangleTable[c];
            var vs := Emitted(data, g, Cube(pos));
            && |vs| <= MaxEntries
            && (c == 0 || c == 255 ==> vs == [])
            && (c != 0 && c != 255 ==>
                  && |vs| == EntryCount(row)
                  && (forall k :: 0 <= k < |vs| ==> row[k] != Sentinel && vs[k] == EdgeVertex(data, pos, row[k]))
                  && (|vs| < MaxEntries ==> row[|vs|] == Sentinel)
                  && (WholeTriangles(row) ==> |vs| % 3 == 0))
  {
    var c := CubeIndex(data, g, pos);
    if c != 0 && c != 255 {
      EntryCountSpec(data.triangleTable[c]);
      EntriesAt(data, g, pos, c, EntryCount(data.triangleTable[c]));
    }
  }

  /** Two counts of whole triangles add up to a count of whole triangles. */
  lemma SumThirds(a: nat, b: nat, c: nat)
    requires a % 3 == 0 && b % 3 == 0 && c == a + b
    ensures c % 3 == 0
  {
    assert c == 3 * (a / 3 + b / 3);
  }

  /** With a table of whole triangles, every cube emits whole triangles. */
  lemma CubeWholeTriangles(data: Tables, g: Grid, pos: Int3)
    requires GridShape(g, data.chunkWidth, data.chunkHeight)
    requires InCubeRange(pos, data.chunkWidth, data.chunkHeight)
    requires TableOfTriangles(data)
    ensures |Emitted(data, g, Cube(pos))| % 3 == 0
  {
    var c := CubeIndex(data, g, pos);
    assert WholeTriangles(data.triangleTable[c]);
    CubeEmission(data, g, pos);
  }

  /** The last cube of a row prefix, split off. */
  lemma RowSplit(data: Tables, g: Grid, x: int, y: int, n: nat)
    requires GridShape(g, data.chunkWidth, data.chunkHeight)
    requires 0 <= x < data.chunkWidth && 0 <= y < data.chunkHeight && 0 < n <= data.chunkWidth
    ensures Emitted(data, g, Row(x, y, n)) == Emitted(data, g, Row(x, y, n - 1)) + Emitted(data, g, Cube(Int3(x, y, n - 1)))
  {
  }

  /** The last row of a layer prefix, split off. */
  lemma LayerSplit(data: Tables, g: Grid, x: int, n: nat)
    requires GridShape(g, data.chunkWidth, data.chunkHeight)
    requires 0 <= x < data.chunkWidth && 0 < n <= data.chunkHeight
    ensures Emitted(data, g, Layer(x, n)) == Emitted(data, g, Layer(x, n - 1)) + Emitted(data, g, Row(x, n - 1, data.chunkWidth))
  {
  }

  /** The last layer of a mesh prefix, split off. */
  lemma PrefixSplit(data: Tables, g: Grid, n: nat)
    requires GridShape(g, data.chunkWidth, data.chunkHeight)
    requires 0 < n <= data.chunkWidth
    ensures Emitted(data, g, Prefix(n)) == Emitted(data, g, Prefix(n - 1)) + Emitted(data, g, Layer(n - 1, data.chunkHeight))
  {
  }

  /** With a table of whole triangles, a row of cubes emits whole triangles. */
  lemma {:induction false} RowWholeTriangles(data: Tables, g: Grid, x: int, y: int, n: nat)
    requires GridShape(g, data.chunkWidth, data.chunkHeight)
    requires 0 <= x < data.chunkWidth && 0 <= y < data.chunkHeight && n <= data.chunkWidth
    requires TableOfTriangles(data)
    ensures |Emitted(data, g, Row(x, y, n))| % 3 == 0
  {
    if n == 0 {
      assert Emitted(data, g, Row(x, y, n)) == [];
    } else {
      var m := n - 1;
      RowWholeTriangles(data, g, x, y, m);
      CubeWholeTriangles(data, g, Int3(x, y, m));
      RowSplit(data, g, x, y, n);
      SumThirds(|Emitted(data, g, Row(x, y, m))|, |Emitted(data, g, Cube(Int3(x, y, m)))|, |Emitted(data, g, Row(x, y, n))|);
    }
  }

  /** With a table of whole triangles, a layer of cubes emits whole triangles. */
  lemma {:induction false} LayerWholeTriangles(data: Tables, g: Grid, x: int, n: nat)
    requires GridShape(g, data.chunkWidth, data.chunkHeight)
    requires 0 <= x < data.chunkWidth && n <= data.chunkHeight
    requires TableOfTriangles(data)
    ensures |Emitted(data, g, Layer(x, n))| % 3 == 0
  {
    if n == 0 {
      assert Emitted(data, g, Layer(x, n)) == [];
    } else {
      var m := n - 1;
      LayerWholeTriangles(data, g, x, m);
      RowWholeTriangles(data, g, x, m, data.chunkWidth);
      LayerSplit(data, g, x, n);
      SumThirds(|Emitted(data, g, Layer(x, m))|, |Emitted(data, g, Row(x, m, data.chunkWidth))|, |Emitted(data, g, Layer(x, n))|);
    }
  }

  /** With a table of whole triangles, every prefix of the mesh holds whole triangles. */
  lemma {:induction false} PrefixWholeTriangles(data: Tables, g: Grid, n: nat)
    requires GridShape(g, data.chunkWidth, data.chunkHeight)
    requires n <= data.chunkWidth
    requires TableOfTriangles(data)
    ensures |Emitted(data, g, Prefix(n))| % 3 == 0
  {
    if n == 0 {
      assert Emitted(data, g, Prefix(n)) == [];
    } else {
      var m := n - 1;
      PrefixWholeTriangles(data, g, m);
      LayerWholeTriangles(data, g, m, data.chunkHeight);
      PrefixSplit(data, g, n);
      SumThirds(|Emitted(data, g, Prefix(m))|, |Emitted(data, g, Layer(m, data.chunkHeight))|, |Emitted(data, g, Prefix(n))|);
    }
  }

  /** With a table of whole triangles, a full rebuild emits whole triangles:
      the vertex count is a multiple of three. */
  lemma MeshWholeTriangles(data: Tables, g: Grid)
    requires GridShape(g, data.chunkWidth, data.chunkHeight)
    requires TableOfTriangles(data)
    ensures |MeshVertices(data, g)| % 3 == 0
  {
    PrefixWholeTriangles(data, g, data.chunkWidth);
  }

  /** The vertices of a cube lie in the cube. */
  lemma CubeInBox(data: Tables, g: Grid, pos: Int3)
    requires GridShape(g, data.chunkWidth, data.chunkHeight)
    requires InCubeRange(pos, data.chunkWidth, data.chunkHeight)
    ensures AllInBox(Emitted(data, g, Cube(pos)), pos, pos.Add(Int3(1, 1, 1)))
  {
    CubeEmission(data, g, pos);
  }

  /** The vertices of a row of cubes lie in the row's box. */
  lemma {:induction false} RowInBox(data: Tables, g: Grid, x: int, y: int, n: nat)
    requires GridShape(g, data.chunkWidth, data.chunkHeight)
    requires 0 <= x < data.chunkWidth && 0 <= y < data.chunkHeight && n <= data.chunkWidth
    ensures AllInBox(Emitted(data, g, Row(x, y, n)), Int3(x, y, 0), Int3(x + 1, y + 1, n))
  {
    if n > 0 {
      RowInBox(data, g, x, y, n - 1);
      RowBoxStep(data, g, x, y, n);
    }
  }

  lemma RowBoxStep(data: Tables, g: Grid, x: int, y: int, n: nat)
    requires GridShape(g, data.chunkWidth, data.chunkHeight)
    requires 0 <= x < data.chunkWidth && 0 <= y < data.chunkHeight && 0 < n <= data.chunkWidth
    requires AllInBox(Emitted(data, g, Row(x, y, n - 1)), Int3(x, y, 0), Int3(x + 1, y + 1, n - 1))
    ensures AllInBox(Emitted(data, g, Row(x, y, n)), Int3(x, y, 0), Int3(x + 1, y + 1, n))
  {
    var q := Int3(x, y, n - 1);
    CubeInBox(data, g, q);
    RowSplit(data, g, x, y, n);
    AllInBoxConcat(Emitted(data, g, Row(x, y, n - 1)), Int3(x, y, 0), Int3(x + 1, y + 1, n - 1),
                   Emitted(data, g, Cube(q)), q, q.Add(Int3(1, 1, 1)), Int3(x, y, 0), Int3(x + 1, y + 1, n));
  }

  /** The vertices of a layer of cubes lie in the layer's slab. */
  lemma {:induction false} LayerInBox(data: Tables, g: Grid, x: int, n: nat)
    requires GridShape(g, data.chunkWidth, data.chunkHeight)
    requires 0 <= x < data.chunkWidth && n <= data.chunkHeight
    ensures AllInBox(Emitted(data, g, Layer(x, n)), Int3(x, 0, 0), Int3(x + 1, n, data.chunkWidth))
  {
    if n > 0 {
      LayerInBox(data, g, x, n - 1);
      RowInBox(data, g, x, n - 1, data.chunkWidth);
      LayerBoxStep(data, g, x, n);
    }
  }

  lemma LayerBoxStep(data: Tables, g: Grid, x: int, n: nat)
    requires GridShape(g, data.chunkWidth, data.chunkHeight)
    requires 0 <= x < data.chunkWidth && 0 < n <= data.chunkHeight
    requires AllInBox(Emitted(data, g, Layer(x, n - 1)), Int3(x, 0, 0), Int3(x + 1, n - 1, data.chunkWidth))
    requires AllInBox(Emitted(data, g, Row(x, n - 1, data.chunkWidth)), Int3(x, n - 1, 0), Int3(x + 1, n, data.chunkWidth))
    ensures AllInBox(Emitted(data, g, Layer(x, n)), Int3(x, 0, 0), Int3(x + 1, n, data.chunkWidth))
  {
    AllInBoxConcat(Emitted(data, g, Layer(x, n - 1)), Int3(x, 0, 0), Int3(x + 1, n - 1, data.chunkWidth),
                   Emitted(data, g, Row(x, n - 1, data.chunkWidth)), Int3(x, n - 1, 0), Int3(x + 1, n, data.chunkWidth),
                   Int3(x, 0, 0), Int3(x + 1, n, data.chunkWidth));
  }

  /** The vertices of the first n layers lie in [0, n] x [0, H] x [0, W]. */
  lemma {:induction false} PrefixInBox(data: Tables, g: Grid, n: nat)
    requires GridShape(g, data.chunkWidth, data.chunkHeight)
    requires n <= data.chunkWidth
    ensures AllInBox(Emitted(data, g, Prefix(n)), Int3(0, 0, 0), Int3(n, data.chunkHeight, data.chunkWidth))
  {
    if n > 0 {
      PrefixInBox(data, g, n - 1);
      LayerInBox(data, g, n - 1, data.chunkHeight);
      PrefixBoxStep(data, g, n);
    }
  }

  lemma PrefixBoxStep(data: Tables, g: Grid, n: nat)
    requires GridShape(g, data.chunkWidth, data.chunkHeight)
    requires 0 < n <= data.chunkWidth
    requires AllInBox(Emitted(data, g, Prefix(n - 1)), Int3(0, 0, 0), Int3(n - 1, data.chunkHeight, data.chunkWidth))
    requires AllInBox(Emitted(data, g, Layer(n - 1, data.chunkHeight)), Int3(n - 1, 0, 0), Int3(n, data.chunkHeight, data.chunkWidth))
    ensures AllInBox(Emitted(data, g, Prefix(n)), Int3(0, 0, 0), Int3(n, data.chunkHeight, data.chunkWidth))
  {
    AllInBoxConcat(Emitted(data, g, Prefix(n - 1)), Int3(0, 0, 0), Int3(n - 1, data.chunkHeight, data.chunkWidth),
                   Emitted(data, g, Layer(n - 1, data.chunkHeight)), Int3(n - 1, 0, 0), Int3(n, data.chunkHeight, data.chunkWidth),
                   Int3(0, 0, 0), Int3(n, data.chunkHeight, data.chunkWidth));
  }

  /** Every vertex of a full rebuild lies inside the chunk. */
  lemma MeshInBox(data: Tables, g: Grid)
    requires GridShape(g, data.chunkWidth, data.chunkHeight)
    ensures AllInBox(MeshVertices(data, g), Int3(0, 0, 0), Int3(data.chunkWidth, data.chunkHeight, data.chunkWidth))
  {
    PrefixInBox(data, g, data.chunkWidth);
  }

  /** The buffers of a full rebuild: the index buffer is as long as the vertex buffer and
      each index names a vertex; with a table of whole triangles the indices form whole triangles. */
  lemma MeshBuffers(data: Tables, g: Grid, vs: seq<Vertex>, ts: seq<int>)
    requires GridShape(g, data.chunkWidth, data.chunkHeight)
    requires vs == MeshVertices(data, g) && ts == IndexRun(0, |vs|)
    ensures |ts| == |vs| && forall k :: 0 <= k < |ts| ==> 0 <= ts[k] < |vs|
    ensures TableOfTriangles(data) ==> |ts| % 3 == 0
  {
    if TableOfTriangles(data) {
      MeshWholeTriangles(data, g);
    }
  }

  /** A cube whose corners all lie on one side of the iso level emits nothing. */
  lemma UniformCubeIsEmpty(data: Tables, g: Grid, pos: Int3)
    requires GridShape(g, data.chunkWidth, data.chunkHeight)
    requires InCubeRange(pos, data.chunkWidth, data.chunkHeight)
    requires || (forall i :: 0 <= i < Corners ==> Sample(g, pos.Add(data.cornerTable[i])) <= data.terrainSurface)
             || (forall i :: 0 <= i < Corners ==> Sample(g, pos.Add(data.cornerTable[i])) > data.terrainSurface)
    ensures Emitted(data, g, Cube(pos)) == []
  {
    CornerSamplesAt(data, g, pos);
    UniformConfiguration(CornerSamples(data, g, pos), data.terrainSurface);
  }

  /** g holds, at every sample point, the density sampled from the height oracle for a chunk at origin. */
  predicate Populated(data: Tables, origin: Int3, g: Grid) {
    && GridShape(g, data.chunkWidth, data.chunkHeight)
    && forall x, y, z :: 0 <= x <= data.chunkWidth && 0 <= y <= data.chunkHeight && 0 <= z <= data.chunkWidth ==>
         g[x][y][z] == Density(data, origin, x, y, z)
  }

  /** Over flat terrain of height hgt, a freshly sampled chunk emits nothing for a cube whose
      top lies at or below the iso surface (hgt + iso level) or whose bottom lies above it. */
  lemma FlatTerrainCubes(data: Tables, origin: Int3, g: Grid, hgt: real, pos: Int3)
    requires Populated(data, origin, g)
    requires InCubeRange(pos, data.chunkWidth, data.chunkHeight)
    requires forall x, z :: data.terrainHeight(x, z) == hgt
    ensures (pos.y + 1) as real <= hgt + data.terrainSurface ==> Emitted(data, g, Cube(pos)) == []
    ensures pos.y as real > hgt + data.terrainSurface ==> Emitted(data, g, Cube(pos)) == []
  {
    forall i | 0 <= i < Corners
      ensures pos.y <= pos.Add(data.cornerTable[i]).y <= pos.y + 1
      ensures Sample(g, pos.Add(data.cornerTable[i])) == pos.Add(data.cornerTable[i]).y as real - hgt
    {
      assert IsUnitOffset(data.cornerTable[i]);
      var p := pos.Add(data.cornerTable[i]);
      assert data.terrainHeight(p.x + origin.x, p.z + origin.z) == hgt;
    }
    if (pos.y + 1) as real <= hgt + data.terrainSurface || pos.y as real > hgt + data.terrainSurface {
      UniformCubeIsEmpty(data, g, pos);
    }
  }

  /** The grid a chunk at origin samples from the height oracle: one density per grid point. */
  function SampledGrid(data: Tables, origin: Int3): (g: Grid)
    ensures Populated(data, origin, g)
  {
    seq(data.chunkWidth + 1, x =>
      seq(data.chunkHeight + 1, y =>
        seq(data.chunkWidth + 1, z => Density(data, origin, x, y, z))))
  }

  /** p is a corner point of the unit cube at q. */
  predicate TouchesCube(p: Int3, q: Int3) {
    q.x <= p.x <= q.x + 1 && q.y <= p.y <= q.y + 1 && q.z <= p.z <= q.z + 1
  }

  /** Editing one sample changes the output of no cube that does not have it as a corner. */
  lemma EditLocality(data: Tables, g: Grid, p: Int3, v: real, q: Int3)
    requires GridShape(g, data.chunkWidth, data.chunkHeight)
    requires InGrid(p, data.chunkWidth, data.chunkHeight)
    requires InCubeRange(q, data.chunkWidth, data.chunkHeight)
    requires !TouchesCube(p, q)
    ensures GridShape(GridSet(g, p, v), data.chunkWidth, data.chunkHeight)
    ensures Emitted(data, GridSet(g, p, v), Cube(q)) == Emitted(data, g, Cube(q))
  {
    var g' := GridSet(g, p, v);
    CornerSamplesAt(data, g, q);
    CornerSamplesAt(data, g', q);
    forall i | 0 <= i < Corners ensures CornerSamples(data, g', q)[i] == CornerSamples(data, g, q)[i] {
      assert IsUnitOffset(data.cornerTable[i]);
    }
    assert CornerSamples(data, g', q) == CornerSamples(data, g, q);
    var c := CubeIndex(data, g, q);
    if c != 0 && c != 255 {
      EntriesIgnoreGrid(data, g, g', q, c, EntryCount(data.triangleTable[c]));
    }
  }

  /** Repeating an edit leaves the grid and the mesh as one edit does. */
  lemma EditIdempotent(data: Tables, g: Grid, p: Int3, v: real)
    requires GridShape(g, data.chunkWidth, data.chunkHeight)
    requires InGrid(p, data.chunkWidth, data.chunkHeight)
    ensures GridShape(GridSet(g, p, v), data.chunkWidth, data.chunkHeight)
    ensures GridSet(GridSet(g, p, v), p, v) == GridSet(g, p, v)
    ensures MeshVertices(data, GridSet(GridSet(g, p, v), p, v)) == MeshVertices(data, GridSet(g, p, v))
  {
    GridSetIdempotent(g, p, v);
  }

}
