/** The constants and lookup tables the chunk reads from its game data:
    chunk dimensions, the iso level, the marching-cubes tables and the
    height oracle. Their concrete contents are not part of this model;
    only their shape is assumed, through ValidGameData. */
module GameTables {

  /** An integer lattice point (a grid coordinate or a cube position). */
  datatype Int3 = Int3(x: int, y: int, z: int) {
    function Add(o: Int3): Int3 {
      Int3(x + o.x, y + o.y, z + o.z)
    }
  }

  /** A mesh vertex. Every vertex the chunk emits is the midpoint of two
      lattice points, so it is held exactly by its doubled coordinates:
      the point (twiceX / 2, twiceY / 2, twiceZ / 2). */
  datatype Vertex = Vertex(twiceX: int, twiceY: int, twiceZ: int)

  /** One cube edge, as the indices of the two corners it joins. */
  type Edge = (int, int)

  /** Number of corners of a cube, and of edges. */
  const Corners := 8
  const Edges := 12

  /** Every triangulation row lists at most five triangles of three edges each. */
  const MaxTriangles := 5
  const MaxEntries := 3 * MaxTriangles

  /** The row entry that ends a triangulation row. */
  const Sentinel := -1

  datatype GameData = GameData(
    chunkWidth: nat,
    chunkHeight: nat,
    terrainSurface: real,
    cornerTable: seq<Int3>,
    edgeIndexes: seq<Edge>,
    triangleTable: seq<seq<int>>,
    terrainHeight: (int, int) -> real)

  /** A corner offset of the unit cube: every coordinate is 0 or 1. */
  predicate IsUnitOffset(o: Int3) {
    0 <= o.x <= 1 && 0 <= o.y <= 1 && 0 <= o.z <= 1
  }

  /** An edge joins two different corners. */
  predicate IsCubeEdge(e: Edge) {
    0 <= e.0 < Corners && 0 <= e.1 < Corners && e.0 != e.1
  }

  /** A triangulation row holds at least MaxEntries entries, each an edge index or the sentinel. */
  predicate IsTriangulationRow(row: seq<int>) {
    |row| >= MaxEntries && forall k :: 0 <= k < |row| ==> Sentinel <= row[k] < Edges
  }

  /** The shape of the tables the chunk relies on. */
  predicate ValidGameData(data: GameData) {
    && |data.cornerTable| == Corners
    && (forall i :: 0 <= i < Corners ==> IsUnitOffset(data.cornerTable[i]))
    && |data.edgeIndexes| == Edges
    && (forall e :: 0 <= e < Edges ==> IsCubeEdge(data.edgeIndexes[e]))
    && |data.triangleTable| == 256
    && (forall c :: 0 <= c < 256 ==> IsTriangulationRow(data.triangleTable[c]))
  }

  /** Game data whose tables have the shape the chunk relies on. */
  type Tables = data: GameData | ValidGameData(data)
    witness GameData(0, 0, 0.0, seq(Corners, i => Int3(0, 0, 0)), seq(Edges, e => (0, 1)),
                     seq(256, c => seq(MaxEntries, k => Sentinel)), (x, z) => 0.0)
}
