/** One terrain chunk: its density grid, filled from the height oracle and
    changed by point edits, and the vertex and triangle buffers that every
    rebuild clears and refills by marching each cube of the grid. */
module ChunkMesh {
  import opened GameTables
  import opened Bits
  import opened MarchingCubes

  /** The least integer not below r. */
  function Ceil(r: real): (n: int)
    ensures (n - 1) as real < r <= n as real
  {
    -((-r).Floor)
  }

  /** The greatest integer not above r. */
  function Floor(r: real): (n: int)
    ensures n as real <= r < (n + 1) as real
  {
    r.Floor
  }

  /** The grid point PlaceTerrain writes: pos rounded up on every axis. */
  function PlaceCell(pos: (real, real, real)): Int3 {
    Int3(Ceil(pos.0), Ceil(pos.1), Ceil(pos.2))
  }

  /** The grid point RemoveTerrain writes: pos rounded down on every axis. */
  function RemoveCell(pos: (real, real, real)): Int3 {
    Int3(Floor(pos.0), Floor(pos.1), Floor(pos.2))
  }

  /** The density an edit writes: 0 makes a point solid, 1 makes it empty. */
  const SolidDensity := 0.0
  const EmptyDensity := 1.0

  class Chunk {
    const data: Tables
    const chunkPosition: Int3
    const terrainMap: array3<real>
    var vertices: seq<Vertex>
    var triangles: seq<int>
    /** The density grid as a value, indexed [x][y][z]. */
    ghost var grid: Grid

    /** terrainMap has one sample per grid point and grid holds exactly what terrainMap holds. */
    ghost predicate Valid()
      reads this`grid, terrainMap
    {
      && terrainMap.Length0 == data.chunkWidth + 1
      && terrainMap.Length1 == data.chunkHeight + 1
      && terrainMap.Length2 == data.chunkWidth + 1
      && GridShape(grid, data.chunkWidth, data.chunkHeight)
      && forall x, y, z :: 0 <= x <= data.chunkWidth && 0 <= y <= data.chunkHeight && 0 <= z <= data.chunkWidth ==>
           grid[x][y][z] == terrainMap[x, y, z]
    }

    /** The buffers hold exactly what a rebuild of the current grid produces:
        every cube's vertices in loop order, and triangles[k] == k. */
    ghost predicate MeshIsCurrent()
      reads this`grid, this`vertices, this`triangles, terrainMap
      requires Valid()
    {
      vertices == MeshVertices(data, grid) && triangles == IndexRun(0, |vertices|)
    }

    constructor (data: Tables, position: Int3)
      ensures this.data == data && chunkPosition == position
      ensures Valid() && fresh(terrainMap)
      ensures forall x, y, z :: 0 <= x <= data.chunkWidth && 0 <= y <= data.chunkHeight && 0 <= z <= data.chunkWidth ==>
                terrainMap[x, y, z] == Density(data, position, x, y, z)
      ensures Populated(data, position, grid)
      ensures MeshIsCurrent()
    {
      this.data := data;
      chunkPosition := position;
      terrainMap := new real[data.chunkWidth + 1, data.chunkHeight + 1, data.chunkWidth + 1];
      vertices, triangles := [], [];
      new;
      PopulateTerrainMap();
      CreateMeshData();
    }

    /** A full rebuild: clear both buffers, then march every cube, x outer, y middle, z inner. */
    method CreateMeshData()
      requires Valid()
      modifies this`vertices, this`triangles
      ensures MeshIsCurrent()
      ensures |triangles| == |vertices| && forall k :: 0 <= k < |triangles| ==> 0 <= triangles[k] < |vertices|
      ensures TableOfTriangles(data) ==> |triangles| % 3 == 0
    {
      ClearMeshData();
      MarchLayers();
      MeshBuffers(data, grid, vertices, triangles);
    }

    /** The outer loop of a rebuild: march the layers x = 0 .. chunkWidth - 1 into empty buffers. */
    method MarchLayers()
      requires Valid() && vertices == [] && triangles == []
      modifies this`vertices, this`triangles
      ensures MeshIsCurrent()
    {
      ghost var g := grid;
      assert Emitted(data, g, Prefix(0)) == [];
      for x := 0 to data.chunkWidth
        invariant vertices == Emitted(data, g, Prefix(x))
        invariant triangles == IndexRun(0, |vertices|)
      {
        ghost var v0 := vertices;
        MarchLayer(x);
        MeshStep(data, g, x, v0, vertices);
      }
    }

    /** The middle and inner loops of a rebuild: march the cubes with first coordinate x. */
    method MarchLayer(x: int)
      requires Valid() && 0 <= x < data.chunkWidth
      requires triangles == IndexRun(0, |vertices|)
      modifies this`vertices, this`triangles
      ensures vertices == old(vertices) + Emitted(data, grid, Layer(x, data.chunkHeight))
      ensures triangles == IndexRun(0, |vertices|)
    {
      ghost var start := vertices;
      assert Emitted(data, grid, Layer(x, 0)) == [];
      for y := 0 to data.chunkHeight
        invariant vertices == start + Emitted(data, grid, Layer(x, y))
        invariant triangles == IndexRun(0, |vertices|)
      {
        MarchRow(x, y);
        LayerStep(data, grid, x, y, start);
      }
    }

    /** The inner loop of a rebuild: march the cubes (x, y, 0) .. (x, y, chunkWidth - 1). */
    method MarchRow(x: int, y: int)
      requires Valid() && 0 <= x < data.chunkWidth && 0 <= y < data.chunkHeight
      requires triangles == IndexRun(0, |vertices|)
      modifies this`vertices, this`triangles
      ensures vertices == old(vertices) + Emitted(data, grid, Row(x, y, data.chunkWidth))
      ensures triangles == IndexRun(0, |vertices|)
    {
      ghost var start := vertices;
      assert Emitted(data, grid, Row(x, y, 0)) == [];
      for z := 0 to data.chunkWidth
        invariant vertices == start + Emitted(data, grid, Row(x, y, z))
        invariant triangles == IndexRun(0, |vertices|)
      {
        ghost var v0 := vertices;
        MarchCube(Int3(x, y, z));
        RowStep(data, grid, x, y, z, start);
        IndexRunConcat(|v0|, |Emitted(data, grid, Cube(Int3(x, y, z)))|);
      }
    }

    /** Fill every grid point with its height above the terrain. */
    method PopulateTerrainMap()
      requires terrainMap.Length0 == data.chunkWidth + 1 && terrainMap.Length1 == data.chunkHeight + 1
      requires terrainMap.Length2 == data.chunkWidth + 1
      modifies terrainMap, this`grid
      ensures forall x, y, z :: 0 <= x <= data.chunkWidth && 0 <= y <= data.chunkHeight && 0 <= z <= data.chunkWidth ==>
                terrainMap[x, y, z] == Density(data, chunkPosition, x, y, z)
      ensures Valid() && Populated(data, chunkPosition, grid)
    {
      for x := 0 to data.chunkWidth + 1
        invariant forall x', y, z :: 0 <= x' < x && 0 <= y <= data.chunkHeight && 0 <= z <= data.chunkWidth ==>
                    terrainMap[x', y, z] == Density(data, chunkPosition, x', y, z)
      {
        for z := 0 to data.chunkWidth + 1
          invariant forall x', y, z' :: 0 <= x' < x && 0 <= y <= data.chunkHeight && 0 <= z' <= data.chunkWidth ==>
                      terrainMap[x', y, z'] == Density(data, chunkPosition, x', y, z')
          invariant forall y, z' :: 0 <= y <= data.chunkHeight && 0 <= z' < z ==>
                      terrainMap[x, y, z'] == Density(data, chunkPosition, x, y, z')
        {
          for y := 0 to data.chunkHeight + 1
            invariant forall x', y', z' :: 0 <= x' < x && 0 <= y' <= data.chunkHeight && 0 <= z' <= data.chunkWidth ==>
                        terrainMap[x', y', z'] == Density(data, chunkPosition, x', y', z')
            invariant forall y', z' :: 0 <= y' <= data.chunkHeight && 0 <= z' < z ==>
                        terrainMap[x, y', z'] == Density(data, chunkPosition, x, y', z')
            invariant forall y' :: 0 <= y' < y ==>
                        terrainMap[x, y', z] == Density(data, chunkPosition, x, y', z)
          {
            var thisHeight := data.terrainHeight(x + chunkPosition.x, z + chunkPosition.z);
            terrainMap[x, y, z] := y as real - thisHeight;
          }
        }
      }
      grid := SampledGrid(data, chunkPosition);
    }

    /** Append the vertices of the cube at position, and one triangle index per vertex. */
    method MarchCube(position: Int3)
      requires Valid() && InCubeRange(position, data.chunkWidth, data.chunkHeight)
      modifies this`vertices, this`triangles
      ensures vertices == old(vertices) + Emitted(data, grid, Cube(position))
      ensures triangles == old(triangles) + IndexRun(|old(vertices)|, |Emitted(data, grid, Cube(position))|)
    {
      var cube := SampleCube(position);
      var configIndex := GetCubeConfiguration(cube);
      assert configIndex == CubeIndex(data, grid, position);
      if configIndex == 0 || configIndex == 255 {
        return;
      }
      EmitTriangles(position, configIndex);
      EntriesAt(data, grid, position, configIndex, EntryCount(data.triangleTable[configIndex]));
    }

    /** The eight corner samples of the cube at position, in corner-table order. */
    method SampleCube(position: Int3) returns (cube: array<real>)
      requires Valid() && InCubeRange(position, data.chunkWidth, data.chunkHeight)
      ensures fresh(cube) && cube[..] == CornerSamples(data, grid, position)
    {
      ghost var samples := CornerSamples(data, grid, position);
      CornerSamplesAt(data, grid, position);
      cube := new real[Corners];
      for i := 0 to Corners
        modifies cube
        invariant forall j :: 0 <= j < i ==> cube[j] == samples[j]
      {
        cube[i] := SampleTerrain(position.Add(data.cornerTable[i]));
      }
      assert cube[..] == samples;
    }

    /** Walk the triangulation row of configIndex in steps of three entries,
        appending the midpoint of each listed edge of the cube at position and
        its index, until the sentinel or the fifth triangle. */
    method EmitTriangles(position: Int3, configIndex: nat)
      requires Valid() && configIndex < 256
      modifies this`vertices, this`triangles
      ensures vertices == old(vertices) + Emitted(data, grid, Entries(position, configIndex, EntryCount(data.triangleTable[configIndex])))
      ensures triangles == old(triangles) + IndexRun(|old(vertices)|, EntryCount(data.triangleTable[configIndex]))
    {
      ghost var count := EntryCount(data.triangleTable[configIndex]);
      EntryCountSpec(data.triangleTable[configIndex]);
      ghost var emitted := Emitted(data, grid, Entries(position, configIndex, count));
      EntriesLength(data, grid, position, configIndex, count);
      ghost var v0, t0 := vertices, triangles;
      var edgeIndex := 0;
      for i := 0 to MaxTriangles
        invariant edgeIndex == 3 * i && edgeIndex <= count
        invariant vertices == v0 + emitted[..edgeIndex]
        invariant triangles == t0 + IndexRun(|v0|, edgeIndex)
      {
        for p := 0 to 3
          invariant edgeIndex == 3 * i + p && edgeIndex <= count
          invariant vertices == v0 + emitted[..edgeIndex]
          invariant triangles == t0 + IndexRun(|v0|, edgeIndex)
        {
          var indice := data.triangleTable[configIndex][edgeIndex];
          if indice == Sentinel {
            assert edgeIndex == count && emitted[..edgeIndex] == emitted;
            return;
          }
          assert edgeIndex < count;
          var vert1 := position.Add(data.cornerTable[data.edgeIndexes[indice].0]);
          var vert2 := position.Add(data.cornerTable[data.edgeIndexes[indice].1]);
          var vertPosition := Midpoint(vert1, vert2);
          EntryAt(data, grid, position, configIndex, count, edgeIndex);
          PrefixSnoc(emitted, edgeIndex);
          AppendIndex(t0, |v0|, edgeIndex);
          vertices := vertices + [vertPosition];
          triangles := triangles + [|vertices| - 1];
          edgeIndex := edgeIndex + 1;
        }
      }
      assert emitted[..edgeIndex] == emitted;
    }

    /** The configuration index of eight corner samples: bit i is set exactly
        when sample i is above the iso level. */
    method GetCubeConfiguration(cube: array<real>) returns (configurationIndex: nat)
      requires cube.Length == Corners
      ensures configurationIndex < 256
      ensures forall i :: 0 <= i < Corners ==> (BitSet(configurationIndex, i) <==> cube[i] > data.terrainSurface)
      ensures configurationIndex == Configuration(cube[..], data.terrainSurface)
    {
      configurationIndex := 0;
      for i := 0 to Corners
        invariant configurationIndex < Pow2(i)
        invariant forall j :: 0 <= j < i ==> (BitSet(configurationIndex, j) <==> cube[j] > data.terrainSurface)
      {
        HighBitsClear(configurationIndex, i, i);
        if cube[i] > data.terrainSurface {
          configurationIndex := SetBit(configurationIndex, i);
        }
      }
      Pow2Eight();
      ConfigurationBits(cube[..], data.terrainSurface);
      BitsDetermine(configurationIndex, Configuration(cube[..], data.terrainSurface), Corners);
    }

    /** Empty both buffers. */
    method ClearMeshData()
      modifies this`vertices, this`triangles
      ensures vertices == [] && triangles == []
    {
      vertices := [];
      triangles := [];
    }

    /** Make the grid point at pos, rounded up, solid and rebuild. A point outside
        the grid is where the source's array access fails: nothing changes. */
    method PlaceTerrain(pos: (real, real, real)) returns (ok: bool)
      requires Valid()
      modifies this`grid, this`vertices, this`triangles, terrainMap
      ensures Valid()
      ensures ok == InGrid(PlaceCell(pos), data.chunkWidth, data.chunkHeight)
      ensures ok ==> grid == GridSet(old(grid), PlaceCell(pos), SolidDensity) && MeshIsCurrent()
      ensures !ok ==> grid == old(grid) && vertices == old(vertices) && triangles == old(triangles)
    {
      var v3Int := PlaceCell(pos);
      if !InGrid(v3Int, data.chunkWidth, data.chunkHeight) {
        return false;
      }
      terrainMap[v3Int.x, v3Int.y, v3Int.z] := SolidDensity;
      grid := GridSet(grid, v3Int, SolidDensity);
      CreateMeshData();
      ok := true;
    }

    /** Make the grid point at pos, rounded down, empty and rebuild. A point outside
        the grid is where the source's array access fails: nothing changes. */
    method RemoveTerrain(pos: (real, real, real)) returns (ok: bool)
      requires Valid()
      modifies this`grid, this`vertices, this`triangles, terrainMap
      ensures Valid()
      ensures ok == InGrid(RemoveCell(pos), data.chunkWidth, data.chunkHeight)
      ensures ok ==> grid == GridSet(old(grid), RemoveCell(pos), EmptyDensity) && MeshIsCurrent()
      ensures !ok ==> grid == old(grid) && vertices == old(vertices) && triangles == old(triangles)
    {
      var v3Int := RemoveCell(pos);
      if !InGrid(v3Int, data.chunkWidth, data.chunkHeight) {
        return false;
      }
      terrainMap[v3Int.x, v3Int.y, v3Int.z] := EmptyDensity;
      grid := GridSet(grid, v3Int, EmptyDensity);
      CreateMeshData();
      ok := true;
    }

    /** The density at a grid point. */
    function SampleTerrain(point: Int3): (r: real)
      reads this`grid, terrainMap
      requires Valid() && InGrid(point, data.chunkWidth, data.chunkHeight)
      ensures r == Sample(grid, point)
    {
      terrainMap[point.x, point.y, point.z]
    }
  }
}
