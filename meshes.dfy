/**
 * The two hard-coded meshes of the scene: a square pyramid and a cube, each
 * an 8-row vertex matrix (3 position, 3 colour, 2 texel rows; one column per
 * vertex) filled by block assignment, and a triangle index list.
 *
 * A new Eigen matrix of dynamic size is left uninitialised, so the matrix is
 * modelled with `Option<real>` entries: `None` is an entry that was never
 * assigned. Every literal in the tables is a small integer, exact in a
 * 32-bit float, so `real` values model them exactly.
 */
module Meshes {
  import opened Optional

  datatype Vec3 = Vec3(x: real, y: real, z: real)
  datatype Vec2 = Vec2(s: real, t: real)

  /** One vertex as a "Vertex i" group of block writes lays it out. */
  datatype Vertex = Vertex(position: Vec3, color: Vec3, texel: Vec2)

  /** Rows of every vertex matrix: 3 position, 3 colour, 2 texel. */
  const ROWS: nat := 8

  /** One column of a vertex matrix, top row first. */
  type Column = seq<Option<real>>

  /** The eight attribute values of a vertex, in row order. */
  function Attributes(v: Vertex): (r: seq<real>)
    ensures |r| == ROWS
    ensures r[0] == v.position.x && r[3] == v.color.x && r[6] == v.texel.s
  {
    [v.position.x, v.position.y, v.position.z,
     v.color.x, v.color.y, v.color.z,
     v.texel.s, v.texel.t]
  }

  /** The column holding `v`, every entry assigned. */
  function Filled(v: Vertex): (c: Column)
    ensures |c| == ROWS && forall r :: 0 <= r < ROWS ==> c[r] == Some(Attributes(v)[r])
  {
    var a := Attributes(v);
    [Some(a[0]), Some(a[1]), Some(a[2]), Some(a[3]), Some(a[4]), Some(a[5]), Some(a[6]), Some(a[7])]
  }

  /** A column none of whose entries was assigned. */
  const UNASSIGNED: Column := [None, None, None, None, None, None, None, None]

  /** The columns of a vertex matrix holding `vs` in order, column i for vertex i. */
  function FilledAll(vs: seq<Vertex>): (cs: seq<Column>)
    ensures |cs| == |vs| && forall i :: 0 <= i < |vs| ==> cs[i] == Filled(vs[i])
  {
    seq(|vs|, i requires 0 <= i < |vs| => Filled(vs[i]))
  }

  /** Every entry of the column was assigned. */
  predicate Assigned(c: Column) {
    forall r :: 0 <= r < |c| ==> c[r].Some?
  }

  /** Every index names an existing column. */
  predicate IndicesInBounds(indices: seq<nat>, columns: nat) {
    forall i :: 0 <= i < |indices| ==> indices[i] < columns
  }

  /** The index list is a whole number of triangles. */
  predicate WholeTriangles(indices: seq<nat>) {
    |indices| % 3 == 0
  }

  /** Every index names an existing column and every column it names was fully assigned. */
  predicate ReferencedColumnsAssigned(columns: seq<Column>, indices: seq<nat>) {
    IndicesInBounds(indices, |columns|) &&
    forall i :: 0 <= i < |indices| ==> Assigned(columns[indices[i]])
  }

  // The literal data: the pyramid's 18 indices over 5 vertices.
  const PYRAMID_INDICES: seq<nat> :=
    [0, 3, 2,
     0, 2, 1,
     0, 4, 1,
     0, 3, 4,
     3, 2, 4,
     2, 1, 4]

  const PYRAMID_VERTICES: seq<Vertex> :=
    [Vertex(Vec3(0.0, 0.0, 0.0), Vec3(1.0, 0.0, 0.0), Vec2(0.0, 0.0)),
     Vertex(Vec3(2.0, 0.0, 0.0), Vec3(0.0, 1.0, 0.0), Vec2(0.0, 1.0)),
     Vertex(Vec3(2.0, 0.0, 2.0), Vec3(0.0, 0.0, 1.0), Vec2(1.0, 0.0)),
     Vertex(Vec3(0.0, 0.0, 2.0), Vec3(1.0, 0.0, 0.0), Vec2(1.0, 1.0)),
     Vertex(Vec3(1.0, 2.0, 1.0), Vec3(0.0, 1.0, 0.0), Vec2(0.0, 0.0))]

  // The cube's 36 indices over 8 vertices.
  const CUBE_INDICES: seq<nat> :=
    [0, 3, 2,
     0, 2, 1,
     0, 4, 1,
     1, 5, 2,
     2, 6, 3,
     3, 7, 0,
     4, 5, 1,
     5, 6, 2,
     6, 7, 3,
     7, 4, 0,
     4, 7, 5,
     5, 7, 6]

  /** The cube's vertices as its "Cube Vertex 0..7" comments list them. */
  const CUBE_VERTICES: seq<Vertex> :=
    [Vertex(Vec3(0.0, 0.0, 0.0), Vec3(1.0, 0.0, 0.0), Vec2(0.0, 0.0)),
     Vertex(Vec3(2.0, 0.0, 0.0), Vec3(0.0, 1.0, 0.0), Vec2(0.0, 1.0)),
     Vertex(Vec3(2.0, 0.0, 2.0), Vec3(0.0, 0.0, 1.0), Vec2(1.0, 0.0)),
     Vertex(Vec3(0.0, 0.0, 2.0), Vec3(1.0, 0.0, 0.0), Vec2(1.0, 1.0)),
     Vertex(Vec3(0.0, 2.0, 0.0), Vec3(1.0, 0.0, 0.0), Vec2(0.0, 0.0)),
     Vertex(Vec3(2.0, 2.0, 0.0), Vec3(0.0, 1.0, 0.0), Vec2(0.0, 1.0)),
     Vertex(Vec3(2.0, 2.0, 2.0), Vec3(0.0, 0.0, 1.0), Vec2(1.0, 0.0)),
     Vertex(Vec3(0.0, 2.0, 2.0), Vec3(1.0, 0.0, 0.0), Vec2(1.0, 1.0))]

  /** The cube matrix the block writes produce: vertices 4-7 in columns 0-3, columns 4-7 never assigned. */
  function CubeColumnsAsWritten(): (cs: seq<Column>)
    ensures |cs| == 8
  {
    FilledAll(CUBE_VERTICES[4..]) + [UNASSIGNED, UNASSIGNED, UNASSIGNED, UNASSIGNED]
  }

  /** Pyramid: 18 indices, 6 triangles, all below its 5 columns. */
  lemma PyramidIndicesWellFormed()
    ensures |PYRAMID_INDICES| == 18 && WholeTriangles(PYRAMID_INDICES) && |PYRAMID_INDICES| / 3 == 6
    ensures IndicesInBounds(PYRAMID_INDICES, |PYRAMID_VERTICES|) && |PYRAMID_VERTICES| == 5
  {
  }

  /** Cube: 36 indices, 12 triangles, all below its 8 columns. */
  lemma CubeIndicesWellFormed()
    ensures |CUBE_INDICES| == 36 && WholeTriangles(CUBE_INDICES) && |CUBE_INDICES| / 3 == 12
    ensures IndicesInBounds(CUBE_INDICES, |CUBE_VERTICES|) && |CUBE_VERTICES| == 8
  {
  }

  /** Every column the pyramid's indices name was written by its block assignments. */
  lemma PyramidColumnsAssigned()
    ensures ReferencedColumnsAssigned(FilledAll(PYRAMID_VERTICES), PYRAMID_INDICES)
  {
  }

  /**
   * The cube as written fails `ReferencedColumnsAssigned`: its index 7 (the 4 of triangle
   * 0, 4, 1) names column 4, which no block write touched; columns 0-3 hold
   * the data of vertices 4-7.
   */
  lemma CubeAsWrittenReadsUnassignedColumn()
    ensures CUBE_INDICES[7] == 4 && !Assigned(CubeColumnsAsWritten()[4])
    ensures !ReferencedColumnsAssigned(CubeColumnsAsWritten(), CUBE_INDICES)
    ensures forall c :: 0 <= c < 4 ==> CubeColumnsAsWritten()[c] == Filled(CUBE_VERTICES[c + 4])
  {
    assert CubeColumnsAsWritten()[4][0] == None;
  }

  /** With vertices 4-7 written to columns 4-7, every column the cube's indices name is assigned. */
  lemma CubeColumnsAssigned()
    ensures ReferencedColumnsAssigned(FilledAll(CUBE_VERTICES), CUBE_INDICES)
  {
  }

  /** The columns of a matrix as values, column-major. */
  function ColumnsOf(m: array2<Option<real>>): (cs: seq<Column>)
    reads m
    ensures |cs| == m.Length1
    ensures forall c, r :: 0 <= c < m.Length1 && 0 <= r < m.Length0 ==> |cs[c]| == m.Length0 && cs[c][r] == m[r, c]
  {
    seq(m.Length1, c reads m => seq(m.Length0, r reads m => if 0 <= r < m.Length0 && 0 <= c < m.Length1 then m[r, c] else None))
  }

  /** A new uninitialised matrix with `ROWS` rows and `cols` columns. */
  method NewMatrix(cols: nat) returns (m: array2<Option<real>>)
    ensures fresh(m) && m.Length0 == ROWS && m.Length1 == cols
    ensures ColumnsOf(m) == seq(cols, _ => UNASSIGNED)
  {
    m := new Option<real>[ROWS, cols]((_, _) => None);
    SameColumns(ColumnsOf(m), seq(cols, _ => UNASSIGNED));
  }

  /** `block(row, col, 3, 1) = v`: three entries down column `col` from `row`. */
  method AssignVec3(m: array2<Option<real>>, row: nat, col: nat, v: Vec3)
    requires row + 3 <= m.Length0 && col < m.Length1
    modifies m
    ensures forall r, c :: 0 <= r < m.Length0 && 0 <= c < m.Length1 ==>
              m[r, c] == if c != col then old(m[r, c])
                         else if r == row then Some(v.x)
                         else if r == row + 1 then Some(v.y)
                         else if r == row + 2 then Some(v.z)
                         else old(m[r, c])
  {
    m[row, col] := Some(v.x);
    m[row + 1, col] := Some(v.y);
    m[row + 2, col] := Some(v.z);
  }

  /** `block(row, col, 2, 1) = v`: two entries down column `col` from `row`. */
  method AssignVec2(m: array2<Option<real>>, row: nat, col: nat, v: Vec2)
    requires row + 2 <= m.Length0 && col < m.Length1
    modifies m
    ensures forall r, c :: 0 <= r < m.Length0 && 0 <= c < m.Length1 ==>
              m[r, c] == if c != col then old(m[r, c])
                         else if r == row then Some(v.s)
                         else if r == row + 1 then Some(v.t)
                         else old(m[r, c])
  {
    m[row, col] := Some(v.s);
    m[row + 1, col] := Some(v.t);
  }

  /** The three block writes under one "Vertex i" comment: position, colour and texel of column `col`. */
  method AssignVertex(m: array2<Option<real>>, col: nat, v: Vertex)
    requires m.Length0 == ROWS && col < m.Length1
    modifies m
    ensures ColumnsOf(m) == old(ColumnsOf(m))[col := Filled(v)]
  {
    ghost var target := ColumnsOf(m)[col := Filled(v)];
    AssignVec3(m, 0, col, v.position);
    AssignVec3(m, 3, col, v.color);
    AssignVec2(m, 6, col, v.texel);
    forall c, r | 0 <= c < m.Length1 && 0 <= r < ROWS
      ensures ColumnsOf(m)[c][r] == target[c][r]
    {
      if c == col {
        assert Filled(v)[r] == m[r, c];
      }
    }
    SameColumns(ColumnsOf(m), target);
  }

  /** The pyramid's 8 x 5 matrix: column i holds pyramid vertex i. */
  method PyramidMatrix() returns (columns: seq<Column>)
    ensures columns == FilledAll(PYRAMID_VERTICES)
    ensures ReferencedColumnsAssigned(columns, PYRAMID_INDICES)
  {
    var vs := PYRAMID_VERTICES;
    var m := NewMatrix(5);
    ghost var start := ColumnsOf(m);
    AssignVertex(m, 0, vs[0]);
    AssignVertex(m, 1, vs[1]);
    AssignVertex(m, 2, vs[2]);
    AssignVertex(m, 3, vs[3]);
    AssignVertex(m, 4, vs[4]);
    columns := ColumnsOf(m);
    FiveWritesFillAll(vs, start);
    PyramidColumnsAssigned();
  }

  /**
   * The cube's 8 x 8 matrix as the block writes have it: the "Cube Vertex
   * 4..7" groups write columns 0-3 again, so columns 0-3 end up holding
   * vertices 4-7 and columns 4-7 are never assigned.
   */
  method CubeMatrixAsWritten() returns (columns: seq<Column>)
    ensures columns == CubeColumnsAsWritten()
    ensures !ReferencedColumnsAssigned(columns, CUBE_INDICES)
  {
    var vs := CUBE_VERTICES;
    var m := NewMatrix(8);
    ghost var start := ColumnsOf(m);
    AssignVertex(m, 0, vs[0]);
    AssignVertex(m, 1, vs[1]);
    AssignVertex(m, 2, vs[2]);
    AssignVertex(m, 3, vs[3]);
    AssignVertex(m, 0, vs[4]);
    AssignVertex(m, 1, vs[5]);
    AssignVertex(m, 2, vs[6]);
    AssignVertex(m, 3, vs[7]);
    columns := ColumnsOf(m);
    OverwritingWritesFillFront(vs, start);
    CubeAsWrittenReadsUnassignedColumn();
  }

  /** The cube's 8 x 8 matrix with vertex i written to column i, as its comments intend. */
  method CubeMatrix() returns (columns: seq<Column>)
    ensures columns == FilledAll(CUBE_VERTICES)
    ensures ReferencedColumnsAssigned(columns, CUBE_INDICES)
  {
    var vs := CUBE_VERTICES;
    var m := NewMatrix(8);
    ghost var start := ColumnsOf(m);
    AssignVertex(m, 0, vs[0]);
    AssignVertex(m, 1, vs[1]);
    AssignVertex(m, 2, vs[2]);
    AssignVertex(m, 3, vs[3]);
    AssignVertex(m, 4, vs[4]);
    AssignVertex(m, 5, vs[5]);
    AssignVertex(m, 6, vs[6]);
    AssignVertex(m, 7, vs[7]);
    columns := ColumnsOf(m);
    EightWritesFillAll(vs, start);
    CubeColumnsAssigned();
  }

  /** Writing vertex i to column i of a 5-column matrix, for each i, gives the filled matrix. */
  lemma FiveWritesFillAll(vs: seq<Vertex>, start: seq<Column>)
    requires |vs| == 5 && |start| == 5
    ensures start[0 := Filled(vs[0])][1 := Filled(vs[1])][2 := Filled(vs[2])][3 := Filled(vs[3])]
                 [4 := Filled(vs[4])] == FilledAll(vs)
  {
    var a := start[0 := Filled(vs[0])][1 := Filled(vs[1])][2 := Filled(vs[2])][3 := Filled(vs[3])]
               [4 := Filled(vs[4])];
    assert forall i :: 0 <= i < 5 ==> a[i] == FilledAll(vs)[i];
  }

  /** Writing vertex i to column i of an 8-column matrix, for each i, gives the filled matrix. */
  lemma EightWritesFillAll(vs: seq<Vertex>, start: seq<Column>)
    requires |vs| == 8 && |start| == 8
    ensures start[0 := Filled(vs[0])][1 := Filled(vs[1])][2 := Filled(vs[2])][3 := Filled(vs[3])]
                 [4 := Filled(vs[4])][5 := Filled(vs[5])][6 := Filled(vs[6])][7 := Filled(vs[7])]
            == FilledAll(vs)
  {
    var a := start[0 := Filled(vs[0])][1 := Filled(vs[1])][2 := Filled(vs[2])][3 := Filled(vs[3])]
               [4 := Filled(vs[4])][5 := Filled(vs[5])][6 := Filled(vs[6])][7 := Filled(vs[7])];
    var f := FilledAll(vs);
    assert a[0] == f[0] && a[1] == f[1] && a[2] == f[2] && a[3] == f[3];
    assert a[4] == f[4] && a[5] == f[5] && a[6] == f[6] && a[7] == f[7];
    assert forall i :: 0 <= i < 8 ==> a[i] == f[i];
  }

  /**
   * Writing vertices 0-3 and then 4-7 to columns 0-3 of an 8-column matrix
   * leaves vertices 4-7 in columns 0-3 and columns 4-7 as they started.
   */
  lemma OverwritingWritesFillFront(vs: seq<Vertex>, start: seq<Column>)
    requires |vs| == 8 && start == seq(8, _ => UNASSIGNED)
    ensures start[0 := Filled(vs[0])][1 := Filled(vs[1])][2 := Filled(vs[2])][3 := Filled(vs[3])]
                 [0 := Filled(vs[4])][1 := Filled(vs[5])][2 := Filled(vs[6])][3 := Filled(vs[7])]
            == FilledAll(vs[4..]) + [UNASSIGNED, UNASSIGNED, UNASSIGNED, UNASSIGNED]
  {
    var a := start[0 := Filled(vs[0])][1 := Filled(vs[1])][2 := Filled(vs[2])][3 := Filled(vs[3])]
               [0 := Filled(vs[4])][1 := Filled(vs[5])][2 := Filled(vs[6])][3 := Filled(vs[7])];
    var b := FilledAll(vs[4..]) + [UNASSIGNED, UNASSIGNED, UNASSIGNED, UNASSIGNED];
    assert forall i :: 0 <= i < 8 ==> a[i] == b[i];
  }

  /** Column lists that agree entry by entry are equal. */
  lemma SameColumns(a: seq<Column>, b: seq<Column>)
    requires |a| == |b|
    requires forall c :: 0 <= c < |a| ==> |a[c]| == |b[c]|
    requires forall c, r :: 0 <= c < |a| && 0 <= r < |a[c]| ==> a[c][r] == b[c][r]
    ensures a == b
  {
    assert forall c :: 0 <= c < |a| ==> a[c] == b[c];
  }
}
