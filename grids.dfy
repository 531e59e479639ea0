/** The grid data the flow model reads: subdomain grids with their
    face-cell incidence, and interface (mortar) grids. Grids are built by
    geometry code outside this model and never change here. */
module Grids {
  import opened LinearAlgebra

  /** One stored entry of a subdomain's `cell_faces` matrix (rows are faces,
      columns are cells); `sign` is the face orientation seen from the cell. */
  datatype Incidence = Incidence(face: nat, cell: nat, sign: real)

  /** A subdomain grid of topological dimension `dim`. `cellFaces` lists the
      entries of `cell_faces` in the order sparse `find` yields them;
      `domainBoundaryFaces` are the faces that `domain_boundary_sides`
      reports on the boundary of the whole domain. */
  datatype Grid = Grid(dim: nat, numCells: nat, numFaces: nat,
                       cellFaces: seq<Incidence>, domainBoundaryFaces: set<nat>)
  {
    /** `cell_faces` has shape (numFaces, numCells); as `find` reports it,
        no stored entry is zero and no (face, cell) pair is listed twice; the
        boundary faces are faces of the grid. */
    predicate Valid()
    {
      && (forall t :: t in cellFaces ==> t.face < numFaces && t.cell < numCells && t.sign != 0.0)
      && (forall i, j :: 0 <= i < j < |cellFaces| ==>
            cellFaces[i].face != cellFaces[j].face || cellFaces[i].cell != cellFaces[j].cell)
      && (forall f :: f in domainBoundaryFaces ==> f < numFaces)
    }
  }

  /** An interface grid: its mortar cells, their volumes, and the averaging
      projection from the higher-dimensional neighbour's faces to mortar
      cells (`master_to_mortar_avg`). */
  datatype MortarGrid = MortarGrid(numCells: nat, cellVolumes: seq<real>, masterToMortarAvg: Mat)
  {
    predicate Valid()
    {
      |cellVolumes| == numCells && masterToMortarAvg.rows == numCells && masterToMortarAvg.Valid()
    }
  }

  /** `sum(sd.num_cells for sd in subdomains)`. */
  function TotalCells(sds: seq<Grid>): (n: nat)
    ensures forall k :: 0 <= k < |sds| ==> sds[k].numCells <= n
  {
    if sds == [] then 0 else sds[0].numCells + TotalCells(sds[1..])
  }

  /** `sum(sd.num_faces for sd in subdomains)`. */
  function TotalFaces(sds: seq<Grid>): (n: nat)
    ensures forall k :: 0 <= k < |sds| ==> sds[k].numFaces <= n
  {
    if sds == [] then 0 else sds[0].numFaces + TotalFaces(sds[1..])
  }

  /** Cell counts add up over a concatenation of subdomain lists, so the
      degrees of freedom of `a + b` are those of `a` followed by those of `b`. */
  lemma {:induction false} TotalCellsConcat(a: seq<Grid>, b: seq<Grid>)
    ensures TotalCells(a + b) == TotalCells(a) + TotalCells(b)
  {
    if a != [] {
      assert (a + b)[1..] == a[1..] + b;
      TotalCellsConcat(a[1..], b);
    } else {
      assert a + b == b;
    }
  }

  /** Face counts add up over a concatenation of subdomain lists. */
  lemma {:induction false} TotalFacesConcat(a: seq<Grid>, b: seq<Grid>)
    ensures TotalFaces(a + b) == TotalFaces(a) + TotalFaces(b)
  {
    if a != [] {
      assert (a + b)[1..] == a[1..] + b;
      TotalFacesConcat(a[1..], b);
    } else {
      assert a + b == b;
    }
  }

  /** Entry `f` of `abs(cell_faces) * v`: the sum, over the stored entries of
      face `f`, of |sign| times the value of the entry's cell. */
  function Trace(cf: seq<Incidence>, v: seq<real>, f: nat): (r: real)
    requires forall t :: t in cf ==> t.cell < |v|
    ensures (forall c :: 0 <= c < |v| ==> v[c] >= 0.0) ==> r >= 0.0
  {
    if cf == [] then 0.0
    else
      (if cf[0].face == f then Abs(cf[0].sign) * v[cf[0].cell] else 0.0)
      + Trace(cf[1..], v, f)
  }

  function Abs(x: real): (a: real)
    ensures a >= 0.0 && (a == x || a == -x)
  {
    if x < 0.0 then -x else x
  }

  /** A face with exactly one stored entry, of unit orientation, receives
      the value of its single adjacent cell. */
  lemma {:induction false} TraceSingleNeighbour(cf: seq<Incidence>, v: seq<real>, k: nat)
    requires forall t :: t in cf ==> t.cell < |v|
    requires k < |cf| && Abs(cf[k].sign) == 1.0
    requires forall j :: 0 <= j < |cf| && j != k ==> cf[j].face != cf[k].face
    ensures Trace(cf, v, cf[k].face) == v[cf[k].cell]
  {
    if k == 0 {
      TraceAbsent(cf[1..], v, cf[0].face);
    } else {
      forall j | 0 <= j < |cf[1..]| && j != k - 1
        ensures cf[1..][j].face != cf[1..][k - 1].face
      {
        assert cf[1..][j] == cf[j + 1];
      }
      TraceSingleNeighbour(cf[1..], v, k - 1);
    }
  }

  /** A face with no stored entry receives zero. */
  lemma {:induction false} TraceAbsent(cf: seq<Incidence>, v: seq<real>, f: nat)
    requires forall t :: t in cf ==> t.cell < |v|
    requires forall j :: 0 <= j < |cf| ==> cf[j].face != f
    ensures Trace(cf, v, f) == 0.0
  {
    if cf != [] {
      TraceAbsent(cf[1..], v, f);
    }
  }
}
