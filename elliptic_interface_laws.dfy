/** The Robin-type interface law between a higher- and a lower-dimensional
    subdomain (`RobinCoupling`): its resistance operator, the lazily filled
    cache of that operator in the interface data, and the assembly of the
    3x3 block coupling into the caller's block matrix. */
module EllipticInterfaceLaws {
  import opened Common
  import opened LinearAlgebra
  import opened Grids

  /** `pp.keywords.DISCRETIZATION`; porepy/utils/keywords.py is not part of
      this model. */
  const DISCRETIZATION: string := "discretization"

  /** A 3x3 block matrix: block row and column 0 belong to the
      higher-dimensional subdomain, 1 to the lower-dimensional one, 2 to the
      mortar variable. */
  type Blocks = seq<seq<Mat>>

  /** One per-side callback (`assemble_int_bound_*`): given the side's grid
      and the swap flag, it returns the edited coupling blocks. */
  type BlockEdit = (Grid, bool, Blocks) -> Blocks

  /** `b` is a 3x3 block matrix whose block (i, j) has shape (dof[i], dof[j]). */
  predicate HasShapes(b: Blocks, dof: seq<nat>)
  {
    && |dof| == 3 && |b| == 3
    && forall i :: 0 <= i < 3 ==>
         && |b[i]| == 3
         && forall j :: 0 <= j < 3 ==>
              b[i][j].Valid() && b[i][j].rows == dof[i] && b[i][j].cols == dof[j]
  }

  /** The per-side discretization stored in a subdomain's data (a finite
      volume or mixed scheme): its number of unknowns on a grid, and the
      callbacks through which it couples to an interface. Their bodies live
      in discretization classes that are not part of this model. */
  datatype SideDiscretization = SideDiscretization(
    ndof: Grid -> nat,
    intBoundPressureTrace: BlockEdit,
    intBoundFlux: BlockEdit,
    intBoundPressureCell: BlockEdit,
    intBoundSource: BlockEdit,
    enforceNeumannIntBound: (Grid, Blocks) -> Blocks)

  /** The callbacks edit blocks but never change their shapes. */
  ghost predicate PreservesShapes(d: SideDiscretization)
  {
    && (forall g, swap, b, dof :: HasShapes(b, dof) ==> HasShapes(d.intBoundPressureTrace(g, swap, b), dof))
    && (forall g, swap, b, dof :: HasShapes(b, dof) ==> HasShapes(d.intBoundFlux(g, swap, b), dof))
    && (forall g, swap, b, dof :: HasShapes(b, dof) ==> HasShapes(d.intBoundPressureCell(g, swap, b), dof))
    && (forall g, swap, b, dof :: HasShapes(b, dof) ==> HasShapes(d.intBoundSource(g, swap, b), dof))
    && (forall g, b, dof :: HasShapes(b, dof) ==> HasShapes(d.enforceNeumannIntBound(g, b), dof))
  }

  /** The parts of a subdomain's data dictionary the coupling reads: the
      discretizations stored under their keys, and the cell-wise aperture
      (`data["param"].get_aperture()`). */
  datatype SubdomainData = SubdomainData(discretizations: map<string, SideDiscretization>, aperture: seq<real>)

  /** The interface's data dictionary: its mortar grid and normal
      diffusivity `kn`, which the coupling only reads, and the operators
      stored in it under string keys, which the coupling fills. */
  class EdgeData {
    const mortarGrid: MortarGrid
    const kn: Field
    var operators: map<string, Mat>

    constructor (mortarGrid: MortarGrid, kn: Field, operators: map<string, Mat>)
      ensures this.mortarGrid == mortarGrid && this.kn == kn && this.operators == operators
    {
      this.mortarGrid := mortarGrid;
      this.kn := kn;
      this.operators := operators;
    }
  }

  // ----- Face deduplication (`sps.find` followed by `np.unique`) -----

  predicate HasFace(cf: seq<Incidence>, f: nat)
  {
    exists j :: 0 <= j < |cf| && cf[j].face == f
  }

  /** The position of the first entry of face `f`. */
  function FirstIndex(cf: seq<Incidence>, f: nat): (j: nat)
    requires HasFace(cf, f)
    ensures j < |cf| && cf[j].face == f
    ensures forall i :: 0 <= i < j ==> cf[i].face != f
  {
    if cf[0].face == f then 0
    else
      assert HasFace(cf[1..], f) by {
        var j :| 0 <= j < |cf| && cf[j].face == f;
        assert cf[1..][j - 1] == cf[j];
      }
      1 + FirstIndex(cf[1..], f)
  }

  /** `np.unique(faces, return_index=True)[1]` over the faces below `n`:
      the first position of each face, in ascending face order. */
  function UniqueFirstIndices(cf: seq<Incidence>, n: nat): (idx: seq<nat>)
    ensures |idx| <= n
  {
    if n == 0 then []
    else if HasFace(cf, n - 1) then UniqueFirstIndices(cf, n - 1) + [FirstIndex(cf, n - 1)]
    else UniqueFirstIndices(cf, n - 1)
  }

  /** The positions `UniqueFirstIndices` selects point at entries of faces
      below `n`, each the first entry of its face. */
  predicate FirstOccurrences(cf: seq<Incidence>, n: nat, idx: seq<nat>)
  {
    forall k :: 0 <= k < |idx| ==>
      && idx[k] < |cf| && cf[idx[k]].face < n
      && (forall j :: 0 <= j < idx[k] ==> cf[j].face != cf[idx[k]].face)
  }

  /** The selected faces are strictly ascending, so no face is selected twice. */
  predicate StrictlyAscendingFaces(cf: seq<Incidence>, idx: seq<nat>)
    requires forall k :: 0 <= k < |idx| ==> idx[k] < |cf|
  {
    forall k, l :: 0 <= k < l < |idx| ==> cf[idx[k]].face < cf[idx[l]].face
  }

  /** Every face below `n` that has an entry is selected. */
  predicate CoversFaces(cf: seq<Incidence>, n: nat, idx: seq<nat>)
    requires forall k :: 0 <= k < |idx| ==> idx[k] < |cf|
  {
    forall j :: 0 <= j < |cf| && cf[j].face < n ==> Selects(cf, idx, cf[j].face)
  }

  /** Some selected position holds an entry of face `f`. */
  predicate Selects(cf: seq<Incidence>, idx: seq<nat>, f: nat)
    requires forall k :: 0 <= k < |idx| ==> idx[k] < |cf|
  {
    exists k :: 0 <= k < |idx| && cf[idx[k]].face == f
  }

  /** Appending the first entry of face `n - 1` keeps positions valid and
      first-of-their-face. */
  lemma FirstOccurrencesStep(cf: seq<Incidence>, n: nat, prev: seq<nat>)
    requires n > 0 && HasFace(cf, n - 1) && FirstOccurrences(cf, n - 1, prev)
    ensures FirstOccurrences(cf, n, prev + [FirstIndex(cf, n - 1)])
  {
  }

  /** Face deduplication keeps only first entries of faces below `n`. */
  lemma {:induction false} UniqueFirstIndicesFirst(cf: seq<Incidence>, n: nat)
    ensures FirstOccurrences(cf, n, UniqueFirstIndices(cf, n))
  {
    if n > 0 {
      UniqueFirstIndicesFirst(cf, n - 1);
      if HasFace(cf, n - 1) {
        FirstOccurrencesStep(cf, n, UniqueFirstIndices(cf, n - 1));
      } else {
        FirstOccurrencesWeaken(cf, n, UniqueFirstIndices(cf, n - 1));
      }
    }
  }

  /** Positions valid below `n - 1` stay valid below `n`. */
  lemma FirstOccurrencesWeaken(cf: seq<Incidence>, n: nat, idx: seq<nat>)
    requires n > 0 && FirstOccurrences(cf, n - 1, idx)
    ensures FirstOccurrences(cf, n, idx)
  {
  }

  /** Face deduplication selects faces in strictly ascending order, so each
      face at most once. */
  lemma {:induction false} UniqueFirstIndicesAscending(cf: seq<Incidence>, n: nat)
    ensures FirstOccurrences(cf, n, UniqueFirstIndices(cf, n))
    ensures StrictlyAscendingFaces(cf, UniqueFirstIndices(cf, n))
  {
    UniqueFirstIndicesFirst(cf, n);
    if n > 0 {
      UniqueFirstIndicesAscending(cf, n - 1);
      var prev := UniqueFirstIndices(cf, n - 1);
      if HasFace(cf, n - 1) {
        var idx := prev + [FirstIndex(cf, n - 1)];
        forall k, l | 0 <= k < l < |idx|
          ensures cf[idx[k]].face < cf[idx[l]].face
        {
          assert idx[k] == prev[k];
          if l < |prev| {
            assert idx[l] == prev[l];
          }
        }
      }
    }
  }

  /** Face deduplication selects every face below `n` that has an entry. */
  lemma {:induction false} UniqueFirstIndicesCovers(cf: seq<Incidence>, n: nat)
    ensures FirstOccurrences(cf, n, UniqueFirstIndices(cf, n))
    ensures CoversFaces(cf, n, UniqueFirstIndices(cf, n))
  {
    UniqueFirstIndicesFirst(cf, n);
    if n > 0 {
      UniqueFirstIndicesCovers(cf, n - 1);
      var prev := UniqueFirstIndices(cf, n - 1);
      if HasFace(cf, n - 1) {
        var idx := prev + [FirstIndex(cf, n - 1)];
        forall j | 0 <= j < |cf| && cf[j].face < n
          ensures Selects(cf, idx, cf[j].face)
        {
          if cf[j].face == n - 1 {
            assert cf[idx[|prev|]].face == cf[j].face;
          } else {
            assert Selects(cf, prev, cf[j].face);
            var k :| 0 <= k < |prev| && cf[prev[k]].face == cf[j].face;
            assert idx[k] == prev[k];
          }
        }
      } else {
        forall j | 0 <= j < |cf| && cf[j].face < n
          ensures cf[j].face < n - 1
        {
          assert cf[j].face != n - 1;
        }
      }
    }
  }

  /** Face deduplication keeps exactly one entry per distinct face, in
      ascending face order, and that entry is the face's first. */
  lemma UniqueFirstIndicesSpec(cf: seq<Incidence>, n: nat)
    ensures FirstOccurrences(cf, n, UniqueFirstIndices(cf, n))
    ensures StrictlyAscendingFaces(cf, UniqueFirstIndices(cf, n))
    ensures CoversFaces(cf, n, UniqueFirstIndices(cf, n))
  {
    UniqueFirstIndicesAscending(cf, n);
    UniqueFirstIndicesCovers(cf, n);
  }

  /** `cells_h`: for each distinct face of the grid, in ascending face order,
      the cell of that face's first entry; the orientation is dropped. */
  function FaceCells(g: Grid): (cells: seq<nat>)
    requires g.Valid()
    ensures forall k :: 0 <= k < |cells| ==> cells[k] < g.numCells
  {
    var idx := UniqueFirstIndices(g.cellFaces, g.numFaces);
    UniqueFirstIndicesSpec(g.cellFaces, g.numFaces);
    seq(|idx|, k requires 0 <= k < |idx| => g.cellFaces[idx[k]].cell)
  }

  // ----- The resistance operator (`discretize`) -----

  /** `proj * aperture_h[cells_h]`: the higher-dimensional aperture at the
      selected cells, averaged onto the mortar cells. Indexing past the
      aperture raises IndexError; a projection whose column count differs
      from the number of selected cells raises a shape error. */
  function ProjectedAperture(g: Grid, aperture: seq<real>, mg: MortarGrid): (r: Result<seq<real>>)
    requires g.Valid()
    ensures r.Ok? ==> |r.value| == mg.masterToMortarAvg.rows
    ensures r.Err? ==> r.error == IndexError || r.error == ShapeMismatch
    ensures r == Err(IndexError) <==> exists k :: 0 <= k < |FaceCells(g)| && FaceCells(g)[k] >= |aperture|
    ensures r == Err(ShapeMismatch) <==>
              (forall k :: 0 <= k < |FaceCells(g)| ==> FaceCells(g)[k] < |aperture|)
              && mg.masterToMortarAvg.cols != |FaceCells(g)|
  {
    var cells := FaceCells(g);
    if !(forall k :: 0 <= k < |cells| ==> cells[k] < |aperture|) then Err(IndexError)
    else
      var apertureAtCells := seq(|cells|, k requires 0 <= k < |cells| => aperture[cells[k]]);
      if mg.masterToMortarAvg.cols != |apertureAtCells| then Err(ShapeMismatch)
      else Ok(MatVec(mg.masterToMortarAvg, apertureAtCells))
  }

  /** `kn` broadcasts against `n` mortar cells: a scalar, an array of length
      `n`, or an array of length one. */
  predicate KnFits(kn: Field, n: nat)
  {
    kn.Scalar? || |kn.values| == n || |kn.values| == 1
  }

  /** The normal diffusivity that mortar cell `i` sees after broadcasting. */
  function KnAt(kn: Field, n: nat, i: nat): (x: real)
    requires KnFits(kn, n) && i < n
    ensures kn.Scalar? ==> x == kn.value
    ensures kn.CellWise? ==> x in kn.values
    ensures kn.CellWise? && |kn.values| == n ==> x == kn.values[i]
  {
    match kn
    case Scalar(x) => x
    case CellWise(v) => if |v| == 1 then v[0] else v[i]
  }

  /** One diagonal entry of `-inv_M * Eta`: minus the reciprocal of the
      mortar cell's resistance `volume * 2 kn * aperture`, negative when all
      three are positive. */
  function InverseResistance(volume: real, kn: real, projectedAperture: real): (x: real)
    requires volume != 0.0 && kn != 0.0 && projectedAperture != 0.0
    ensures x * (volume * (2.0 * kn) * projectedAperture) == -1.0
    ensures volume > 0.0 && kn > 0.0 && projectedAperture > 0.0 ==> x < 0.0
  {
    var a := 1.0 / volume;
    var b := 1.0 / (2.0 * kn);
    var c := b / projectedAperture;
    assert a * volume == 1.0;
    assert b * (2.0 * kn) == 1.0;
    assert c * projectedAperture == b;
    assert -(a * c) * (volume * (2.0 * kn) * projectedAperture)
        == -((a * volume) * (c * projectedAperture) * (2.0 * kn));
    assert volume > 0.0 && kn > 0.0 && projectedAperture > 0.0 ==> a > 0.0 && b > 0.0 && c > 0.0;
    -(1.0 / volume) * ((1.0 / (2.0 * kn)) / projectedAperture)
  }

  /** Every mortar cell has a non-zero volume, diffusivity and projected
      aperture, so that no entry of the operator is infinite or NaN. */
  predicate FiniteData(mg: MortarGrid, kn: Field, pa: seq<real>)
    requires mg.Valid() && KnFits(kn, mg.numCells) && |pa| == mg.numCells
  {
    forall i :: 0 <= i < mg.numCells ==>
      mg.cellVolumes[i] != 0.0 && KnAt(kn, mg.numCells, i) != 0.0 && pa[i] != 0.0
  }

  /** The Robin operator has the shape of the mortar block (2, 2). */
  predicate RobinShaped(op: Mat, mg: MortarGrid)
  {
    op.Valid() && op.rows == mg.numCells && op.cols == mg.numCells
  }

  /** `data_edge[...Robin_discr]` as `discretize` computes it, with `g` and
      `aperture` taken from the grid passed in its first position. */
  function RobinOperator(g: Grid, aperture: seq<real>, mg: MortarGrid, kn: Field): (r: Result<Mat>)
    requires g.Valid() && mg.Valid()
    ensures ProjectedAperture(g, aperture, mg).Err? ==> r == Err(ProjectedAperture(g, aperture, mg).error)
    ensures ProjectedAperture(g, aperture, mg).Ok? && !KnFits(kn, mg.numCells) ==> r == Err(ShapeMismatch)
    ensures ProjectedAperture(g, aperture, mg).Ok? && KnFits(kn, mg.numCells) ==>
              (r.Ok? <==> FiniteData(mg, kn, ProjectedAperture(g, aperture, mg).value))
              && (r.Err? ==> r.error == NonFinite)
    ensures r.Ok? ==>
              && ProjectedAperture(g, aperture, mg).Ok? && KnFits(kn, mg.numCells)
              && FiniteData(mg, kn, ProjectedAperture(g, aperture, mg).value)
              && RobinShaped(r.value, mg) && r.value.IsDiagonal()
              && forall i :: 0 <= i < mg.numCells ==>
                   r.value.At(i, i) == InverseResistance(mg.cellVolumes[i], KnAt(kn, mg.numCells, i),
                                                         ProjectedAperture(g, aperture, mg).value[i])
  {
    match ProjectedAperture(g, aperture, mg)
    case Err(e) => Err(e)
    case Ok(pa) =>
      if !KnFits(kn, mg.numCells) then Err(ShapeMismatch)
      else if !FiniteData(mg, kn, pa) then Err(NonFinite)
      else
        var d := seq(mg.numCells, i requires 0 <= i < mg.numCells =>
                       InverseResistance(mg.cellVolumes[i], KnAt(kn, mg.numCells, i), pa[i]));
        Ok(Diag(d))
  }

  /** With mortar volumes all `v`, a scalar `kn`, unit aperture and an
      averaging projection, every diagonal entry is -1 / (2 kn v). */
  lemma UniformRobinOperator(g: Grid, aperture: seq<real>, mg: MortarGrid, kn: real, v: real)
    requires g.Valid() && mg.Valid()
    requires |aperture| == g.numCells && forall c :: 0 <= c < |aperture| ==> aperture[c] == 1.0
    requires mg.masterToMortarAvg.cols == |FaceCells(g)|
    requires forall i :: 0 <= i < mg.numCells ==> RowSum(mg.masterToMortarAvg, i, mg.masterToMortarAvg.cols) == 1.0
    requires forall i :: 0 <= i < mg.numCells ==> mg.cellVolumes[i] == v
    requires v > 0.0 && kn > 0.0
    ensures RobinOperator(g, aperture, mg, Scalar(kn)).Ok?
    ensures forall i :: 0 <= i < mg.numCells ==>
              RobinOperator(g, aperture, mg, Scalar(kn)).value.At(i, i) == -1.0 / (2.0 * kn * v)
  {
    var cells := FaceCells(g);
    var proj := mg.masterToMortarAvg;
    var apertureAtCells := seq(|cells|, k requires 0 <= k < |cells| => aperture[cells[k]]);
    assert ProjectedAperture(g, aperture, mg) == Ok(MatVec(proj, apertureAtCells));
    var pa := MatVec(proj, apertureAtCells);
    forall i | 0 <= i < mg.numCells
      ensures pa[i] == 1.0
    {
      RowDotConstant(proj, i, apertureAtCells, |apertureAtCells|, 1.0);
    }
    assert FiniteData(mg, Scalar(kn), pa);
    var x := InverseResistance(v, kn, 1.0);
    assert x == -1.0 / (2.0 * kn * v) by {
      assert x * (2.0 * kn * v) == -1.0;
      assert 2.0 * kn * v > 0.0;
    }
    var r := RobinOperator(g, aperture, mg, Scalar(kn));
    forall i | 0 <= i < mg.numCells
      ensures r.value.At(i, i) == x
    {
      assert mg.cellVolumes[i] == v && pa[i] == 1.0;
    }
  }

  // ----- Assembly (`assemble_matrix_rhs`) -----

  /** The two neighbours in block order: slot 0 holds the higher-dimensional
      grid, with its data; `gridSwap` records that the caller passed them the
      other way round. */
  datatype Placement = Placement(gH: Grid, gL: Grid, dataH: SubdomainData, dataL: SubdomainData, gridSwap: bool)

  /** The dimension check and the swap of grids and data. */
  function Place(gMaster: Grid, gSlave: Grid, dataMaster: SubdomainData, dataSlave: SubdomainData): (r: Result<Placement>)
    ensures r.Err? <==> gMaster.dim == gSlave.dim
    ensures r.Err? ==> r.error.AssertionFailed?
    ensures r.Ok? ==> r.value.gH.dim > r.value.gL.dim
    ensures r.Ok? ==> (r.value.gridSwap <==> gMaster.dim < gSlave.dim)
    ensures r.Ok? && r.value.gridSwap ==>
              r.value.gH == gSlave && r.value.gL == gMaster && r.value.dataH == dataSlave && r.value.dataL == dataMaster
    ensures r.Ok? && !r.value.gridSwap ==>
              r.value.gH == gMaster && r.value.gL == gSlave && r.value.dataH == dataMaster && r.value.dataL == dataSlave
  {
    if gMaster.dim == gSlave.dim then Err(AssertionFailed("g_master.dim != g_slave.dim"))
    else if gMaster.dim < gSlave.dim then Ok(Placement(gSlave, gMaster, dataSlave, dataMaster, true))
    else Ok(Placement(gMaster, gSlave, dataMaster, dataSlave, false))
  }

  /** The block layout does not depend on the order in which the caller
      passes the two neighbours; only the swap flag does. */
  lemma {:induction false} PlaceSymmetric(g1: Grid, g2: Grid, d1: SubdomainData, d2: SubdomainData)
    requires g1.dim != g2.dim
    ensures Place(g1, g2, d1, d2).Ok? && Place(g2, g1, d2, d1).Ok?
    ensures var p, q := Place(g1, g2, d1, d2).value, Place(g2, g1, d2, d1).value;
            p.gH == q.gH && p.gL == q.gL && p.dataH == q.dataH && p.dataL == q.dataL && p.gridSwap != q.gridSwap
  {
  }

  /** `cc` as allocated: zero blocks of shape (dof[i], dof[j]) with the Robin
      operator in the mortar block (2, 2). */
  function InitialBlocks(dof: seq<nat>, robin: Mat): (cc: Blocks)
    requires |dof| == 3
    ensures |cc| == 3 && forall i :: 0 <= i < 3 ==> |cc[i]| == 3
    ensures cc[2][2] == robin
    ensures forall i, j :: 0 <= i < 3 && 0 <= j < 3 && !(i == 2 && j == 2) ==> cc[i][j] == Zeros(dof[i], dof[j])
    ensures robin.Valid() && robin.rows == dof[2] && robin.cols == dof[2] ==> HasShapes(cc, dof)
  {
    var zeros := seq(3, i requires 0 <= i < 3 => seq(3, j requires 0 <= j < 3 => Zeros(dof[i], dof[j])));
    zeros[2 := zeros[2][2 := robin]]
  }

  /** The four per-side callbacks, in the order the coupling calls them:
      pressure trace and flux on the higher side, cell pressure and source on
      the lower side. */
  function ApplySideCouplings(master: SideDiscretization, slave: SideDiscretization,
                              gH: Grid, gL: Grid, gridSwap: bool, cc: Blocks): (r: Blocks)
    ensures forall dof :: PreservesShapes(master) && PreservesShapes(slave) && HasShapes(cc, dof) ==> HasShapes(r, dof)
  {
    var afterTrace := master.intBoundPressureTrace(gH, gridSwap, cc);
    var afterFlux := master.intBoundFlux(gH, gridSwap, afterTrace);
    var afterCell := slave.intBoundPressureCell(gL, gridSwap, afterFlux);
    slave.intBoundSource(gL, gridSwap, afterCell)
  }

  /** `matrix += cc` on two block matrices of the same block shapes. */
  function BlockAdd(a: Blocks, b: Blocks, dof: seq<nat>): (r: Blocks)
    requires HasShapes(a, dof) && HasShapes(b, dof)
    ensures HasShapes(r, dof)
    ensures forall i, j :: 0 <= i < 3 && 0 <= j < 3 ==> r[i][j] == Add(a[i][j], b[i][j])
  {
    seq(3, i requires 0 <= i < 3 => seq(3, j requires 0 <= j < 3 => Add(a[i][j], b[i][j])))
  }

  /** The returned right-hand side: three zero vectors of the block sizes. */
  function ZeroRhs(dof: seq<nat>): (rhs: seq<seq<real>>)
    requires |dof| == 3
    ensures |rhs| == 3
    ensures forall i :: 0 <= i < 3 ==> |rhs[i]| == dof[i] && forall k :: 0 <= k < dof[i] ==> rhs[i][k] == 0.0
  {
    [ZeroVector(dof[0]), ZeroVector(dof[1]), ZeroVector(dof[2])]
  }

  /** The caller's 3x3 block array, read as a value. */
  function MatrixBlocks(matrix: array2<Mat>): Blocks
    requires matrix.Length0 == 3 && matrix.Length1 == 3
    reads matrix
  {
    seq(3, i requires 0 <= i < 3 reads matrix => seq(3, j requires 0 <= j < 3 reads matrix => matrix[i, j]))
  }

  /** What the assembly settles before touching any matrix: the placement,
      the two side discretizations and the block sizes. */
  datatype Arrangement = Arrangement(placement: Placement, master: SideDiscretization,
                                     slave: SideDiscretization, dof: seq<nat>)

  /** `cc` after the four side callbacks. */
  function CouplingBlocks(a: Arrangement, robin: Mat): (cc: Blocks)
    requires |a.dof| == 3
    ensures (PreservesShapes(a.master) && PreservesShapes(a.slave) && robin.Valid()
             && robin.rows == a.dof[2] && robin.cols == a.dof[2]) ==> HasShapes(cc, a.dof)
  {
    ApplySideCouplings(a.master, a.slave, a.placement.gH, a.placement.gL, a.placement.gridSwap,
                       InitialBlocks(a.dof, robin))
  }

  /** Every per-side discretization a subdomain stores under `key` keeps
      block shapes. */
  ghost predicate SidePreservesShapes(data: SubdomainData, key: string)
  {
    key in data.discretizations ==> PreservesShapes(data.discretizations[key])
  }

  /** `matrix += cc` on the caller's block array: every block becomes the
      sum of itself and the matching block of `cc`. */
  method AddInPlace(matrix: array2<Mat>, cc: Blocks, dof: seq<nat>)
    requires matrix.Length0 == 3 && matrix.Length1 == 3
    requires HasShapes(MatrixBlocks(matrix), dof) && HasShapes(cc, dof)
    modifies matrix
    ensures MatrixBlocks(matrix) == BlockAdd(old(MatrixBlocks(matrix)), cc, dof)
  {
    ghost var before := MatrixBlocks(matrix);
    assert forall i, j :: 0 <= i < 3 && 0 <= j < 3 ==> matrix[i, j] == before[i][j];
    forall i, j | 0 <= i < 3 && 0 <= j < 3 {
      matrix[i, j] := Add(matrix[i, j], cc[i][j]);
    }
    BlocksEqual(MatrixBlocks(matrix), BlockAdd(before, cc, dof));
  }

  /** Stores the blocks of `b` into the caller's block array. */
  method Overwrite(matrix: array2<Mat>, b: Blocks)
    requires matrix.Length0 == 3 && matrix.Length1 == 3
    requires |b| == 3 && forall i :: 0 <= i < 3 ==> |b[i]| == 3
    modifies matrix
    ensures MatrixBlocks(matrix) == b
  {
    forall i, j | 0 <= i < 3 && 0 <= j < 3 {
      matrix[i, j] := b[i][j];
    }
    BlocksEqual(MatrixBlocks(matrix), b);
  }

  /** Two 3x3 block matrices with equal blocks are equal. */
  lemma BlocksEqual(a: Blocks, b: Blocks)
    requires |a| == 3 && |b| == 3
    requires forall i :: 0 <= i < 3 ==> |a[i]| == 3 && |b[i]| == 3
    requires forall i, j :: 0 <= i < 3 && 0 <= j < 3 ==> a[i][j] == b[i][j]
    ensures a == b
  {
    forall i | 0 <= i < 3
      ensures a[i] == b[i]
    {
      assert forall j :: 0 <= j < 3 ==> a[i][j] == b[i][j];
    }
  }

  class RobinCoupling {
    const keyword: string

    constructor (keyword: string)
      ensures this.keyword == keyword
    {
      this.keyword := keyword;
    }

    /** `_key`: the keyword followed by an underscore. */
    function Key(): (k: string)
      ensures |k| == |keyword| + 1 && k[..|keyword|] == keyword && k[|keyword|] == '_'
    {
      keyword + "_"
    }

    /** `_discretization_key`: where each subdomain stores its discretization. */
    function DiscretizationKey(): (k: string)
      ensures |k| == |Key()| + |DISCRETIZATION| && k[..|Key()|] == Key() && k[|Key()|..] == DISCRETIZATION
    {
      Key() + DISCRETIZATION
    }

    /** Where the edge data caches the Robin operator; never the same key as
        the subdomains' discretization key. */
    function RobinKey(): (k: string)
      ensures |k| == |Key()| + 11 && k[..|Key()|] == Key() && k[|Key()|..] == "Robin_discr"
      ensures k != DiscretizationKey()
    {
      Key() + "Robin_discr"
    }

    /** `ndof`: one unknown per mortar cell, as many as the mortar grid has
        volumes and projection rows. */
    function Ndof(mg: MortarGrid): (n: nat)
      ensures mg.Valid() ==> n == |mg.cellVolumes| && n == mg.masterToMortarAvg.rows
    {
      mg.numCells
    }

    /** `discretize`: computes the Robin operator from the grid and data in
        the first positions and stores it under the Robin key, the only entry
        of the edge data it writes. An exception leaves the data as it was.
        Returns the stored operator or the error raised. */
    method Discretize(gH: Grid, gL: Grid, dataH: SubdomainData, dataL: SubdomainData, edge: EdgeData)
      returns (outcome: Result<Mat>)
      requires gH.Valid() && edge.mortarGrid.Valid()
      modifies edge
      ensures outcome == RobinOperator(gH, dataH.aperture, edge.mortarGrid, edge.kn)
      ensures outcome.Ok? ==> edge.operators == old(edge.operators)[RobinKey() := outcome.value]
      ensures outcome.Err? ==> edge.operators == old(edge.operators)
    {
      outcome := RobinOperator(gH, dataH.aperture, edge.mortarGrid, edge.kn);
      if outcome.Ok? {
        edge.operators := edge.operators[RobinKey() := outcome.value];
      }
    }

    /** The dimension check, the swap, the lookup of both sides'
        discretizations (KeyError when absent) and the block sizes
        `[dof_master, dof_slave, mg.num_cells]`. */
    function Arrange(gMaster: Grid, gSlave: Grid, dataMaster: SubdomainData, dataSlave: SubdomainData,
                     mg: MortarGrid): (r: Result<Arrangement>)
      ensures Place(gMaster, gSlave, dataMaster, dataSlave).Err? ==> r == Err(Place(gMaster, gSlave, dataMaster, dataSlave).error)
      ensures r.Ok? ==>
                var p := Place(gMaster, gSlave, dataMaster, dataSlave);
                && p.Ok? && r.value.placement == p.value
                && DiscretizationKey() in p.value.dataH.discretizations
                && DiscretizationKey() in p.value.dataL.discretizations
                && r.value.master == p.value.dataH.discretizations[DiscretizationKey()]
                && r.value.slave == p.value.dataL.discretizations[DiscretizationKey()]
                && r.value.dof == [r.value.master.ndof(p.value.gH), r.value.slave.ndof(p.value.gL), Ndof(mg)]
      ensures r.Err? && Place(gMaster, gSlave, dataMaster, dataSlave).Ok? ==> r.error == KeyError(DiscretizationKey())
      ensures Place(gMaster, gSlave, dataMaster, dataSlave).Ok? ==>
                var p := Place(gMaster, gSlave, dataMaster, dataSlave).value;
                (r.Ok? <==> DiscretizationKey() in p.dataH.discretizations && DiscretizationKey() in p.dataL.discretizations)
    {
      match Place(gMaster, gSlave, dataMaster, dataSlave)
      case Err(e) => Err(e)
      case Ok(p) =>
        if DiscretizationKey() !in p.dataH.discretizations then Err(KeyError(DiscretizationKey()))
        else if DiscretizationKey() !in p.dataL.discretizations then Err(KeyError(DiscretizationKey()))
        else
          var master := p.dataH.discretizations[DiscretizationKey()];
          var slave := p.dataL.discretizations[DiscretizationKey()];
          Ok(Arrangement(p, master, slave, [master.ndof(p.gH), slave.ndof(p.gL), Ndof(mg)]))
    }

    /** `assemble_matrix_rhs`. The Robin operator is discretized, with the
        caller's argument order, only when the edge data lacks it; a cached
        one is used unchanged. The neighbours are then ordered by dimension,
        `cc` is built and passed through the side callbacks, added block by
        block into the caller's matrix, and the higher side enforces its
        Neumann condition. The right-hand side is zero. */
    method AssembleMatrixRhs(gMaster: Grid, gSlave: Grid, dataMaster: SubdomainData, dataSlave: SubdomainData,
                             edge: EdgeData, matrix: array2<Mat>)
      returns (rhs: Result<seq<seq<real>>>)
      requires gMaster.Valid() && edge.mortarGrid.Valid()
      requires matrix.Length0 == 3 && matrix.Length1 == 3
      requires RobinKey() in edge.operators ==> RobinShaped(edge.operators[RobinKey()], edge.mortarGrid)
      requires SidePreservesShapes(dataMaster, DiscretizationKey()) && SidePreservesShapes(dataSlave, DiscretizationKey())
      requires Arrange(gMaster, gSlave, dataMaster, dataSlave, edge.mortarGrid).Ok? ==>
                 HasShapes(MatrixBlocks(matrix), Arrange(gMaster, gSlave, dataMaster, dataSlave, edge.mortarGrid).value.dof)
      modifies edge, matrix
      ensures old(RobinKey() in edge.operators) ==> edge.operators == old(edge.operators)
      ensures old(RobinKey() !in edge.operators) ==>
                edge.operators == match RobinOperator(gMaster, dataMaster.aperture, edge.mortarGrid, edge.kn)
                                  case Ok(op) => old(edge.operators)[RobinKey() := op]
                                  case Err(_) => old(edge.operators)
      ensures old(RobinKey() !in edge.operators) && RobinOperator(gMaster, dataMaster.aperture, edge.mortarGrid, edge.kn).Err? ==>
                rhs == Err(RobinOperator(gMaster, dataMaster.aperture, edge.mortarGrid, edge.kn).error)
      ensures RobinKey() in edge.operators ==>
                (rhs.Ok? <==> Arrange(gMaster, gSlave, dataMaster, dataSlave, edge.mortarGrid).Ok?)
      ensures RobinKey() in edge.operators && Arrange(gMaster, gSlave, dataMaster, dataSlave, edge.mortarGrid).Err? ==>
                rhs == Err(Arrange(gMaster, gSlave, dataMaster, dataSlave, edge.mortarGrid).error)
      ensures rhs.Err? ==> MatrixBlocks(matrix) == old(MatrixBlocks(matrix))
      ensures rhs.Ok? ==>
                var a := Arrange(gMaster, gSlave, dataMaster, dataSlave, edge.mortarGrid).value;
                && RobinKey() in edge.operators
                && rhs.value == ZeroRhs(a.dof)
                && HasShapes(MatrixBlocks(matrix), a.dof)
                && MatrixBlocks(matrix) == a.master.enforceNeumannIntBound(a.placement.gH,
                     BlockAdd(old(MatrixBlocks(matrix)), CouplingBlocks(a, edge.operators[RobinKey()]), a.dof))
    {
      var mg := edge.mortarGrid;
      if RobinKey() !in edge.operators {
        var discretized := Discretize(gMaster, gSlave, dataMaster, dataSlave, edge);
        if discretized.Err? {
          return Err(discretized.error);
        }
      }
      if gMaster.dim == gSlave.dim {
        return Err(AssertionFailed("g_master.dim != g_slave.dim"));
      }
      var gridSwap := gMaster.dim < gSlave.dim;
      var gM, gS, dM, dS := gMaster, gSlave, dataMaster, dataSlave;
      if gridSwap {
        gM, gS := gS, gM;
        dM, dS := dS, dM;
      }
      if DiscretizationKey() !in dM.discretizations {
        return Err(KeyError(DiscretizationKey()));
      }
      var discrMaster := dM.discretizations[DiscretizationKey()];
      if DiscretizationKey() !in dS.discretizations {
        return Err(KeyError(DiscretizationKey()));
      }
      var discrSlave := dS.discretizations[DiscretizationKey()];

      var dof := [discrMaster.ndof(gM), discrSlave.ndof(gS), Ndof(mg)];
      ghost var a := Arrange(gMaster, gSlave, dataMaster, dataSlave, mg).value;
      assert a.dof == dof && a.master == discrMaster && a.slave == discrSlave;
      var cc := InitialBlocks(dof, edge.operators[RobinKey()]);
      cc := discrMaster.intBoundPressureTrace(gM, gridSwap, cc);
      cc := discrMaster.intBoundFlux(gM, gridSwap, cc);
      cc := discrSlave.intBoundPressureCell(gS, gridSwap, cc);
      cc := discrSlave.intBoundSource(gS, gridSwap, cc);
      assert cc == CouplingBlocks(a, edge.operators[RobinKey()]);
      assert HasShapes(cc, dof);

      AddInPlace(matrix, cc, dof);
      var enforced := discrMaster.enforceNeumannIntBound(gM, MatrixBlocks(matrix));
      assert HasShapes(enforced, dof);
      Overwrite(matrix, enforced);
      rhs := Ok(ZeroRhs(dof));
    }
  }

  /** An interface without mortar cells contributes empty mortar blocks and
      an empty mortar right-hand side. */
  lemma EmptyInterface(a: Arrangement, robin: Mat, mg: MortarGrid)
    requires |a.dof| == 3 && a.dof[2] == 0
    requires PreservesShapes(a.master) && PreservesShapes(a.slave) && robin.Valid() && robin.rows == 0 && robin.cols == 0
    ensures ZeroRhs(a.dof)[2] == []
    ensures forall j :: 0 <= j < 3 ==> CouplingBlocks(a, robin)[2][j].rows == 0 && CouplingBlocks(a, robin)[j][2].cols == 0
  {
  }
}
