/** The array-shaping parts of the single-phase mass-balance model: the zero
    source term, the boundary values of mobility times density, the Dirichlet
    boundary conditions, and the per-grid `darcy_flux` parameters that the
    solution strategy seeds and refreshes. */
module FluidMassBalance {
  import opened Common
  import opened Grids

  // ----- Source term and boundary arrays -----

  /** `fluid_source`: one zero per cell of every subdomain, in subdomain
      order; empty for no subdomains. */
  function FluidSource(sds: seq<Grid>): (source: seq<real>)
    ensures |source| == TotalCells(sds)
    ensures forall i :: 0 <= i < |source| ==> source[i] == 0.0
  {
    ZeroVector(TotalCells(sds))
  }

  /** The source of a list of subdomains is the sources of its parts laid end
      to end, matching the cell numbering of the mixed-dimensional grid. */
  lemma FluidSourceConcat(a: seq<Grid>, b: seq<Grid>)
    ensures FluidSource(a + b) == FluidSource(a) + FluidSource(b)
  {
    TotalCellsConcat(a, b);
  }

  /** `bc_values_darcy_flux`: one zero per face of every subdomain. */
  function BcValuesDarcyFlux(sds: seq<Grid>): (vals: seq<real>)
    ensures |vals| == TotalFaces(sds)
    ensures forall i :: 0 <= i < |vals| ==> vals[i] == 0.0
  {
    ZeroVector(TotalFaces(sds))
  }

  /** One subdomain's block of `bc_values_mobrho`, given the evaluated ratio
      of density to viscosity: zero on faces off the domain boundary; on
      boundary faces the scalar itself, or the cell values carried to the
      faces through `abs(cell_faces)`. A cell array of the wrong length fails
      the assertion. */
  function BoundaryBlock(sd: Grid, rhoByMu: Field): (r: Result<seq<real>>)
    requires sd.Valid()
    ensures r.Ok? <==> rhoByMu.Scalar? || |rhoByMu.values| == sd.numCells
    ensures r.Err? ==> r.error.AssertionFailed?
    ensures r.Ok? ==> |r.value| == sd.numFaces
    ensures r.Ok? ==> forall f: nat :: f < sd.numFaces && f !in sd.domainBoundaryFaces ==> r.value[f] == 0.0
    ensures r.Ok? && rhoByMu.Scalar? ==>
              forall f: nat :: f < sd.numFaces && f in sd.domainBoundaryFaces ==> r.value[f] == rhoByMu.value
  {
    match rhoByMu
    case Scalar(x) =>
      Ok(seq(sd.numFaces, f requires 0 <= f < sd.numFaces =>
               if f in sd.domainBoundaryFaces then x else 0.0))
    case CellWise(v) =>
      if |v| != sd.numCells then Err(AssertionFailed("rho_by_mu.shape == (sd.num_cells,)"))
      else
        Ok(seq(sd.numFaces, f requires 0 <= f < sd.numFaces =>
                 if f in sd.domainBoundaryFaces then Trace(sd.cellFaces, v, f) else 0.0))
  }

  /** With a cell-wise ratio, a boundary face that has a single adjacent cell
      (one entry of unit orientation) receives that cell's value. */
  lemma BoundaryBlockSingleNeighbour(sd: Grid, v: seq<real>, k: nat)
    requires sd.Valid() && |v| == sd.numCells
    requires k < |sd.cellFaces| && Abs(sd.cellFaces[k].sign) == 1.0
    requires forall j :: 0 <= j < |sd.cellFaces| && j != k ==> sd.cellFaces[j].face != sd.cellFaces[k].face
    requires sd.cellFaces[k].face in sd.domainBoundaryFaces
    ensures BoundaryBlock(sd, CellWise(v)).Ok?
    ensures BoundaryBlock(sd, CellWise(v)).value[sd.cellFaces[k].face] == v[sd.cellFaces[k].cell]
  {
    assert sd.cellFaces[k] in sd.cellFaces;
    TraceSingleNeighbour(sd.cellFaces, v, k);
  }

  /** The blocks of `bc_values_mobrho`, one per subdomain in order; the first
      subdomain whose block fails fails the whole. */
  function BlockList(sds: seq<Grid>, ratios: seq<Field>): (r: Result<seq<seq<real>>>)
    requires |ratios| == |sds| && forall k :: 0 <= k < |sds| ==> sds[k].Valid()
    ensures r.Ok? ==> |r.value| == |sds|
    ensures r.Err? ==> r.error.AssertionFailed?
  {
    if sds == [] then Ok([])
    else
      match BlockList(sds[..|sds| - 1], ratios[..|ratios| - 1])
      case Err(e) => Err(e)
      case Ok(blocks) =>
        match BoundaryBlock(sds[|sds| - 1], ratios[|ratios| - 1])
        case Err(e) => Err(e)
        case Ok(block) => Ok(blocks + [block])
  }

  /** The list succeeds exactly when every subdomain's block does, and then
      holds those blocks in subdomain order. */
  lemma {:induction false} BlockListSpec(sds: seq<Grid>, ratios: seq<Field>)
    requires |ratios| == |sds| && forall k :: 0 <= k < |sds| ==> sds[k].Valid()
    ensures BlockList(sds, ratios).Ok? <==> forall k :: 0 <= k < |sds| ==> BoundaryBlock(sds[k], ratios[k]).Ok?
    ensures BlockList(sds, ratios).Ok? ==>
              var blocks := BlockList(sds, ratios).value;
              |blocks| == |sds| && forall k :: 0 <= k < |sds| ==> blocks[k] == BoundaryBlock(sds[k], ratios[k]).value
    ensures BlockList(sds, ratios).Err? ==> BlockList(sds, ratios).error.AssertionFailed?
  {
    if sds != [] {
      var n := |sds| - 1;
      BlockListSpec(sds[..n], ratios[..n]);
      assert forall k :: 0 <= k < n ==> sds[..n][k] == sds[k] && ratios[..n][k] == ratios[k];
    }
  }

  /** `np.hstack`: the blocks laid end to end. */
  function Hstack(blocks: seq<seq<real>>): seq<real>
  {
    if blocks == [] then [] else Hstack(blocks[..|blocks| - 1]) + blocks[|blocks| - 1]
  }

  /** Stacking blocks of one subdomain's face count each gives one entry per
      face of all the subdomains. */
  lemma {:induction false} HstackLength(blocks: seq<seq<real>>, sds: seq<Grid>)
    requires |blocks| == |sds| && forall k :: 0 <= k < |sds| ==> |blocks[k]| == sds[k].numFaces
    ensures |Hstack(blocks)| == TotalFaces(sds)
  {
    if sds != [] {
      var n := |sds| - 1;
      HstackLength(blocks[..n], sds[..n]);
      TotalFacesConcat(sds[..n], [sds[n]]);
      assert sds[..n] + [sds[n]] == sds;
      assert TotalFaces([sds[n]]) == sds[n].numFaces;
    }
  }

  /** Entry `f` of block `k` sits in the stack right after the first `k`
      blocks. */
  lemma {:induction false} HstackAt(blocks: seq<seq<real>>, k: nat, f: nat)
    requires k < |blocks| && f < |blocks[k]|
    ensures |Hstack(blocks[..k])| + f < |Hstack(blocks)|
    ensures Hstack(blocks)[|Hstack(blocks[..k])| + f] == blocks[k][f]
  {
    var n := |blocks| - 1;
    assert blocks[..n][..k] == blocks[..k] by {
      if k < n {} 
    }
    if k == n {
      assert blocks[..k] == blocks[..n];
    } else {
      HstackAt(blocks[..n], k, f);
      assert blocks[..n][k] == blocks[k];
    }
  }

  /** The value `bc_values_mobrho` returns: the stacked blocks, or the
      error raised; stacking no blocks at all is itself an error. */
  function BcValues(sds: seq<Grid>, ratios: seq<Field>): (r: Result<seq<real>>)
    requires |ratios| == |sds| && forall k :: 0 <= k < |sds| ==> sds[k].Valid()
    ensures r.Ok? ==> sds != []
    ensures r.Err? ==> r.error.AssertionFailed? || r.error == EmptyConcatenation
    ensures sds == [] ==> r == Err(EmptyConcatenation)
  {
    match BlockList(sds, ratios)
    case Err(e) => Err(e)
    case Ok(blocks) => if blocks == [] then Err(EmptyConcatenation) else Ok(Hstack(blocks))
  }

  /** `bc_values_mobrho` succeeds exactly when there is a subdomain and every
      cell-wise ratio has one value per cell, and then has one entry per face
      of all the subdomains. */
  lemma BcValuesShape(sds: seq<Grid>, ratios: seq<Field>)
    requires |ratios| == |sds| && forall k :: 0 <= k < |sds| ==> sds[k].Valid()
    ensures BcValues(sds, ratios).Ok? <==>
              sds != [] && forall k :: 0 <= k < |sds| ==> ratios[k].Scalar? || |ratios[k].values| == sds[k].numCells
    ensures BcValues(sds, ratios).Ok? ==> |BcValues(sds, ratios).value| == TotalFaces(sds)
  {
    BlockListSpec(sds, ratios);
    if BlockList(sds, ratios).Ok? {
      HstackLength(BlockList(sds, ratios).value, sds);
    }
  }

  /** Face `f` of subdomain `k` sits at the offset of all faces of the
      subdomains before it, and holds that subdomain's block entry. */
  lemma BcValuesAt(sds: seq<Grid>, ratios: seq<Field>, k: nat, f: nat)
    requires |ratios| == |sds| && forall j :: 0 <= j < |sds| ==> sds[j].Valid()
    requires BcValues(sds, ratios).Ok? && k < |sds| && f < sds[k].numFaces
    ensures BoundaryBlock(sds[k], ratios[k]).Ok?
    ensures TotalFaces(sds[..k]) + f < |BcValues(sds, ratios).value|
    ensures BcValues(sds, ratios).value[TotalFaces(sds[..k]) + f] == BoundaryBlock(sds[k], ratios[k]).value[f]
  {
    BlockListSpec(sds, ratios);
    var blocks := BlockList(sds, ratios).value;
    var pre, sdsPre := blocks[..k], sds[..k];
    assert |pre| == |sdsPre| == k;
    forall j | 0 <= j < k
      ensures |pre[j]| == sdsPre[j].numFaces
    {
      assert pre[j] == blocks[j] && sdsPre[j] == sds[j];
    }
    HstackLength(pre, sdsPre);
    HstackAt(blocks, k, f);
    assert BcValues(sds, ratios).value == Hstack(blocks);
    assert Hstack(blocks)[TotalFaces(sds[..k]) + f] == blocks[k][f];
    var block := BoundaryBlock(sds[k], ratios[k]);
    assert block.Ok? && block.value == blocks[k];
    assert |block.value| == sds[k].numFaces;
  }

  /** A failing prefix makes the whole list fail with the same error. */
  lemma {:induction false} BlockListPrefixErr(sds: seq<Grid>, ratios: seq<Field>, i: nat)
    requires |ratios| == |sds| && forall k :: 0 <= k < |sds| ==> sds[k].Valid()
    requires i <= |sds| && BlockList(sds[..i], ratios[..i]).Err?
    ensures BlockList(sds, ratios) == BlockList(sds[..i], ratios[..i])
    decreases |sds| - i
  {
    if i < |sds| {
      var m := i + 1;
      assert sds[..m][..i] == sds[..i] && ratios[..m][..i] == ratios[..i];
      assert BlockList(sds[..m], ratios[..m]) == BlockList(sds[..i], ratios[..i]);
      BlockListPrefixErr(sds, ratios, m);
    } else {
      assert sds[..i] == sds && ratios[..i] == ratios;
    }
  }

  /** `bc_values_mobrho`: loops over the subdomains, fills a zero face array
      per subdomain on its domain-boundary faces, appends it, and stacks the
      arrays; `ratios[k]` is the evaluated density over viscosity of
      subdomain `k`. */
  method BcValuesMobrho(sds: seq<Grid>, ratios: seq<Field>) returns (r: Result<seq<real>>)
    requires |ratios| == |sds| && forall k :: 0 <= k < |sds| ==> sds[k].Valid()
    ensures r == BcValues(sds, ratios)
  {
    var bcValues: seq<seq<real>> := [];
    var i := 0;
    while i < |sds|
      invariant 0 <= i <= |sds|
      invariant BlockList(sds[..i], ratios[..i]) == Ok(bcValues)
      decreases |sds| - i
    {
      var sd := sds[i];
      var vals := new real[sd.numFaces](_ => 0.0);
      assert sds[..i + 1][..i] == sds[..i] && ratios[..i + 1][..i] == ratios[..i];
      match ratios[i] {
      case Scalar(x) =>
        forall f: nat | f < vals.Length && f in sd.domainBoundaryFaces {
          vals[f] := x;
        }
      case CellWise(v) =>
        if |v| != sd.numCells {
          var e := AssertionFailed("rho_by_mu.shape == (sd.num_cells,)");
          assert BlockList(sds[..i + 1], ratios[..i + 1]) == Err(e);
          r := Err(e);
          BlockListPrefixErr(sds, ratios, i + 1);
          return;
        }
        forall f: nat | f < vals.Length && f in sd.domainBoundaryFaces {
          vals[f] := Trace(sd.cellFaces, v, f);
        }
      }
      assert vals[..] == BoundaryBlock(sd, ratios[i]).value;
      bcValues := bcValues + [vals[..]];
      i := i + 1;
    }
    assert sds[..i] == sds && ratios[..i] == ratios;
    if bcValues == [] {
      return Err(EmptyConcatenation);
    }
    r := Ok(Hstack(bcValues));
  }

  // ----- Boundary conditions -----

  /** The face set of a `pp.BoundaryCondition`: which faces are Dirichlet. */
  datatype BoundaryCondition = BoundaryCondition(isDir: seq<bool>)

  /** `pp.BoundaryCondition(sd, faces, "dir")`, as far as its Dirichlet faces. */
  function Dirichlet(sd: Grid, faces: set<nat>): (bc: BoundaryCondition)
    ensures |bc.isDir| == sd.numFaces
    ensures forall f: nat :: f < sd.numFaces ==> (bc.isDir[f] <==> f in faces)
  {
    BoundaryCondition(seq(sd.numFaces, f requires 0 <= f < sd.numFaces => f in faces))
  }

  /** `bc_type_darcy`: exactly the domain-boundary faces are Dirichlet. */
  function BcTypeDarcy(sd: Grid): (bc: BoundaryCondition)
    requires sd.Valid()
    ensures |bc.isDir| == sd.numFaces
    ensures forall f: nat :: f < sd.numFaces ==> (bc.isDir[f] <==> f in sd.domainBoundaryFaces)
    ensures forall f: nat :: f in sd.domainBoundaryFaces ==> f < |bc.isDir| && bc.isDir[f]
  {
    Dirichlet(sd, sd.domainBoundaryFaces)
  }

  /** `bc_type_mobrho`: the same Dirichlet faces as the Darcy problem. */
  function BcTypeMobrho(sd: Grid): (bc: BoundaryCondition)
    requires sd.Valid()
    ensures bc == BcTypeDarcy(sd)
    ensures forall f: nat :: f < sd.numFaces ==> (bc.isDir[f] <==> f in sd.domainBoundaryFaces)
  {
    Dirichlet(sd, sd.domainBoundaryFaces)
  }

  // ----- Parameter bundles -----

  /** A value stored in a parameter dictionary: a numeric array, or any
      other object (boundary conditions, tensors, scalars), which the
      operations here carry along untouched. */
  datatype Param = Vector(values: seq<real>) | Other(name: string)

  /** `data[pp.PARAMETERS]`: one dictionary of fields per keyword. */
  type ParameterBundle = map<string, map<string, Param>>

  /** Stores `value` under `field` in the keyword's dictionary, creating the
      dictionary if needed; nothing else changes. */
  function SetParameter(b: ParameterBundle, keyword: string, field: string, value: Param): (r: ParameterBundle)
    ensures r.Keys == b.Keys + {keyword}
    ensures field in r[keyword] && r[keyword][field] == value
    ensures forall k :: k in b && k != keyword ==> r[k] == b[k]
    ensures keyword in b ==> r[keyword].Keys == b[keyword].Keys + {field}
    ensures keyword in b ==> forall g :: g in b[keyword] && g != field ==> r[keyword][g] == b[keyword][g]
    ensures keyword !in b ==> r[keyword].Keys == {field}
  {
    b[keyword := (if keyword in b then b[keyword] else map[])[field := value]]
  }

  /** The index of the first bundle without parameters under `key`, or the
      number of bundles when every one has them. */
  function FirstWithout(bundles: seq<ParameterBundle>, key: string): (n: nat)
    ensures n <= |bundles|
    ensures forall i :: 0 <= i < n ==> key in bundles[i]
    ensures n < |bundles| ==> key !in bundles[n]
  {
    if bundles == [] || key !in bundles[0] then 0 else 1 + FirstWithout(bundles[1..], key)
  }

  /** A bundle with `vals` stored as its `darcy_flux` parameter under `key`. */
  function WithDarcyFlux(b: ParameterBundle, key: string, vals: seq<real>): (r: ParameterBundle)
    ensures key in r && "darcy_flux" in r[key] && r[key]["darcy_flux"] == Vector(vals)
    ensures r.Keys == b.Keys + {key}
  {
    SetParameter(b, key, "darcy_flux", Vector(vals))
  }

  /** The update loop of `before_nonlinear_iteration` over one kind of grid:
      the bundles are updated in order, and the first one without parameters
      under `key` stops the loop (`ok` false) with the earlier ones updated
      and the rest untouched. */
  method StoreDarcyFluxes(bundles: seq<ParameterBundle>, key: string, fluxes: seq<seq<real>>)
    returns (updated: seq<ParameterBundle>, ok: bool)
    requires |fluxes| == |bundles|
    ensures |updated| == |bundles|
    ensures ok <==> FirstWithout(bundles, key) == |bundles|
    ensures forall i :: 0 <= i < |bundles| ==>
              updated[i] == if i < FirstWithout(bundles, key) then WithDarcyFlux(bundles[i], key, fluxes[i]) else bundles[i]
  {
    updated := bundles;
    var i := 0;
    while i < |bundles|
      invariant 0 <= i <= FirstWithout(bundles, key) && |updated| == |bundles|
      invariant forall j :: 0 <= j < |bundles| ==>
                  updated[j] == if j < i then WithDarcyFlux(bundles[j], key, fluxes[j]) else bundles[j]
    {
      if key !in updated[i] {
        return updated, false;
      }
      updated := updated[i := WithDarcyFlux(updated[i], key, fluxes[i])];
      i := i + 1;
    }
    ok := true;
  }

  /** The solution strategy of the incompressible model together with the
      data it owns: the subdomains and interfaces of the mixed-dimensional
      grid and, per grid, its parameter bundle. */
  class FlowModel {
    const subdomains: seq<Grid>
    const interfaces: seq<MortarGrid>
    const mobilityKey: string := "mobility"
    var subdomainParameters: seq<ParameterBundle>
    var interfaceParameters: seq<ParameterBundle>

    /** One parameter bundle per subdomain and per interface. */
    predicate Valid()
      reads this
    {
      |subdomainParameters| == |subdomains| && |interfaceParameters| == |interfaces|
    }

    constructor (subdomains: seq<Grid>, interfaces: seq<MortarGrid>,
                 subdomainParameters: seq<ParameterBundle>, interfaceParameters: seq<ParameterBundle>)
      requires |subdomainParameters| == |subdomains| && |interfaceParameters| == |interfaces|
      ensures Valid()
      ensures this.subdomains == subdomains && this.interfaces == interfaces
      ensures this.subdomainParameters == subdomainParameters && this.interfaceParameters == interfaceParameters
    {
      this.subdomains := subdomains;
      this.interfaces := interfaces;
      this.subdomainParameters := subdomainParameters;
      this.interfaceParameters := interfaceParameters;
    }

    /** `initial_condition`: every subdomain's mobility parameters get a zero
        `darcy_flux` per face, every interface's a zero per mortar cell. */
    method InitialCondition()
      requires Valid()
      modifies this
      ensures Valid()
      ensures forall i :: 0 <= i < |subdomains| ==>
                subdomainParameters[i] == SetParameter(old(subdomainParameters[i]), mobilityKey, "darcy_flux",
                                                       Vector(ZeroVector(subdomains[i].numFaces)))
      ensures forall i :: 0 <= i < |interfaces| ==>
                interfaceParameters[i] == SetParameter(old(interfaceParameters[i]), mobilityKey, "darcy_flux",
                                                       Vector(ZeroVector(interfaces[i].numCells)))
    {
      var i := 0;
      while i < |subdomains|
        invariant 0 <= i <= |subdomains| && Valid()
        invariant interfaceParameters == old(interfaceParameters)
        invariant forall j :: 0 <= j < i ==>
                    subdomainParameters[j] == SetParameter(old(subdomainParameters[j]), mobilityKey, "darcy_flux",
                                                           Vector(ZeroVector(subdomains[j].numFaces)))
        invariant forall j :: i <= j < |subdomains| ==> subdomainParameters[j] == old(subdomainParameters[j])
      {
        subdomainParameters := subdomainParameters[i := SetParameter(subdomainParameters[i], mobilityKey, "darcy_flux",
                                                                     Vector(ZeroVector(subdomains[i].numFaces)))];
        i := i + 1;
      }
      i := 0;
      while i < |interfaces|
        invariant 0 <= i <= |interfaces| && Valid()
        invariant forall j :: 0 <= j < |subdomains| ==>
                    subdomainParameters[j] == SetParameter(old(subdomainParameters[j]), mobilityKey, "darcy_flux",
                                                           Vector(ZeroVector(subdomains[j].numFaces)))
        invariant forall j :: 0 <= j < i ==>
                    interfaceParameters[j] == SetParameter(old(interfaceParameters[j]), mobilityKey, "darcy_flux",
                                                           Vector(ZeroVector(interfaces[j].numCells)))
        invariant forall j :: i <= j < |interfaces| ==> interfaceParameters[j] == old(interfaceParameters[j])
      {
        interfaceParameters := interfaceParameters[i := SetParameter(interfaceParameters[i], mobilityKey, "darcy_flux",
                                                                     Vector(ZeroVector(interfaces[i].numCells)))];
        i := i + 1;
      }
    }

    /** `before_nonlinear_iteration`: stores the evaluated Darcy flux of each
        subdomain, then of each interface, as its `darcy_flux` mobility
        parameter; `subdomainFluxes[i]` and `interfaceFluxes[i]` are those
        evaluations. Updating a bundle that has no mobility parameters raises
        a KeyError, which leaves the bundles before it updated and the rest
        as they were. */
    method BeforeNonlinearIteration(subdomainFluxes: seq<seq<real>>, interfaceFluxes: seq<seq<real>>)
      returns (r: Result<()>)
      requires Valid()
      requires |subdomainFluxes| == |subdomains| && |interfaceFluxes| == |interfaces|
      modifies this
      ensures Valid()
      ensures r.Ok? <==>
                FirstWithout(old(subdomainParameters), mobilityKey) == |subdomains|
                && FirstWithout(old(interfaceParameters), mobilityKey) == |interfaces|
      ensures r.Err? ==> r.error == KeyError(mobilityKey)
      ensures forall i :: 0 <= i < |subdomains| ==>
                subdomainParameters[i] ==
                  if i < FirstWithout(old(subdomainParameters), mobilityKey)
                  then WithDarcyFlux(old(subdomainParameters[i]), mobilityKey, subdomainFluxes[i])
                  else old(subdomainParameters[i])
      ensures forall i :: 0 <= i < |interfaces| ==>
                interfaceParameters[i] ==
                  if FirstWithout(old(subdomainParameters), mobilityKey) == |subdomains|
                     && i < FirstWithout(old(interfaceParameters), mobilityKey)
                  then WithDarcyFlux(old(interfaceParameters[i]), mobilityKey, interfaceFluxes[i])
                  else old(interfaceParameters[i])
    {
      var ok;
      subdomainParameters, ok := StoreDarcyFluxes(subdomainParameters, mobilityKey, subdomainFluxes);
      if !ok {
        return Err(KeyError(mobilityKey));
      }
      interfaceParameters, ok := StoreDarcyFluxes(interfaceParameters, mobilityKey, interfaceFluxes);
      if !ok {
        return Err(KeyError(mobilityKey));
      }
      r := Ok(());
    }
  }
}
