# Robin interface coupling and single-phase flow helpers (porepy)

This project is a Dafny model of two parts of porepy's mixed-dimensional
single-phase flow code:

- `RobinCoupling` (`elliptic_interface_laws.py`) is the interface law between
  a higher-dimensional subdomain and a lower-dimensional one. It builds a
  diagonal resistance operator on the mortar cells, equal to
  `-inv_M * diag((1 / (2 kn)) / (P * aperture))`. It caches that operator in
  the interface data. It then assembles a 3x3 block coupling into the
  caller's block matrix, with the higher side in row/column 0, the lower side
  in 1 and the mortar variable in 2. The right-hand side is zero.
- The mass-balance mixins (`fluid_mass_balance.py`) contribute:
  - the zero fluid source;
  - the zero Darcy boundary values;
  - the boundary values of density over viscosity, as a scalar broadcast or
    as a cell-to-face trace;
  - the Dirichlet boundary conditions on the domain boundary;
  - the `darcy_flux` parameters that `initial_condition` seeds and
    `before_nonlinear_iteration` refreshes.

Modules:

- `Common`: the error and result types, and cell-wise or scalar fields.
- `LinearAlgebra`: sparse matrices as maps from index pairs to reals.
- `Grids`: grids as lists of (face, cell, orientation) incidences, mortar
  grids, face and cell totals, and the `abs(cell_faces)` trace.
- `EllipticInterfaceLaws`: the coupling itself.
  - `RobinCoupling` and `EdgeData` are classes. The coupling's keyword is
    constant. The interface data's operator map is updated in place.
  - The caller's block matrix is an `array2<Mat>` updated in place.
  - The per-side discretizations are function values stored in the subdomain
    data. They are required to keep block shapes.
- `FluidMassBalance`: the model helpers.
  - `FlowModel` is a class holding one parameter bundle per subdomain and per
    interface.
  - `BcValuesMobrho` is the subdomain loop over freshly allocated face arrays.

Python exceptions are `Err` values of `Common.Error`. They cover failed
assertions, missing dictionary keys, out-of-range indexing, the shape
mismatches of the projected aperture and of `kn`, and an empty `np.hstack`.
The sparse-arithmetic shape errors of `-inv_M * Eta` and `matrix += cc` are
excluded by preconditions instead (see "## Left out"). A zero divisor in the Robin operator
is also an `Err` value (`NonFinite`), although numpy raises nothing there;
"## Left out" says what that costs.

Three behaviours of the code worth knowing:

- `discretize` keeps, for every face of the higher grid, its first
  (face, cell) entry (`np.unique(..., return_index=True)`), whether the face
  has one neighbouring cell or two.
- `assemble_matrix_rhs` calls `discretize` before the dimension check and
  the swap. When the operator is not cached yet, the aperture and face cells
  therefore come from the grid the caller passed first, even if it is the
  lower-dimensional one. So the cached operator depends on the call order.
  `PlaceSymmetric` shows that only the block layout does not.
- `np.hstack` of no arrays raises, so `bc_values_mobrho([])` is an error.

## Model

| member | source | states |
|---|---|---|
| Common.ZeroVector | src/porepy/models/fluid_mass_balance.py:157 | `np.zeros(n)`: length `n`, every entry zero |
| LinearAlgebra.Zeros | src/porepy/numerics/interface_laws/elliptic_interface_laws.py:123 | an empty sparse block has the requested shape and reads zero everywhere |
| LinearAlgebra.Diag | src/porepy/numerics/interface_laws/elliptic_interface_laws.py:68-76 | `sps.diags(d)` is square of size `|d|`, holds `d[i]` at (i, i) and zero elsewhere |
| LinearAlgebra.Add | src/porepy/numerics/interface_laws/elliptic_interface_laws.py:137 | sparse addition of equal shapes is entrywise and keeps the shape |
| LinearAlgebra.MatVec | src/porepy/numerics/interface_laws/elliptic_interface_laws.py:76 | `proj * x` has one entry per row of `proj` |
| LinearAlgebra.RowDotConstant | src/porepy/numerics/interface_laws/elliptic_interface_laws.py:74-76 | applying the projection to a constant vector gives the constant times the row sum, so an averaging projection preserves constants |
| Grids.TotalCells | src/porepy/models/fluid_mass_balance.py:156 | defined as the sum of the subdomains' cell counts; it is at least each one's count, and additive by `TotalCellsConcat` |
| Grids.TotalFaces | src/porepy/models/fluid_mass_balance.py:214 | defined as the sum of the subdomains' face counts; it is at least each one's count, and additive by `TotalFacesConcat` |
| Grids.Trace | src/porepy/models/fluid_mass_balance.py:257-258 | defined as entry `f` of `abs(cell_faces) * v`; non-negative for non-negative cell values, and characterised by `TraceSingleNeighbour` and `TraceAbsent` |
| Grids.TotalCellsConcat | src/porepy/models/fluid_mass_balance.py:156 | the cell total of two subdomain lists laid end to end is the sum of their totals |
| Grids.TotalFacesConcat | src/porepy/models/fluid_mass_balance.py:214 | the face total of two subdomain lists laid end to end is the sum of their totals |
| Grids.TraceSingleNeighbour | src/porepy/models/fluid_mass_balance.py:257-258 | `abs(cell_faces) * v` at a face with a single unit-orientation entry is that cell's value |
| Grids.TraceAbsent | src/porepy/models/fluid_mass_balance.py:257-258 | `abs(cell_faces) * v` at a face with no incidence is zero |
| EllipticInterfaceLaws.FirstIndex | src/porepy/numerics/interface_laws/elliptic_interface_laws.py:64-65 | the position returned holds face `f`, and no earlier position does |
| EllipticInterfaceLaws.UniqueFirstIndices | src/porepy/numerics/interface_laws/elliptic_interface_laws.py:65 | defined as the first position of each face below `n`, face by face; it selects at most one position per face, and is characterised by `UniqueFirstIndicesSpec` |
| EllipticInterfaceLaws.UniqueFirstIndicesFirst | src/porepy/numerics/interface_laws/elliptic_interface_laws.py:65 | every index `np.unique(..., return_index=True)` returns is the first occurrence of its face |
| EllipticInterfaceLaws.UniqueFirstIndicesAscending | src/porepy/numerics/interface_laws/elliptic_interface_laws.py:65 | the selected entries are in strictly ascending face order, so no face is selected twice |
| EllipticInterfaceLaws.UniqueFirstIndicesCovers | src/porepy/numerics/interface_laws/elliptic_interface_laws.py:65 | every face that occurs among the incidences is selected |
| EllipticInterfaceLaws.UniqueFirstIndicesSpec | src/porepy/numerics/interface_laws/elliptic_interface_laws.py:64-66 | deduplication keeps exactly one entry per distinct face: its first, in ascending face order |
| EllipticInterfaceLaws.FaceCells | src/porepy/numerics/interface_laws/elliptic_interface_laws.py:64-66 | `cells_h` only names cells of the higher grid |
| EllipticInterfaceLaws.ProjectedAperture | src/porepy/numerics/interface_laws/elliptic_interface_laws.py:72-76 | `proj * aperture_h[cells_h]` has one value per mortar cell; indexing past the aperture is an IndexError and a column mismatch is a shape error |
| EllipticInterfaceLaws.KnFits | src/porepy/numerics/interface_laws/elliptic_interface_laws.py:71-76 | defined as numpy broadcasting of `inv_k` against the mortar cells: a scalar, one value per mortar cell, or a single value; anything else is the shape error of `RobinOperator` |
| EllipticInterfaceLaws.KnAt | src/porepy/numerics/interface_laws/elliptic_interface_laws.py:71-76 | the `kn` a mortar cell sees after broadcasting: the scalar itself, one of the given values, and the cell's own value when there is one per cell |
| EllipticInterfaceLaws.InverseResistance | src/porepy/numerics/interface_laws/elliptic_interface_laws.py:68-80 | each diagonal entry times `volume * 2 kn * aperture` is -1: it is minus the inverse of the mortar cell's resistance, and negative for positive data |
| EllipticInterfaceLaws.RobinOperator | src/porepy/numerics/interface_laws/elliptic_interface_laws.py:61-80 | the operator is diagonal and square on the mortar cells, with minus the inverse resistance of each cell; errors of the projected aperture propagate; a `kn` that does not broadcast is a shape error; a zero volume, `kn` or projected aperture is non-finite |
| EllipticInterfaceLaws.UniformRobinOperator | src/porepy/numerics/interface_laws/elliptic_interface_laws.py:68-80 | with unit aperture, an averaging projection, equal volumes `v` and scalar `kn > 0`, every entry is `-1 / (2 kn v)` |
| EllipticInterfaceLaws.Place | src/porepy/numerics/interface_laws/elliptic_interface_laws.py:104-108 | equal dimensions fail the assertion; otherwise slot 0 holds the strictly higher-dimensional grid, with grids and data swapped together exactly when the caller passed the lower one first |
| EllipticInterfaceLaws.PlaceSymmetric | src/porepy/numerics/interface_laws/elliptic_interface_laws.py:104-108 | exchanging the two neighbours gives the same block layout with the swap flag flipped |
| EllipticInterfaceLaws.InitialBlocks | src/porepy/numerics/interface_laws/elliptic_interface_laws.py:122-129 | `cc` is 3x3 with zero blocks of shape (dof[i], dof[j]) and the Robin operator in block (2, 2) |
| EllipticInterfaceLaws.ApplySideCouplings | src/porepy/numerics/interface_laws/elliptic_interface_laws.py:131-135 | the four side callbacks, higher side first, keep every block shape when each side keeps shapes |
| EllipticInterfaceLaws.BlockAdd | src/porepy/numerics/interface_laws/elliptic_interface_laws.py:137 | `matrix += cc` adds block by block and keeps the block shapes |
| EllipticInterfaceLaws.ZeroRhs | src/porepy/numerics/interface_laws/elliptic_interface_laws.py:141 | the right-hand side has three zero vectors of the block sizes |
| EllipticInterfaceLaws.CouplingBlocks | src/porepy/numerics/interface_laws/elliptic_interface_laws.py:122-135 | the coupling blocks after the callbacks have the block shapes `dof` whenever the Robin operator is mortar-square |
| EllipticInterfaceLaws.AddInPlace | src/porepy/numerics/interface_laws/elliptic_interface_laws.py:137 | the caller's block array afterwards holds the block sum of its old value and `cc` |
| EllipticInterfaceLaws.Overwrite | src/porepy/numerics/interface_laws/elliptic_interface_laws.py:139 | the caller's block array afterwards holds the blocks the Neumann enforcement produced |
| EllipticInterfaceLaws.EdgeData.constructor | src/porepy/numerics/interface_laws/elliptic_interface_laws.py:62-80 | the interface data holds the mortar grid and `kn` the coupling reads, and the operator map it writes |
| EllipticInterfaceLaws.RobinCoupling.constructor | src/porepy/numerics/interface_laws/elliptic_interface_laws.py:32-33 | the coupling keeps its keyword |
| EllipticInterfaceLaws.RobinCoupling.Key | src/porepy/numerics/interface_laws/elliptic_interface_laws.py:35-36 | the key is the keyword followed by one underscore |
| EllipticInterfaceLaws.RobinCoupling.DiscretizationKey | src/porepy/numerics/interface_laws/elliptic_interface_laws.py:38-39 | the discretization key is the key followed by the discretization keyword |
| EllipticInterfaceLaws.RobinCoupling.RobinKey | src/porepy/numerics/interface_laws/elliptic_interface_laws.py:80 | the cache key is the key followed by `Robin_discr`, and never collides with the discretization key |
| EllipticInterfaceLaws.RobinCoupling.Ndof | src/porepy/numerics/interface_laws/elliptic_interface_laws.py:41-42 | one unknown per mortar cell, as many as the mortar volumes and projection rows |
| EllipticInterfaceLaws.RobinCoupling.Discretize | src/porepy/numerics/interface_laws/elliptic_interface_laws.py:44-80 | on success the Robin operator is stored under the cache key and no other entry changes; on an exception nothing changes |
| EllipticInterfaceLaws.RobinCoupling.Arrange | src/porepy/numerics/interface_laws/elliptic_interface_laws.py:104-122 | after the placement, both sides' discretizations are looked up (KeyError when absent) and the block sizes are `[ndof(H), ndof(L), mortar cells]` |
| EllipticInterfaceLaws.RobinCoupling.AssembleMatrixRhs | src/porepy/numerics/interface_laws/elliptic_interface_laws.py:83-142 | a cached operator is reused unchanged, otherwise it is discretized first; every error leaves the matrix as it was; on success the matrix is the higher side's Neumann enforcement applied to old matrix plus coupling blocks, and the right-hand side is zero of the block sizes |
| EllipticInterfaceLaws.EmptyInterface | src/porepy/numerics/interface_laws/elliptic_interface_laws.py:122-141 | an interface without mortar cells gives an empty mortar right-hand side and mortar blocks with no rows or columns |
| FluidMassBalance.FluidSource | src/porepy/models/fluid_mass_balance.py:146-159 | the source has one zero per cell of all subdomains |
| FluidMassBalance.FluidSourceConcat | src/porepy/models/fluid_mass_balance.py:156-159 | the source of concatenated subdomain lists is the concatenation of their sources |
| FluidMassBalance.BcValuesDarcyFlux | src/porepy/models/fluid_mass_balance.py:203-215 | one zero per face of all subdomains |
| FluidMassBalance.BoundaryBlock | src/porepy/models/fluid_mass_balance.py:248-258 | one value per face: zero off the domain boundary, the scalar on it; a cell array of the wrong length fails the assertion |
| FluidMassBalance.BoundaryBlockSingleNeighbour | src/porepy/models/fluid_mass_balance.py:257-258 | a boundary face with one unit-orientation neighbour takes that cell's value |
| FluidMassBalance.BlockList | src/porepy/models/fluid_mass_balance.py:236-261 | defined as the per-subdomain blocks in order, or the first block's error; on success one block per subdomain, and every error is an assertion failure; characterised by `BlockListSpec` |
| FluidMassBalance.BlockListSpec | src/porepy/models/fluid_mass_balance.py:236-261 | the per-subdomain blocks are all computed, in order, exactly when each one succeeds; a failure is an assertion failure |
| FluidMassBalance.BlockListPrefixErr | src/porepy/models/fluid_mass_balance.py:236-261 | the first failing subdomain's error is the whole loop's error |
| FluidMassBalance.Hstack | src/porepy/models/fluid_mass_balance.py:263 | defined as the blocks laid end to end; characterised by `HstackLength` and `HstackAt` |
| FluidMassBalance.HstackLength | src/porepy/models/fluid_mass_balance.py:263 | stacking one face array per subdomain gives one entry per face of all subdomains |
| FluidMassBalance.HstackAt | src/porepy/models/fluid_mass_balance.py:263 | entry `f` of block `k` lands right after the first `k` blocks |
| FluidMassBalance.BcValues | src/porepy/models/fluid_mass_balance.py:236-264 | defined as the stacked blocks, or the first error; no subdomains is the empty-`hstack` error, and every other error is an assertion failure; characterised by `BcValuesShape` and `BcValuesAt` |
| FluidMassBalance.BcValuesShape | src/porepy/models/fluid_mass_balance.py:217-264 | the boundary values exist exactly when there is a subdomain and every cell-wise ratio has one value per cell, and then have one entry per face of all subdomains |
| FluidMassBalance.BcValuesAt | src/porepy/models/fluid_mass_balance.py:236-263 | face `f` of subdomain `k` sits at the face offset of the subdomains before it and holds that subdomain's block value |
| FluidMassBalance.BcValuesMobrho | src/porepy/models/fluid_mass_balance.py:217-264 | the subdomain loop over zero face arrays returns the stacked blocks, or the first error |
| FluidMassBalance.Dirichlet | src/porepy/models/fluid_mass_balance.py:452 | a face is Dirichlet exactly when it is in the given face set |
| FluidMassBalance.BcTypeDarcy | src/porepy/models/fluid_mass_balance.py:440-452 | exactly the domain-boundary faces are Dirichlet |
| FluidMassBalance.BcTypeMobrho | src/porepy/models/fluid_mass_balance.py:454-466 | the same condition as the Darcy problem: exactly the domain-boundary faces are Dirichlet |
| FluidMassBalance.SetParameter | src/porepy/models/fluid_mass_balance.py:375-380 | the field is stored under the keyword; every other keyword and field is unchanged |
| FluidMassBalance.FirstWithout | src/porepy/models/fluid_mass_balance.py:474-484 | the bundles before the returned index have the keyword and the bundle at it does not |
| FluidMassBalance.WithDarcyFlux | src/porepy/models/fluid_mass_balance.py:476-478 | the bundle holds the given flux as its `darcy_flux` under the keyword |
| FluidMassBalance.StoreDarcyFluxes | src/porepy/models/fluid_mass_balance.py:474-484 | bundles are updated in order up to the first one lacking the keyword, which stops the loop; later ones are untouched |
| FluidMassBalance.FlowModel.constructor | src/porepy/models/fluid_mass_balance.py:360-366 | the model keeps its grids and one parameter bundle per grid; the mobility keyword of line 366 is a constant field |
| FluidMassBalance.FlowModel.InitialCondition | src/porepy/models/fluid_mass_balance.py:368-387 | every subdomain gets a zero `darcy_flux` per face and every interface one per mortar cell, under the mobility keyword; nothing else changes |
| FluidMassBalance.FlowModel.BeforeNonlinearIteration | src/porepy/models/fluid_mass_balance.py:468-484 | subdomains, then interfaces, get the evaluated flux as `darcy_flux`; a bundle without mobility parameters raises a KeyError that leaves earlier bundles updated and later ones unchanged |

## Left out

- Automatic-differentiation operators are not modelled: `mass_balance_equation`, `fluid_mass`, `fluid_flux`, `interface_fluid_flux`, `mobility` and the discretization wrappers. The model works on the arrays these wrap.
- Variable creation, `set_equations`, `set_discretization_parameters`, the exporter and the time manager are not modelled. They are the equation system's bookkeeping and I/O.
- The evaluation of `darcy_flux`, `interface_darcy_flux`, density and viscosity through the equation system is not modelled. Their values are inputs to `BcValuesMobrho` and `FlowModel.BeforeNonlinearIteration`.
- The bodies of the per-side callbacks (`assemble_int_bound_*`, `enforce_neumann_int_bound`) and `ndof` belong to discretization classes that are not part of this model. They are function values that keep block shapes.
- VEM and RT0 callbacks also edit `matrix` directly. That edit is not captured.
- The callbacks are not passed the subdomain data, the interface data or `self_ind`, which the source passes them. So a modelled callback cannot read the interface data, including the operator just cached there.
- Grids are valid incidence lists as sparse `find` yields them: no stored zero, no (face, cell) pair twice, every face and cell in range. The Robin operator is only defined for such a higher grid.
- RobinOperator, Discretize, AssembleMatrixRhs: numbers are reals, not IEEE doubles, so a zero mortar volume, `kn` or projected aperture makes the model stop with `NonFinite`. numpy instead yields inf or NaN entries: `discretize` caches that operator and `assemble_matrix_rhs` completes the assembly with it. In the model nothing is cached and the assembly returns the error with the matrix unchanged. A scalar Python float `kn` of zero raises ZeroDivisionError at `1. / (2. * kn)`. That happens before the aperture is indexed, so on such input the source raises ZeroDivisionError even where the model returns `IndexError` or `ShapeMismatch` from the projected aperture.
- AssembleMatrixRhs, RobinOperator: the preconditions exclude three inputs on which scipy raises ValueError. The first is a caller block array whose blocks are not shaped by the block sizes. The second is a cached Robin operator that is not square on the mortar cells, e.g. one cached before the mortar grid changed, which the cache does not notice. Both reach `matrix += cc`. The third is a mortar grid whose volumes or projection rows do not match its cell count (`mg.Valid()`), which fails in `-inv_M * Eta`. The model does not say what happens on these inputs.
- KeyErrors for a missing `"mortar_grid"`, `"kn"` or `"param"` entry are not modelled. Those entries are always present in the interface and subdomain data.
- The `rhs` is returned as three vectors. The ragged numpy object array that holds them is not modelled.
- `pp.initialize_data` and `pp.BoundaryCondition` are outside this model. The first is a merge of fields into the keyword's dictionary, and the second is reduced to its Dirichlet face set.
- `pp.keywords.DISCRETIZATION` is taken to be `"discretization"`; the keywords file is not part of this model.
- `super().initial_condition()` belongs to the base model and is not modelled.
- `domain_boundary_sides` is the grid's given set of domain-boundary faces.
- A cell-wise ratio that is neither a number nor an array fails `assert isinstance(rho_by_mu, np.ndarray)`. That case is not modelled: the ratio is always a number or an array here.
- `BeforeNonlinearIteration` does not model a bundle without `pp.PARAMETERS`, which raises a KeyError too. The bundle here is that parameter dictionary itself.
