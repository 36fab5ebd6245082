/**
 * The values the adapter takes from pyxtal and ASE objects.
 *
 * Geometry that pyxtal computes (cell parameters from a matrix, degrees
 * from radians, the matrix of a lattice) is not recomputed here: the
 * adapter's methods receive it as ready values, and a lattice the adapter
 * builds is recorded by the data it was built from.
 */
module Crystal {
  import opened Wrappers
  import opened Numbers

  datatype Vec3 = Vec3(x: Float, y: Float, z: Float)

  /** A 3x3 matrix, by rows. */
  datatype Mat3 = Mat3(r0: Vec3, r1: Vec3, r2: Vec3)

  function Component(v: Vec3, k: nat): Float
    requires k < 3
  {
    if k == 0 then v.x else if k == 1 then v.y else v.z
  }

  /** Row `k` of the transposed matrix, that is column `k`. */
  function Column(m: Mat3, k: nat): Vec3
    requires k < 3
  {
    Vec3(Component(m.r0, k), Component(m.r1, k), Component(m.r2, k))
  }

  /** `a, b, c` in Angstrom and `alpha, beta, gamma` in degrees. */
  datatype CellPara = CellPara(a: Float, b: Float, c: Float, alpha: Float, beta: Float, gamma: Float)

  /** A pyxtal `Lattice`, recorded by how it was built: `Lattice.from_matrix`
      or `Lattice.from_para`, each with its lattice type. */
  datatype Lattice =
    | FromMatrix(matrix: Mat3, ltype: string)
    | FromPara(para: CellPara, ltype: string)

  /** A pyxtal `atom_site`: its species and the position of its generator. */
  datatype AtomSite = AtomSite(specie: string, position: Vec3)

  /** The parts of a pyxtal atomic crystal that `GULP` reads or updates. */
  datatype Pyxtal = Pyxtal(atomSites: seq<AtomSite>, groupNumber: int, groupSymbol: string, lattice: Lattice)

  /** One atom of a molecule: its element (`species_string`) and the coordinate
      `_get_coords_and_species(first=True)` gives for it. */
  datatype MolAtom = MolAtom(element: string, coord: Vec3)

  /** A Wyckoff operation: rotation matrix and translation vector. */
  datatype SymOp = SymOp(rotation: Mat3, translation: Vec3)

  /** A bond of the molecular topology, by the ids of its two atoms. */
  datatype Bond = Bond(first: int, second: int)

  /**
   * A pyxtal `mol_site`: the atoms of its first copy, the index `type` of its
   * molecule, the GROMACS labels and charges stored on the molecule, the
   * operations of its Wyckoff position (the first is the identity; their
   * number is the multiplicity) and the bonds of the molecule's topology.
   */
  datatype MolSite = MolSite(
    atoms: seq<MolAtom>,
    siteType: nat,
    gmxLabels: seq<string>,
    charges: seq<Float>,
    ops: seq<SymOp>,
    bonds: seq<Bond>)

  /** `atom_info`: labels and charges per molecule type. */
  datatype AtomInfo = AtomInfo(labels: seq<seq<string>>, charges: seq<seq<Float>>)

  /** A pyxtal molecular crystal: its molecular sites, its lattice, the energy a
      calculator stored on it, and the lattice type of its space group. */
  datatype MolCrystal = MolCrystal(molSites: seq<MolSite>, lattice: Lattice, energy: Option<Float>, groupLtype: string)
}
