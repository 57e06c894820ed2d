/** The part of a molecular `System` that the engine wrappers read when they write an input file
    or check a pair of structures: its name, total charge, spin multiplicity and periodicity. */
module Systems {

  datatype System = System(name: string, charge: int, spin: int, isPeriodic: bool)

  /** The validation the NEB drivers apply to a reactant and another end point (product or transition
      state guess): different names, the same spin multiplicity and the same charge. */
  predicate Compatible(reactant: System, other: System) {
    reactant.name != other.name && reactant.spin == other.spin && reactant.charge == other.charge
  }
}
