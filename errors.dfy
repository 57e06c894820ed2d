/** The exceptions the engine wrappers raise, one constructor per distinct cause. */
module Errors {

  datatype Error =
    /** `RuntimeError`: the engine's `output.out` does not exist. */
    | MissingOutputFile
    /** `RuntimeError`: the log lacks the normal-termination marker (ORCA) or holds an error line (DFTB+). */
    | AbnormalTermination
    /** `RuntimeError`: a Gibbs free energy was read but no free-energy correction is known. */
    | GibbsWithoutCorrection
    /** `RuntimeError` (or the `TypeError` of comparing with an absent value): the Gibbs free energy
        read from the log differs from electronic energy plus correction. */
    | GibbsMismatch
    /** `IndexError`, `ValueError` or `AttributeError` raised while decoding a line of the log. */
    | MalformedLog
    /** `ValueError`: a value outside an enumerated vocabulary. */
    | InvalidValue(value: string)
    /** `RuntimeError`: NEB endpoints with the same name, spin multiplicity or charge mismatch. */
    | IncompatibleSystems(reason: string)
    /** `FileExistsError`: the COSMO-RS solvent structure file does not exist. */
    | SolventFileNotFound(path: string)
    /** `ValueError`: COSMO-RS requested without any solvent. */
    | NoSolvent
    /** `KeyError`: an atom type missing from a DFTB+ parameter table. */
    | UnknownAtomType(atom: string)
}
