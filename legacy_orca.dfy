/** The ORCA wrapper of the legacy package (`compechem.engines.orca`): its job description with
    the four closed-vocabulary setters, the input file its `write_input` writes in one fixed order,
    and its `parse_output`, which stores the Gibbs free energy without a consistency check and
    reads frequencies without the imaginary-mode warning. */
module LegacyOrca {
  import opened Wrappers
  import opened PyStr
  import opened PyDict
  import opened Errors
  import opened Systems
  import opened Properties
  import opened OrcaLog
  import OrcaJob
  import OrcaParse

  // ---------------------------------------------------------------------------------------------
  // The job description
  // ---------------------------------------------------------------------------------------------

  /** The values of a job description's fields. */
  datatype Job = Job(
    ncores: int,
    maxcore: int,
    opt: bool,
    freq: bool,
    nfreq: bool,
    scan: Option<string>,
    constraints: Option<string>,
    invertConstraints: bool,
    cubeDim: Option<int>,
    hirshfeld: bool,
    nearir: bool,
    raman: bool,
    printLevel: Option<string>,
    optimizationLevel: Option<string>,
    scfConvergenceLevel: Option<string>,
    scfConvergenceStrategy: Option<string>)

  /** `OrcaJobInfo` of the legacy package. */
  class OrcaJobInfo {
    var ncores: int
    var maxcore: int
    var opt: bool
    var freq: bool
    var nfreq: bool
    var scan: Option<string>
    var constraints: Option<string>
    var invertConstraints: bool
    var cubeDim: Option<int>
    var hirshfeld: bool
    var nearir: bool
    var raman: bool
    var printLevel: Option<string>
    var optimizationLevel: Option<string>
    var scfConvergenceLevel: Option<string>
    var scfConvergenceStrategy: Option<string>

    function Value(): Job
      reads this
    {
      Job(ncores, maxcore, opt, freq, nfreq, scan, constraints, invertConstraints, cubeDim, hirshfeld,
          nearir, raman, printLevel, optimizationLevel, scfConvergenceLevel, scfConvergenceStrategy)
    }

    /** A job on all `availableCores` cores with 750 MB per core, nothing requested and no level set. */
    constructor (availableCores: int)
      ensures Value() == Job(availableCores, 750, false, false, false, None, None, false, None, false,
                             false, false, None, None, None, None)
    {
      ncores := availableCores;
      maxcore := 750;
      opt, freq, nfreq := false, false, false;
      scan, constraints, invertConstraints := None, None, false;
      cubeDim := None;
      hirshfeld, nearir, raman := false, false, false;
      printLevel, optimizationLevel, scfConvergenceLevel, scfConvergenceStrategy := None, None, None, None;
    }

    /** `ncores = value`: `None` selects all available cores. */
    method SetNcores(value: Option<int>, availableCores: int)
      modifies this`ncores
      ensures ncores == value.GetOr(availableCores)
    {
      ncores := if value.None? then availableCores else value.value;
    }

    /** `maxcore = value`: `None` selects 750 MB per core. */
    method SetMaxcore(value: Option<int>)
      modifies this`maxcore
      ensures maxcore == value.GetOr(750)
    {
      maxcore := if value.None? then 750 else value.value;
    }

    method SetPrintLevel(value: Option<string>) returns (outcome: Outcome<Error>)
      modifies this`printLevel
      ensures value.None? ==> outcome == Pass && printLevel == None
      ensures value.Some? && OrcaJob.Accept(OrcaJob.PrintLevels, value.value).Success? ==>
        outcome == Pass && printLevel == Some(OrcaJob.Accept(OrcaJob.PrintLevels, value.value).value)
      ensures value.Some? && OrcaJob.Accept(OrcaJob.PrintLevels, value.value).Failure? ==>
        outcome == Fail(OrcaJob.Accept(OrcaJob.PrintLevels, value.value).error) && printLevel == old(printLevel)
    {
      if value.None? {
        printLevel := None;
        return Pass;
      }
      var checked := OrcaJob.Accept(OrcaJob.PrintLevels, value.value);
      if checked.Failure? {
        return Fail(checked.error);
      }
      printLevel := Some(checked.value);
      return Pass;
    }

    /** `optimization_level = value`; assigning `None` clears the print level instead. */
    method SetOptimizationLevel(value: Option<string>) returns (outcome: Outcome<Error>)
      modifies this`optimizationLevel, this`printLevel
      ensures value.None? ==> outcome == Pass && printLevel == None && optimizationLevel == old(optimizationLevel)
      ensures value.Some? ==> printLevel == old(printLevel)
      ensures value.Some? && OrcaJob.Accept(OrcaJob.OptimizationLevels, value.value).Success? ==>
        outcome == Pass && optimizationLevel == Some(OrcaJob.Accept(OrcaJob.OptimizationLevels, value.value).value)
      ensures value.Some? && OrcaJob.Accept(OrcaJob.OptimizationLevels, value.value).Failure? ==>
        && outcome == Fail(OrcaJob.Accept(OrcaJob.OptimizationLevels, value.value).error)
        && optimizationLevel == old(optimizationLevel)
    {
      if value.None? {
        printLevel := None;
        return Pass;
      }
      var checked := OrcaJob.Accept(OrcaJob.OptimizationLevels, value.value);
      if checked.Failure? {
        return Fail(checked.error);
      }
      optimizationLevel := Some(checked.value);
      return Pass;
    }

    /** `scf_convergence_level = value`; assigning `None` clears the print level instead. */
    method SetScfConvergenceLevel(value: Option<string>) returns (outcome: Outcome<Error>)
      modifies this`scfConvergenceLevel, this`printLevel
      ensures value.None? ==> outcome == Pass && printLevel == None && scfConvergenceLevel == old(scfConvergenceLevel)
      ensures value.Some? ==> printLevel == old(printLevel)
      ensures value.Some? && OrcaJob.Accept(OrcaJob.ScfConvergenceLevels, value.value).Success? ==>
        outcome == Pass && scfConvergenceLevel == Some(OrcaJob.Accept(OrcaJob.ScfConvergenceLevels, value.value).value)
      ensures value.Some? && OrcaJob.Accept(OrcaJob.ScfConvergenceLevels, value.value).Failure? ==>
        && outcome == Fail(OrcaJob.Accept(OrcaJob.ScfConvergenceLevels, value.value).error)
        && scfConvergenceLevel == old(scfConvergenceLevel)
    {
      if value.None? {
        printLevel := None;
        return Pass;
      }
      var checked := OrcaJob.Accept(OrcaJob.ScfConvergenceLevels, value.value);
      if checked.Failure? {
        return Fail(checked.error);
      }
      scfConvergenceLevel := Some(checked.value);
      return Pass;
    }

    /** `scf_convergence_strategy = value`; assigning `None` clears the print level instead. */
    method SetScfConvergenceStrategy(value: Option<string>) returns (outcome: Outcome<Error>)
      modifies this`scfConvergenceStrategy, this`printLevel
      ensures value.None? ==> outcome == Pass && printLevel == None && scfConvergenceStrategy == old(scfConvergenceStrategy)
      ensures value.Some? ==> printLevel == old(printLevel)
      ensures value.Some? && OrcaJob.Accept(OrcaJob.ScfConvergenceStrategies, value.value).Success? ==>
        outcome == Pass && scfConvergenceStrategy == Some(OrcaJob.Accept(OrcaJob.ScfConvergenceStrategies, value.value).value)
      ensures value.Some? && OrcaJob.Accept(OrcaJob.ScfConvergenceStrategies, value.value).Failure? ==>
        && outcome == Fail(OrcaJob.Accept(OrcaJob.ScfConvergenceStrategies, value.value).error)
        && scfConvergenceStrategy == old(scfConvergenceStrategy)
    {
      if value.None? {
        printLevel := None;
        return Pass;
      }
      var checked := OrcaJob.Accept(OrcaJob.ScfConvergenceStrategies, value.value);
      if checked.Failure? {
        return Fail(checked.error);
      }
      scfConvergenceStrategy := Some(checked.value);
      return Pass;
    }
  }

  // ---------------------------------------------------------------------------------------------
  // The engine
  // ---------------------------------------------------------------------------------------------

  /** The settings of a legacy `OrcaInput` engine that its input files read; the basis set and the
      auxiliary basis are "" when not given. */
  datatype Engine = Engine(
    methodName: string,
    basisSet: string,
    auxBasis: string,
    solvent: Option<string>,
    optionals: string,
    scfBlock: Dict<string>)

  /** The legacy constructor: a missing or empty basis set or auxiliary basis is stored as "". */
  function NewEngine(methodName: string := "PBE", basisSet: Option<string> := Some("def2-TZVP"),
                     auxBasis: Option<string> := Some("def2/J"), solvent: Option<string> := None,
                     optionals: string := "", scfBlock: Dict<string> := []): (e: Engine)
    ensures e.basisSet == "" <==> !OrcaJob.Truthy(basisSet)
    ensures OrcaJob.Truthy(basisSet) ==> e.basisSet == basisSet.value
    ensures e.auxBasis == "" <==> !OrcaJob.Truthy(auxBasis)
    ensures OrcaJob.Truthy(auxBasis) ==> e.auxBasis == auxBasis.value
    ensures e.methodName == methodName && e.solvent == solvent && e.optionals == optionals && e.scfBlock == scfBlock
  {
    Engine(methodName, if OrcaJob.Truthy(basisSet) then basisSet.value else "",
           if OrcaJob.Truthy(auxBasis) then auxBasis.value else "", solvent, optionals, scfBlock)
  }
  /** The legacy engine built with every default: PBE/def2-TZVP with RIJCOSX on def2/J, in vacuum,
      with no `%scf` block. */
  lemma DefaultEngine()
    ensures NewEngine() == Engine("PBE", "def2-TZVP", "def2/J", None, "", [])
  {
  }


  // ---------------------------------------------------------------------------------------------
  // The input file
  // ---------------------------------------------------------------------------------------------

  /** One part of the input file, in the order `write_input` writes them. */
  datatype Part =
    | Resources(ncores: int, maxcore: int, methodName: string, basisSet: string, optionals: string)
    | ScfLine(level: Option<string>, strategy: Option<string>)
    | Rijcosx(auxBasis: string)
    | PrintLine(printLevel: string)
    | JobLine(keyword: string)
    | Geom(scan: string, constraints: Option<string>, invertConstraints: bool)
    | Cpcm(solvent: string)
    | Plots(dim: int, spinDensity: bool)
    | HirshfeldOutput
    | ScfBlock(entries: Dict<string>)
    | Elprop
    | Coordinates(charge: int, spin: int, name: string)
  {
    /** The `+=` operands that write the part. */
    function Pieces(): seq<string> {
      match this
      case Resources(n, m, name, basis, optionals) =>
        ["%pal\n" + "  nprocs " + IntToString(n) + "\n" + "end\n\n" + "%maxcore " + IntToString(m) + "\n\n"
         + "! " + name + " " + basis + " " + optionals + "\n"]
      case ScfLine(level, strategy) => ["! "] + LevelWord(level) + StrategyWord(strategy) + ["\n"]
      case Rijcosx(aux) => ["! RIJCOSX " + aux + "\n\n"]
      case PrintLine(p) => ["! " + p + "\n\n"]
      case JobLine(k) => ["! " + k + "\n"]
      case Geom(scan, constraints, invert) =>
        GeomHead(scan) + ConstraintLines(constraints) + InvertLine(invert) + ["end\n\n"]
      case Cpcm(s) => ["%CPCM\n" + "  SMD True\n" + "  SMDsolvent \"" + s + "\"\n" + "end\n\n"]
      case Plots(d, spinDensity) =>
        ["%plots\n", "  Format Gaussian_Cube\n", "  dim1 " + IntToString(d) + "\n", "  dim2 " + IntToString(d) + "\n",
         "  dim3 " + IntToString(d) + "\n", ElDensLine]
        + (if spinDensity then [SpinDensLine] else []) + ["end\n\n"]
      case HirshfeldOutput => ["%output\n", "  Print[P_Hirshfeld] 1\n", "end\n\n"]
      case ScfBlock(entries) => ["%scf\n"] + Flatten(entries, ScfEntryPieces) + ["end\n\n"]
      case Elprop => ["%elprop\n", "  Polar 1\n", "end\n\n"]
      case Coordinates(charge, spin, name) =>
        ["* xyzfile " + IntToString(charge) + " " + IntToString(spin) + " " + name + ".xyz\n"]
    }

    /** The position of the part's kind in the fixed order of the file. */
    function Rank(): nat {
      match this
      case Resources(_, _, _, _, _) => 0
      case ScfLine(_, _) => 1
      case Rijcosx(_) => 2
      case PrintLine(_) => 3
      case JobLine(_) => 4
      case Geom(_, _, _) => 5
      case Cpcm(_) => 6
      case Plots(_, _) => 7
      case HirshfeldOutput => 8
      case ScfBlock(_) => 9
      case Elprop => 10
      case Coordinates(_, _, _) => 11
    }
  }

  /** The opening of the `%geom` block and its scan. */
  function GeomHead(scan: string): seq<string> {
    ["! Opt\n", "%geom\n" + "  scan\n" + "    " + scan + "\n" + "  end\n"]
  }

  function ConstraintLines(constraints: Option<string>): seq<string> {
    if constraints.Some? then ["  constraints\n" + "    { " + constraints.value + " C }\n" + "  end\n"] else []
  }

  function InvertLine(invert: bool): seq<string> {
    if invert then ["  invertConstraints true\n"] else []
  }

  const ElDensLine := "  ElDens(\"eldens.cube\");\n"
  const SpinDensLine := "  SpinDens(\"spindens.cube\");\n"

  /** The SCF convergence level and the separator after it (see the findings in the README: the
      code as written appends "" here, which `AsWrittenScfPieces` keeps). */
  function LevelWord(level: Option<string>): seq<string> {
    if level.Some? then [level.value, " "] else []
  }

  function StrategyWord(strategy: Option<string>): seq<string> {
    if strategy.Some? then [strategy.value, " "] else []
  }

  /** One line of the `%scf` block: `  <key> <value>`. */
  function ScfEntryPieces(entry: (string, string)): seq<string> {
    ["  " + entry.0 + " " + entry.1 + "\n"]
  }

  function PartPieces(p: Part): seq<string> {
    p.Pieces()
  }

  /** `[p]` when `flag` holds: one `if` of `write_input`. */
  function When(flag: bool, p: Part): seq<Part> {
    if flag then [p] else []
  }

  /** The operands of one `if` of `write_input`. */
  lemma Emit(flag: bool, p: Part)
    ensures Flatten(When(flag, p), PartPieces) == if flag then p.Pieces() else []
  {
    if flag {
      FlattenOne(p, PartPieces);
    }
  }


  /** The parts of the input file for the engine `e`, the system `mol` and the job `j` as it is
      when `write_input` is called. The frequency keywords are those of the flags after the
      switch: an optimisation with analytical frequencies and an engine solvent that is not `None`
      asks for numerical frequencies instead. */
  function Parts(e: Engine, mol: System, j: Job): seq<Part> {
    [Resources(j.ncores, j.maxcore, e.methodName, e.basisSet, e.optionals)]
    + OpeningParts(e, j)
    + KeywordParts(j.opt, j.optimizationLevel, j.freq && !(j.opt && e.solvent.Some?),
                   j.nfreq || (j.opt && j.freq && e.solvent.Some?), j.nearir)
    + ModelBlocks(e, mol, j)
    + OutputBlocks(e, j)
    + [Coordinates(mol.charge, mol.spin, mol.name)]
  }

  /** The `!` lines after the method line: SCF convergence, RIJCOSX and print level. */
  function OpeningParts(e: Engine, j: Job): seq<Part> {
    When(j.scfConvergenceStrategy.Some? || j.scfConvergenceLevel.Some?, ScfLine(j.scfConvergenceLevel, j.scfConvergenceStrategy))
    + When(e.auxBasis != "", Rijcosx(e.auxBasis))
    + When(j.printLevel.Some?, PrintLine(j.printLevel.GetOr("")))
  }

  /** The calculation keyword lines, for the frequency flags as switched. */
  function KeywordParts(opt: bool, optimizationLevel: Option<string>, freq: bool, nfreq: bool, nearir: bool): seq<Part> {
    When(opt, JobLine(optimizationLevel.GetOr("Opt")))
    + When(freq, JobLine("Freq"))
    + When(nfreq, JobLine("NumFreq"))
    + When(nearir, JobLine("NearIR"))
  }

  /** The `%geom`, `%CPCM` and `%plots` blocks. */
  function ModelBlocks(e: Engine, mol: System, j: Job): seq<Part> {
    When(j.scan.Some?, Geom(j.scan.GetOr(""), j.constraints, j.invertConstraints))
    + When(OrcaJob.Truthy(e.solvent), Cpcm(e.solvent.GetOr("")))
    + When(j.cubeDim.Some?, Plots(j.cubeDim.GetOr(0), mol.spin != 1))
  }

  /** The `%output`, `%scf` and `%elprop` blocks. */
  function OutputBlocks(e: Engine, j: Job): seq<Part> {
    When(j.hirshfeld, HirshfeldOutput)
    + When(e.scfBlock != [], ScfBlock(e.scfBlock))
    + When(j.raman, Elprop)
  }

  /** The text of `input.inp` for a job whose fields are `j` when `write_input` is called. */
  function InputText(e: Engine, mol: System, j: Job): string {
    Concat(Flatten(Parts(e, mol, j), PartPieces))
  }

  /** The operands of three consecutive groups are those of the groups joined. */
  lemma FlattenThree(w: seq<string>, a: seq<Part>, b: seq<Part>, c: seq<Part>)
    ensures w + Flatten(a + b + c, PartPieces) == w + Flatten(a, PartPieces) + Flatten(b, PartPieces) + Flatten(c, PartPieces)
  {
    FlattenAppend(a, b, PartPieces);
    FlattenAppend(a + b, c, PartPieces);
    AppendThree(w, Flatten(a, PartPieces), Flatten(b, PartPieces), Flatten(c, PartPieces));
  }


  /** The operands of the file are those of its groups, in order. */
  lemma PiecesOfParts(e: Engine, mol: System, j: Job)
    ensures Flatten(Parts(e, mol, j), PartPieces)
         == Flatten([Resources(j.ncores, j.maxcore, e.methodName, e.basisSet, e.optionals)], PartPieces)
          + Flatten(OpeningParts(e, j), PartPieces)
          + Flatten(KeywordParts(j.opt, j.optimizationLevel, j.freq && !(j.opt && e.solvent.Some?),
                                 j.nfreq || (j.opt && j.freq && e.solvent.Some?), j.nearir), PartPieces)
          + Flatten(ModelBlocks(e, mol, j), PartPieces)
          + Flatten(OutputBlocks(e, j), PartPieces)
          + Flatten([Coordinates(mol.charge, mol.spin, mol.name)], PartPieces)
  {
    var g1 := [Resources(j.ncores, j.maxcore, e.methodName, e.basisSet, e.optionals)];
    var g2 := OpeningParts(e, j);
    var g3 := KeywordParts(j.opt, j.optimizationLevel, j.freq && !(j.opt && e.solvent.Some?),
                           j.nfreq || (j.opt && j.freq && e.solvent.Some?), j.nearir);
    var g4 := ModelBlocks(e, mol, j);
    var g5 := OutputBlocks(e, j);
    var g6 := [Coordinates(mol.charge, mol.spin, mol.name)];
    FlattenAppend(g1, g2, PartPieces);
    FlattenAppend(g1 + g2, g3, PartPieces);
    FlattenAppend(g1 + g2 + g3, g4, PartPieces);
    FlattenAppend(g1 + g2 + g3 + g4, g5, PartPieces);
    FlattenAppend(g1 + g2 + g3 + g4 + g5, g6, PartPieces);
  }

  // The text `write_input` builds with `input += ...` is held as the sequence of its operands,
  // `written`, and joined once at the end. Every step below appends the operands of one `if`.


  /** The SCF line, as `write_input` writes it once the separator is corrected. */
  method ScfLines(written: seq<string>, level: Option<string>, strategy: Option<string>)
    returns (written': seq<string>)
    ensures written' == written + Flatten(When(strategy.Some? || level.Some?, ScfLine(level, strategy)), PartPieces)
  {
    Emit(strategy.Some? || level.Some?, ScfLine(level, strategy));
    written' := written;
    if strategy.Some? || level.Some? {
      written' := written' + ["! "];
      ghost var w0 := written';
      if level.Some? {
        written' := written' + [level.value];
        written' := written' + [" "];
      }
      assert written' == w0 + LevelWord(level);
      ghost var leveled := written';
      if strategy.Some? {
        written' := written' + [strategy.value];
        written' := written' + [" "];
      }
      assert written' == leveled + StrategyWord(strategy);
      written' := written' + ["\n"];
      AppendFour(written, ["! "], LevelWord(level), StrategyWord(strategy), ["\n"]);
    }
  }


  /** The RIJCOSX line of an auxiliary basis. */
  method RijcosxLine(written: seq<string>, auxBasis: string) returns (written': seq<string>)
    ensures written' == written + Flatten(When(auxBasis != "", Rijcosx(auxBasis)), PartPieces)
  {
    Emit(auxBasis != "", Rijcosx(auxBasis));
    written' := written;
    if auxBasis != "" {
      written' := written' + ["! RIJCOSX " + auxBasis + "\n\n"];
    }
  }

  /** The print-level line. */
  method PrintLevelLine(written: seq<string>, printLevel: Option<string>) returns (written': seq<string>)
    ensures written' == written + Flatten(When(printLevel.Some?, PrintLine(printLevel.GetOr(""))), PartPieces)
  {
    Emit(printLevel.Some?, PrintLine(printLevel.GetOr("")));
    written' := written;
    if printLevel.Some? {
      written' := written' + ["! " + printLevel.value + "\n\n"];
    }
  }

  /** One calculation keyword: `input += "! <word>\n"` when `flag` holds. */
  method KeywordLine(written: seq<string>, flag: bool, word: string)
    returns (written': seq<string>)
    ensures written' == written + Flatten(When(flag, JobLine(word)), PartPieces)
  {
    Emit(flag, JobLine(word));
    written' := written;
    if flag {
      written' := written' + ["! " + word + "\n"];
    }
  }

  /** The `%geom` block of a relaxed scan. */
  method GeomLines(written: seq<string>, j: Job) returns (written': seq<string>)
    ensures written' == written + Flatten(When(j.scan.Some?, Geom(j.scan.GetOr(""), j.constraints, j.invertConstraints)), PartPieces)
  {
    Emit(j.scan.Some?, Geom(j.scan.GetOr(""), j.constraints, j.invertConstraints));
    written' := written;
    if j.scan.Some? {
      written' := written' + ["! Opt\n"];
      written' := written' + ["%geom\n" + "  scan\n" + "    " + j.scan.value + "\n" + "  end\n"];
      assert written' == written + GeomHead(j.scan.value);
      ghost var w0 := written';
      if j.constraints.Some? {
        written' := written' + ["  constraints\n" + "    { " + j.constraints.value + " C }\n" + "  end\n"];
      }
      assert written' == w0 + ConstraintLines(j.constraints);
      ghost var w1 := written';
      if j.invertConstraints {
        written' := written' + ["  invertConstraints true\n"];
      }
      assert written' == w1 + InvertLine(j.invertConstraints);
      written' := written' + ["end\n\n"];
      AppendFour(written, GeomHead(j.scan.value), ConstraintLines(j.constraints), InvertLine(j.invertConstraints), ["end\n\n"]);
    }
  }

  /** The `%CPCM` block of a solvent that is neither `None` nor "". */
  method CpcmLines(written: seq<string>, solvent: Option<string>) returns (written': seq<string>)
    ensures written' == written + Flatten(When(OrcaJob.Truthy(solvent), Cpcm(solvent.GetOr(""))), PartPieces)
  {
    Emit(OrcaJob.Truthy(solvent), Cpcm(solvent.GetOr("")));
    written' := written;
    if solvent.Some? && solvent.value != "" {
      written' := written' + ["%CPCM\n" + "  SMD True\n" + "  SMDsolvent \"" + solvent.value + "\"\n" + "end\n\n"];
    }
  }

  /** The `%plots` block of a cube-file request. */
  method PlotLines(written: seq<string>, cubeDim: Option<int>, spin: int)
    returns (written': seq<string>)
    ensures written' == written + Flatten(When(cubeDim.Some?, Plots(cubeDim.GetOr(0), spin != 1)), PartPieces)
  {
    Emit(cubeDim.Some?, Plots(cubeDim.GetOr(0), spin != 1));
    written' := written;
    if cubeDim.Some? {
      var d := IntToString(cubeDim.value);
      written' := written' + ["%plots\n"];
      written' := written' + ["  Format Gaussian_Cube\n"];
      written' := written' + ["  dim1 " + d + "\n"];
      written' := written' + ["  dim2 " + d + "\n"];
      written' := written' + ["  dim3 " + d + "\n"];
      written' := written' + [ElDensLine];
      if spin != 1 {
        written' := written' + [SpinDensLine];
      }
      written' := written' + ["end\n\n"];
    }
  }

  /** The `%output` block of a Hirshfeld request. */
  method HirshfeldLines(written: seq<string>, hirshfeld: bool) returns (written': seq<string>)
    ensures written' == written + Flatten(When(hirshfeld, HirshfeldOutput), PartPieces)
  {
    Emit(hirshfeld, HirshfeldOutput);
    written' := written;
    if hirshfeld {
      written' := written' + ["%output\n"];
      written' := written' + ["  Print[P_Hirshfeld] 1\n"];
      written' := written' + ["end\n\n"];
    }
  }

  /** The entry lines of the `%scf` block, in insertion order. */
  method AppendScfEntries(written: seq<string>, entries: Dict<string>) returns (written': seq<string>)
    ensures written' == written + Flatten(entries, ScfEntryPieces)
  {
    written' := written;
    for i := 0 to |entries|
      invariant written' == written + Flatten(entries[..i], ScfEntryPieces)
    {
      var (key, value) := entries[i];
      FlattenPrefix(entries, i, ScfEntryPieces);
      written' := written' + ["  " + key + " " + value + "\n"];
    }
    assert entries[..|entries|] == entries;
  }

  /** The `%scf` block of the engine's SCF settings. */
  method ScfBlockLines(written: seq<string>, scfBlock: Dict<string>) returns (written': seq<string>)
    ensures written' == written + Flatten(When(scfBlock != [], ScfBlock(scfBlock)), PartPieces)
  {
    Emit(scfBlock != [], ScfBlock(scfBlock));
    written' := written;
    if scfBlock != [] {
      written' := written' + ["%scf\n"];
      written' := AppendScfEntries(written', scfBlock);
      written' := written' + ["end\n\n"];
    }
  }

  /** The `%elprop` block of a Raman request. */
  method ElpropLines(written: seq<string>, raman: bool) returns (written': seq<string>)
    ensures written' == written + Flatten(When(raman, Elprop), PartPieces)
  {
    Emit(raman, Elprop);
    written' := written;
    if raman {
      written' := written' + ["%elprop\n"];
      written' := written' + ["  Polar 1\n"];
      written' := written' + ["end\n\n"];
    }
  }

  /** The coordinates line that closes the file. */
  method CoordinatesLine(written: seq<string>, mol: System) returns (written': seq<string>)
    ensures written' == written + Flatten([Coordinates(mol.charge, mol.spin, mol.name)], PartPieces)
  {
    FlattenOne(Coordinates(mol.charge, mol.spin, mol.name), PartPieces);
    written' := written + ["* xyzfile " + IntToString(mol.charge) + " " + IntToString(mol.spin) + " " + mol.name + ".xyz\n"];
  }

  /** The `%pal`, `%maxcore` and method lines every input starts with. */
  method ResourceLines(e: Engine, j: Job) returns (written: seq<string>)
    ensures written == Flatten([Resources(j.ncores, j.maxcore, e.methodName, e.basisSet, e.optionals)], PartPieces)
  {
    FlattenOne(Resources(j.ncores, j.maxcore, e.methodName, e.basisSet, e.optionals), PartPieces);
    written := ["%pal\n" + "  nprocs " + IntToString(j.ncores) + "\n" + "end\n\n"
                + "%maxcore " + IntToString(j.maxcore) + "\n\n"
                + "! " + e.methodName + " " + e.basisSet + " " + e.optionals + "\n"];
  }

  /** The SCF, RIJCOSX and print-level lines of `write_input`. */
  method OpeningLines(written: seq<string>, e: Engine, j: Job) returns (written': seq<string>)
    ensures written' == written + Flatten(OpeningParts(e, j), PartPieces)
  {
    written' := ScfLines(written, j.scfConvergenceLevel, j.scfConvergenceStrategy);
    written' := RijcosxLine(written', e.auxBasis);
    written' := PrintLevelLine(written', j.printLevel);
    FlattenThree(written, When(j.scfConvergenceStrategy.Some? || j.scfConvergenceLevel.Some?, ScfLine(j.scfConvergenceLevel, j.scfConvergenceStrategy)),
                 When(e.auxBasis != "", Rijcosx(e.auxBasis)),
                 When(j.printLevel.Some?, PrintLine(j.printLevel.GetOr(""))));
  }

  /** The frequency switch of `write_input`: an optimisation with frequencies in solvent
      falls back to numerical frequencies. */
  method SwitchFrequencies(job: OrcaJobInfo, solvent: Option<string>)
    modifies job`freq, job`nfreq
    ensures job.freq == (old(job.freq) && !(job.opt && solvent.Some?))
    ensures job.nfreq == (old(job.nfreq) || (job.opt && old(job.freq) && solvent.Some?))
  {
    if job.opt && job.freq && solvent.Some? {
      job.freq := false;
      job.nfreq := true;
    }
  }

  /** The calculation keyword lines of `write_input`. */
  method KeywordLines(written: seq<string>, opt: bool, optimizationLevel: Option<string>, freq: bool, nfreq: bool, nearir: bool)
    returns (written': seq<string>)
    ensures written' == written + Flatten(KeywordParts(opt, optimizationLevel, freq, nfreq, nearir), PartPieces)
  {
    written' := KeywordLine(written, opt, optimizationLevel.GetOr("Opt"));
    written' := KeywordLine(written', freq, "Freq");
    written' := KeywordLine(written', nfreq, "NumFreq");
    written' := KeywordLine(written', nearir, "NearIR");
    var a, b, c, d := When(opt, JobLine(optimizationLevel.GetOr("Opt"))), When(freq, JobLine("Freq")),
                      When(nfreq, JobLine("NumFreq")), When(nearir, JobLine("NearIR"));
    FlattenThree(written, a, b, c);
    FlattenAppend(a + b + c, d, PartPieces);
  }

  /** The `%geom`, `%CPCM` and `%plots` blocks of `write_input`. */
  method ModelBlockLines(written: seq<string>, e: Engine, mol: System, j: Job) returns (written': seq<string>)
    ensures written' == written + Flatten(ModelBlocks(e, mol, j), PartPieces)
  {
    written' := GeomLines(written, j);
    written' := CpcmLines(written', e.solvent);
    written' := PlotLines(written', j.cubeDim, mol.spin);
    FlattenThree(written, When(j.scan.Some?, Geom(j.scan.GetOr(""), j.constraints, j.invertConstraints)),
                 When(OrcaJob.Truthy(e.solvent), Cpcm(e.solvent.GetOr(""))),
                 When(j.cubeDim.Some?, Plots(j.cubeDim.GetOr(0), mol.spin != 1)));
  }

  /** The `%output`, `%scf` and `%elprop` blocks of `write_input`. */
  method OutputBlockLines(written: seq<string>, e: Engine, j: Job) returns (written': seq<string>)
    ensures written' == written + Flatten(OutputBlocks(e, j), PartPieces)
  {
    written' := HirshfeldLines(written, j.hirshfeld);
    written' := ScfBlockLines(written', e.scfBlock);
    written' := ElpropLines(written', j.raman);
    FlattenThree(written, When(j.hirshfeld, HirshfeldOutput), When(e.scfBlock != [], ScfBlock(e.scfBlock)), When(j.raman, Elprop));
  }

  /** The keyword lines, the `%` blocks and the coordinates line of `write_input`, for the
      frequency flags as switched. */
  method ClosingLines(written: seq<string>, e: Engine, mol: System, j: Job, opt: bool, freq: bool, nfreq: bool)
    returns (written': seq<string>)
    ensures written' == written + Flatten(KeywordParts(opt, j.optimizationLevel, freq, nfreq, j.nearir), PartPieces)
                      + Flatten(ModelBlocks(e, mol, j), PartPieces) + Flatten(OutputBlocks(e, j), PartPieces)
                      + Flatten([Coordinates(mol.charge, mol.spin, mol.name)], PartPieces)
  {
    written' := KeywordLines(written, opt, j.optimizationLevel, freq, nfreq, j.nearir);
    written' := ModelBlockLines(written', e, mol, j);
    written' := OutputBlockLines(written', e, j);
    written' := CoordinatesLine(written', mol);
  }

  /** `write_input`: the text of `input.inp` for `mol` and `job`. The job is left with its
      frequency flags switched as `SwitchFrequencies` says. */
  method WriteInput(e: Engine, mol: System, job: OrcaJobInfo) returns (text: string)
    modifies job`freq, job`nfreq
    ensures text == InputText(e, mol, old(job.Value()))
    ensures job.freq == (old(job.freq) && !(old(job.opt) && e.solvent.Some?))
    ensures job.nfreq == (old(job.nfreq) || (old(job.opt) && old(job.freq) && e.solvent.Some?))
  {
    var j := job.Value();
    var written := ResourceLines(e, j);
    written := OpeningLines(written, e, j);
    SwitchFrequencies(job, e.solvent);
    assert job.opt == j.opt && job.freq == (j.freq && !(j.opt && e.solvent.Some?))
      && job.nfreq == (j.nfreq || (j.opt && j.freq && e.solvent.Some?));
    written := ClosingLines(written, e, mol, j, job.opt, job.freq, job.nfreq);
    PiecesOfParts(e, mol, j);
    text := Concat(written);
  }

  // ---------------------------------------------------------------------------------------------
  // What the input file promises
  // ---------------------------------------------------------------------------------------------

  /** The text of the SCF line: each word given is followed by a space. */
  lemma ScfLineText(level: Option<string>, strategy: Option<string>)
    ensures Concat(ScfLine(level, strategy).Pieces())
         == "! " + (if level.Some? then level.value + " " else "") + (if strategy.Some? then strategy.value + " " else "") + "\n"
  {
    var l := LevelWord(level);
    var s := StrategyWord(strategy);
    ConcatAppend(["! "] + l + s, ["\n"]);
    ConcatAppend(["! "] + l, s);
    ConcatAppend(["! "], l);
    ConcatWords(level);
    ConcatWords(strategy);
  }

  lemma ConcatWords(word: Option<string>)
    ensures Concat(if word.Some? then [word.value, " "] else []) == if word.Some? then word.value + " " else ""
  {
    if word.Some? {
      ConcatAppend([word.value], [" "]);
    }
  }

  /** The SCF line as the code writes it: "" rather than a space after the level. */
  function AsWrittenScfPieces(level: Option<string>, strategy: Option<string>): seq<string> {
    ["! "] + (if level.Some? then [level.value, ""] else []) + StrategyWord(strategy) + ["\n"]
  }

  /** As written, a level and a strategy run together into one word. */
  lemma AsWrittenScfLineJoinsWords(level: string, strategy: string)
    ensures Concat(AsWrittenScfPieces(Some(level), Some(strategy))) == "! " + level + strategy + " \n"
  {
    var p1 := ["! "];
    var p2 := p1 + [level];
    var p3 := p2 + [""];
    var p4 := p3 + [strategy];
    var p5 := p4 + [" "];
    assert AsWrittenScfPieces(Some(level), Some(strategy)) == p5 + ["\n"];
    ConcatAppend(p5, ["\n"]);
    ConcatAppend(p4, [" "]);
    ConcatAppend(p3, [strategy]);
    ConcatAppend(p2, [""]);
    ConcatAppend(p1, [level]);
  }

  /** `TIGHTSCF` with `SLOWCONV` gives `! TIGHTSCFSLOWCONV`, a keyword ORCA does not know, where
      the corrected line reads `! TIGHTSCF SLOWCONV`. */
  lemma AsWrittenScfLineExample()
    ensures Concat(AsWrittenScfPieces(Some("TIGHTSCF"), Some("SLOWCONV"))) == "! TIGHTSCFSLOWCONV \n"
    ensures Concat(ScfLine(Some("TIGHTSCF"), Some("SLOWCONV")).Pieces()) == "! TIGHTSCF SLOWCONV \n"
  {
    AsWrittenScfLineJoinsWords("TIGHTSCF", "SLOWCONV");
    ScfLineText(Some("TIGHTSCF"), Some("SLOWCONV"));
  }

  /** The operands of a part as the code writes them: only the SCF line differs. */
  function AsWrittenPartPieces(p: Part): seq<string> {
    if p.ScfLine? then AsWrittenScfPieces(p.level, p.strategy) else p.Pieces()
  }

  /** The text of `input.inp` as the code writes it, with the SCF line of `AsWrittenScfPieces`. */
  function AsWrittenInputText(e: Engine, mol: System, j: Job): string {
    Concat(Flatten(Parts(e, mol, j), AsWrittenPartPieces))
  }

  /** Parts of kinds after the SCF line are written the same either way. */
  lemma {:induction false} AsWrittenAgrees(ps: seq<Part>, lo: nat, hi: nat)
    requires 2 <= lo && RanksWithin(ps, lo, hi)
    ensures Flatten(ps, AsWrittenPartPieces) == Flatten(ps, PartPieces)
    decreases |ps|
  {
    if ps != [] {
      var init := ps[..|ps| - 1];
      assert RanksWithin(init, lo, hi) by {
        forall a | 0 <= a < |init| ensures lo <= init[a].Rank() <= hi {
          assert init[a] == ps[a];
        }
      }
      AsWrittenAgrees(init, lo, hi);
      assert ps[|ps| - 1].Rank() >= 2;
    }
  }

  /** The parts after the SCF line: RIJCOSX, print level, keywords, blocks and coordinates. */
  function AfterScfParts(e: Engine, mol: System, j: Job): seq<Part> {
    FrontParts(e, j) + BackParts(e, mol, j)
  }

  /** The file is the resources part, the SCF line when one is asked for, and the rest. */
  lemma PartsAroundScfLine(e: Engine, mol: System, j: Job)
    ensures Parts(e, mol, j)
         == [Resources(j.ncores, j.maxcore, e.methodName, e.basisSet, e.optionals)]
          + When(j.scfConvergenceStrategy.Some? || j.scfConvergenceLevel.Some?, ScfLine(j.scfConvergenceLevel, j.scfConvergenceStrategy))
          + AfterScfParts(e, mol, j)
  {
    var line := When(j.scfConvergenceStrategy.Some? || j.scfConvergenceLevel.Some?, ScfLine(j.scfConvergenceLevel, j.scfConvergenceStrategy));
    var aux := When(e.auxBasis != "", Rijcosx(e.auxBasis));
    var printing := When(j.printLevel.Some?, PrintLine(j.printLevel.GetOr("")));
    var g3 := KeywordParts(j.opt, j.optimizationLevel, j.freq && !(j.opt && e.solvent.Some?),
                           j.nfreq || (j.opt && j.freq && e.solvent.Some?), j.nearir);
    var g4 := ModelBlocks(e, mol, j);
    var g5 := OutputBlocks(e, j);
    var g6 := [Coordinates(mol.charge, mol.spin, mol.name)];
    Regroup([Resources(j.ncores, j.maxcore, e.methodName, e.basisSet, e.optionals)], line, aux, printing, g3, g4, g5, g6);
  }

  lemma Regroup(h: seq<Part>, l: seq<Part>, a: seq<Part>, p: seq<Part>, x3: seq<Part>, x4: seq<Part>, x5: seq<Part>, x6: seq<Part>)
    ensures h + (l + a + p) + x3 + x4 + x5 + x6 == h + l + ((a + p + x3) + (x4 + x5 + x6))
  {
    assert h + (l + a + p) == h + l + a + p;
    assert a + p + x3 + x4 + x5 + x6 == (a + p + x3) + (x4 + x5 + x6);
  }

  /** No part after the SCF line is an SCF line. */
  lemma AfterScfRanks(e: Engine, mol: System, j: Job)
    ensures RanksWithin(AfterScfParts(e, mol, j), 2, 11)
  {
    FrontRanks(e, j);
    BackRanks(e, mol, j);
    RanksJoin(FrontParts(e, j), BackParts(e, mol, j), 2, 4, 5, 11);
  }

  /** The RIJCOSX, print-level and keyword lines of the legacy file. */
  function FrontParts(e: Engine, j: Job): seq<Part>
  {
    When(e.auxBasis != "", Rijcosx(e.auxBasis))
    + When(j.printLevel.Some?, PrintLine(j.printLevel.GetOr("")))
    + KeywordParts(j.opt, j.optimizationLevel, j.freq && !(j.opt && e.solvent.Some?),
                   j.nfreq || (j.opt && j.freq && e.solvent.Some?), j.nearir)
  }

  /** The model blocks, the output blocks and the coordinates of the legacy file. */
  function BackParts(e: Engine, mol: System, j: Job): seq<Part>
  {
    ModelBlocks(e, mol, j) + OutputBlocks(e, j) + [Coordinates(mol.charge, mol.spin, mol.name)]
  }

  lemma FrontRanks(e: Engine, j: Job)
    ensures RanksWithin(FrontParts(e, j), 2, 4)
  {
    WhenRanks(e.auxBasis != "", Rijcosx(e.auxBasis));
    WhenRanks(j.printLevel.Some?, PrintLine(j.printLevel.GetOr("")));
    KeywordRanks(j.opt, j.optimizationLevel, j.freq && !(j.opt && e.solvent.Some?),
                 j.nfreq || (j.opt && j.freq && e.solvent.Some?), j.nearir);
    RanksJoinThree(When(e.auxBasis != "", Rijcosx(e.auxBasis)),
                   When(j.printLevel.Some?, PrintLine(j.printLevel.GetOr(""))),
                   KeywordParts(j.opt, j.optimizationLevel, j.freq && !(j.opt && e.solvent.Some?),
                                j.nfreq || (j.opt && j.freq && e.solvent.Some?), j.nearir),
                   2, 3, 4);
  }

  lemma WhenRanks(flag: bool, p: Part)
    ensures RanksWithin(When(flag, p), p.Rank(), p.Rank())
  {
  }

  lemma KeywordRanks(opt: bool, optimizationLevel: Option<string>, freq: bool, nfreq: bool, nearir: bool)
    ensures RanksWithin(KeywordParts(opt, optimizationLevel, freq, nfreq, nearir), 4, 4)
  {
    var a := When(opt, JobLine(optimizationLevel.GetOr("Opt")));
    var b := When(freq, JobLine("Freq"));
    var c := When(nfreq, JobLine("NumFreq"));
    var d := When(nearir, JobLine("NearIR"));
    WhenRanks(opt, JobLine(optimizationLevel.GetOr("Opt")));
    WhenRanks(freq, JobLine("Freq"));
    WhenRanks(nfreq, JobLine("NumFreq"));
    WhenRanks(nearir, JobLine("NearIR"));
    RanksJoinThree(a, b, c, 4, 4, 4);
    RanksJoin(a + b + c, d, 4, 4, 4, 4);
  }

  /** Three groups of one kind each, in increasing kinds, join into parts of those kinds. */
  lemma RanksJoinThree(xs: seq<Part>, ys: seq<Part>, zs: seq<Part>, r1: nat, r2: nat, r3: nat)
    requires r1 <= r2 <= r3
    requires RanksWithin(xs, r1, r1) && RanksWithin(ys, r2, r2) && RanksWithin(zs, r3, r3)
    ensures RanksWithin(xs + ys + zs, r1, r3)
  {
    RanksJoin(xs, ys, r1, r1, r2, r2);
    RanksJoin(xs + ys, zs, r1, r2, r3, r3);
  }

  lemma BackRanks(e: Engine, mol: System, j: Job)
    ensures RanksWithin(BackParts(e, mol, j), 5, 11)
  {
    var models := ModelBlocks(e, mol, j);
    var outputs := OutputBlocks(e, j);
    var coordinates := [Coordinates(mol.charge, mol.spin, mol.name)];
    assert RanksWithin(models, 5, 7) by { ModelBlocksInOrder(e, mol, j); }
    assert RanksWithin(outputs, 8, 10) by { OutputBlocksInOrder(e, j); }
    assert RanksWithin(coordinates, 11, 11) by { SingleInOrder(coordinates[0]); }
    RanksJoin(models, outputs, 5, 7, 8, 10);
    RanksJoin(models + outputs, coordinates, 5, 10, 11, 11);
  }

  lemma RanksJoin(xs: seq<Part>, ys: seq<Part>, lo: nat, m1: nat, m2: nat, hi: nat)
    requires lo <= m1 <= m2 <= hi
    requires RanksWithin(xs, lo, m1) && RanksWithin(ys, m2, hi)
    ensures RanksWithin(xs + ys, lo, hi)
  {
    forall a | 0 <= a < |xs + ys| ensures lo <= (xs + ys)[a].Rank() <= hi {
      if a < |xs| {
        assert (xs + ys)[a] == xs[a];
      } else {
        assert (xs + ys)[a] == ys[a - |xs|];
      }
    }
  }

  /** The text of `[head] + line + rest` for a pieces function: the head's text, the line's and the rest's. */
  lemma TextAroundLine(head: Part, line: seq<Part>, rest: seq<Part>, f: Part -> seq<string>)
    ensures Concat(Flatten([head] + line + rest, f)) == Concat(f(head)) + Concat(Flatten(line, f)) + Concat(Flatten(rest, f))
  {
    FlattenAppend([head] + line, rest, f);
    FlattenAppend([head], line, f);
    FlattenOne(head, f);
    ConcatAppend(f(head) + Flatten(line, f), Flatten(rest, f));
    ConcatAppend(f(head), Flatten(line, f));
  }

  /** The file as written and the corrected file share everything but the SCF line: the same
      resources block before it and the same text after it. */
  lemma AsWrittenInputDiffersInScfLine(e: Engine, mol: System, j: Job)
    ensures var scf := j.scfConvergenceStrategy.Some? || j.scfConvergenceLevel.Some?;
            var head := Concat(Resources(j.ncores, j.maxcore, e.methodName, e.basisSet, e.optionals).Pieces());
            var rest := Concat(Flatten(AfterScfParts(e, mol, j), PartPieces));
            && InputText(e, mol, j)
               == head + (if scf then Concat(ScfLine(j.scfConvergenceLevel, j.scfConvergenceStrategy).Pieces()) else "") + rest
            && AsWrittenInputText(e, mol, j)
               == head + (if scf then Concat(AsWrittenScfPieces(j.scfConvergenceLevel, j.scfConvergenceStrategy)) else "") + rest
  {
    var scf := j.scfConvergenceStrategy.Some? || j.scfConvergenceLevel.Some?;
    var head := Resources(j.ncores, j.maxcore, e.methodName, e.basisSet, e.optionals);
    var sline := ScfLine(j.scfConvergenceLevel, j.scfConvergenceStrategy);
    var line := When(scf, sline);
    var rest := AfterScfParts(e, mol, j);
    PartsAroundScfLine(e, mol, j);
    AfterScfRanks(e, mol, j);
    AsWrittenAgrees(rest, 2, 11);
    TextAroundLine(head, line, rest, PartPieces);
    TextAroundLine(head, line, rest, AsWrittenPartPieces);
    if scf {
      FlattenOne(sline, PartPieces);
      FlattenOne(sline, AsWrittenPartPieces);
    }
  }

  /** Without a convergence level the file as written is the corrected file. */
  lemma AsWrittenInputWithoutLevel(e: Engine, mol: System, j: Job)
    requires j.scfConvergenceLevel.None?
    ensures AsWrittenInputText(e, mol, j) == InputText(e, mol, j)
  {
    AsWrittenInputDiffersInScfLine(e, mol, j);
  }

  /** Every file starts with the resources and method line and ends with the coordinates line. */
  lemma PartsFrame(e: Engine, mol: System, j: Job)
    ensures Parts(e, mol, j)[0] == Resources(j.ncores, j.maxcore, e.methodName, e.basisSet, e.optionals)
    ensures Parts(e, mol, j)[|Parts(e, mol, j)| - 1] == Coordinates(mol.charge, mol.spin, mol.name)
  {
  }

  /** The parts of `ps` come in the order of their kinds. */
  predicate InOrder(ps: seq<Part>) {
    forall a, b :: 0 <= a < b < |ps| ==> ps[a].Rank() <= ps[b].Rank()
  }

  /** Every part of `ps` has a kind between `lo` and `hi`. */
  predicate RanksWithin(ps: seq<Part>, lo: nat, hi: nat) {
    forall a :: 0 <= a < |ps| ==> lo <= ps[a].Rank() <= hi
  }

  lemma OrderedJoin(xs: seq<Part>, ys: seq<Part>, lo: nat, m1: nat, m2: nat, hi: nat)
    requires lo <= m1 <= m2 <= hi
    requires InOrder(xs) && RanksWithin(xs, lo, m1)
    requires InOrder(ys) && RanksWithin(ys, m2, hi)
    ensures InOrder(xs + ys) && RanksWithin(xs + ys, lo, hi)
  {
    forall a | 0 <= a < |xs + ys| ensures lo <= (xs + ys)[a].Rank() <= hi {
      if a < |xs| {
        assert (xs + ys)[a] == xs[a];
      } else {
        assert (xs + ys)[a] == ys[a - |xs|];
      }
    }
    forall a, b | 0 <= a < b < |xs + ys| ensures (xs + ys)[a].Rank() <= (xs + ys)[b].Rank() {
      if b < |xs| {
        assert (xs + ys)[a] == xs[a] && (xs + ys)[b] == xs[b];
      } else if a < |xs| {
        assert (xs + ys)[a] == xs[a] && (xs + ys)[b] == ys[b - |xs|];
      } else {
        assert (xs + ys)[a] == ys[a - |xs|] && (xs + ys)[b] == ys[b - |xs|];
      }
    }
  }

  lemma WhenInOrder(flag: bool, p: Part)
    ensures InOrder(When(flag, p)) && RanksWithin(When(flag, p), p.Rank(), p.Rank())
  {
  }

  lemma SingleInOrder(p: Part)
    ensures InOrder([p]) && RanksWithin([p], p.Rank(), p.Rank())
  {
  }

  /** The parts come in one fixed order of kinds, whatever the job: resources, SCF line,
      RIJCOSX, print level, calculation keywords, `%geom`, `%CPCM`, `%plots`, `%output`, `%scf`,
      `%elprop`, coordinates. */
  lemma PartsInOrder(e: Engine, mol: System, j: Job)
    ensures InOrder(Parts(e, mol, j))
  {
    var g1 := [Resources(j.ncores, j.maxcore, e.methodName, e.basisSet, e.optionals)];
    var g2 := OpeningParts(e, j);
    var g3 := KeywordParts(j.opt, j.optimizationLevel, j.freq && !(j.opt && e.solvent.Some?),
                           j.nfreq || (j.opt && j.freq && e.solvent.Some?), j.nearir);
    var g4 := ModelBlocks(e, mol, j);
    var g5 := OutputBlocks(e, j);
    var g6 := [Coordinates(mol.charge, mol.spin, mol.name)];
    OpeningInOrder(e, j);
    KeywordsInOrder(j.opt, j.optimizationLevel, j.freq && !(j.opt && e.solvent.Some?),
                    j.nfreq || (j.opt && j.freq && e.solvent.Some?), j.nearir);
    ModelBlocksInOrder(e, mol, j);
    OutputBlocksInOrder(e, j);
    SingleInOrder(g1[0]);
    SingleInOrder(g6[0]);
    OrderedJoin(g1, g2, 0, 0, 1, 3);
    OrderedJoin(g1 + g2, g3, 0, 3, 4, 4);
    OrderedJoin(g1 + g2 + g3, g4, 0, 4, 5, 7);
    OrderedJoin(g1 + g2 + g3 + g4, g5, 0, 7, 8, 10);
    OrderedJoin(g1 + g2 + g3 + g4 + g5, g6, 0, 10, 11, 11);
  }

  /** Three `if`s whose parts come in the order of their kinds. */
  lemma ThreeInOrder(fa: bool, a: Part, fb: bool, b: Part, fc: bool, c: Part)
    requires a.Rank() <= b.Rank() <= c.Rank()
    ensures InOrder(When(fa, a) + When(fb, b) + When(fc, c))
    ensures RanksWithin(When(fa, a) + When(fb, b) + When(fc, c), a.Rank(), c.Rank())
  {
    WhenInOrder(fa, a);
    WhenInOrder(fb, b);
    WhenInOrder(fc, c);
    OrderedJoin(When(fa, a), When(fb, b), a.Rank(), a.Rank(), b.Rank(), b.Rank());
    OrderedJoin(When(fa, a) + When(fb, b), When(fc, c), a.Rank(), b.Rank(), c.Rank(), c.Rank());
  }

  lemma OpeningInOrder(e: Engine, j: Job)
    ensures InOrder(OpeningParts(e, j)) && RanksWithin(OpeningParts(e, j), 1, 3)
  {
    ThreeInOrder(j.scfConvergenceStrategy.Some? || j.scfConvergenceLevel.Some?, ScfLine(j.scfConvergenceLevel, j.scfConvergenceStrategy),
                 e.auxBasis != "", Rijcosx(e.auxBasis),
                 j.printLevel.Some?, PrintLine(j.printLevel.GetOr("")));
  }

  lemma KeywordsInOrder(opt: bool, optimizationLevel: Option<string>, freq: bool, nfreq: bool, nearir: bool)
    ensures InOrder(KeywordParts(opt, optimizationLevel, freq, nfreq, nearir))
    ensures RanksWithin(KeywordParts(opt, optimizationLevel, freq, nfreq, nearir), 4, 4)
  {
    var a := When(opt, JobLine(optimizationLevel.GetOr("Opt")));
    var b := When(freq, JobLine("Freq"));
    var c := When(nfreq, JobLine("NumFreq"));
    var d := When(nearir, JobLine("NearIR"));
    ThreeInOrder(opt, JobLine(optimizationLevel.GetOr("Opt")), freq, JobLine("Freq"), nfreq, JobLine("NumFreq"));
    WhenInOrder(nearir, JobLine("NearIR"));
    OrderedJoin(a + b + c, d, 4, 4, 4, 4);
  }

  lemma ModelBlocksInOrder(e: Engine, mol: System, j: Job)
    ensures InOrder(ModelBlocks(e, mol, j)) && RanksWithin(ModelBlocks(e, mol, j), 5, 7)
  {
    ThreeInOrder(j.scan.Some?, Geom(j.scan.GetOr(""), j.constraints, j.invertConstraints),
                 OrcaJob.Truthy(e.solvent), Cpcm(e.solvent.GetOr("")),
                 j.cubeDim.Some?, Plots(j.cubeDim.GetOr(0), mol.spin != 1));
  }

  lemma OutputBlocksInOrder(e: Engine, j: Job)
    ensures InOrder(OutputBlocks(e, j)) && RanksWithin(OutputBlocks(e, j), 8, 10)
  {
    ThreeInOrder(j.hirshfeld, HirshfeldOutput, e.scfBlock != [], ScfBlock(e.scfBlock), j.raman, Elprop);
  }

  /** A part of three `if`s is one whose `if` holds. */
  lemma InThree(x: Part, fa: bool, a: Part, fb: bool, b: Part, fc: bool, c: Part)
    ensures x in When(fa, a) + When(fb, b) + When(fc, c) <==> (fa && x == a) || (fb && x == b) || (fc && x == c)
  {
  }

  /** The keyword line of each flag set, and no other. */
  lemma InKeywords(x: Part, opt: bool, optimizationLevel: Option<string>, freq: bool, nfreq: bool, nearir: bool)
    ensures x in KeywordParts(opt, optimizationLevel, freq, nfreq, nearir) <==>
      || (opt && x == JobLine(optimizationLevel.GetOr("Opt")))
      || (freq && x == JobLine("Freq")) || (nfreq && x == JobLine("NumFreq")) || (nearir && x == JobLine("NearIR"))
  {
    InThree(x, opt, JobLine(optimizationLevel.GetOr("Opt")), freq, JobLine("Freq"), nfreq, JobLine("NumFreq"));
  }

  /** A part of the file is in the group its kind belongs to. */
  lemma InGroups(x: Part, e: Engine, mol: System, j: Job)
    ensures x in Parts(e, mol, j) <==>
      || x == Resources(j.ncores, j.maxcore, e.methodName, e.basisSet, e.optionals)
      || x in OpeningParts(e, j)
      || x in KeywordParts(j.opt, j.optimizationLevel, j.freq && !(j.opt && e.solvent.Some?),
                           j.nfreq || (j.opt && j.freq && e.solvent.Some?), j.nearir)
      || x in ModelBlocks(e, mol, j)
      || x in OutputBlocks(e, j)
      || x == Coordinates(mol.charge, mol.spin, mol.name)
    ensures x in Parts(e, mol, j) && 5 <= x.Rank() <= 7 ==> x in ModelBlocks(e, mol, j)
    ensures x in Parts(e, mol, j) && 8 <= x.Rank() <= 10 ==> x in OutputBlocks(e, j)
    ensures x in Parts(e, mol, j) && x.Rank() == 4 ==>
      x in KeywordParts(j.opt, j.optimizationLevel, j.freq && !(j.opt && e.solvent.Some?),
                        j.nfreq || (j.opt && j.freq && e.solvent.Some?), j.nearir)
  {
    OpeningInOrder(e, j);
    KeywordsInOrder(j.opt, j.optimizationLevel, j.freq && !(j.opt && e.solvent.Some?),
                    j.nfreq || (j.opt && j.freq && e.solvent.Some?), j.nearir);
    ModelBlocksInOrder(e, mol, j);
    OutputBlocksInOrder(e, j);
  }

  /** A `%geom` block is written exactly for a scan, and it carries the job's scan, constraints
      and inversion switch. */
  lemma GeomOnlyForScan(e: Engine, mol: System, j: Job, p: Part)
    requires p.Geom?
    ensures p in Parts(e, mol, j) <==> j.scan.Some? && p == Geom(j.scan.value, j.constraints, j.invertConstraints)
  {
    InGroups(p, e, mol, j);
    InModelBlocks(p, e, mol, j);
  }

  lemma InModelBlocks(x: Part, e: Engine, mol: System, j: Job)
    ensures x in ModelBlocks(e, mol, j) <==>
      || (j.scan.Some? && x == Geom(j.scan.GetOr(""), j.constraints, j.invertConstraints))
      || (OrcaJob.Truthy(e.solvent) && x == Cpcm(e.solvent.GetOr("")))
      || (j.cubeDim.Some? && x == Plots(j.cubeDim.GetOr(0), mol.spin != 1))
  {
    InThree(x, j.scan.Some?, Geom(j.scan.GetOr(""), j.constraints, j.invertConstraints),
            OrcaJob.Truthy(e.solvent), Cpcm(e.solvent.GetOr("")),
            j.cubeDim.Some?, Plots(j.cubeDim.GetOr(0), mol.spin != 1));
  }

  /** A `%CPCM` block is written exactly for a solvent that is neither `None` nor "", and it
      names that solvent. */
  lemma CpcmOnlyForSolvent(e: Engine, mol: System, j: Job, p: Part)
    requires p.Cpcm?
    ensures p in Parts(e, mol, j) <==> OrcaJob.Truthy(e.solvent) && p == Cpcm(e.solvent.value)
  {
    InGroups(p, e, mol, j);
    InModelBlocks(p, e, mol, j);
  }

  /** A `%plots` block is written exactly when a cube size is set, with the spin density for
      any multiplicity other than a singlet. */
  lemma PlotsOnlyForCubes(e: Engine, mol: System, j: Job, p: Part)
    requires p.Plots?
    ensures p in Parts(e, mol, j) <==> j.cubeDim.Some? && p == Plots(j.cubeDim.value, mol.spin != 1)
  {
    InGroups(p, e, mol, j);
    InModelBlocks(p, e, mol, j);
  }

  /** The `%plots` block always asks for the electron density and asks for the spin density
      exactly when told to. */
  lemma PlotsSpinDensity(dim: int, spinDensity: bool)
    ensures ElDensLine in Plots(dim, spinDensity).Pieces()
    ensures SpinDensLine in Plots(dim, spinDensity).Pieces() <==> spinDensity
  {
    var d := IntToString(dim);
    assert SpinDensLine[2] == 'S';
    assert ("%plots\n")[2] != 'S' && ("  Format Gaussian_Cube\n")[2] != 'S' && ElDensLine[2] != 'S';
    assert ("  dim1 " + d + "\n")[2] == 'd' && ("  dim2 " + d + "\n")[2] == 'd' && ("  dim3 " + d + "\n")[2] == 'd';
    assert |"end\n\n"| < |SpinDensLine|;
  }

  /** A `%scf` block is written exactly when the engine has SCF settings. */
  lemma ScfBlockOnlyWithSettings(e: Engine, mol: System, j: Job, p: Part)
    requires p.ScfBlock?
    ensures p in Parts(e, mol, j) <==> e.scfBlock != [] && p == ScfBlock(e.scfBlock)
  {
    InGroups(p, e, mol, j);
    InThree(p, j.hirshfeld, HirshfeldOutput, e.scfBlock != [], ScfBlock(e.scfBlock), j.raman, Elprop);
  }

  /** The frequency keywords follow the flags after the switch: an optimisation with analytical
      frequencies and an engine solvent that is not `None` writes no `Freq`... */
  lemma FreqKeyword(e: Engine, mol: System, j: Job)
    requires j.optimizationLevel.None? || j.optimizationLevel.value in OrcaJob.OptimizationLevels
    ensures JobLine("Freq") in Parts(e, mol, j) <==> j.freq && !(j.opt && e.solvent.Some?)
  {
    assert j.optimizationLevel.GetOr("Opt") != "Freq";
    InGroups(JobLine("Freq"), e, mol, j);
    InKeywords(JobLine("Freq"), j.opt, j.optimizationLevel, j.freq && !(j.opt && e.solvent.Some?),
               j.nfreq || (j.opt && j.freq && e.solvent.Some?), j.nearir);
  }

  /** ... and `NumFreq` instead. */
  lemma NumFreqKeyword(e: Engine, mol: System, j: Job)
    requires j.optimizationLevel.None? || j.optimizationLevel.value in OrcaJob.OptimizationLevels
    ensures JobLine("NumFreq") in Parts(e, mol, j) <==> j.nfreq || (j.opt && j.freq && e.solvent.Some?)
  {
    assert j.optimizationLevel.GetOr("Opt") != "NumFreq";
    InGroups(JobLine("NumFreq"), e, mol, j);
    InKeywords(JobLine("NumFreq"), j.opt, j.optimizationLevel, j.freq && !(j.opt && e.solvent.Some?),
               j.nfreq || (j.opt && j.freq && e.solvent.Some?), j.nearir);
  }

  /** The switch tests the solvent against `None` while the `%CPCM` block tests it for truth: an
      empty solvent name switches to numerical frequencies and still writes no solvation block. */
  lemma EmptySolventSwitchesWithoutCpcm(e: Engine, mol: System, j: Job, p: Part)
    requires e.solvent == Some("") && j.opt && j.freq
    requires p.Cpcm?
    ensures JobLine("NumFreq") in Parts(e, mol, j)
    ensures p !in Parts(e, mol, j)
  {
    InGroups(JobLine("NumFreq"), e, mol, j);
    InKeywords(JobLine("NumFreq"), j.opt, j.optimizationLevel, false, true, j.nearir);
    CpcmOnlyForSolvent(e, mol, j, p);
  }

  // ---------------------------------------------------------------------------------------------
  // The parser
  // ---------------------------------------------------------------------------------------------

  /** The three energies the loop sets, the Gibbs free energy stored as read; a value that was
      never read leaves the property as it was. */
  function WithLegacyEnergies(p: Properties, r: EnergyReadings): Properties {
    OrcaParse.WithEnergies(p, r).(storedGibbsFreeEnergy := if r.gibbs.Some? then r.gibbs else p.storedGibbsFreeEnergy)
  }

  /** The Mulliken rows as the code reads them: the section search also runs when the log has
      no header at all, and then starts on the first line, where the counter already equals the
      zero sections counted. */
  function AsWrittenMulliken(log: Log): Result<seq<(real, real)>, Error> {
    MullikenScan(log, 0, MullikenDecoder, CountInLog(log, |log|, MullikenHeader), 0, false)
  }

  /** The Hirshfeld populations and the vibrational analysis, read after the Mulliken table. */
  function Tail(log: Log, atomCount: nat, p: Properties): (Outcome<Error>, Properties) {
    match HirshfeldScan(log, 0, HirshfeldRow, [])
    case Failure(e) => (Fail(e), p)
    case Success(hirshfeld) =>
      var p1 := OrcaParse.WithHirshfeld(p, hirshfeld);
      match VibrationalScan(log, 0, Legacy, atomCount, None, 0)
      case Failure(e) => (Fail(e), p1)
      case Success((vib, _)) => (Pass, OrcaParse.WithVibrations(p1, vib))
  }

  /** The sections after the energy loop, with the Mulliken table read as `mulliken`. */
  function Sections(log: Log, atomCount: nat, p: Properties, mulliken: Result<seq<(real, real)>, Error>)
    : (Outcome<Error>, Properties)
  {
    match mulliken
    case Failure(e) => (Fail(e), p)
    case Success(rows) => Tail(log, atomCount, OrcaParse.WithMulliken(p, rows))
  }

  /** `parse_output` with the Mulliken table read as `mulliken`: the outcome and the property
      values it leaves. */
  function ParseWith(fileExists: bool, log: Log, atomCount: nat, p: Properties,
                     mulliken: Result<seq<(real, real)>, Error>): (r: (Outcome<Error>, Properties))
    ensures !fileExists ==> r == (Fail(MissingOutputFile), p)
    ensures fileExists && !AnyLineContains(log, TerminationMarker) ==> r == (Fail(AbnormalTermination), p)
  {
    if !fileExists then (Fail(MissingOutputFile), p)
    else if !AnyLineContains(log, TerminationMarker) then (Fail(AbnormalTermination), p)
    else
      var readings := EnergyScan(log, |log|, TokenFromEnd);
      var p1 := WithLegacyEnergies(p, readings);
      if readings.failed then (Fail(MalformedLog), p1)
      else Sections(log, atomCount, p1, mulliken)
  }

  /** `parse_output` as the code is written. */
  function AsWrittenParse(fileExists: bool, log: Log, atomCount: nat, p: Properties): (Outcome<Error>, Properties) {
    ParseWith(fileExists, log, atomCount, p, AsWrittenMulliken(log))
  }

  /** `parse_output` with the Mulliken search skipped when the log has no header, as the current
      package does. */
  function Parse(fileExists: bool, log: Log, atomCount: nat, p: Properties): (Outcome<Error>, Properties) {
    ParseWith(fileExists, log, atomCount, p, OrcaParse.MullikenOf(log))
  }

  /** The sections of `parse_output` after the energies. */
  method ReadSections(log: Log, atomCount: nat, props: PropertySet) returns (r: Outcome<Error>)
    modifies props
    ensures (r, props.Value()) == Sections(log, atomCount, old(props.Value()), OrcaParse.MullikenOf(log))
  {
    var sections := CountInLog(log, |log|, MullikenHeader);
    var mulliken: seq<(real, real)> := [];
    if sections != 0 {
      var table := ScanMulliken(log, MullikenDecoder, sections);
      if table.Failure? {
        return Fail(table.error);
      }
      mulliken := table.value;
    }
    if mulliken != [] {
      props.SetMulliken(OrcaParse.Charges(mulliken), OrcaParse.Spins(mulliken));
    }
    var hirshfeld := ScanHirshfeld(log, HirshfeldRow);
    if hirshfeld.Failure? {
      return Fail(hirshfeld.error);
    }
    if hirshfeld.value != [] {
      props.SetHirshfeld(OrcaParse.Charges(hirshfeld.value), OrcaParse.Spins(hirshfeld.value));
    }
    var vibrations := ScanVibrations(log, Legacy, atomCount);
    if vibrations.Failure? {
      return Fail(vibrations.error);
    }
    if vibrations.value.0.Some? {
      props.SetVibrationalData(vibrations.value.0.value);
    }
    return Pass;
  }

  /** `parse_output`: the log `log` of `output.out` (when `fileExists`) written into `props`. */
  method ParseOutput(fileExists: bool, log: Log, atomCount: nat, props: PropertySet) returns (r: Outcome<Error>)
    modifies props
    ensures (r, props.Value()) == Parse(fileExists, log, atomCount, old(props.Value()))
  {
    if !fileExists {
      return Fail(MissingOutputFile);
    }
    var normal := FindMarker(log, TerminationMarker);
    if !normal {
      return Fail(AbnormalTermination);
    }
    var readings := ReadEnergies(log, TokenFromEnd);
    if readings.electronic.Some? {
      props.SetElectronicEnergy(readings.electronic.value);
    }
    if readings.correction.Some? {
      props.SetFreeEnergyCorrection(readings.correction.value);
    }
    if readings.gibbs.Some? {
      props.SetGibbsFreeEnergy(readings.gibbs.value);
    }
    if readings.failed {
      return Fail(MalformedLog);
    }
    r := ReadSections(log, atomCount, props);
  }

  // ---------------------------------------------------------------------------------------------
  // What the parser promises
  // ---------------------------------------------------------------------------------------------

  /** The sections after the energy loop leave the energies alone. */
  lemma SectionsKeepEnergies(log: Log, atomCount: nat, p: Properties, mulliken: Result<seq<(real, real)>, Error>)
    ensures var q := Sections(log, atomCount, p, mulliken).1;
      q.electronicEnergy == p.electronicEnergy && q.freeEnergyCorrection == p.freeEnergyCorrection
      && q.storedGibbsFreeEnergy == p.storedGibbsFreeEnergy
  {
  }

  /** After a normal termination whose energy lines all decode, each of the three energies is
      that of the LAST line carrying its marker, or the earlier value when no such line exists;
      the Gibbs free energy is stored as read, with no check against the other two. */
  lemma EnergiesLastWin(log: Log, atomCount: nat, p: Properties)
    requires AnyLineContains(log, TerminationMarker)
    requires !EnergyScan(log, |log|, TokenFromEnd).failed
    ensures var q := Parse(true, log, atomCount, p).1;
      var e := LastValue(log, |log|, FinalEnergyMarker, 1, TokenFromEnd);
      q.electronicEnergy == if e.Some? then e else p.electronicEnergy
    ensures var q := Parse(true, log, atomCount, p).1;
      var c := LastValue(log, |log|, CorrectionMarker, 4, TokenFromEnd);
      q.freeEnergyCorrection == if c.Some? then c else p.freeEnergyCorrection
    ensures var q := Parse(true, log, atomCount, p).1;
      var g := LastValue(log, |log|, GibbsMarker, 2, TokenFromEnd);
      q.storedGibbsFreeEnergy == if g.Some? then g else p.storedGibbsFreeEnergy
  {
    var readings := EnergyScan(log, |log|, TokenFromEnd);
    EnergiesLastWins(log, |log|, TokenFromEnd);
    SectionsKeepEnergies(log, atomCount, WithLegacyEnergies(p, readings), OrcaParse.MullikenOf(log));
  }

  /** A log that ends normally, has no Mulliken header and no line with the end-of-table text
      fails as written: the search reads the whole file as one table that never ends. */
  lemma AsWrittenMullikenFails(log: Log)
    requires |log| > 0
    requires forall j :: 0 <= j < |log| ==> !Contains(log[j], MullikenHeader)
    requires forall j :: 0 <= j < |log| ==> !Contains(log[j], MullikenEnd)
    ensures AsWrittenMulliken(log) == Failure(MalformedLog)
    ensures OrcaParse.MullikenOf(log) == Success([])
  {
    OrcaParse.NoMullikenSections(log);
    OrcaParse.NoMullikenHeaderNoRows(log);
    NotContainsShort("", MullikenEnd);
    var spin := Contains(log[0], SpinColumn);
    ReadRowsWithoutEnd(log, Skip(log, 1, 1), IsMullikenEnd, MullikenDecoder(spin), []);
  }

  /** On such a log the parse as written stops with an error once the energies are set. */
  lemma AsWrittenParseFailsWithoutMulliken(log: Log, atomCount: nat, p: Properties)
    requires AnyLineContains(log, TerminationMarker)
    requires !EnergyScan(log, |log|, TokenFromEnd).failed
    requires forall j :: 0 <= j < |log| ==> !Contains(log[j], MullikenHeader)
    requires forall j :: 0 <= j < |log| ==> !Contains(log[j], MullikenEnd)
    ensures AsWrittenParse(true, log, atomCount, p)
         == (Fail(MalformedLog), WithLegacyEnergies(p, EnergyScan(log, |log|, TokenFromEnd)))
  {
    AsWrittenMullikenFails(log);
  }

  /** On such a log the corrected parse goes on to the Hirshfeld and vibrational sections with
      no Mulliken populations written. */
  lemma ParseSkipsMissingMulliken(log: Log, atomCount: nat, p: Properties)
    requires AnyLineContains(log, TerminationMarker)
    requires !EnergyScan(log, |log|, TokenFromEnd).failed
    requires forall j :: 0 <= j < |log| ==> !Contains(log[j], MullikenHeader)
    ensures Parse(true, log, atomCount, p)
         == Tail(log, atomCount, WithLegacyEnergies(p, EnergyScan(log, |log|, TokenFromEnd)))
  {
    OrcaParse.NoMullikenHeaderNoRows(log);
  }

  /** When every section reads, the parse succeeds whatever Gibbs free energy the log reports:
      unlike the current package, the legacy parser makes no consistency check. */
  lemma NoGibbsCheck(log: Log, atomCount: nat, p: Properties)
    requires AnyLineContains(log, TerminationMarker)
    requires !EnergyScan(log, |log|, TokenFromEnd).failed
    requires OrcaParse.MullikenOf(log).Success?
    requires HirshfeldScan(log, 0, HirshfeldRow, []).Success?
    requires VibrationalScan(log, 0, Legacy, atomCount, None, 0).Success?
    ensures Parse(true, log, atomCount, p).0 == Pass
  {
  }
}
