/** The DFTB+ engine wrapper: the output suffix of its constructor, the HSD input file
    `dftb_in.hsd` that `write_input` renders for a system and a job, and `parse_output`, which
    reads the electronic energy from `output.out`. */
module Dftb {
  import opened Wrappers
  import opened PyStr
  import opened PyDict
  import opened Errors
  import opened Systems
  import opened Properties
  import opened OrcaLog
  import OrcaJob

  // ---------------------------------------------------------------------------------------------
  // Parameter tables of the constructor
  // ---------------------------------------------------------------------------------------------

  /** Highest angular momentum shell of each supported element (`atom_dict`). */
  const AtomDict: Dict<string> := [
    ("Br", "d"), ("C", "p"), ("Ca", "p"), ("Cl", "d"), ("F", "p"), ("H", "s"), ("I", "d"),
    ("K", "p"), ("Mg", "p"), ("N", "p"), ("Na", "p"), ("O", "p"), ("P", "d"), ("S", "d"),
    ("Zn", "d")]

  /** Hubbard derivatives of the third-order Hamiltonian (`hubbard_derivs`), each as Python's
      `str` prints the float. */
  const HubbardDerivs: Dict<string> := [
    ("Br", "-0.0573"), ("C", "-0.1492"), ("Ca", "-0.034"), ("Cl", "-0.0697"), ("F", "-0.1623"),
    ("H", "-0.1857"), ("I", "-0.0433"), ("K", "-0.0339"), ("Mg", "-0.02"), ("N", "-0.1535"),
    ("Na", "-0.0454"), ("O", "-0.1575"), ("P", "-0.14"), ("S", "-0.11"), ("Zn", "-0.03")]

  /** Spin constants of the spin-polarised Hamiltonian (`spin_constants`), each as Python's
      `str` prints the float. */
  const SpinConstants: Dict<seq<string>> := [
    ("H", ["-0.072"]),
    ("C", ["-0.031", "-0.025", "-0.025", "-0.023"]),
    ("N", ["-0.033", "-0.027", "-0.027", "-0.026"]),
    ("O", ["-0.035", "-0.03", "-0.03", "-0.028"]),
    ("S", ["-0.021", "-0.017", "0.0", "-0.017", "-0.016", "0.0", "0.0", "0.0", "-0.08"])]

  // ---------------------------------------------------------------------------------------------
  // The engine
  // ---------------------------------------------------------------------------------------------

  /** The output suffix before `clean_suffix`: "DFTB", then "3" with the third-order
      Hamiltonian, then "-D3" with dispersion. */
  function OutputSuffix(thirdorder: bool, dispersion: bool): (s: string)
    ensures IsPrefix("DFTB", s)
    ensures dispersion ==> EndsWith(s, "-D3")
    ensures |s| == 4 + (if thirdorder then 1 else 0) + (if dispersion then 3 else 0)
  {
    "DFTB" + (if thirdorder then "3" else "") + (if dispersion then "-D3" else "")
  }

  /** The default engine, third-order DFTB without dispersion, writes outputs suffixed `DFTB3`. */
  lemma DefaultSuffix()
    ensures OutputSuffix(true, false) == "DFTB3"
  {
  }

  /** The four configurations of the two switches have four different suffixes. */
  lemma SuffixIdentifiesOptions(t1: bool, d1: bool, t2: bool, d2: bool)
    requires OutputSuffix(t1, d1) == OutputSuffix(t2, d2)
    ensures t1 == t2 && d1 == d2
  {
    var s := OutputSuffix(t1, d1);
    assert |s| == 4 + (if t1 then 1 else 0) + (if d1 then 3 else 0);
  }

  /** The settings of an engine that `write_input` reads. */
  datatype Settings = Settings(
    methodName: string,
    parameters: string,
    solver: Option<string>,
    thirdorder: bool,
    dispersion: bool,
    fermi: bool,
    fermiTemp: string,
    paramDir: string,
    atomDict: Dict<string>,
    hubbardDerivs: Dict<string>,
    spinConstants: Dict<seq<string>>)

  /** `os.path.join(a, b)` on POSIX: an absolute `b` replaces `a`; otherwise `b` follows `a`,
      separated by one '/' unless `a` is empty or already ends with one. */
  function PathJoin(a: string, b: string): (r: string)
    ensures |b| > 0 && b[0] == '/' ==> r == b
    ensures !(|b| > 0 && b[0] == '/') ==> IsPrefix(a, r) && EndsWith(r, b)
    ensures !(|b| > 0 && b[0] == '/') && |a| > 0 && a[|a| - 1] != '/' ==> |r| == |a| + 1 + |b| && r[|a|] == '/'
    ensures !(|b| > 0 && b[0] == '/') && (|a| == 0 || a[|a| - 1] == '/') ==> |r| == |a| + |b|
  {
    if |b| > 0 && b[0] == '/' then b
    else if |a| == 0 || a[|a| - 1] == '/' then a + b
    else a + "/" + b
  }

  /** The job description `job_info`: its type and the values each driver formats. */
  datatype JobInfo = JobInfo(
    kind: string,
    latticeopt: bool,
    timestep: string,
    temperature: string,
    steps: int,
    restartFrequency: int,
    startTemp: string,
    rampSteps: int,
    targetTemp: string,
    holdSteps: int)

  // ---------------------------------------------------------------------------------------------
  // The input file as a sequence of parts
  // ---------------------------------------------------------------------------------------------

  datatype Ramp = Constant | Linear

  /** One line of a thermostat temperature profile: hold or ramp for `steps` steps towards
      `temperature`. */
  datatype Segment = Segment(ramp: Ramp, steps: int, temperature: string)

  function SegmentLine(sg: Segment): string {
    "      " + (if sg.ramp == Constant then "constant" else "linear") + " " + IntToString(sg.steps)
    + " " + sg.temperature + "\n"
  }

  function ProfileText(segments: seq<Segment>): string
    decreases |segments|
  {
    if segments == [] then ""
    else ProfileText(segments[..|segments| - 1]) + SegmentLine(segments[|segments| - 1])
  }

  /** Sum of the steps of a temperature profile. */
  function TotalSteps(segments: seq<Segment>): int
    decreases |segments|
  {
    if segments == [] then 0 else TotalSteps(segments[..|segments| - 1]) + segments[|segments| - 1].steps
  }

  /** The simulated-annealing profile: heat from the start to the target temperature, hold it,
      cool back down. */
  function AnnealingProfile(job: JobInfo): seq<Segment> {
    [Segment(Constant, 1, job.startTemp), Segment(Linear, job.rampSteps - 1, job.targetTemp),
     Segment(Constant, job.holdSteps, job.targetTemp), Segment(Linear, job.rampSteps, job.startTemp)]
  }

  function YesNo(b: bool): string {
    if b then "Yes" else "No"
  }

  function GeometryText(name: string): string {
    "Geometry = GenFormat {\n  <<< \"" + name + ".gen\"\n}\n\n"
  }

  const VelocityVerletOpen := "Driver = VelocityVerlet {\n"

  const ParserOptionsText := "\nParserOptions {\n  ParserVersion = 11\n}"

  /** The parts of `dftb_in.hsd`, one per `if` or loop iteration of `write_input`. */
  datatype Part =
    | GeometryInclude(name: string)
    | StaticDriver
    | OptimizationDriver(latticeopt: bool)
    | ThermostatDriver(timestep: string, temperature: string, steps: int, restartFrequency: int)
    | AnnealingDriver(timestep: string, profile: seq<Segment>, restartFrequency: int)
    | HamiltonianOpen(methodName: string, charge: int)
    | FermiFilling(temperature: string)
    | SpinPolarisation(unpaired: int)
    | ShellResolvedSpin
    | SpinConstantsEntry(atom: string, constants: string)
    | CloseBlock
    | SolverLine(solver: string)
    | SlaterKosterFiles(prefix: string)
    | AngularMomentum(atom: string, shell: string)
    | KPoints
    | ThirdOrderFull
    | HubbardDeriv(atom: string, derivative: string)
    | HCorrection
    | Dispersion
    | XtbMethod
    | HamiltonianClose
    | ParserOptions
  {
    /** The operands of the `+=` statements that write this part. */
    function Pieces(): seq<string> {
      match this
      case GeometryInclude(name) => [GeometryText(name)]
      case StaticDriver => ["Driver = GeometryOptimization {\n  MaxSteps = 0\n}\n\n"]
      case OptimizationDriver(latticeopt) =>
        ["Driver = GeometryOptimization {\n  LatticeOpt = " + YesNo(latticeopt) + "\n}\n\n"]
      case ThermostatDriver(_, _, _, _) => [VelocityVerletOpen + DynamicsBody(), "}\n\n"]
      case AnnealingDriver(_, _, _) => [VelocityVerletOpen + DynamicsBody(), "}\n\n"]
      case HamiltonianOpen(methodName, charge) =>
        ["Hamiltonian = " + methodName + " {\n  MaxSCCIterations = 500\n  Charge = " + IntToString(charge) + "\n"]
      case FermiFilling(temperature) =>
        ["  Filling = Fermi {\n    Temperature [K] = " + temperature + "\n  }\n"]
      case SpinPolarisation(unpaired) =>
        ["  SpinPolarisation = Colinear {\n    UnpairedElectrons = " + IntToString(unpaired)
         + "\n  }\n  SpinConstants = {\n"]
      case ShellResolvedSpin => ["    ShellResolvedSpin = Yes\n"]
      case SpinConstantsEntry(atom, constants) => ["    " + atom + " = {\n      " + constants + "\n    }\n"]
      case CloseBlock => ["  }\n"]
      case SolverLine(solver) => ["  Solver = " + solver + " {}\n"]
      case SlaterKosterFiles(prefix) =>
        ["  Scc = Yes\n  SlaterKosterFiles = Type2FileNames {\n    Prefix = \"" + prefix
         + "/\"\n    Separator = \"-\"\n    Suffix = \".skf\"\n  }\n  MaxAngularMomentum {\n"]
      case AngularMomentum(atom, shell) => ["    " + atom + " = \"" + shell + "\"\n"]
      case KPoints => ["  kPointsAndWeights = { 0.0 0.0 0.0 1.0 }\n"]
      case ThirdOrderFull => ["  ThirdOrderFull = Yes\n  HubbardDerivs {\n"]
      case HubbardDeriv(atom, derivative) => ["    " + atom + " = " + derivative + "\n"]
      case HCorrection => ["  }\n  HCorrection = Damping {\n    Exponent = 4.00\n  }\n"]
      case Dispersion =>
        ["  Dispersion = SimpleDftD3 {\n    a1 = 0.746\n    a2 = 4.191\n    s6 = 1.0\n    s8 = 3.209\n  }\n"]
      case XtbMethod => ["  Method = \"GFN2-xTB\"\n"]
      case HamiltonianClose => ["}\n"]
      case ParserOptions => [ParserOptionsText]
    }

    /** The velocity Verlet driver after its opening line, for the two dynamics drivers. */
    function DynamicsBody(): string
      requires ThermostatDriver? || AnnealingDriver?
    {
      match this
      case ThermostatDriver(timestep, temperature, steps, restartFrequency) =>
        "  TimeStep [fs] = " + timestep
        + "\n  Thermostat = NoseHoover {\n    Temperature [K] = " + temperature
        + "\n    CouplingStrength [cm^-1] = 3200\n  }\n  Steps = " + IntToString(steps)
        + "\n  MovedAtoms = 1:-1\n  MDRestartFrequency = " + IntToString(restartFrequency) + "\n"
      case AnnealingDriver(timestep, profile, restartFrequency) =>
        "  TimeStep [fs] = " + timestep
        + "\n  Thermostat = NoseHoover {\n    Temperature [Kelvin] = TemperatureProfile {\n"
        + ProfileText(profile)
        + "    }\n    CouplingStrength [cm^-1] = 3200\n  }\n  MovedAtoms = 1:-1\n  MDRestartFrequency = "
        + IntToString(restartFrequency) + "\n"
    }
  }

  function PartPieces(p: Part): seq<string> {
    p.Pieces()
  }

  /** `[p]` when `flag` holds: one `if` of `write_input`. */
  function When(flag: bool, p: Part): seq<Part> {
    if flag then [p] else []
  }

  /** The operands of one `if` of `write_input`. */
  lemma Emit(flag: bool, p: Part)
    ensures Flatten(When(flag, p), PartPieces) == if flag then p.Pieces() else []
  {
    if flag {
      FlattenOne(p, PartPieces);
    }
  }


  function SpinEntryOf(atom: string, constants: seq<string>): Part {
    SpinConstantsEntry(atom, JoinWith(constants, ' '))
  }

  function AngularOf(atom: string, shell: string): Part {
    AngularMomentum(atom, shell)
  }

  function HubbardOf(atom: string, derivative: string): Part {
    HubbardDeriv(atom, derivative)
  }

  /** One part per atom type, in order, built from the atom's entry of `table`; the `KeyError`
      of the first atom type missing from the table otherwise. */
  function Entries<V>(table: Dict<V>, atoms: seq<string>, entry: (string, V) -> Part): Result<seq<Part>, Error>
    decreases |atoms|
  {
    if atoms == [] then Success([])
    else
      var n := |atoms| - 1;
      var front := Entries(table, atoms[..n], entry);
      if front.Failure? then Failure(front.error)
      else if Get(table, atoms[n]).None? then Failure(UnknownAtomType(atoms[n]))
      else Success(front.value + [entry(atoms[n], Get(table, atoms[n]).value)])
  }

  /** The entries are built exactly when every atom type is in the table. */
  lemma {:induction false} EntriesSucceedIff<V>(table: Dict<V>, atoms: seq<string>, entry: (string, V) -> Part)
    ensures Entries(table, atoms, entry).Success? <==> forall i :: 0 <= i < |atoms| ==> Get(table, atoms[i]).Some?
    decreases |atoms|
  {
    if atoms != [] {
      var n := |atoms| - 1;
      EntriesSucceedIff(table, atoms[..n], entry);
      assert forall i :: 0 <= i < n ==> atoms[..n][i] == atoms[i];
    }
  }

  /** One entry per atom type, in the order of the atom types, holding its table value. */
  lemma {:induction false} EntriesInOrder<V>(table: Dict<V>, atoms: seq<string>, entry: (string, V) -> Part)
    requires Entries(table, atoms, entry).Success?
    ensures |Entries(table, atoms, entry).value| == |atoms|
    ensures forall i :: 0 <= i < |atoms| ==>
      Get(table, atoms[i]).Some? && Entries(table, atoms, entry).value[i] == entry(atoms[i], Get(table, atoms[i]).value)
    decreases |atoms|
  {
    if atoms != [] {
      var n := |atoms| - 1;
      EntriesInOrder(table, atoms[..n], entry);
      var front := Entries(table, atoms[..n], entry).value;
      var last := entry(atoms[n], Get(table, atoms[n]).value);
      assert Entries(table, atoms, entry).value == front + [last];
      forall i | 0 <= i < |atoms|
        ensures Get(table, atoms[i]).Some? && (front + [last])[i] == entry(atoms[i], Get(table, atoms[i]).value)
      {
        if i < n {
          assert atoms[..n][i] == atoms[i];
        }
      }
    }
  }

  lemma EntryAt<V>(table: Dict<V>, atoms: seq<string>, entry: (string, V) -> Part, i: nat)
    requires Entries(table, atoms, entry).Success? && i < |atoms|
    ensures |Entries(table, atoms, entry).value| == |atoms| && Get(table, atoms[i]).Some?
    ensures Entries(table, atoms, entry).value[i] == entry(atoms[i], Get(table, atoms[i]).value)
  {
    EntriesInOrder(table, atoms, entry);
  }

  /** A failure names the first atom type missing from the table. */
  lemma {:induction false} EntriesFirstMissing<V>(table: Dict<V>, atoms: seq<string>, entry: (string, V) -> Part)
    requires Entries(table, atoms, entry).Failure?
    ensures exists i :: (0 <= i < |atoms| && Entries(table, atoms, entry).error == UnknownAtomType(atoms[i])
      && Get(table, atoms[i]).None? && (forall k :: 0 <= k < i ==> Get(table, atoms[k]).Some?))
    decreases |atoms|
  {
    var n := |atoms| - 1;
    assert forall i :: 0 <= i < n ==> atoms[..n][i] == atoms[i];
    if Entries(table, atoms[..n], entry).Failure? {
      EntriesFirstMissing(table, atoms[..n], entry);
    } else {
      EntriesSucceedIff(table, atoms[..n], entry);
    }
  }

  /** The `Driver` block chosen by the job type. */
  function DriverParts(job: JobInfo): seq<Part> {
    if job.kind == "spe" then [StaticDriver]
    else if job.kind == "opt" then [OptimizationDriver(job.latticeopt)]
    else if job.kind == "md_nvt" then [ThermostatDriver(job.timestep, job.temperature, job.steps, job.restartFrequency)]
    else if job.kind == "simulated_annealing" then [AnnealingDriver(job.timestep, AnnealingProfile(job), job.restartFrequency)]
    else []
  }

  /** Geometry include, driver, the opening of the Hamiltonian and its Fermi filling. */
  function HeadParts(s: Settings, mol: System, job: JobInfo): seq<Part> {
    [GeometryInclude(mol.name)] + DriverParts(job) + [HamiltonianOpen(s.methodName, mol.charge)]
    + When(s.fermi, FermiFilling(s.fermiTemp))
  }

  /** The spin-polarisation and spin-constant blocks of a system with multiplicity `spin`. */
  function SpinParts(spinConstants: Dict<seq<string>>, spin: int, methodName: string, atoms: seq<string>): Result<seq<Part>, Error> {
    if spin == 1 then Success([])
    else
      var entries := Entries(spinConstants, atoms, SpinEntryOf);
      if entries.Failure? then Failure(entries.error)
      else Success([SpinPolarisation(spin - 1)] + When(methodName == "DFTB", ShellResolvedSpin) + entries.value + [CloseBlock])
  }

  function SolverParts(solver: Option<string>): seq<Part> {
    if OrcaJob.Truthy(solver) then [SolverLine(solver.value)] else []
  }

  /** The third-order blocks: Hubbard derivatives and the hydrogen damping correction. */
  function ThirdOrderParts(hubbard: Dict<string>, thirdorder: bool, atoms: seq<string>): Result<seq<Part>, Error> {
    if !thirdorder then Success([])
    else
      var entries := Entries(hubbard, atoms, HubbardOf);
      if entries.Failure? then Failure(entries.error)
      else Success([ThirdOrderFull] + entries.value + [HCorrection])
  }

  /** Everything of the DFTB Hamiltonian after its maximal angular momenta, around the
      third-order blocks `third`. */
  function DftbTail(periodic: bool, third: seq<Part>, dispersion: bool): seq<Part> {
    [CloseBlock] + When(periodic, KPoints) + third + When(dispersion, Dispersion) + [HamiltonianClose]
  }

  function DftbTailParts(hubbard: Dict<string>, periodic: bool, thirdorder: bool, dispersion: bool, atoms: seq<string>): Result<seq<Part>, Error> {
    var third := ThirdOrderParts(hubbard, thirdorder, atoms);
    if third.Failure? then Failure(third.error) else Success(DftbTail(periodic, third.value, dispersion))
  }

  /** The rest of the Hamiltonian for the method "DFTB". */
  function DftbParts(s: Settings, periodic: bool, atoms: seq<string>): Result<seq<Part>, Error> {
    var angular := Entries(s.atomDict, atoms, AngularOf);
    if angular.Failure? then Failure(angular.error)
    else
      var tail := DftbTailParts(s.hubbardDerivs, periodic, s.thirdorder, s.dispersion, atoms);
      if tail.Failure? then Failure(tail.error)
      else Success(SolverParts(s.solver) + [SlaterKosterFiles(PathJoin(s.paramDir, s.parameters))] + angular.value + tail.value)
  }

  /** The rest of the Hamiltonian for the method "xTB". */
  function XtbParts(solver: Option<string>, periodic: bool): seq<Part> {
    SolverParts(solver) + [XtbMethod] + When(periodic, KPoints) + [HamiltonianClose]
  }

  function MethodParts(s: Settings, periodic: bool, atoms: seq<string>): Result<seq<Part>, Error> {
    if s.methodName == "DFTB" then DftbParts(s, periodic, atoms)
    else if s.methodName == "xTB" then Success(XtbParts(s.solver, periodic))
    else Success([])
  }

  /** The parts of the input for the engine settings `s`, the system `mol` whose atom types are
      `atoms`, and the job `job`; a `KeyError` for an atom type missing from a table. */
  function Parts(s: Settings, mol: System, atoms: seq<string>, job: JobInfo): Result<seq<Part>, Error> {
    var spin := SpinParts(s.spinConstants, mol.spin, s.methodName, atoms);
    if spin.Failure? then Failure(spin.error)
    else
      var body := MethodParts(s, mol.isPeriodic, atoms);
      if body.Failure? then Failure(body.error)
      else Success(HeadParts(s, mol, job) + spin.value + body.value + [ParserOptions])
  }

  /** The text of `dftb_in.hsd`. */
  function InputText(s: Settings, mol: System, atoms: seq<string>, job: JobInfo): Result<string, Error> {
    var parts := Parts(s, mol, atoms, job);
    if parts.Failure? then Failure(parts.error) else Success(Concat(Flatten(parts.value, PartPieces)))
  }

  /** The operands written so far followed by those of `parts`, or the error of `parts`. */
  function Extend(written: seq<string>, parts: Result<seq<Part>, Error>): Result<seq<string>, Error> {
    if parts.Failure? then Failure(parts.error) else Success(written + Flatten(parts.value, PartPieces))
  }

  // ---------------------------------------------------------------------------------------------
  // Rendering
  // ---------------------------------------------------------------------------------------------


  lemma FlattenThree(a: seq<Part>, b: seq<Part>, c: seq<Part>)
    ensures Flatten(a + b + c, PartPieces) == Flatten(a, PartPieces) + Flatten(b, PartPieces) + Flatten(c, PartPieces)
  {
    FlattenAppend(a, b, PartPieces);
    FlattenAppend(a + b, c, PartPieces);
  }



  /** Once an atom type is missing from the table, longer atom lists fail with its error. */
  lemma {:induction false} EntriesFailurePersists<V>(table: Dict<V>, atoms: seq<string>, n: nat, entry: (string, V) -> Part)
    requires n <= |atoms|
    requires Entries(table, atoms[..n], entry).Failure?
    ensures Entries(table, atoms, entry) == Entries(table, atoms[..n], entry)
    decreases |atoms| - n
  {
    if n < |atoms| {
      assert atoms[..n + 1][..n] == atoms[..n];
      EntriesFailurePersists(table, atoms, n + 1, entry);
    } else {
      assert atoms[..n] == atoms;
    }
  }

  /** `for atom in atom_types: input += ... table[atom] ...`. */
  method AppendEntries<V>(written: seq<string>, table: Dict<V>, atoms: seq<string>, entry: (string, V) -> Part)
    returns (r: Result<seq<string>, Error>)
    ensures r == Extend(written, Entries(table, atoms, entry))
  {
    var w := written;
    ghost var done: seq<Part> := [];
    for i := 0 to |atoms|
      invariant Entries(table, atoms[..i], entry) == Success(done)
      invariant w == written + Flatten(done, PartPieces)
    {
      assert atoms[..i + 1][..i] == atoms[..i];
      var value := Get(table, atoms[i]);
      if value.None? {
        EntriesFailurePersists(table, atoms, i + 1, entry);
        return Failure(UnknownAtomType(atoms[i]));
      }
      var part := entry(atoms[i], value.value);
      FlattenSnoc(done, part, PartPieces);
      AppendTwo(written, Flatten(done, PartPieces), part.Pieces());
      w := w + part.Pieces();
      done := done + [part];
    }
    assert atoms[..|atoms|] == atoms;
    r := Success(w);
  }

  method DriverLines(written: seq<string>, job: JobInfo) returns (w: seq<string>)
    ensures w == written + Flatten(DriverParts(job), PartPieces)
  {
    var driver: seq<Part>;
    if job.kind == "spe" {
      driver := [StaticDriver];
    } else if job.kind == "opt" {
      driver := [OptimizationDriver(job.latticeopt)];
    } else if job.kind == "md_nvt" {
      driver := [ThermostatDriver(job.timestep, job.temperature, job.steps, job.restartFrequency)];
    } else if job.kind == "simulated_annealing" {
      driver := [AnnealingDriver(job.timestep, AnnealingProfile(job), job.restartFrequency)];
    } else {
      return written;
    }
    FlattenOne(driver[0], PartPieces);
    w := written + driver[0].Pieces();
  }

  method HeadLines(s: Settings, mol: System, job: JobInfo) returns (w: seq<string>)
    ensures w == Flatten(HeadParts(s, mol, job), PartPieces)
  {
    w := GeometryInclude(mol.name).Pieces();
    w := DriverLines(w, job);
    w := w + HamiltonianOpen(s.methodName, mol.charge).Pieces();
    if s.fermi {
      w := w + FermiFilling(s.fermiTemp).Pieces();
    }
    FlattenOne(GeometryInclude(mol.name), PartPieces);
    FlattenOne(HamiltonianOpen(s.methodName, mol.charge), PartPieces);
    Emit(s.fermi, FermiFilling(s.fermiTemp));
    FlattenAppend([GeometryInclude(mol.name)] + DriverParts(job), [HamiltonianOpen(s.methodName, mol.charge)], PartPieces);
    FlattenAppend([GeometryInclude(mol.name)], DriverParts(job), PartPieces);
    FlattenAppend([GeometryInclude(mol.name)] + DriverParts(job) + [HamiltonianOpen(s.methodName, mol.charge)],
                  When(s.fermi, FermiFilling(s.fermiTemp)), PartPieces);
  }

  /** The spin block: `if mol.spin != 1: ...`. */
  method SpinLines(written: seq<string>, spinConstants: Dict<seq<string>>, spin: int, methodName: string, atoms: seq<string>)
    returns (r: Result<seq<string>, Error>)
    ensures r == Extend(written, SpinParts(spinConstants, spin, methodName, atoms))
  {
    if spin == 1 {
      assert written + Flatten([], PartPieces) == written;
      return Success(written);
    }
    var w := written + SpinPolarisation(spin - 1).Pieces();
    ghost var head := [SpinPolarisation(spin - 1)] + When(methodName == "DFTB", ShellResolvedSpin);
    FlattenOne(SpinPolarisation(spin - 1), PartPieces);
    Emit(methodName == "DFTB", ShellResolvedSpin);
    FlattenAppend([SpinPolarisation(spin - 1)], When(methodName == "DFTB", ShellResolvedSpin), PartPieces);
    if methodName == "DFTB" {
      AppendTwo(written, SpinPolarisation(spin - 1).Pieces(), ShellResolvedSpin.Pieces());
      w := w + ShellResolvedSpin.Pieces();
    } else {
      assert Flatten(head, PartPieces) == SpinPolarisation(spin - 1).Pieces();
    }
    assert w == written + Flatten(head, PartPieces);
    var entries := AppendEntries(w, spinConstants, atoms, SpinEntryOf);
    if entries.Failure? {
      return Failure(entries.error);
    }
    r := Success(entries.value + CloseBlock.Pieces());
    ghost var es := Entries(spinConstants, atoms, SpinEntryOf).value;
    AppendTwo(written, Flatten(head, PartPieces), Flatten(es, PartPieces));
    FlattenAppend(head, es, PartPieces);
    assert entries.value == written + Flatten(head + es, PartPieces);
    FlattenOne(CloseBlock, PartPieces);
    FlattenAppend(head + es, [CloseBlock], PartPieces);
    AppendTwo(written, Flatten(head + es, PartPieces), CloseBlock.Pieces());
  }

  /** `if self.thirdorder: ...` of the DFTB branch. */
  method ThirdOrderLines(written: seq<string>, hubbard: Dict<string>, thirdorder: bool, atoms: seq<string>)
    returns (r: Result<seq<string>, Error>)
    ensures r == Extend(written, ThirdOrderParts(hubbard, thirdorder, atoms))
  {
    if !thirdorder {
      assert written + Flatten([], PartPieces) == written;
      return Success(written);
    }
    var entries := AppendEntries(written + ThirdOrderFull.Pieces(), hubbard, atoms, HubbardOf);
    if entries.Failure? {
      return Failure(entries.error);
    }
    r := Success(entries.value + HCorrection.Pieces());
    ghost var es := Entries(hubbard, atoms, HubbardOf).value;
    FlattenOne(ThirdOrderFull, PartPieces);
    FlattenOne(HCorrection, PartPieces);
    FlattenThree([ThirdOrderFull], es, [HCorrection]);
    AppendThree(written, Flatten([ThirdOrderFull], PartPieces), Flatten(es, PartPieces), Flatten([HCorrection], PartPieces));
  }

  method SolverLines(written: seq<string>, solver: Option<string>) returns (w: seq<string>)
    ensures w == written + Flatten(SolverParts(solver), PartPieces)
  {
    w := written;
    if OrcaJob.Truthy(solver) {
      w := w + SolverLine(solver.value).Pieces();
      FlattenOne(SolverLine(solver.value), PartPieces);
    }
  }

  /** The closing of the maximal angular momenta, k-points, the third-order blocks, dispersion
      and the closing of the Hamiltonian. */
  method DftbTailLines(written: seq<string>, hubbard: Dict<string>, periodic: bool, thirdorder: bool, dispersion: bool, atoms: seq<string>)
    returns (r: Result<seq<string>, Error>)
    ensures r == Extend(written, DftbTailParts(hubbard, periodic, thirdorder, dispersion, atoms))
  {
    var w := written + CloseBlock.Pieces();
    ghost var a := [CloseBlock] + When(periodic, KPoints);
    FlattenOne(CloseBlock, PartPieces);
    Emit(periodic, KPoints);
    FlattenAppend([CloseBlock], When(periodic, KPoints), PartPieces);
    if periodic {
      AppendTwo(written, CloseBlock.Pieces(), KPoints.Pieces());
      w := w + KPoints.Pieces();
    } else {
      assert Flatten(a, PartPieces) == CloseBlock.Pieces();
    }
    assert w == written + Flatten(a, PartPieces);
    var third := ThirdOrderLines(w, hubbard, thirdorder, atoms);
    if third.Failure? {
      return Failure(third.error);
    }
    var v := third.value;
    if dispersion {
      v := v + Dispersion.Pieces();
    }
    r := Success(v + HamiltonianClose.Pieces());
    ghost var thirdParts := ThirdOrderParts(hubbard, thirdorder, atoms).value;
    ghost var upTo := a + thirdParts + When(dispersion, Dispersion);
    Emit(dispersion, Dispersion);
    FlattenOne(HamiltonianClose, PartPieces);
    FlattenThree(a, thirdParts, When(dispersion, Dispersion));
    AppendThree(written, Flatten(a, PartPieces), Flatten(thirdParts, PartPieces), Flatten(When(dispersion, Dispersion), PartPieces));
    assert v == written + Flatten(upTo, PartPieces);
    FlattenAppend(upTo, [HamiltonianClose], PartPieces);
    AppendTwo(written, Flatten(upTo, PartPieces), HamiltonianClose.Pieces());
  }

  /** `if self.method == "DFTB": ...`. */
  method DftbLines(written: seq<string>, s: Settings, periodic: bool, atoms: seq<string>)
    returns (r: Result<seq<string>, Error>)
    ensures r == Extend(written, DftbParts(s, periodic, atoms))
  {
    var w := SolverLines(written, s.solver);
    w := w + SlaterKosterFiles(PathJoin(s.paramDir, s.parameters)).Pieces();
    var angular := AppendEntries(w, s.atomDict, atoms, AngularOf);
    if angular.Failure? {
      return Failure(angular.error);
    }
    r := DftbTailLines(angular.value, s.hubbardDerivs, periodic, s.thirdorder, s.dispersion, atoms);
    if r.Success? {
      ghost var opening := SolverParts(s.solver) + [SlaterKosterFiles(PathJoin(s.paramDir, s.parameters))];
      ghost var es := Entries(s.atomDict, atoms, AngularOf).value;
      ghost var tail := DftbTailParts(s.hubbardDerivs, periodic, s.thirdorder, s.dispersion, atoms).value;
      FlattenOne(SlaterKosterFiles(PathJoin(s.paramDir, s.parameters)), PartPieces);
      FlattenAppend(SolverParts(s.solver), [SlaterKosterFiles(PathJoin(s.paramDir, s.parameters))], PartPieces);
      AppendTwo(written, Flatten(SolverParts(s.solver), PartPieces), SlaterKosterFiles(PathJoin(s.paramDir, s.parameters)).Pieces());
      assert w == written + Flatten(opening, PartPieces);
      FlattenThree(opening, es, tail);
      AppendThree(written, Flatten(opening, PartPieces), Flatten(es, PartPieces), Flatten(tail, PartPieces));
    }
  }

  /** `elif self.method == "xTB": ...` without the change of `self.parameters`. */
  method XtbLines(written: seq<string>, solver: Option<string>, periodic: bool) returns (w: seq<string>)
    ensures w == written + Flatten(XtbParts(solver, periodic), PartPieces)
  {
    w := SolverLines(written, solver);
    ghost var solverParts := SolverParts(solver);
    FlattenOne(XtbMethod, PartPieces);
    FlattenAppend(solverParts, [XtbMethod], PartPieces);
    AppendTwo(written, Flatten(solverParts, PartPieces), XtbMethod.Pieces());
    w := w + XtbMethod.Pieces();
    ghost var upTo := solverParts + [XtbMethod];
    assert w == written + Flatten(upTo, PartPieces);
    Emit(periodic, KPoints);
    FlattenAppend(upTo, When(periodic, KPoints), PartPieces);
    if periodic {
      AppendTwo(written, Flatten(upTo, PartPieces), KPoints.Pieces());
      w := w + KPoints.Pieces();
    } else {
      assert upTo + When(periodic, KPoints) == upTo;
    }
    upTo := upTo + When(periodic, KPoints);
    assert w == written + Flatten(upTo, PartPieces);
    FlattenOne(HamiltonianClose, PartPieces);
    FlattenAppend(upTo, [HamiltonianClose], PartPieces);
    AppendTwo(written, Flatten(upTo, PartPieces), HamiltonianClose.Pieces());
    w := w + HamiltonianClose.Pieces();
  }

  /** The operands of the whole input are those of its four groups. */
  lemma PiecesOfParts(head: seq<Part>, spin: seq<Part>, body: seq<Part>)
    ensures Flatten(head + spin + body + [ParserOptions], PartPieces)
         == Flatten(head, PartPieces) + Flatten(spin, PartPieces) + Flatten(body, PartPieces) + ParserOptions.Pieces()
  {
    FlattenThree(head, spin, body);
    FlattenAppend(head + spin + body, [ParserOptions], PartPieces);
    FlattenOne(ParserOptions, PartPieces);
  }

  // ---------------------------------------------------------------------------------------------
  // What the input promises
  // ---------------------------------------------------------------------------------------------

  lemma ConcatOne(x: string)
    ensures Concat([x]) == x
  {
    assert [x][..0] == [];
  }

  lemma PrefixExtends(p: string, s: string, t: string)
    requires IsPrefix(p, s)
    ensures IsPrefix(p, s + t)
  {
    assert (s + t)[..|p|] == s[..|p|];
  }

  /** The text of a sequence of operands starts with its first operand. */
  lemma {:induction false} ConcatStartsWithFirst(pieces: seq<string>)
    requires |pieces| > 0
    ensures IsPrefix(pieces[0], Concat(pieces))
    decreases |pieces|
  {
    var n := |pieces| - 1;
    if n == 0 {
      assert pieces[..0] == [];
    } else {
      ConcatStartsWithFirst(pieces[..n]);
      PrefixExtends(pieces[0], Concat(pieces[..n]), pieces[n]);
    }
  }

  /** The operands of parts whose first part writes something start with its first operand. */
  lemma {:induction false} FlattenFirst(parts: seq<Part>)
    requires |parts| > 0 && |parts[0].Pieces()| > 0
    ensures |Flatten(parts, PartPieces)| > 0 && Flatten(parts, PartPieces)[0] == parts[0].Pieces()[0]
    decreases |parts|
  {
    var n := |parts| - 1;
    if n == 0 {
      assert parts[..0] == [];
    } else {
      FlattenFirst(parts[..n]);
    }
  }

  /** The text of parts that start with a geometry include and end with the parser options
      starts with the include and ends with the options. */
  lemma TextFrame(parts: seq<Part>)
    requires |parts| > 0 && parts[0].GeometryInclude? && parts[|parts| - 1] == ParserOptions
    ensures IsPrefix(GeometryText(parts[0].name), Concat(Flatten(parts, PartPieces)))
    ensures EndsWith(Concat(Flatten(parts, PartPieces)), ParserOptionsText)
  {
    FlattenFirst(parts);
    var pieces := Flatten(parts, PartPieces);
    ConcatStartsWithFirst(pieces);
    var n := |parts| - 1;
    var front := Flatten(parts[..n], PartPieces);
    assert pieces == front + [ParserOptionsText];
    assert (front + [ParserOptionsText])[..|front|] == front;
    assert Concat(pieces) == Concat(front) + ParserOptionsText;
  }

  /** Every input starts with the include of the system's `.gen` file and ends with the parser
      options. */
  lemma InputBeginsAndEnds(s: Settings, mol: System, atoms: seq<string>, job: JobInfo)
    requires InputText(s, mol, atoms, job).Success?
    ensures IsPrefix(GeometryText(mol.name), InputText(s, mol, atoms, job).value)
    ensures EndsWith(InputText(s, mol, atoms, job).value, ParserOptionsText)
  {
    var head := HeadParts(s, mol, job);
    var spin := SpinParts(s.spinConstants, mol.spin, s.methodName, atoms).value;
    var body := MethodParts(s, mol.isPeriodic, atoms).value;
    var parts := head + spin + body + [ParserOptions];
    assert Parts(s, mol, atoms, job).value == parts;
    assert parts[0] == head[0] == GeometryInclude(mol.name);
    TextFrame(parts);
  }

  function DriverText(job: JobInfo): string {
    Concat(Flatten(DriverParts(job), PartPieces))
  }

  lemma ConcatTwo(x: string, y: string)
    ensures Concat([x, y]) == x + y
  {
    assert [x, y][..1] == [x];
    ConcatOne(x);
  }

  /** A single point is a geometry optimisation of zero steps. */
  lemma SinglePointDriver(job: JobInfo)
    requires job.kind == "spe"
    ensures DriverText(job) == "Driver = GeometryOptimization {\n  MaxSteps = 0\n}\n\n"
  {
    FlattenOne(StaticDriver, PartPieces);
    ConcatOne(StaticDriver.Pieces()[0]);
  }

  /** An optimisation moves the lattice exactly when `latticeopt` is set. */
  lemma GeometryOptimizationDriver(job: JobInfo)
    requires job.kind == "opt"
    ensures DriverText(job) == "Driver = GeometryOptimization {\n  LatticeOpt = " + YesNo(job.latticeopt) + "\n}\n\n"
  {
    var d := OptimizationDriver(job.latticeopt);
    assert DriverParts(job) == [d];
    var line := "Driver = GeometryOptimization {\n  LatticeOpt = " + YesNo(job.latticeopt) + "\n}\n\n";
    assert d.Pieces() == [line];
    FlattenOne(d, PartPieces);
    ConcatOne(line);
  }

  lemma DynamicsText(d: Part)
    requires d.ThermostatDriver? || d.AnnealingDriver?
    ensures IsPrefix(VelocityVerletOpen, Concat(d.Pieces())) && EndsWith(Concat(d.Pieces()), "}\n\n")
  {
    var first := VelocityVerletOpen + d.DynamicsBody();
    if d.ThermostatDriver? {
      assert d.Pieces() == [first, "}\n\n"];
    } else {
      assert d.Pieces() == [first, "}\n\n"];
    }
    ConcatTwo(first, "}\n\n");
    assert first[..|VelocityVerletOpen|] == VelocityVerletOpen;
    PrefixExtends(VelocityVerletOpen, first, "}\n\n");
  }

  /** Both dynamics use the velocity Verlet driver, closed at the end of their block. */
  lemma DynamicsDriver(job: JobInfo)
    requires job.kind == "md_nvt" || job.kind == "simulated_annealing"
    ensures IsPrefix(VelocityVerletOpen, DriverText(job)) && EndsWith(DriverText(job), "}\n\n")
  {
    var d := DriverParts(job)[0];
    assert DriverParts(job) == [d];
    FlattenOne(d, PartPieces);
    DynamicsText(d);
  }

  /** Every other job type writes no driver. */
  lemma NoDriver(job: JobInfo)
    requires job.kind != "spe" && job.kind != "opt" && job.kind != "md_nvt" && job.kind != "simulated_annealing"
    ensures DriverText(job) == ""
  {
  }

  lemma ProfileTextSnoc(segments: seq<Segment>, sg: Segment)
    ensures ProfileText(segments + [sg]) == ProfileText(segments) + SegmentLine(sg)
  {
    assert (segments + [sg])[..|segments|] == segments;
  }

  lemma TotalStepsSnoc(segments: seq<Segment>, sg: Segment)
    ensures TotalSteps(segments + [sg]) == TotalSteps(segments) + sg.steps
  {
    assert (segments + [sg])[..|segments|] == segments;
  }

  /** The annealing profile heats in two segments, holds, and cools back in one: it starts and
      ends at the start temperature and lasts twice the ramp plus the hold. */
  lemma AnnealingProfileShape(job: JobInfo)
    ensures |AnnealingProfile(job)| == 4
    ensures AnnealingProfile(job)[0].temperature == AnnealingProfile(job)[3].temperature == job.startTemp
    ensures AnnealingProfile(job)[1].temperature == AnnealingProfile(job)[2].temperature == job.targetTemp
    ensures forall i :: 0 <= i < 4 ==> AnnealingProfile(job)[i].ramp == (if i % 2 == 0 then Constant else Linear)
    ensures TotalSteps(AnnealingProfile(job)) == 2 * job.rampSteps + job.holdSteps
  {
    var p := AnnealingProfile(job);
    var s1 := [p[0]];
    var s2 := s1 + [p[1]];
    var s3 := s2 + [p[2]];
    assert p == s3 + [p[3]];
    assert s1 == [] + [p[0]];
    TotalStepsSnoc([], p[0]);
    TotalStepsSnoc(s1, p[1]);
    TotalStepsSnoc(s2, p[2]);
    TotalStepsSnoc(s3, p[3]);
  }

  /** The profile text holds one line per segment, in order. */
  lemma AnnealingProfileText(job: JobInfo)
    ensures var p := AnnealingProfile(job);
      ProfileText(p) == SegmentLine(p[0]) + SegmentLine(p[1]) + SegmentLine(p[2]) + SegmentLine(p[3])
  {
    var p := AnnealingProfile(job);
    var s1 := [p[0]];
    var s2 := s1 + [p[1]];
    var s3 := s2 + [p[2]];
    assert p == s3 + [p[3]];
    assert s1 == [] + [p[0]];
    ProfileTextSnoc([], p[0]);
    ProfileTextSnoc(s1, p[1]);
    ProfileTextSnoc(s2, p[2]);
    ProfileTextSnoc(s3, p[3]);
  }

  /** A singlet writes no spin block; any other multiplicity writes one exactly when every atom
      type has spin constants. */
  lemma SpinBlockPresence(spinConstants: Dict<seq<string>>, spin: int, methodName: string, atoms: seq<string>)
    ensures spin == 1 ==> SpinParts(spinConstants, spin, methodName, atoms) == Success([])
    ensures spin != 1 ==>
      (SpinParts(spinConstants, spin, methodName, atoms).Success? <==> forall i :: 0 <= i < |atoms| ==> Get(spinConstants, atoms[i]).Some?)
    ensures spin != 1 && SpinParts(spinConstants, spin, methodName, atoms).Failure? ==>
      SpinParts(spinConstants, spin, methodName, atoms).error.UnknownAtomType?
  {
    EntriesSucceedIff(spinConstants, atoms, SpinEntryOf);
    if spin != 1 && SpinParts(spinConstants, spin, methodName, atoms).Failure? {
      EntriesFirstMissing(spinConstants, atoms, SpinEntryOf);
    }
  }

  /** The spin block opens with the spin polarisation of `spin - 1` unpaired electrons, resolves
      shells only for "DFTB", and closes after one entry per atom type. */
  lemma SpinBlockShape(spinConstants: Dict<seq<string>>, spin: int, methodName: string, atoms: seq<string>)
    requires spin != 1 && SpinParts(spinConstants, spin, methodName, atoms).Success?
    ensures var ps := SpinParts(spinConstants, spin, methodName, atoms).value;
      |ps| == (if methodName == "DFTB" then 2 else 1) + |atoms| + 1
      && ps[0] == SpinPolarisation(spin - 1) && ps[|ps| - 1] == CloseBlock
      && (ShellResolvedSpin in ps <==> methodName == "DFTB")
  {
    EntriesInOrder(spinConstants, atoms, SpinEntryOf);
    var es := Entries(spinConstants, atoms, SpinEntryOf).value;
    assert ShellResolvedSpin !in es by {
      forall i | 0 <= i < |es| ensures es[i].SpinConstantsEntry? {
        assert es[i] == SpinEntryOf(atoms[i], Get(spinConstants, atoms[i]).value);
      }
    }
  }

  /** The spin constants of the atom types, one entry each, in the order of the atom types. */
  lemma SpinBlockEntries(spinConstants: Dict<seq<string>>, spin: int, methodName: string, atoms: seq<string>, i: nat)
    requires spin != 1 && SpinParts(spinConstants, spin, methodName, atoms).Success?
    requires i < |atoms|
    ensures var ps := SpinParts(spinConstants, spin, methodName, atoms).value;
      var first := if methodName == "DFTB" then 2 else 1;
      first + i < |ps| && Get(spinConstants, atoms[i]).Some?
      && ps[first + i] == SpinConstantsEntry(atoms[i], JoinWith(Get(spinConstants, atoms[i]).value, ' '))
  {
    EntriesInOrder(spinConstants, atoms, SpinEntryOf);
  }

  lemma SpinEntriesOnly(spinConstants: Dict<seq<string>>, atoms: seq<string>)
    requires Entries(spinConstants, atoms, SpinEntryOf).Success?
    ensures forall p :: p in Entries(spinConstants, atoms, SpinEntryOf).value ==> p.SpinConstantsEntry?
  {
    EntriesInOrder(spinConstants, atoms, SpinEntryOf);
  }

  lemma AngularEntriesOnly(atomDict: Dict<string>, atoms: seq<string>)
    requires Entries(atomDict, atoms, AngularOf).Success?
    ensures forall p :: p in Entries(atomDict, atoms, AngularOf).value ==> p.AngularMomentum?
  {
    EntriesInOrder(atomDict, atoms, AngularOf);
  }

  lemma HubbardEntriesOnly(hubbard: Dict<string>, atoms: seq<string>)
    requires Entries(hubbard, atoms, HubbardOf).Success?
    ensures forall p :: p in Entries(hubbard, atoms, HubbardOf).value ==> p.HubbardDeriv?
  {
    EntriesInOrder(hubbard, atoms, HubbardOf);
  }

  /** The DFTB Hamiltonian is written exactly when every atom type has a maximal angular
      momentum and, with the third-order Hamiltonian, a Hubbard derivative. */
  lemma DftbBranchSucceeds(s: Settings, periodic: bool, atoms: seq<string>)
    ensures DftbParts(s, periodic, atoms).Success? <==>
      (forall i :: 0 <= i < |atoms| ==> Get(s.atomDict, atoms[i]).Some?)
      && (s.thirdorder ==> forall i :: 0 <= i < |atoms| ==> Get(s.hubbardDerivs, atoms[i]).Some?)
  {
    assert DftbParts(s, periodic, atoms).Success? <==>
      Entries(s.atomDict, atoms, AngularOf).Success? && (s.thirdorder ==> Entries(s.hubbardDerivs, atoms, HubbardOf).Success?);
    EntriesSucceedIff(s.atomDict, atoms, AngularOf);
    EntriesSucceedIff(s.hubbardDerivs, atoms, HubbardOf);
  }

  /** The third-order blocks are the Hubbard derivatives between their opening and the
      hydrogen correction, or nothing. */
  lemma ThirdOrderShape(hubbard: Dict<string>, thirdorder: bool, atoms: seq<string>)
    requires ThirdOrderParts(hubbard, thirdorder, atoms).Success?
    ensures var third := ThirdOrderParts(hubbard, thirdorder, atoms).value;
      (ThirdOrderFull in third <==> thirdorder) && (HCorrection in third <==> thirdorder)
      && KPoints !in third && Dispersion !in third && HamiltonianClose !in third
      && forall p :: p in third && p.HubbardDeriv? ==> thirdorder
  {
    if thirdorder {
      HubbardEntriesOnly(hubbard, atoms);
    }
  }

  /** k-points only for periodic systems, dispersion only with `dispersion`, and the
      third-order blocks only with `thirdorder`. */
  lemma DftbBranchSwitches(s: Settings, periodic: bool, atoms: seq<string>)
    requires DftbParts(s, periodic, atoms).Success?
    ensures var ps := DftbParts(s, periodic, atoms).value;
      (KPoints in ps <==> periodic) && (Dispersion in ps <==> s.dispersion)
      && (ThirdOrderFull in ps <==> s.thirdorder) && (HCorrection in ps <==> s.thirdorder)
      && ps[|ps| - 1] == HamiltonianClose
  {
    var opening := SolverParts(s.solver) + [SlaterKosterFiles(PathJoin(s.paramDir, s.parameters))];
    var es := Entries(s.atomDict, atoms, AngularOf).value;
    var third := ThirdOrderParts(s.hubbardDerivs, s.thirdorder, atoms).value;
    var tail := DftbTail(periodic, third, s.dispersion);
    assert DftbParts(s, periodic, atoms).value == opening + es + tail;
    AngularEntriesOnly(s.atomDict, atoms);
    ThirdOrderShape(s.hubbardDerivs, s.thirdorder, atoms);
  }

  /** Hubbard derivatives are written only with the third-order Hamiltonian. */
  lemma HubbardOnlyWithThirdOrder(s: Settings, periodic: bool, atoms: seq<string>, p: Part)
    requires DftbParts(s, periodic, atoms).Success?
    requires p in DftbParts(s, periodic, atoms).value && p.HubbardDeriv?
    ensures s.thirdorder
  {
    var opening := SolverParts(s.solver) + [SlaterKosterFiles(PathJoin(s.paramDir, s.parameters))];
    var es := Entries(s.atomDict, atoms, AngularOf).value;
    var third := ThirdOrderParts(s.hubbardDerivs, s.thirdorder, atoms).value;
    var tail := DftbTail(periodic, third, s.dispersion);
    assert DftbParts(s, periodic, atoms).value == opening + es + tail;
    AngularEntriesOnly(s.atomDict, atoms);
    ThirdOrderShape(s.hubbardDerivs, s.thirdorder, atoms);
  }

  /** After the optional solver and the Slater-Koster files under `paramDir`/`parameters`,
      the maximal angular momentum of each atom type from the element table, in order. */
  lemma DftbAngularMomenta(s: Settings, periodic: bool, atoms: seq<string>, i: nat)
    requires DftbParts(s, periodic, atoms).Success?
    requires i < |atoms|
    ensures var ps := DftbParts(s, periodic, atoms).value;
      var first := |SolverParts(s.solver)| + 1;
      first + i < |ps| && ps[first - 1] == SlaterKosterFiles(PathJoin(s.paramDir, s.parameters))
      && Get(s.atomDict, atoms[i]).Some? && ps[first + i] == AngularMomentum(atoms[i], Get(s.atomDict, atoms[i]).value)
  {
    var opening := SolverParts(s.solver) + [SlaterKosterFiles(PathJoin(s.paramDir, s.parameters))];
    var es := Entries(s.atomDict, atoms, AngularOf).value;
    var tail := DftbTailParts(s.hubbardDerivs, periodic, s.thirdorder, s.dispersion, atoms).value;
    assert DftbParts(s, periodic, atoms).value == opening + es + tail;
    EntryAt(s.atomDict, atoms, AngularOf, i);
    assert (opening + es + tail)[|opening| + i] == es[i];
    assert opening[|opening| - 1] == SlaterKosterFiles(PathJoin(s.paramDir, s.parameters));
  }

  /** The xTB Hamiltonian names the GFN2-xTB method, has k-points only for periodic systems,
      and is closed. */
  lemma XtbBranch(solver: Option<string>, periodic: bool)
    ensures var ps := XtbParts(solver, periodic);
      XtbMethod in ps && (KPoints in ps <==> periodic) && ps[|ps| - 1] == HamiltonianClose
      && (SolverLine(solver.GetOr("")) in ps <==> OrcaJob.Truthy(solver))
  {
  }

  /** The Hamiltonian block opened for every method is closed only for "DFTB" and "xTB". */
  lemma HamiltonianClosedOnlyForKnownMethods(s: Settings, mol: System, atoms: seq<string>, job: JobInfo)
    requires Parts(s, mol, atoms, job).Success?
    ensures HamiltonianClose in Parts(s, mol, atoms, job).value <==> s.methodName == "DFTB" || s.methodName == "xTB"
  {
    if mol.spin != 1 {
      SpinEntriesOnly(s.spinConstants, atoms);
    }
    if s.methodName == "DFTB" {
      DftbBranchSwitches(s, mol.isPeriodic, atoms);
    }
    var spin := SpinParts(s.spinConstants, mol.spin, s.methodName, atoms).value;
    assert HamiltonianClose !in HeadParts(s, mol, job);
    assert HamiltonianClose !in spin;
  }

  // ---------------------------------------------------------------------------------------------
  // Reading the log
  // ---------------------------------------------------------------------------------------------

  const ErrorMarker := "ERROR!"
  const TotalEnergyMarker := "Total Energy"

  /** `float(line.split()[2])`. */
  function ThirdToken(line: string): Option<real> {
    RealOf(At(Split(line), 2))
  }

  /** The loop over the first `n` lines of the log: each line with the total-energy marker sets
      the electronic energy to the value `read` decodes from it, at once; a line that does not
      decode raises, keeping what earlier lines set. */
  function EnergyLines(log: Log, n: nat, p: Properties, read: string -> Option<real>): (r: (Outcome<Error>, Properties))
    requires n <= |log|
    ensures r.1 == p.(electronicEnergy := r.1.electronicEnergy)
    ensures r.0.Fail? ==> r.0.error == MalformedLog
    decreases n
  {
    if n == 0 then (Pass, p)
    else
      var prev := EnergyLines(log, n - 1, p, read);
      if prev.0.Fail? || !Contains(log[n - 1], TotalEnergyMarker) then prev
      else if read(log[n - 1]).None? then (Fail(MalformedLog), prev.1)
      else (Pass, prev.1.(electronicEnergy := read(log[n - 1])))
  }

  /** `parse_output`: the result of reading `output.out` (when `fileExists`) into the property
      set `p`. */
  function Parse(fileExists: bool, log: Log, p: Properties): (r: (Outcome<Error>, Properties))
    ensures !fileExists ==> r == (Fail(MissingOutputFile), p)
    ensures fileExists && AnyLineContains(log, ErrorMarker) ==> r == (Fail(AbnormalTermination), p)
    ensures r.1 == p.(electronicEnergy := r.1.electronicEnergy)
  {
    if !fileExists then (Fail(MissingOutputFile), p)
    else if AnyLineContains(log, ErrorMarker) then (Fail(AbnormalTermination), p)
    else EnergyLines(log, |log|, p, ThirdToken)
  }

  /** Once a line has failed to decode, later lines change nothing. */
  lemma {:induction false} EnergyFailureStays(log: Log, i: nat, n: nat, p: Properties, read: string -> Option<real>)
    requires i <= n <= |log|
    requires EnergyLines(log, i, p, read).0.Fail?
    ensures EnergyLines(log, n, p, read) == EnergyLines(log, i, p, read)
    decreases n - i
  {
    if n > i {
      EnergyFailureStays(log, i, n - 1, p, read);
    }
  }

  /** `for line in out: if "Total Energy" in line: set_electronic_energy(...)`. */
  method ReadTotalEnergies(log: Log, props: PropertySet, read: string -> Option<real>) returns (r: Outcome<Error>)
    modifies props
    ensures (r, props.Value()) == EnergyLines(log, |log|, old(props.Value()), read)
  {
    ghost var p0 := props.Value();
    for i := 0 to |log|
      invariant EnergyLines(log, i, p0, read) == (Pass, props.Value())
    {
      if Contains(log[i], TotalEnergyMarker) {
        var value := read(log[i]);
        if value.None? {
          EnergyFailureStays(log, i + 1, |log|, p0, read);
          return Fail(MalformedLog);
        }
        props.SetElectronicEnergy(value.value);
      }
    }
    r := Pass;
  }

  /** `parse_output`: reads `output.out`, given as `log` when `fileExists`, into `props`. */
  method ParseOutput(fileExists: bool, log: Log, props: PropertySet) returns (r: Outcome<Error>)
    modifies props
    ensures (r, props.Value()) == Parse(fileExists, log, old(props.Value()))
  {
    if !fileExists {
      return Fail(MissingOutputFile);
    }
    var failed := FindMarker(log, ErrorMarker);
    if failed {
      return Fail(AbnormalTermination);
    }
    r := ReadTotalEnergies(log, props, ThirdToken);
  }

  /** When every energy line decodes, the electronic energy is the one of the LAST line with
      the marker, or the earlier value when there is none. */
  lemma {:induction false} LastTotalEnergyWins(log: Log, n: nat, p: Properties, read: string -> Option<real>)
    requires n <= |log|
    requires forall j :: 0 <= j < n && Contains(log[j], TotalEnergyMarker) ==> read(log[j]).Some?
    ensures EnergyLines(log, n, p, read).0 == Pass
    ensures EnergyLines(log, n, p, read).1.electronicEnergy
         == if LastLineWith(log, n, TotalEnergyMarker).Some? then read(log[LastLineWith(log, n, TotalEnergyMarker).value])
            else p.electronicEnergy
    decreases n
  {
    if n > 0 {
      LastTotalEnergyWins(log, n - 1, p, read);
    }
  }

  /** A line with the marker that does not decode raises, and the energy stays the one of the
      last line with the marker before it. */
  lemma MalformedEnergyLineRaises(log: Log, k: nat, p: Properties, read: string -> Option<real>)
    requires k < |log| && Contains(log[k], TotalEnergyMarker) && read(log[k]).None?
    requires forall j :: 0 <= j < k && Contains(log[j], TotalEnergyMarker) ==> read(log[j]).Some?
    ensures EnergyLines(log, |log|, p, read).0 == Fail(MalformedLog)
    ensures EnergyLines(log, |log|, p, read).1.electronicEnergy
         == if LastLineWith(log, k, TotalEnergyMarker).Some? then read(log[LastLineWith(log, k, TotalEnergyMarker).value])
            else p.electronicEnergy
  {
    LastTotalEnergyWins(log, k, p, read);
    EnergyFailureStays(log, k + 1, |log|, p, read);
  }

  /** A log without error lines whose energy lines all decode yields the third token of the
      last "Total Energy" line as the electronic energy. */
  lemma ParseReadsLastTotalEnergy(log: Log, p: Properties)
    requires !AnyLineContains(log, ErrorMarker)
    requires forall j :: 0 <= j < |log| && Contains(log[j], TotalEnergyMarker) ==> ThirdToken(log[j]).Some?
    ensures Parse(true, log, p).0 == Pass
    ensures Parse(true, log, p).1.electronicEnergy
         == if LastLineWith(log, |log|, TotalEnergyMarker).Some? then ThirdToken(log[LastLineWith(log, |log|, TotalEnergyMarker).value])
            else p.electronicEnergy
  {
    LastTotalEnergyWins(log, |log|, p, ThirdToken);
  }

  /** The DFTB+ engine; `write_input` replaces `parameters` for the method "xTB". */
  class DftbInput {
    const methodName: string
    var parameters: string
    const solver: Option<string>
    const thirdorder: bool
    const dispersion: bool
    const fermi: bool
    const fermiTemp: string
    /** The directory of the Slater-Koster parameter sets (`DFTBPARAMDIR`). */
    const paramDir: string
    /** The output suffix before `clean_suffix`. */
    const outputSuffix: string
    const atomDict: Dict<string>
    const hubbardDerivs: Dict<string>
    const spinConstants: Dict<seq<string>>

    constructor (methodName: string := "DFTB", parameters: string := "3ob/3ob-3-1", solver: Option<string> := None,
                 thirdorder: bool := true, dispersion: bool := false, fermi: bool := false, fermiTemp: string := "300.0",
                 paramDir: string)
      ensures Value() == Settings(methodName, parameters, solver, thirdorder, dispersion, fermi, fermiTemp, paramDir,
                                  AtomDict, HubbardDerivs, SpinConstants)
      ensures outputSuffix == OutputSuffix(thirdorder, dispersion)
    {
      this.methodName := methodName;
      this.parameters := parameters;
      this.solver := solver;
      this.thirdorder := thirdorder;
      this.dispersion := dispersion;
      this.fermi := fermi;
      this.fermiTemp := fermiTemp;
      this.paramDir := paramDir;
      var suffix := "DFTB";
      suffix := suffix + (if thirdorder then "3" else "");
      suffix := suffix + (if dispersion then "-D3" else "");
      this.outputSuffix := suffix;
      this.atomDict := AtomDict;
      this.hubbardDerivs := HubbardDerivs;
      this.spinConstants := SpinConstants;
    }

    function Value(): Settings
      reads this`parameters
    {
      Settings(methodName, parameters, solver, thirdorder, dispersion, fermi, fermiTemp, paramDir,
               atomDict, hubbardDerivs, spinConstants)
    }

    /** `write_input`: the text of `dftb_in.hsd` for `mol`, whose `.gen` file lists the atom
        types on the line `species`, and the job `job`. */
    method WriteInput(mol: System, species: string, job: JobInfo) returns (r: Result<string, Error>)
      modifies this`parameters
      ensures r == InputText(old(Value()), mol, Split(species), job)
      ensures parameters == if methodName == "xTB" && r.Success? then "gfn2" else old(parameters)
    {
      var s := Value();
      var atoms := Split(species);
      var head := HeadLines(s, mol, job);
      var spin := SpinLines(head, spinConstants, mol.spin, methodName, atoms);
      if spin.Failure? {
        return Failure(spin.error);
      }
      ghost var headParts := HeadParts(s, mol, job);
      ghost var spinParts := SpinParts(spinConstants, mol.spin, methodName, atoms).value;
      ghost var bodyParts: seq<Part> := [];
      var written := spin.value;
      if methodName == "DFTB" {
        var body := DftbLines(written, s, mol.isPeriodic, atoms);
        if body.Failure? {
          return Failure(body.error);
        }
        bodyParts := DftbParts(s, mol.isPeriodic, atoms).value;
        written := body.value;
      } else if methodName == "xTB" {
        parameters := "gfn2";
        written := XtbLines(written, solver, mol.isPeriodic);
        bodyParts := XtbParts(solver, mol.isPeriodic);
      } else {
        assert written + Flatten([], PartPieces) == written;
      }
      assert MethodParts(s, mol.isPeriodic, atoms) == Success(bodyParts);
      assert written == Flatten(headParts, PartPieces) + Flatten(spinParts, PartPieces) + Flatten(bodyParts, PartPieces);
      written := written + ParserOptions.Pieces();
      PiecesOfParts(headParts, spinParts, bodyParts);
      assert Parts(s, mol, atoms, job) == Success(headParts + spinParts + bodyParts + [ParserOptions]);
      r := Success(Concat(written));
    }
  }
}
