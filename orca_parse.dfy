/** `OrcaInput.parse_output` of the current package: the requirements that the log exists and ends
    normally, the energies with the Gibbs consistency check, the Mulliken and Hirshfeld
    populations and the vibrational analysis, written into the system's property set. */
module OrcaParse {
  import opened Wrappers
  import opened PyStr
  import opened PyNum
  import opened Errors
  import opened Properties
  import opened OrcaLog

  // ---------------------------------------------------------------------------------------------
  // What the parser writes

  /** The first column of a population table: the charges. */
  function Charges(rows: seq<(real, real)>): (c: seq<real>)
    ensures |c| == |rows| && forall k :: 0 <= k < |rows| ==> c[k] == rows[k].0
  {
    seq(|rows|, k requires 0 <= k < |rows| => rows[k].0)
  }

  /** The second column of a population table: the spin populations. */
  function Spins(rows: seq<(real, real)>): (s: seq<real>)
    ensures |s| == |rows| && forall k :: 0 <= k < |rows| ==> s[k] == rows[k].1
  {
    seq(|rows|, k requires 0 <= k < |rows| => rows[k].1)
  }

  /** The two energies the loop sets; a value that was never read leaves the property as it was. */
  function WithEnergies(p: Properties, r: EnergyReadings): Properties {
    p.(electronicEnergy := if r.electronic.Some? then r.electronic else p.electronicEnergy,
       freeEnergyCorrection := if r.correction.Some? then r.correction else p.freeEnergyCorrection)
  }

  /** Populations are set only when the table had rows. */
  function WithMulliken(p: Properties, rows: seq<(real, real)>): Properties {
    if rows == [] then p else p.(mullikenCharges := Some(Charges(rows)), mullikenSpins := Some(Spins(rows)))
  }

  function WithHirshfeld(p: Properties, rows: seq<(real, real)>): Properties {
    if rows == [] then p else p.(hirshfeldCharges := Some(Charges(rows)), hirshfeldSpins := Some(Spins(rows)))
  }

  function WithVibrations(p: Properties, vib: Option<VibrationalData>): Properties {
    if vib.None? then p else p.(vibrationalData := vib)
  }

  // ---------------------------------------------------------------------------------------------
  // The specification of the parser

  /** The sanity check after the energy loop: a Gibbs free energy read from the log needs a
      free-energy correction and must be close to the property set's electronic energy plus
      correction (comparing with an absent value raises as well). */
  function GibbsCheck(p: Properties, gibbs: Option<real>): (r: Outcome<Error>)
    ensures r.Pass? <==> gibbs.None? || (GibbsFreeEnergy(p).Some? && IsClose(gibbs.value, GibbsFreeEnergy(p).value))
    ensures gibbs.Some? && p.freeEnergyCorrection.None? ==> r == Fail(GibbsWithoutCorrection)
  {
    if gibbs.None? then Pass
    else if p.freeEnergyCorrection.None? then Fail(GibbsWithoutCorrection)
    else match GibbsFreeEnergy(p)
      case None => Fail(GibbsMismatch)
      case Some(g) => if IsClose(gibbs.value, g) then Pass else Fail(GibbsMismatch)
  }

  /** The Mulliken rows: no section is searched when the log has no header. */
  function MullikenOf(log: Log): Result<seq<(real, real)>, Error> {
    var sections := CountInLog(log, |log|, MullikenHeader);
    if sections == 0 then Success([]) else MullikenScan(log, 0, MullikenDecoder, sections, 0, false)
  }

  /** The population and vibrational sections, each written as soon as it is read; a failure
      leaves what was written before it. */
  function Sections(log: Log, atomCount: nat, p: Properties): (Outcome<Error>, Properties) {
    match MullikenOf(log)
    case Failure(e) => (Fail(e), p)
    case Success(mulliken) =>
      var p1 := WithMulliken(p, mulliken);
      match HirshfeldScan(log, 0, HirshfeldRow, [])
      case Failure(e) => (Fail(e), p1)
      case Success(hirshfeld) =>
        var p2 := WithHirshfeld(p1, hirshfeld);
        match VibrationalScan(log, 0, Current, atomCount, None, 0)
        case Failure(e) => (Fail(e), p2)
        case Success((vib, _)) => (Pass, WithVibrations(p2, vib))
  }

  /** `parse_output` on a log of `atomCount` atoms, from the property values `p`: the outcome and
      the property values it leaves. */
  function Parse(fileExists: bool, log: Log, atomCount: nat, p: Properties): (r: (Outcome<Error>, Properties))
    ensures !fileExists ==> r == (Fail(MissingOutputFile), p)
    ensures fileExists && !AnyLineContains(log, TerminationMarker) ==> r == (Fail(AbnormalTermination), p)
  {
    if !fileExists then (Fail(MissingOutputFile), p)
    else if !AnyLineContains(log, TerminationMarker) then (Fail(AbnormalTermination), p)
    else
      var readings := EnergyScan(log, |log|, TokenFromEnd);
      var p1 := WithEnergies(p, readings);
      if readings.failed then (Fail(MalformedLog), p1)
      else match GibbsCheck(p1, readings.gibbs)
        case Fail(e) => (Fail(e), p1)
        case Pass => Sections(log, atomCount, p1)
  }

  // ---------------------------------------------------------------------------------------------
  // The parser

  /** The population and vibrational sections of `parse_output`. */
  method ReadSections(log: Log, atomCount: nat, props: PropertySet) returns (r: Outcome<Error>)
    modifies props
    ensures (r, props.Value()) == Sections(log, atomCount, old(props.Value()))
  {
    var sections := CountInLog(log, |log|, MullikenHeader);
    var mulliken: seq<(real, real)> := [];
    if sections != 0 {
      var table := ScanMulliken(log, MullikenDecoder, sections);
      if table.Failure? {
        return Fail(table.error);
      }
      mulliken := table.value;
    }
    if mulliken != [] {
      props.SetMulliken(Charges(mulliken), Spins(mulliken));
    }
    var hirshfeld := ScanHirshfeld(log, HirshfeldRow);
    if hirshfeld.Failure? {
      return Fail(hirshfeld.error);
    }
    if hirshfeld.value != [] {
      props.SetHirshfeld(Charges(hirshfeld.value), Spins(hirshfeld.value));
    }
    var vibrations := ScanVibrations(log, Current, atomCount);
    if vibrations.Failure? {
      return Fail(vibrations.error);
    }
    if vibrations.value.0.Some? {
      props.SetVibrationalData(vibrations.value.0.value);
    }
    return Pass;
  }

  /** `parse_output`: the log `log` of `output.out` (when `fileExists`) written into `props`. */
  method ParseOutput(fileExists: bool, log: Log, atomCount: nat, props: PropertySet) returns (r: Outcome<Error>)
    modifies props
    ensures (r, props.Value()) == Parse(fileExists, log, atomCount, old(props.Value()))
  {
    if !fileExists {
      return Fail(MissingOutputFile);
    }
    var normal := FindMarker(log, TerminationMarker);
    if !normal {
      return Fail(AbnormalTermination);
    }
    var readings := ReadEnergies(log, TokenFromEnd);
    if readings.electronic.Some? {
      props.SetElectronicEnergy(readings.electronic.value);
    }
    if readings.correction.Some? {
      props.SetFreeEnergyCorrection(readings.correction.value);
    }
    if readings.failed {
      return Fail(MalformedLog);
    }
    if readings.gibbs.Some? {
      if props.freeEnergyCorrection.None? {
        return Fail(GibbsWithoutCorrection);
      }
      var computed := GibbsFreeEnergy(props.Value());
      if computed.None? || !IsClose(readings.gibbs.value, computed.value) {
        return Fail(GibbsMismatch);
      }
    }
    r := ReadSections(log, atomCount, props);
  }

  // ---------------------------------------------------------------------------------------------
  // What the parser promises

  /** The sections after the energy loop leave the energies alone. */
  lemma SectionsKeepEnergies(log: Log, atomCount: nat, p: Properties)
    ensures Sections(log, atomCount, p).1.electronicEnergy == p.electronicEnergy
    ensures Sections(log, atomCount, p).1.freeEnergyCorrection == p.freeEnergyCorrection
  {
  }

  /** After a normal termination whose energy lines all decode, the electronic energy and the
      free-energy correction are those of the LAST line carrying their markers (the last token
      and the fourth token from the end), or the earlier values when no such line exists. */
  lemma EnergiesLastWin(log: Log, atomCount: nat, p: Properties)
    requires AnyLineContains(log, TerminationMarker)
    requires !EnergyScan(log, |log|, TokenFromEnd).failed
    ensures var q := Parse(true, log, atomCount, p).1;
      var e := LastValue(log, |log|, FinalEnergyMarker, 1, TokenFromEnd);
      q.electronicEnergy == if e.Some? then e else p.electronicEnergy
    ensures var q := Parse(true, log, atomCount, p).1;
      var c := LastValue(log, |log|, CorrectionMarker, 4, TokenFromEnd);
      q.freeEnergyCorrection == if c.Some? then c else p.freeEnergyCorrection
  {
    var readings := EnergyScan(log, |log|, TokenFromEnd);
    var p1 := WithEnergies(p, readings);
    EnergiesLastWins(log, |log|, TokenFromEnd);
    SectionsKeepEnergies(log, atomCount, p1);
    var q := Parse(true, log, atomCount, p).1;
    assert q == p1 || q == Sections(log, atomCount, p1).1;
    assert q.electronicEnergy == p1.electronicEnergy && q.freeEnergyCorrection == p1.freeEnergyCorrection;
  }

  /** A successful parse of a log with a Gibbs free energy line leaves a Gibbs free energy in
      the property set that agrees with the last such line. */
  lemma GibbsConsistentOnSuccess(log: Log, atomCount: nat, p: Properties)
    requires Parse(true, log, atomCount, p).0.Pass?
    requires LastValue(log, |log|, GibbsMarker, 2, TokenFromEnd).Some?
    ensures var q := Parse(true, log, atomCount, p).1;
      && q.freeEnergyCorrection.Some?
      && GibbsFreeEnergy(q).Some?
      && IsClose(LastValue(log, |log|, GibbsMarker, 2, TokenFromEnd).value, GibbsFreeEnergy(q).value)
  {
    var readings := EnergyScan(log, |log|, TokenFromEnd);
    EnergiesLastWins(log, |log|, TokenFromEnd);
    SectionsKeepEnergies(log, atomCount, WithEnergies(p, readings));
  }

  /** A Gibbs free energy line without any free-energy correction, read now or before, fails the
      parse after the energies have been set. */
  lemma GibbsWithoutCorrectionFails(log: Log, atomCount: nat, p: Properties)
    requires AnyLineContains(log, TerminationMarker)
    requires !EnergyScan(log, |log|, TokenFromEnd).failed
    requires LastValue(log, |log|, GibbsMarker, 2, TokenFromEnd).Some?
    requires LastValue(log, |log|, CorrectionMarker, 4, TokenFromEnd).None? && p.freeEnergyCorrection.None?
    ensures Parse(true, log, atomCount, p)
         == (Fail(GibbsWithoutCorrection), WithEnergies(p, EnergyScan(log, |log|, TokenFromEnd)))
  {
    EnergiesLastWins(log, |log|, TokenFromEnd);
  }

  /** A log without any Mulliken header yields no Mulliken rows: the section search is skipped. */
  lemma NoMullikenHeaderNoRows(log: Log)
    requires forall j :: 0 <= j < |log| ==> !Contains(log[j], MullikenHeader)
    ensures MullikenOf(log) == Success([])
  {
    NoMullikenSections(log);
  }

  /** A log without any Mulliken header counts zero sections. */
  lemma NoMullikenSections(log: Log)
    requires forall j :: 0 <= j < |log| ==> !Contains(log[j], MullikenHeader)
    ensures CountInLog(log, |log|, MullikenHeader) == 0
  {
    forall j | 0 <= j < |log| ensures Count(log[j], MullikenHeader) <= 1 {
      CountPositiveIffContains(log[j], MullikenHeader);
    }
    CountIsLines(log, |log|, MullikenHeader);
    NoLinesWith(log, |log|, MullikenHeader);
  }

  lemma {:induction false} NoLinesWith(log: Log, n: nat, marker: string)
    requires n <= |log|
    requires forall j :: 0 <= j < n ==> !Contains(log[j], marker)
    ensures LinesWith(log, n, marker) == 0
    decreases n
  {
    if n > 0 {
      NoLinesWith(log, n - 1, marker);
    }
  }

  /** The Mulliken rows are those of the LAST section, with spin 0.0 throughout when its header
      line names no spin column. */
  lemma MullikenFromLastSection(log: Log, h: nat, e: nat)
    requires h + 2 < e < |log|
    requires AtMostOncePerLine(log, MullikenHeader)
    requires Contains(log[h], MullikenHeader)
    requires forall j :: h < j < |log| ==> !Contains(log[j], MullikenHeader)
    requires IsMullikenEnd(log[e])
    requires TableBody(log, h + 2, e, IsMullikenEnd, MullikenDecoder(Contains(log[h], SpinColumn)))
    ensures MullikenOf(log) == Success(DecodedRows(log, h + 2, e, MullikenDecoder(Contains(log[h], SpinColumn))))
    ensures !Contains(log[h], SpinColumn) ==> NoSpins(MullikenOf(log).value)
  {
    MullikenLastSection(log, h, e, MullikenDecoder);
    CountIsLines(log, |log|, MullikenHeader);
    LinesWithMonotone(log, h + 1, |log|, MullikenHeader);
    LinesWithMonotone(log, 0, h, MullikenHeader);
    if !Contains(log[h], SpinColumn) {
      ZeroSpinsWithoutColumn(log, h + 2, e);
    }
  }

  /** The Mulliken charges and spin populations a parse leaves are set together, with one value
      per row of the section read. */
  lemma MullikenSetTogether(p: Properties, rows: seq<(real, real)>)
    ensures var q := WithMulliken(p, rows);
      rows != [] ==>
        && q.mullikenCharges == Some(Charges(rows)) && q.mullikenSpins == Some(Spins(rows))
        && |q.mullikenCharges.value| == |q.mullikenSpins.value| == |rows|
    ensures rows == [] ==> WithMulliken(p, rows) == p
  {
  }
}
