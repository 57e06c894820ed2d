/** The section readers of an ORCA log. Both ORCA wrappers read the same sections with the same
    cursor discipline; where they differ (the frequency line, the Mulliken zero-section guard) the
    difference is a parameter or is left to the caller.

    A log is the sequence of its lines, each with its line break. The cursor is the index of the
    next line `readline()` returns; past the end `readline()` returns "" and the cursor stays. */
module OrcaLog {
  import opened Wrappers
  import opened PyStr
  import opened PyNum
  import opened Errors
  import opened Properties

  type Log = seq<string>

  const TerminationMarker := "****ORCA TERMINATED NORMALLY****"
  const FinalEnergyMarker := "FINAL SINGLE POINT ENERGY"
  const CorrectionMarker := "G-E(el)"
  const GibbsMarker := "Final Gibbs free energy"
  const MullikenHeader := "MULLIKEN ATOMIC CHARGES"
  const MullikenEnd := "Sum of atomic charges"
  const SpinColumn := "SPIN"
  const HirshfeldHeader := "HIRSHFELD ANALYSIS"
  const FrequenciesHeader := "VIBRATIONAL FREQUENCIES"
  const NormalModesHeader := "NORMAL MODES"
  const IrHeader := "IR SPECTRUM"
  const OvertonesHeader := "OVERTONES AND COMBINATION BANDS"
  const RamanHeader := "RAMAN SPECTRUM"
  const ImaginarySuffix := " ***imaginary mode***"
  const ScanSurfaceHeader := "The Calculated Surface using the SCF energy"

  /** The line `readline()` returns at cursor `pos`. */
  function LineAt(log: Log, pos: nat): (line: string)
    ensures pos >= |log| ==> line == ""
  {
    if pos < |log| then log[pos] else ""
  }

  /** The cursor after `n` calls of `readline()` from `pos`. */
  function Skip(log: Log, pos: nat, n: nat): (r: nat)
    requires pos <= |log|
    ensures pos <= r <= |log|
    ensures pos + n <= |log| ==> r == pos + n
  {
    if pos + n <= |log| then pos + n else |log|
  }

  predicate AnyLineContains(log: Log, marker: string) {
    exists i :: 0 <= i < |log| && Contains(log[i], marker)
  }

  /** `for line in file: if marker in line: found = True; break`. */
  method FindMarker(log: Log, marker: string) returns (found: bool)
    ensures found <==> AnyLineContains(log, marker)
  {
    found := false;
    var i := 0;
    while i < |log|
      invariant i <= |log|
      invariant forall j :: 0 <= j < i ==> !Contains(log[j], marker)
    {
      if Contains(log[i], marker) {
        found := true;
        return;
      }
      i := i + 1;
    }
  }

  // ---------------------------------------------------------------------------------------------
  // Tokens

  /** Python's `tokens[-k]`, absent when the list is too short (`tokens[-0]` is `tokens[0]`). */
  function FromEnd(tokens: seq<string>, k: nat): (t: Option<string>)
    ensures t.Some? <==> (if k == 0 then tokens != [] else k <= |tokens|)
  {
    if k == 0 then (if tokens == [] then None else Some(tokens[0]))
    else if k <= |tokens| then Some(tokens[|tokens| - k]) else None
  }

  /** Python's `tokens[i]`, absent when the list is too short. */
  function At(tokens: seq<string>, i: nat): (t: Option<string>)
    ensures t.Some? <==> i < |tokens|
  {
    if i < |tokens| then Some(tokens[i]) else None
  }

  function RealOf(t: Option<string>): Option<real> {
    if t.None? then None else ParseReal(t.value)
  }

  function IntOf(t: Option<string>): Option<int> {
    if t.None? then None else ParseInt(t.value)
  }

  /** `float(line.split()[-k])`. */
  function TokenFromEnd(line: string, k: nat): Option<real> {
    RealOf(FromEnd(Split(line), k))
  }

  // ---------------------------------------------------------------------------------------------
  // Energies: every matching line overwrites the previous value

  /** Values read so far; `failed` once a marked line could not be decoded. */
  datatype EnergyReadings = EnergyReadings(
    electronic: Option<real>, correction: Option<real>, gibbs: Option<real>, failed: bool)

  const NoReadings := EnergyReadings(None, None, None, false)

  /** One line of the energy loop: the three markers are looked for in turn on the same line, and
      `token(line, k)` decodes the value `k` tokens from the end (`TokenFromEnd` in the parser). */
  function EnergyStep(r: EnergyReadings, line: string, token: (string, nat) -> Option<real>): EnergyReadings {
    if r.failed then r
    else
      var r1 :=
        if !Contains(line, FinalEnergyMarker) then r
        else match token(line, 1)
          case None => r.(failed := true)
          case Some(e) => r.(electronic := Some(e));
      var r2 :=
        if r1.failed || !Contains(line, CorrectionMarker) then r1
        else match token(line, 4)
          case None => r1.(failed := true)
          case Some(c) => r1.(correction := Some(c));
      if r2.failed || !Contains(line, GibbsMarker) then r2
      else match token(line, 2)
        case None => r2.(failed := true)
        case Some(g) => r2.(gibbs := Some(g))
  }

  /** The energy loop over the first `n` lines. */
  function EnergyScan(log: Log, n: nat, token: (string, nat) -> Option<real>): EnergyReadings
    requires n <= |log|
  {
    if n == 0 then NoReadings else EnergyStep(EnergyScan(log, n - 1, token), log[n - 1], token)
  }

  /** A line whose marker's token cannot be decoded. */
  predicate BadEnergyLine(line: string, token: (string, nat) -> Option<real>) {
    || (Contains(line, FinalEnergyMarker) && token(line, 1).None?)
    || (Contains(line, CorrectionMarker) && token(line, 4).None?)
    || (Contains(line, GibbsMarker) && token(line, 2).None?)
  }

  /** The energy loop over the log, stopping at the first line it cannot decode. */
  method ReadEnergies(log: Log, token: (string, nat) -> Option<real>) returns (r: EnergyReadings)
    ensures r == EnergyScan(log, |log|, token)
  {
    r := NoReadings;
    var i := 0;
    while i < |log|
      invariant i <= |log|
      invariant r == EnergyScan(log, i, token) && !r.failed
    {
      r := EnergyStep(r, log[i], token);
      if r.failed {
        FailureIsFinal(log, i + 1, |log|, token);
        return;
      }
      i := i + 1;
    }
  }

  /** Once a line fails to decode, the later lines are not read. */
  lemma {:induction false} FailureIsFinal(log: Log, i: nat, n: nat, token: (string, nat) -> Option<real>)
    requires i <= n <= |log|
    requires EnergyScan(log, i, token).failed
    ensures EnergyScan(log, n, token) == EnergyScan(log, i, token)
    decreases n
  {
    if n > i {
      FailureIsFinal(log, i, n - 1, token);
    }
  }

  /** Index of the last of the first `n` lines that contains `marker`. */
  function LastLineWith(log: Log, n: nat, marker: string): (r: Option<nat>)
    requires n <= |log|
    ensures r.Some? ==> r.value < n && Contains(log[r.value], marker)
    ensures r.Some? ==> forall j :: r.value < j < n ==> !Contains(log[j], marker)
    ensures r.None? ==> forall j :: 0 <= j < n ==> !Contains(log[j], marker)
  {
    if n == 0 then None
    else if Contains(log[n - 1], marker) then Some(n - 1)
    else LastLineWith(log, n - 1, marker)
  }

  /** The value on the last line that carries `marker`, token `k` from the end. */
  function LastValue(log: Log, n: nat, marker: string, k: nat, token: (string, nat) -> Option<real>): Option<real>
    requires n <= |log|
  {
    var last := LastLineWith(log, n, marker);
    if last.None? then None else token(log[last.value], k)
  }

  /** What one line does to the readings: it fails exactly on a line it cannot decode, and
      otherwise replaces each value whose marker it carries. */
  lemma EnergyStepFacts(r: EnergyReadings, line: string, token: (string, nat) -> Option<real>)
    requires !r.failed
    ensures EnergyStep(r, line, token).failed <==> BadEnergyLine(line, token)
    ensures !BadEnergyLine(line, token) ==>
      && EnergyStep(r, line, token).electronic == (if Contains(line, FinalEnergyMarker) then token(line, 1) else r.electronic)
      && EnergyStep(r, line, token).correction == (if Contains(line, CorrectionMarker) then token(line, 4) else r.correction)
      && EnergyStep(r, line, token).gibbs == (if Contains(line, GibbsMarker) then token(line, 2) else r.gibbs)
  {
  }

  /** The energy loop fails exactly when some marked line cannot be decoded. */
  lemma {:induction false} EnergiesFail(log: Log, n: nat, token: (string, nat) -> Option<real>)
    requires n <= |log|
    ensures EnergyScan(log, n, token).failed <==> exists j :: 0 <= j < n && BadEnergyLine(log[j], token)
    decreases n
  {
    if n > 0 {
      EnergiesFail(log, n - 1, token);
      if !EnergyScan(log, n - 1, token).failed {
        EnergyStepFacts(EnergyScan(log, n - 1, token), log[n - 1], token);
      } else {
        var j :| 0 <= j < n - 1 && BadEnergyLine(log[j], token);
        assert 0 <= j < n && BadEnergyLine(log[j], token);
      }
    }
  }

  /** When the energy loop succeeds, each of the three values is the one on the LAST line that
      carries its marker: later lines overwrite earlier ones. */
  lemma {:induction false} EnergiesLastWins(log: Log, n: nat, token: (string, nat) -> Option<real>)
    requires n <= |log|
    requires !EnergyScan(log, n, token).failed
    ensures EnergyScan(log, n, token).electronic == LastValue(log, n, FinalEnergyMarker, 1, token)
    ensures EnergyScan(log, n, token).correction == LastValue(log, n, CorrectionMarker, 4, token)
    ensures EnergyScan(log, n, token).gibbs == LastValue(log, n, GibbsMarker, 2, token)
    decreases n
  {
    if n > 0 {
      var prev := EnergyScan(log, n - 1, token);
      if prev.failed {
        assert false;
      } else {
        EnergiesLastWins(log, n - 1, token);
        EnergyStepFacts(prev, log[n - 1], token);
      }
    }
  }

  // ---------------------------------------------------------------------------------------------
  // Tables read row by row until an end line

  predicate IsBlank(line: string) {
    line == "\n"
  }

  predicate IsMullikenEnd(line: string) {
    Contains(line, MullikenEnd)
  }

  /** `while True: buffer = readline(); if isEnd(buffer): break; rows.append(decode(buffer))`,
      starting with the rows `acc`. Past the end of the file `readline()` keeps returning "", which
      every row decoder below rejects, so a table without its end line is a failure. */
  function ReadRows<T>(log: Log, pos: nat, isEnd: string -> bool, decode: string -> Option<T>, acc: seq<T>)
    : (r: Result<(seq<T>, nat), Error>)
    requires pos <= |log|
    ensures r.Success? ==> pos <= r.value.1 <= |log|
    ensures r.Success? ==> |acc| <= |r.value.0| && r.value.0[..|acc|] == acc
    decreases |log| - pos
  {
    var line := LineAt(log, pos);
    if isEnd(line) then Success((acc, Skip(log, pos, 1)))
    else if pos == |log| then Failure(MalformedLog)
    else match decode(line)
      case None => Failure(MalformedLog)
      case Some(row) => ReadRows(log, pos + 1, isEnd, decode, acc + [row])
  }

  method ReadRowsFrom<T>(log: Log, start: nat, isEnd: string -> bool, decode: string -> Option<T>, acc: seq<T>)
    returns (r: Result<(seq<T>, nat), Error>)
    requires start <= |log|
    ensures r == ReadRows(log, start, isEnd, decode, acc)
  {
    var rows := acc;
    var pos := start;
    ghost var goal := ReadRows(log, start, isEnd, decode, acc);
    while true
      invariant pos <= |log|
      invariant ReadRows(log, pos, isEnd, decode, rows) == goal
      decreases |log| - pos
    {
      var line := LineAt(log, pos);
      if isEnd(line) {
        return Success((rows, Skip(log, pos, 1)));
      }
      if pos == |log| {
        return Failure(MalformedLog);
      }
      var row := decode(line);
      if row.None? {
        return Failure(MalformedLog);
      }
      rows := rows + [row.value];
      pos := pos + 1;
    }
  }

  /** The decoded lines `pos` up to (excluding) `e`. */
  function DecodedRows<T>(log: Log, pos: nat, e: nat, decode: string -> Option<T>): (rows: seq<T>)
    requires pos <= e <= |log|
    requires forall j :: pos <= j < e ==> decode(log[j]).Some?
    ensures |rows| == e - pos
    ensures forall k :: 0 <= k < e - pos ==> rows[k] == decode(log[pos + k]).value
    decreases e - pos
  {
    if pos == e then [] else [decode(log[pos]).value] + DecodedRows(log, pos + 1, e, decode)
  }

  /** Lines `pos` up to `e` are table rows: none is an end line and every one decodes. */
  predicate TableBody<T>(log: Log, pos: nat, e: nat, isEnd: string -> bool, decode: string -> Option<T>)
    requires pos <= e <= |log|
  {
    forall j :: pos <= j < e ==> !isEnd(log[j]) && decode(log[j]).Some?
  }

  /** A table whose rows run from `pos` up to the end line at `e`, all of them decodable, yields
      exactly those rows, in order, and leaves the cursor behind the end line. */
  lemma {:induction false} ReadRowsSection<T>(log: Log, pos: nat, e: nat, isEnd: string -> bool,
                                               decode: string -> Option<T>, acc: seq<T>)
    requires pos <= e < |log|
    requires isEnd(log[e])
    requires TableBody(log, pos, e, isEnd, decode)
    ensures ReadRows(log, pos, isEnd, decode, acc) == Success((acc + DecodedRows(log, pos, e, decode), e + 1))
    decreases e - pos
  {
    if pos < e {
      var row := decode(log[pos]).value;
      ReadRowsSection(log, pos + 1, e, isEnd, decode, acc + [row]);
      assert acc + [row] + DecodedRows(log, pos + 1, e, decode) == acc + DecodedRows(log, pos, e, decode);
    } else {
      assert acc + [] == acc;
      assert LineAt(log, pos) == log[e];
    }
  }

  /** A table that never reaches its end line fails: the rows run out into the end of the file,
      where `readline()` returns "" forever. */
  lemma {:induction false} ReadRowsWithoutEnd<T>(log: Log, pos: nat, isEnd: string -> bool,
                                                 decode: string -> Option<T>, acc: seq<T>)
    requires pos <= |log|
    requires forall j :: pos <= j < |log| ==> !isEnd(log[j])
    requires !isEnd("")
    ensures ReadRows(log, pos, isEnd, decode, acc) == Failure(MalformedLog)
    decreases |log| - pos
  {
    if pos < |log| && decode(log[pos]).Some? {
      ReadRowsWithoutEnd(log, pos + 1, isEnd, decode, acc + [decode(log[pos]).value]);
    }
  }

  // ---------------------------------------------------------------------------------------------
  // Row decoders

  /** A Mulliken row `index element : charge [spin]` with the colon removed; the spin is 0.0 when
      the section has no spin column. */
  function MullikenRow(spinAvailable: bool, line: string): (r: Option<(real, real)>)
    ensures line == "" ==> r.None?
    ensures r.Some? && !spinAvailable ==> r.value.1 == 0.0
  {
    var data := Split(RemoveChar(line, ':'));
    var charge := RealOf(At(data, 2));
    if charge.None? then None
    else if !spinAvailable then Some((charge.value, 0.0))
    else
      var spin := RealOf(At(data, 3));
      if spin.None? then None else Some((charge.value, spin.value))
  }

  function MullikenDecoder(spinAvailable: bool): string -> Option<(real, real)> {
    line => MullikenRow(spinAvailable, line)
  }

  /** A Hirshfeld row `index element charge spin`. */
  function HirshfeldRow(line: string): (r: Option<(real, real)>)
    ensures line == "" ==> r.None?
  {
    var data := Split(line);
    var charge := RealOf(At(data, 2));
    var spin := RealOf(At(data, 3));
    if charge.None? || spin.None? then None else Some((charge.value, spin.value))
  }

  /** How a wrapper decodes a frequency line `index: value cm**-1`: the current wrapper strips the
      imaginary-mode warning first, the legacy wrapper does not. */
  datatype FrequencyStyle = Current | Legacy

  /** The frequency on a line and whether the line carries the imaginary-mode warning. */
  function FrequencyRow(style: FrequencyStyle, line: string): (r: Option<(real, bool)>)
    ensures line == "" ==> r.None?
    ensures r.Some? && style == Legacy ==> !r.value.1
  {
    match style
    case Current =>
      var field := LastField(RStripChars(line, "\n"), ':');
      var imaginary := EndsWith(field, ImaginarySuffix);
      var value := if imaginary then RStripChars(field, ImaginarySuffix) else field;
      var f := ParseReal(RStripChars(value, "cm**-1"));
      if f.None? then None else Some((f.value, imaginary))
    case Legacy =>
      var f := ParseReal(RStripChars(LastField(line, ':'), "cm**-1\n"));
      if f.None? then None else Some((f.value, false))
  }

  function FrequencyDecoder(style: FrequencyStyle): string -> Option<(real, bool)> {
    line => FrequencyRow(style, line)
  }

  /** An IR row `mode: wavenumber eps intensity ...`: the mode and the intensity in km/mol. */
  function IrRow(line: string): (r: Option<(int, real)>)
    ensures line == "" ==> r.None?
  {
    var sline := SplitOn(line, ':');
    var mode := ParseInt(sline[0]);
    var intensity := RealOf(if |sline| < 2 then None else At(Split(sline[1]), 2));
    if mode.None? || intensity.None? then None else Some((mode.value, intensity.value))
  }

  /** `[int(x) for x in fields]`. */
  function ParseInts(fields: seq<string>): (r: Option<seq<int>>)
    ensures r.Some? ==> |r.value| == |fields|
    decreases |fields|
  {
    if fields == [] then Some([])
    else
      var head := ParseInt(fields[0]);
      var tail := ParseInts(fields[1..]);
      if head.None? || tail.None? then None else Some([head.value] + tail.value)
  }

  /** An overtone or combination row `m+n: wavenumber eps intensity ...`. */
  function OvertoneRow(line: string): (r: Option<(int, int, real)>)
    ensures line == "" ==> r.None?
  {
    var sline := SplitOn(line, ':');
    var modes := ParseInts(SplitOn(sline[0], '+'));
    var intensity := RealOf(if |sline| < 2 then None else At(Split(sline[1]), 2));
    if modes.None? || intensity.None? || |modes.value| < 2 then None
    else Some((modes.value[0], modes.value[1], intensity.value))
  }

  /** A Raman row `mode: wavenumber activity depolarisation`. */
  function RamanRow(line: string): (r: Option<(int, real, real)>)
    ensures line == "" ==> r.None?
  {
    var sline := SplitOn(line, ':');
    var mode := ParseInt(sline[0]);
    var fields := if |sline| < 2 then [] else Split(sline[1]);
    var activity := RealOf(At(fields, 1));
    var depolarization := RealOf(At(fields, 2));
    if mode.None? || activity.None? || depolarization.None? then None
    else Some((mode.value, activity.value, depolarization.value))
  }

  // ---------------------------------------------------------------------------------------------
  // Mulliken: the section whose header is the `sections`-th one

  /** The Mulliken loop from cursor `pos` with `counter` headers seen so far: the first section
      entered once the counter equals `sections` that yields at least one row is the result. The
      spin column is recognised by the text "SPIN" on a line read while the counter is there. */
  function MullikenScan(log: Log, pos: nat, decoder: bool -> string -> Option<(real, real)>, sections: nat, counter: nat, spin: bool)
    : Result<seq<(real, real)>, Error>
    requires pos <= |log|
    decreases |log| - pos
  {
    if pos == |log| then Success([])
    else
      var line := log[pos];
      var count := if Contains(line, MullikenHeader) then counter + 1 else counter;
      if count != sections then MullikenScan(log, pos + 1, decoder, sections, count, spin)
      else
        var spin' := spin || Contains(line, SpinColumn);
        match ReadRows(log, Skip(log, pos + 1, 1), IsMullikenEnd, decoder(spin'), [])
        case Failure(e) => Failure(e)
        case Success((rows, after)) =>
          if rows != [] then Success(rows) else MullikenScan(log, after, decoder, sections, count, spin')
  }

  /** The Mulliken loop over the whole log, looking for section number `sections`. */
  method ScanMulliken(log: Log, decoder: bool -> string -> Option<(real, real)>, sections: nat) returns (r: Result<seq<(real, real)>, Error>)
    ensures r == MullikenScan(log, 0, decoder, sections, 0, false)
  {
    var counter := 0;
    var spin := false;
    var pos := 0;
    ghost var goal := MullikenScan(log, 0, decoder, sections, 0, false);
    while pos < |log|
      invariant pos <= |log|
      invariant MullikenScan(log, pos, decoder, sections, counter, spin) == goal
      decreases |log| - pos
    {
      var line := log[pos];
      if Contains(line, MullikenHeader) {
        counter := counter + 1;
      }
      if counter == sections {
        if Contains(line, SpinColumn) {
          spin := true;
        }
        var table := ReadRowsFrom(log, Skip(log, pos + 1, 1), IsMullikenEnd, decoder(spin), []);
        if table.Failure? {
          return Failure(table.error);
        }
        if table.value.0 != [] {
          return Success(table.value.0);
        }
        pos := table.value.1;
      } else {
        pos := pos + 1;
      }
    }
    return Success([]);
  }

  /** `file.read().count(header)`, counted line by line: the header holds no line break, so no
      occurrence spans two lines. */
  function CountInLog(log: Log, n: nat, marker: string): nat
    requires n <= |log| && marker != []
  {
    if n == 0 then 0 else CountInLog(log, n - 1, marker) + Count(log[n - 1], marker)
  }

  /** Number of the first `n` lines that contain `marker`. */
  function LinesWith(log: Log, n: nat, marker: string): nat
    requires n <= |log|
  {
    if n == 0 then 0 else LinesWith(log, n - 1, marker) + (if Contains(log[n - 1], marker) then 1 else 0)
  }

  predicate AtMostOncePerLine(log: Log, marker: string)
    requires marker != []
  {
    forall j :: 0 <= j < |log| ==> Count(log[j], marker) <= 1
  }

  lemma {:induction false} CountIsLines(log: Log, n: nat, marker: string)
    requires n <= |log| && marker != []
    requires AtMostOncePerLine(log, marker)
    ensures CountInLog(log, n, marker) == LinesWith(log, n, marker)
    decreases n
  {
    if n > 0 {
      CountIsLines(log, n - 1, marker);
      CountPositiveIffContains(log[n - 1], marker);
    }
  }

  lemma {:induction false} LinesWithMonotone(log: Log, a: nat, b: nat, marker: string)
    requires a <= b <= |log|
    ensures LinesWith(log, a, marker) <= LinesWith(log, b, marker)
    ensures (forall j :: a <= j < b ==> !Contains(log[j], marker)) ==> LinesWith(log, a, marker) == LinesWith(log, b, marker)
    decreases b
  {
    if a < b {
      LinesWithMonotone(log, a, b - 1, marker);
    }
  }

  /** Before the last header line the counter stays below the number of sections: the loop
      neither enters a section nor notices a spin column. */
  lemma {:induction false} MullikenSkipsToLast(log: Log, pos: nat, h: nat, decoder: bool -> string -> Option<(real, real)>)
    requires pos <= h < |log|
    requires Contains(log[h], MullikenHeader)
    requires forall j :: h < j < |log| ==> !Contains(log[j], MullikenHeader)
    ensures MullikenScan(log, pos, decoder, LinesWith(log, |log|, MullikenHeader), LinesWith(log, pos, MullikenHeader), false)
         == MullikenScan(log, h, decoder, LinesWith(log, |log|, MullikenHeader), LinesWith(log, h, MullikenHeader), false)
    decreases h - pos
  {
    if pos < h {
      var total := LinesWith(log, |log|, MullikenHeader);
      LinesWithMonotone(log, pos + 1, h, MullikenHeader);
      LinesWithMonotone(log, h + 1, |log|, MullikenHeader);
      assert LinesWith(log, pos + 1, MullikenHeader) < total;
      MullikenSkipsToLast(log, pos + 1, h, decoder);
    }
  }

  /** Only the LAST Mulliken section is read. When every header occurs once on its line and the
      last header at line `h` is followed by a table line and rows up to the "Sum of atomic charges"
      line `e`, the result is exactly those rows, in the format the header line selects. */
  lemma {:induction false} MullikenLastSection(log: Log, h: nat, e: nat, decoder: bool -> string -> Option<(real, real)>)
    requires h + 2 < e < |log|
    requires AtMostOncePerLine(log, MullikenHeader)
    requires Contains(log[h], MullikenHeader)
    requires forall j :: h < j < |log| ==> !Contains(log[j], MullikenHeader)
    requires IsMullikenEnd(log[e])
    requires TableBody(log, h + 2, e, IsMullikenEnd, decoder(Contains(log[h], SpinColumn)))
    ensures MullikenScan(log, 0, decoder, CountInLog(log, |log|, MullikenHeader), 0, false)
         == Success(DecodedRows(log, h + 2, e, decoder(Contains(log[h], SpinColumn))))
  {
    var total := LinesWith(log, |log|, MullikenHeader);
    var before := LinesWith(log, h, MullikenHeader);
    CountIsLines(log, |log|, MullikenHeader);
    assert CountInLog(log, |log|, MullikenHeader) == total;
    MullikenSkipsToLast(log, 0, h, decoder);
    assert LinesWith(log, 0, MullikenHeader) == 0;
    LinesWithMonotone(log, h + 1, |log|, MullikenHeader);
    assert total == before + 1;
    MullikenSectionAt(log, h, e, before, decoder);
  }

  /** Entering the section at header line `h` reads its rows and stops there. */
  lemma {:induction false} MullikenSectionAt(log: Log, h: nat, e: nat, counter: nat, decoder: bool -> string -> Option<(real, real)>)
    requires h + 2 < e < |log|
    requires Contains(log[h], MullikenHeader)
    requires IsMullikenEnd(log[e])
    requires TableBody(log, h + 2, e, IsMullikenEnd, decoder(Contains(log[h], SpinColumn)))
    ensures MullikenScan(log, h, decoder, counter + 1, counter, false)
         == Success(DecodedRows(log, h + 2, e, decoder(Contains(log[h], SpinColumn))))
  {
    MullikenSectionRows(log, h, e, decoder(Contains(log[h], SpinColumn)));
  }

  lemma {:induction false} MullikenSectionRows(log: Log, h: nat, e: nat, decode: string -> Option<(real, real)>)
    requires h + 2 < e < |log|
    requires IsMullikenEnd(log[e])
    requires TableBody(log, h + 2, e, IsMullikenEnd, decode)
    ensures ReadRows(log, Skip(log, h + 1, 1), IsMullikenEnd, decode, []) == Success((DecodedRows(log, h + 2, e, decode), e + 1))
    ensures DecodedRows(log, h + 2, e, decode) != []
  {
    var rows := DecodedRows(log, h + 2, e, decode);
    ReadRowsSection(log, h + 2, e, IsMullikenEnd, decode, []);
    assert [] + rows == rows;
    assert Skip(log, h + 1, 1) == h + 2;
  }

  predicate NoSpins(rows: seq<(real, real)>) {
    forall k :: 0 <= k < |rows| ==> rows[k].1 == 0.0
  }

  /** Rows of a section without a spin column carry spin 0.0. */
  lemma {:induction false} ZeroSpinsWithoutColumn(log: Log, a: nat, e: nat)
    requires a <= e <= |log|
    requires TableBody(log, a, e, IsMullikenEnd, MullikenDecoder(false))
    ensures NoSpins(DecodedRows(log, a, e, MullikenDecoder(false)))
  {
    var rows := DecodedRows(log, a, e, MullikenDecoder(false));
    forall k | 0 <= k < |rows| ensures rows[k].1 == 0.0 {
      assert rows[k] == MullikenRow(false, log[a + k]).value;
    }
  }

  // ---------------------------------------------------------------------------------------------
  // Hirshfeld: sections are read while they follow each other; the first line after them that is
  // not a header ends the search

  function HirshfeldScan(log: Log, pos: nat, decode: string -> Option<(real, real)>, rows: seq<(real, real)>): Result<seq<(real, real)>, Error>
    requires pos <= |log|
    decreases |log| - pos
  {
    if pos == |log| then Success(rows)
    else if Contains(log[pos], HirshfeldHeader) then
      match ReadRows(log, Skip(log, pos + 1, 6), IsBlank, decode, rows)
      case Failure(e) => Failure(e)
      case Success((rows', after)) => HirshfeldScan(log, after, decode, rows')
    else if rows != [] then Success(rows)
    else HirshfeldScan(log, pos + 1, decode, rows)
  }

  /** The Hirshfeld search of the parser, with rows in the format `decode` reads. */
  method ScanHirshfeld(log: Log, decode: string -> Option<(real, real)>) returns (r: Result<seq<(real, real)>, Error>)
    ensures r == HirshfeldScan(log, 0, decode, [])
  {
    var rows: seq<(real, real)> := [];
    var pos := 0;
    ghost var goal := HirshfeldScan(log, 0, decode, []);
    while pos < |log|
      invariant pos <= |log|
      invariant HirshfeldScan(log, pos, decode, rows) == goal
      decreases |log| - pos
    {
      if Contains(log[pos], HirshfeldHeader) {
        var table := ReadRowsFrom(log, Skip(log, pos + 1, 6), IsBlank, decode, rows);
        if table.Failure? {
          return Failure(table.error);
        }
        rows, pos := table.value.0, table.value.1;
      } else if rows != [] {
        return Success(rows);
      } else {
        pos := pos + 1;
      }
    }
    return Success(rows);
  }

  /** Only the FIRST Hirshfeld section is read: with the first header at line `h`, its rows from
      line `h + 7` up to the blank line `e`, and no header right after that blank line, the result
      is exactly those rows whatever sections follow later. */
  lemma {:induction false} HirshfeldFirstSection(log: Log, h: nat, e: nat, decode: string -> Option<(real, real)>)
    requires h + 7 < e < |log|
    requires Contains(log[h], HirshfeldHeader)
    requires forall j :: 0 <= j < h ==> !Contains(log[j], HirshfeldHeader)
    requires IsBlank(log[e])
    requires TableBody(log, h + 7, e, IsBlank, decode)
    requires e + 1 == |log| || !Contains(log[e + 1], HirshfeldHeader)
    ensures HirshfeldScan(log, 0, decode, []) == Success(DecodedRows(log, h + 7, e, decode))
  {
    HirshfeldSkipsToFirst(log, 0, h, decode);
    HirshfeldSectionAt(log, h, e, decode);
  }

  lemma {:induction false} HirshfeldSectionAt(log: Log, h: nat, e: nat, decode: string -> Option<(real, real)>)
    requires h + 7 < e < |log|
    requires Contains(log[h], HirshfeldHeader)
    requires IsBlank(log[e])
    requires TableBody(log, h + 7, e, IsBlank, decode)
    requires e + 1 == |log| || !Contains(log[e + 1], HirshfeldHeader)
    ensures HirshfeldScan(log, h, decode, []) == Success(DecodedRows(log, h + 7, e, decode))
  {
    var rows := DecodedRows(log, h + 7, e, decode);
    ReadRowsSection(log, h + 7, e, IsBlank, decode, []);
    assert [] + rows == rows;
    assert Skip(log, h + 1, 6) == h + 7;
    assert ReadRows(log, h + 7, IsBlank, decode, []) == Success((rows, e + 1));
    HirshfeldStopsAfter(log, e + 1, decode, rows);
  }

  /** Once rows are held, the first line that is not a header ends the search. */
  lemma HirshfeldStopsAfter(log: Log, pos: nat, decode: string -> Option<(real, real)>, rows: seq<(real, real)>)
    requires pos <= |log| && rows != []
    requires pos == |log| || !Contains(log[pos], HirshfeldHeader)
    ensures HirshfeldScan(log, pos, decode, rows) == Success(rows)
  {
  }

  lemma {:induction false} HirshfeldSkipsToFirst(log: Log, pos: nat, h: nat, decode: string -> Option<(real, real)>)
    requires pos <= h < |log|
    requires forall j :: 0 <= j < h ==> !Contains(log[j], HirshfeldHeader)
    ensures HirshfeldScan(log, pos, decode, []) == HirshfeldScan(log, h, decode, [])
    decreases h - pos
  {
    if pos < h {
      HirshfeldSkipsToFirst(log, pos + 1, h, decode);
    }
  }

  // ---------------------------------------------------------------------------------------------
  // Normal modes: blocks of at most six columns, one row per Cartesian coordinate

  /** `[float(t) for t in tokens]`. */
  function ParseReals(tokens: seq<string>): (r: Option<seq<real>>)
    ensures r.Some? ==> |r.value| == |tokens|
    decreases |tokens|
  {
    if tokens == [] then Some([])
    else
      var head := ParseReal(tokens[0]);
      var tail := ParseReals(tokens[1..]);
      if head.None? || tail.None? then None else Some([head.value] + tail.value)
  }

  /** The values of a block row: every token after the coordinate index. */
  function ModeRow(line: string): (r: Option<seq<real>>)
    ensures line == "" ==> r == Some([])
  {
    var tokens := Split(line);
    ParseReals(if tokens == [] then [] else tokens[1..])
  }

  /** Appends the `i`-th value of `row` to the `i`-th column. */
  function AddRow(columns: seq<seq<real>>, row: seq<real>): (r: seq<seq<real>>)
    ensures |r| == |columns|
    ensures forall i :: 0 <= i < |r| ==> |r[i]| <= |columns[i]| + 1
    decreases |columns|
  {
    if columns == [] || row == [] then columns
    else [columns[0] + [row[0]]] + AddRow(columns[1..], row[1..])
  }

  lemma {:induction false} AddRowAt(columns: seq<seq<real>>, row: seq<real>, i: nat)
    requires i < |columns|
    ensures AddRow(columns, row)[i] == if i < |row| then columns[i] + [row[i]] else columns[i]
    decreases |columns|
  {
    if columns != [] && row != [] && i > 0 {
      AddRowAt(columns[1..], row[1..], i - 1);
    }
  }

  function EmptyColumns(n: nat): (r: seq<seq<real>>)
    ensures |r| == n && forall i :: 0 <= i < n ==> r[i] == []
  {
    seq(n, i => [])
  }

  /** The `rowsLeft` rows of a block, from cursor `pos`, decoded and added to `columns`. */
  function BlockRows(log: Log, pos: nat, decode: string -> Option<seq<real>>, rowsLeft: nat, columns: seq<seq<real>>)
    : (r: Result<(seq<seq<real>>, nat), Error>)
    requires pos <= |log|
    ensures r.Success? ==> |r.value.0| == |columns| && pos <= r.value.1 <= |log|
    ensures r.Success? ==> forall i :: 0 <= i < |columns| ==> |r.value.0[i]| <= |columns[i]| + rowsLeft
    decreases rowsLeft
  {
    if rowsLeft == 0 then Success((columns, pos))
    else match decode(LineAt(log, pos))
      case None => Failure(MalformedLog)
      case Some(row) =>
        if |row| > |columns| then Failure(MalformedLog)
        else BlockRows(log, Skip(log, pos, 1), decode, rowsLeft - 1, AddRow(columns, row))
  }

  /** The block loop from block number `block` on, after the vectors `modes`: each block starts
      with a header line, even the one that finds no modes left. */
  function ModeBlocks(log: Log, pos: nat, decode: string -> Option<seq<real>>, ncoords: nat, block: nat, modes: seq<seq<real>>)
    : (r: Result<(seq<seq<real>>, nat), Error>)
    requires pos <= |log|
    ensures r.Success? ==> pos <= r.value.1 <= |log|
    decreases ncoords - 6 * block
  {
    var start := Skip(log, pos, 1);
    var left := ncoords - 6 * block;
    if left <= 0 then Success((modes, start))
    else
      var ncols := if left > 6 then 6 else left;
      match BlockRows(log, start, decode, ncoords, EmptyColumns(ncols))
      case Failure(e) => Failure(e)
      case Success((columns, after)) => ModeBlocks(log, after, decode, ncoords, block + 1, modes + columns)
  }

  /** `for i, element in enumerate(values): columns[i].append(element)`. */
  method AppendRow(columns: seq<seq<real>>, row: seq<real>) returns (r: seq<seq<real>>)
    requires |row| <= |columns|
    ensures r == AddRow(columns, row)
  {
    r := columns;
    var i := 0;
    while i < |row|
      invariant i <= |row| && |r| == |columns|
      invariant forall j :: 0 <= j < |r| ==> r[j] == if j < i then columns[j] + [row[j]] else columns[j]
    {
      r := r[i := r[i] + [row[i]]];
      i := i + 1;
    }
    forall j | 0 <= j < |r| ensures r[j] == AddRow(columns, row)[j] {
      AddRowAt(columns, row, j);
    }
  }

  /** The `ncoords` rows of one block read into `ncols` fresh columns; a row with more values
      than the block has columns is the `IndexError` of `columns[i]`. */
  method ReadBlock(log: Log, start: nat, decode: string -> Option<seq<real>>, ncols: nat, ncoords: nat)
    returns (r: Result<(seq<seq<real>>, nat), Error>)
    requires start <= |log|
    ensures r == BlockRows(log, start, decode, ncoords, EmptyColumns(ncols))
  {
    ghost var goal := BlockRows(log, start, decode, ncoords, EmptyColumns(ncols));
    var columns := EmptyColumns(ncols);
    var pos: nat := start;
    var rowsLeft: nat := ncoords;
    while rowsLeft > 0
      invariant pos <= |log| && |columns| == ncols
      invariant BlockRows(log, pos, decode, rowsLeft, columns) == goal
    {
      var row := decode(LineAt(log, pos));
      if row.None? || |row.value| > ncols {
        return Failure(MalformedLog);
      }
      columns := AppendRow(columns, row.value);
      pos, rowsLeft := Skip(log, pos, 1), rowsLeft - 1;
    }
    return Success((columns, pos));
  }

  method ReadNormalModes(log: Log, start: nat, ncoords: nat) returns (r: Result<(seq<seq<real>>, nat), Error>)
    requires start <= |log|
    ensures r == ModeBlocks(log, start, ModeRow, ncoords, 0, [])
  {
    var modes: seq<seq<real>> := [];
    var block: nat := 0;
    var pos: nat := start;
    ghost var goal := ModeBlocks(log, start, ModeRow, ncoords, 0, []);
    while true
      invariant pos <= |log|
      invariant ModeBlocks(log, pos, ModeRow, ncoords, block, modes) == goal
      decreases ncoords - 6 * block
    {
      pos := Skip(log, pos, 1);
      var left := ncoords - 6 * block;
      if left <= 0 {
        return Success((modes, pos));
      }
      var ncols := if left > 6 then 6 else left;
      var table := ReadBlock(log, pos, ModeRow, ncols, ncoords);
      if table.Failure? {
        return Failure(table.error);
      }
      modes := modes + table.value.0;
      pos := table.value.1;
      block := block + 1;
    }
  }

  /** The block tiling yields exactly `ncoords` vectors after the ones already read, in reading
      order, none longer than `ncoords`. */
  lemma {:induction false} ModeBlocksCount(log: Log, pos: nat, decode: string -> Option<seq<real>>, ncoords: nat, block: nat, modes: seq<seq<real>>)
    requires pos <= |log|
    requires ModeBlocks(log, pos, decode, ncoords, block, modes).Success?
    ensures var r := ModeBlocks(log, pos, decode, ncoords, block, modes).value.0;
      && |r| == |modes| + (if ncoords - 6 * block > 0 then ncoords - 6 * block else 0)
      && r[..|modes|] == modes
      && forall k :: |modes| <= k < |r| ==> |r[k]| <= ncoords
    decreases ncoords - 6 * block
  {
    var left := ncoords - 6 * block;
    if left > 0 {
      var ncols := if left > 6 then 6 else left;
      var start := Skip(log, pos, 1);
      var (columns, after) := BlockRows(log, start, decode, ncoords, EmptyColumns(ncols)).value;
      ModeBlocksCount(log, after, decode, ncoords, block + 1, modes + columns);
      var r := ModeBlocks(log, pos, decode, ncoords, block, modes).value.0;
      assert r[..|modes + columns|] == modes + columns;
      assert r[..|modes|] == (modes + columns)[..|modes|];
      forall k | |modes| <= k < |r| ensures |r[k]| <= ncoords {
        if k < |modes| + ncols {
          assert r[k] == columns[k - |modes|];
        }
      }
    }
  }

  /** For `atomCount` atoms the normal-mode reader yields exactly 3 * atomCount vectors. */
  lemma NormalModeCount(log: Log, pos: nat, atomCount: nat)
    requires pos <= |log|
    requires ModeBlocks(log, pos, ModeRow, 3 * atomCount, 0, []).Success?
    ensures |ModeBlocks(log, pos, ModeRow, 3 * atomCount, 0, []).value.0| == 3 * atomCount
    ensures forall v :: v in ModeBlocks(log, pos, ModeRow, 3 * atomCount, 0, []).value.0 ==> |v| <= 3 * atomCount
  {
    ModeBlocksCount(log, pos, ModeRow, 3 * atomCount, 0, []);
  }

  /** Lines `pos` up to `pos + rowsLeft` decode to rows that fill every column of a block. */
  predicate FullRows(log: Log, pos: nat, rowsLeft: nat, decode: string -> Option<seq<real>>, ncols: nat)
    requires pos + rowsLeft <= |log|
  {
    forall j {:trigger FullRow(log[j], decode, ncols)} :: pos <= j < pos + rowsLeft ==> FullRow(log[j], decode, ncols)
  }

  /** The line decodes to a row with exactly `ncols` values. */
  predicate FullRow(line: string, decode: string -> Option<seq<real>>, ncols: nat) {
    decode(line).Some? && |decode(line).value| == ncols
  }

  /** When every row of a block fills all its columns, every column grows by one value per row,
      so each vector of a block of `ncoords` rows has length `ncoords`. */
  lemma {:induction false} BlockRowsFull(log: Log, pos: nat, decode: string -> Option<seq<real>>, ncols: nat,
                                         rowsLeft: nat, columns: seq<seq<real>>)
    requires pos + rowsLeft <= |log| && |columns| == ncols
    requires FullRows(log, pos, rowsLeft, decode, ncols)
    ensures BlockRows(log, pos, decode, rowsLeft, columns).Success?
    ensures forall i :: 0 <= i < ncols ==>
              |BlockRows(log, pos, decode, rowsLeft, columns).value.0[i]| == |columns[i]| + rowsLeft
    ensures BlockRows(log, pos, decode, rowsLeft, columns).value.1 == pos + rowsLeft
    decreases rowsLeft
  {
    if rowsLeft > 0 {
      assert FullRow(log[pos], decode, ncols);
      var row := decode(log[pos]).value;
      assert LineAt(log, pos) == log[pos];
      forall i | 0 <= i < ncols ensures |AddRow(columns, row)[i]| == |columns[i]| + 1 {
        AddRowAt(columns, row, i);
      }
      BlockRowsFull(log, pos + 1, decode, ncols, rowsLeft - 1, AddRow(columns, row));
    }
  }

  /** Every block from block number `block` on has a header line followed by `ncoords` rows that
      fill all the block's columns: six, or the number of vectors left for the last block. */
  predicate FullBlocks(log: Log, pos: nat, ncoords: nat, block: nat, decode: string -> Option<seq<real>>)
    requires pos <= |log|
    decreases ncoords - 6 * block
  {
    var left := ncoords - 6 * block;
    var start := Skip(log, pos, 1);
    left <= 0 ||
    (start + ncoords <= |log|
     && FullRows(log, start, ncoords, decode, if left > 6 then 6 else left)
     && FullBlocks(log, start + ncoords, ncoords, block + 1, decode))
  }

  predicate AllOfLength(vectors: seq<seq<real>>, n: nat) {
    forall i :: 0 <= i < |vectors| ==> |vectors[i]| == n
  }

  lemma AllOfLengthAppend(a: seq<seq<real>>, b: seq<seq<real>>, n: nat)
    requires AllOfLength(a, n) && AllOfLength(b, n)
    ensures AllOfLength(a + b, n)
  {
  }

  /** The columns of a full block of `ncoords` rows all have length `ncoords`. */
  lemma FullBlockColumns(log: Log, start: nat, ncols: nat, ncoords: nat, decode: string -> Option<seq<real>>)
    requires start + ncoords <= |log|
    requires FullRows(log, start, ncoords, decode, ncols)
    ensures BlockRows(log, start, decode, ncoords, EmptyColumns(ncols)).Success?
    ensures BlockRows(log, start, decode, ncoords, EmptyColumns(ncols)).value.1 == start + ncoords
    ensures AllOfLength(BlockRows(log, start, decode, ncoords, EmptyColumns(ncols)).value.0, ncoords)
  {
    BlockRowsFull(log, start, decode, ncols, ncoords, EmptyColumns(ncols));
  }

  /** In a table whose blocks are full, every vector read has length `ncoords`, after vectors
      that already had it. */
  lemma {:induction false} ModeBlocksLengths(log: Log, pos: nat, decode: string -> Option<seq<real>>, ncoords: nat, block: nat, modes: seq<seq<real>>)
    requires pos <= |log|
    requires FullBlocks(log, pos, ncoords, block, decode)
    requires AllOfLength(modes, ncoords)
    ensures ModeBlocks(log, pos, decode, ncoords, block, modes).Success?
    ensures AllOfLength(ModeBlocks(log, pos, decode, ncoords, block, modes).value.0, ncoords)
    decreases ncoords - 6 * block
  {
    var left := ncoords - 6 * block;
    if left > 0 {
      var ncols := if left > 6 then 6 else left;
      var start := Skip(log, pos, 1);
      FullBlocksNext(log, pos, ncoords, block, decode);
      FullBlockColumns(log, start, ncols, ncoords, decode);
      var (columns, after) := BlockRows(log, start, decode, ncoords, EmptyColumns(ncols)).value;
      FullBlocksAt(log, start + ncoords, after, ncoords, block + 1, decode);
      AllOfLengthAppend(modes, columns, ncoords);
      ModeBlocksLengths(log, after, decode, ncoords, block + 1, modes + columns);
    }
  }

  /** `FullBlocks` read at a position given by another name. */
  lemma FullBlocksAt(log: Log, pos: nat, other: nat, ncoords: nat, block: nat, decode: string -> Option<seq<real>>)
    requires pos <= |log| && other == pos
    requires FullBlocks(log, pos, ncoords, block, decode)
    ensures FullBlocks(log, other, ncoords, block, decode)
  {
  }

  /** A table of full blocks has a full first block and full blocks after it. */
  lemma FullBlocksNext(log: Log, pos: nat, ncoords: nat, block: nat, decode: string -> Option<seq<real>>)
    requires pos <= |log| && ncoords - 6 * block > 0
    requires FullBlocks(log, pos, ncoords, block, decode)
    ensures var left := ncoords - 6 * block;
            var start := Skip(log, pos, 1);
            && start + ncoords <= |log|
            && FullRows(log, start, ncoords, decode, if left > 6 then 6 else left)
            && FullBlocks(log, start + ncoords, ncoords, block + 1, decode)
  {
  }



  /** For `atomCount` atoms and a table whose blocks are full, the normal-mode reader yields
      exactly 3 * atomCount vectors, each of 3 * atomCount values. */
  lemma NormalModeVectors(log: Log, pos: nat, atomCount: nat)
    requires pos <= |log|
    requires FullBlocks(log, pos, 3 * atomCount, 0, ModeRow)
    ensures ModeBlocks(log, pos, ModeRow, 3 * atomCount, 0, []).Success?
    ensures |ModeBlocks(log, pos, ModeRow, 3 * atomCount, 0, []).value.0| == 3 * atomCount
    ensures AllOfLength(ModeBlocks(log, pos, ModeRow, 3 * atomCount, 0, []).value.0, 3 * atomCount)
  {
    ModeBlocksLengths(log, pos, ModeRow, 3 * atomCount, 0, []);
    ModeBlocksCount(log, pos, ModeRow, 3 * atomCount, 0, []);
  }

  // ---------------------------------------------------------------------------------------------
  // Vibrational analysis: one pass dispatching on the table headers

  function FrequencyValues(rows: seq<(real, bool)>): (r: seq<real>)
    ensures |r| == |rows| && forall k :: 0 <= k < |rows| ==> r[k] == rows[k].0
  {
    seq(|rows|, k requires 0 <= k < |rows| => rows[k].0)
  }

  /** Number of rows that carried the imaginary-mode warning. */
  function ImaginaryCount(rows: seq<(real, bool)>): (n: nat)
    ensures n <= |rows|
  {
    if rows == [] then 0 else ImaginaryCount(rows[..|rows| - 1]) + (if rows[|rows| - 1].1 then 1 else 0)
  }

  /** One line of the vibrational loop at cursor `pos`: the data after it, the imaginary-mode
      warnings it logs and the cursor after it. A table with rows found before any frequency
      table appends to `None`, an `AttributeError`. */
  function VibrationalStep(log: Log, pos: nat, style: FrequencyStyle, atomCount: nat, vib: Option<VibrationalData>)
    : (r: Result<(Option<VibrationalData>, nat, nat), Error>)
    requires pos < |log|
    ensures r.Success? ==> pos < r.value.2 <= |log|
  {
    var line := log[pos];
    if Contains(line, FrequenciesHeader) then
      match ReadRows(log, Skip(log, pos + 1, 4), IsBlank, FrequencyDecoder(style), [])
      case Failure(e) => Failure(e)
      case Success((rows, after)) =>
        Success((Some(NoVibrations.(frequencies := FrequencyValues(rows))), ImaginaryCount(rows), after))
    else if Contains(line, NormalModesHeader) then
      match ModeBlocks(log, Skip(log, pos + 1, 6), ModeRow, 3 * atomCount, 0, [])
      case Failure(e) => Failure(e)
      case Success((modes, after)) =>
        if modes == [] then Success((vib, 0, after))
        else if vib.None? then Failure(MalformedLog)
        else Success((Some(vib.value.(normalModes := vib.value.normalModes + modes)), 0, after))
    else if Contains(line, IrHeader) then
      match ReadRows(log, Skip(log, pos + 1, 5), IsBlank, IrRow, [])
      case Failure(e) => Failure(e)
      case Success((rows, after)) =>
        if rows == [] then Success((vib, 0, after))
        else if vib.None? then Failure(MalformedLog)
        else Success((Some(vib.value.(irTransitions := vib.value.irTransitions + rows)), 0, after))
    else if Contains(line, OvertonesHeader) then
      match ReadRows(log, Skip(log, pos + 1, 5), IsBlank, OvertoneRow, [])
      case Failure(e) => Failure(e)
      case Success((rows, after)) =>
        if rows == [] then Success((vib, 0, after))
        else if vib.None? then Failure(MalformedLog)
        else Success((Some(vib.value.(irCombinationBands := vib.value.irCombinationBands + rows)), 0, after))
    else if Contains(line, RamanHeader) then
      match ReadRows(log, Skip(log, pos + 1, 4), IsBlank, RamanRow, [])
      case Failure(e) => Failure(e)
      case Success((rows, after)) =>
        if rows == [] then Success((vib, 0, after))
        else if vib.None? then Failure(MalformedLog)
        else Success((Some(vib.value.(ramanTransitions := vib.value.ramanTransitions + rows)), 0, after))
    else Success((vib, 0, pos + 1))
  }

  /** The vibrational loop from cursor `pos`, with the data read so far and the number of
      imaginary-mode warnings logged so far. */
  function VibrationalScan(log: Log, pos: nat, style: FrequencyStyle, atomCount: nat,
                           vib: Option<VibrationalData>, warnings: nat)
    : Result<(Option<VibrationalData>, nat), Error>
    requires pos <= |log|
    decreases |log| - pos
  {
    if pos == |log| then Success((vib, warnings))
    else match VibrationalStep(log, pos, style, atomCount, vib)
      case Failure(e) => Failure(e)
      case Success((vib', imaginary, next)) => VibrationalScan(log, next, style, atomCount, vib', warnings + imaginary)
  }

  method VibrationalLine(log: Log, pos: nat, style: FrequencyStyle, atomCount: nat, vib: Option<VibrationalData>)
    returns (r: Result<(Option<VibrationalData>, nat, nat), Error>)
    requires pos < |log|
    ensures r == VibrationalStep(log, pos, style, atomCount, vib)
  {
    var line := log[pos];
    if Contains(line, FrequenciesHeader) {
      var table := ReadRowsFrom(log, Skip(log, pos + 1, 4), IsBlank, FrequencyDecoder(style), []);
      if table.Failure? {
        return Failure(table.error);
      }
      return Success((Some(NoVibrations.(frequencies := FrequencyValues(table.value.0))),
                      ImaginaryCount(table.value.0), table.value.1));
    } else if Contains(line, NormalModesHeader) {
      var table := ReadNormalModes(log, Skip(log, pos + 1, 6), 3 * atomCount);
      if table.Failure? {
        return Failure(table.error);
      }
      var (modes, after) := table.value;
      if modes == [] {
        return Success((vib, 0, after));
      } else if vib.None? {
        return Failure(MalformedLog);
      }
      return Success((Some(vib.value.(normalModes := vib.value.normalModes + modes)), 0, after));
    } else if Contains(line, IrHeader) {
      var table := ReadRowsFrom(log, Skip(log, pos + 1, 5), IsBlank, IrRow, []);
      if table.Failure? {
        return Failure(table.error);
      }
      var (rows, after) := table.value;
      if rows == [] {
        return Success((vib, 0, after));
      } else if vib.None? {
        return Failure(MalformedLog);
      }
      return Success((Some(vib.value.(irTransitions := vib.value.irTransitions + rows)), 0, after));
    } else if Contains(line, OvertonesHeader) {
      var table := ReadRowsFrom(log, Skip(log, pos + 1, 5), IsBlank, OvertoneRow, []);
      if table.Failure? {
        return Failure(table.error);
      }
      var (rows, after) := table.value;
      if rows == [] {
        return Success((vib, 0, after));
      } else if vib.None? {
        return Failure(MalformedLog);
      }
      return Success((Some(vib.value.(irCombinationBands := vib.value.irCombinationBands + rows)), 0, after));
    } else if Contains(line, RamanHeader) {
      var table := ReadRowsFrom(log, Skip(log, pos + 1, 4), IsBlank, RamanRow, []);
      if table.Failure? {
        return Failure(table.error);
      }
      var (rows, after) := table.value;
      if rows == [] {
        return Success((vib, 0, after));
      } else if vib.None? {
        return Failure(MalformedLog);
      }
      return Success((Some(vib.value.(ramanTransitions := vib.value.ramanTransitions + rows)), 0, after));
    }
    return Success((vib, 0, pos + 1));
  }

  /** The vibrational loop over the whole log: the data read, if a frequency table was found, and
      the number of imaginary-mode warnings. */
  method ScanVibrations(log: Log, style: FrequencyStyle, atomCount: nat)
    returns (r: Result<(Option<VibrationalData>, nat), Error>)
    ensures r == VibrationalScan(log, 0, style, atomCount, None, 0)
  {
    var vib: Option<VibrationalData> := None;
    var warnings: nat := 0;
    var pos: nat := 0;
    ghost var goal := VibrationalScan(log, 0, style, atomCount, None, 0);
    while pos < |log|
      invariant pos <= |log|
      invariant VibrationalScan(log, pos, style, atomCount, vib, warnings) == goal
      decreases |log| - pos
    {
      var step := VibrationalLine(log, pos, style, atomCount, vib);
      VibrationalScanStep(log, pos, style, atomCount, vib, warnings);
      if step.Failure? {
        return Failure(step.error);
      }
      warnings := warnings + step.value.1;
      vib := step.value.0;
      pos := step.value.2;
    }
    return Success((vib, warnings));
  }

  lemma VibrationalScanStep(log: Log, pos: nat, style: FrequencyStyle, atomCount: nat,
                            vib: Option<VibrationalData>, warnings: nat)
    requires pos < |log|
    ensures var step := VibrationalStep(log, pos, style, atomCount, vib);
      VibrationalScan(log, pos, style, atomCount, vib, warnings)
      == if step.Failure? then Failure(step.error)
         else VibrationalScan(log, step.value.2, style, atomCount, step.value.0, warnings + step.value.1)
  {
  }

  /** Line `q` of the log is a frequency-table header whose table reads as `frequencies`. */
  predicate FrequencyTableAt(log: Log, q: nat, style: FrequencyStyle, frequencies: seq<real>) {
    && q < |log|
    && Contains(log[q], FrequenciesHeader)
    && var table := ReadRows(log, Skip(log, q + 1, 4), IsBlank, FrequencyDecoder(style), []);
       table.Success? && frequencies == FrequencyValues(table.value.0)
  }

  /** One line of the vibrational loop either reads a frequency table at that line or keeps the
      frequencies read so far; it never makes data out of none otherwise. */
  lemma VibrationalStepFrequencies(log: Log, pos: nat, style: FrequencyStyle, atomCount: nat,
                                   vib: Option<VibrationalData>)
    requires pos < |log|
    requires VibrationalStep(log, pos, style, atomCount, vib).Success?
    ensures var vib' := VibrationalStep(log, pos, style, atomCount, vib).value.0;
            vib'.Some? ==>
              || (vib.Some? && vib'.value.frequencies == vib.value.frequencies)
              || FrequencyTableAt(log, pos, style, vib'.value.frequencies)
  {
  }

  /** One line of a successful vibrational loop: the loop goes on from the cursor after it with the
      data after it, which either come from a frequency table at that line or keep the frequencies
      read so far. */
  lemma VibrationalScanNext(log: Log, pos: nat, style: FrequencyStyle, atomCount: nat,
                            vib: Option<VibrationalData>, warnings: nat)
    returns (vib': Option<VibrationalData>, imaginary: nat, next: nat)
    requires pos < |log|
    requires VibrationalScan(log, pos, style, atomCount, vib, warnings).Success?
    ensures pos < next <= |log|
    ensures VibrationalScan(log, pos, style, atomCount, vib, warnings)
         == VibrationalScan(log, next, style, atomCount, vib', warnings + imaginary)
    ensures vib'.Some? ==>
              || (vib.Some? && vib'.value.frequencies == vib.value.frequencies)
              || FrequencyTableAt(log, pos, style, vib'.value.frequencies)
  {
    var step := VibrationalStep(log, pos, style, atomCount, vib);
    VibrationalScanStep(log, pos, style, atomCount, vib, warnings);
    assert step.Success?;
    VibrationalStepFrequencies(log, pos, style, atomCount, vib);
    vib', imaginary, next := step.value.0, step.value.1, step.value.2;
  }

  /** After a successful vibrational loop the frequencies are those held on entry or those of a
      frequency table at or after the cursor. */
  lemma {:induction false} VibrationalScanFrequencies(log: Log, pos: nat, style: FrequencyStyle, atomCount: nat,
                                                      vib: Option<VibrationalData>, warnings: nat)
    requires pos <= |log|
    requires VibrationalScan(log, pos, style, atomCount, vib, warnings).Success?
    ensures var out := VibrationalScan(log, pos, style, atomCount, vib, warnings).value.0;
            out.Some? ==>
              || (vib.Some? && out.value.frequencies == vib.value.frequencies)
              || exists q :: pos <= q && FrequencyTableAt(log, q, style, out.value.frequencies)
    decreases |log| - pos
  {
    if pos < |log| {
      var vib', imaginary, next := VibrationalScanNext(log, pos, style, atomCount, vib, warnings);
      VibrationalScanFrequencies(log, next, style, atomCount, vib', warnings + imaginary);
      var out := VibrationalScan(log, next, style, atomCount, vib', warnings + imaginary).value.0;
      if out.Some? {
        if vib'.Some? && out.value.frequencies == vib'.value.frequencies {
          if !(vib.Some? && vib'.value.frequencies == vib.value.frequencies) {
            assert FrequencyTableAt(log, pos, style, out.value.frequencies);
          }
        } else {
          var q :| next <= q && FrequencyTableAt(log, q, style, out.value.frequencies);
          assert pos <= q;
        }
      }
    }
  }

  /** The frequencies of a successful vibrational analysis are those of a frequency table of the
      log. */
  lemma VibrationalFrequenciesFromTable(log: Log, style: FrequencyStyle, atomCount: nat)
    requires VibrationalScan(log, 0, style, atomCount, None, 0).Success?
    ensures var out := VibrationalScan(log, 0, style, atomCount, None, 0).value.0;
            out.Some? ==> exists q :: FrequencyTableAt(log, q, style, out.value.frequencies)
  {
    VibrationalScanFrequencies(log, 0, style, atomCount, None, 0);
  }

  // ---------------------------------------------------------------------------------------------
  // Relaxed surface scan: the energy table printed after the scan

  /** The scan-energy loop from cursor `pos`: after a header line, every line that `isRow` accepts
      contributes the number `value` reads from it; the first other line ends the table. The parser
      reads two-column lines (`TwoColumns`) and their last token (`LastToken`). */
  function ScanEnergiesFrom(log: Log, pos: nat, isRow: string -> bool, value: string -> Option<real>,
                            reading: bool, energies: seq<real>): Result<seq<real>, Error>
    requires pos <= |log|
    decreases |log| - pos
  {
    if pos == |log| then Success(energies)
    else if Contains(log[pos], ScanSurfaceHeader) then ScanEnergiesFrom(log, pos + 1, isRow, value, true, energies)
    else if !reading then ScanEnergiesFrom(log, pos + 1, isRow, value, false, energies)
    else if !isRow(log[pos]) then Success(energies)
    else match value(log[pos])
      case None => Failure(MalformedLog)
      case Some(e) => ScanEnergiesFrom(log, pos + 1, isRow, value, true, energies + [e])
  }

  /** `len(line.split()) == 2`. */
  predicate TwoColumns(line: string) {
    |Split(line)| == 2
  }

  /** `float(line.split()[-1])`. */
  function LastToken(line: string): Option<real> {
    TokenFromEnd(line, 1)
  }

  method ReadScanEnergies(log: Log, isRow: string -> bool, value: string -> Option<real>)
    returns (r: Result<seq<real>, Error>)
    ensures r == ScanEnergiesFrom(log, 0, isRow, value, false, [])
  {
    var energies: seq<real> := [];
    var reading := false;
    var pos := 0;
    ghost var goal := ScanEnergiesFrom(log, 0, isRow, value, false, []);
    while pos < |log|
      invariant pos <= |log|
      invariant ScanEnergiesFrom(log, pos, isRow, value, reading, energies) == goal
    {
      var line := log[pos];
      if Contains(line, ScanSurfaceHeader) {
        reading := true;
      } else if reading {
        if !isRow(line) {
          return Success(energies);
        }
        var e := value(line);
        if e.None? {
          return Failure(MalformedLog);
        }
        energies := energies + [e.value];
      }
      pos := pos + 1;
    }
    return Success(energies);
  }

  /** Lines `pos` up to `e` are rows of the scan table: none is a header, each is accepted and
      decodes. */
  predicate ScanTableBody(log: Log, pos: nat, e: nat, isRow: string -> bool, value: string -> Option<real>)
    requires pos <= e <= |log|
  {
    forall j :: pos <= j < e ==> !Contains(log[j], ScanSurfaceHeader) && isRow(log[j]) && value(log[j]).Some?
  }

  /** The energies of the scan table: after the header at line `h`, with no earlier header, the
      rows up to line `e` in order, when line `e` (if any) is neither a header nor a row. */
  lemma {:induction false} ScanEnergiesTable(log: Log, h: nat, e: nat, isRow: string -> bool, value: string -> Option<real>)
    requires h < e <= |log|
    requires Contains(log[h], ScanSurfaceHeader)
    requires forall j :: 0 <= j < h ==> !Contains(log[j], ScanSurfaceHeader)
    requires ScanTableBody(log, h + 1, e, isRow, value)
    requires e < |log| ==> !Contains(log[e], ScanSurfaceHeader) && !isRow(log[e])
    ensures ScanEnergiesFrom(log, 0, isRow, value, false, []) == Success(DecodedRows(log, h + 1, e, value))
  {
    ScanSkipsToHeader(log, 0, h, isRow, value);
    ScanReadsTable(log, h + 1, e, isRow, value, []);
    assert [] + DecodedRows(log, h + 1, e, value) == DecodedRows(log, h + 1, e, value);
  }

  lemma {:induction false} ScanSkipsToHeader(log: Log, pos: nat, h: nat, isRow: string -> bool, value: string -> Option<real>)
    requires pos <= h < |log|
    requires forall j :: 0 <= j < h ==> !Contains(log[j], ScanSurfaceHeader)
    ensures ScanEnergiesFrom(log, pos, isRow, value, false, []) == ScanEnergiesFrom(log, h, isRow, value, false, [])
    decreases h - pos
  {
    if pos < h {
      ScanSkipsToHeader(log, pos + 1, h, isRow, value);
    }
  }

  lemma {:induction false} ScanReadsTable(log: Log, pos: nat, e: nat, isRow: string -> bool, value: string -> Option<real>,
                                          energies: seq<real>)
    requires pos <= e <= |log|
    requires ScanTableBody(log, pos, e, isRow, value)
    requires e < |log| ==> !Contains(log[e], ScanSurfaceHeader) && !isRow(log[e])
    ensures ScanEnergiesFrom(log, pos, isRow, value, true, energies) == Success(energies + DecodedRows(log, pos, e, value))
    decreases e - pos
  {
    if pos < e {
      var v := value(log[pos]).value;
      ScanReadsTable(log, pos + 1, e, isRow, value, energies + [v]);
      assert energies + [v] + DecodedRows(log, pos + 1, e, value) == energies + DecodedRows(log, pos, e, value);
    } else {
      assert energies + [] == energies;
    }
  }
}
