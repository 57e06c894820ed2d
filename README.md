# SPyCCI engine wrappers in Dafny

A model of the engine wrappers of SPyCCI, a Python toolkit that drives quantum-chemistry programs
for a molecular `System`. An engine wrapper does three things: it holds the settings of the
level of theory, it writes the input file of the external program for a job, and it reads the
program's log back into the system's property set. The model covers three wrappers:

- the ORCA wrapper of the current package (`spycci/engines/orca.py`):
  - the job description `OrcaJobInfo`, with its validated setters, user blocks and the derived
    `%geom`, `%cpcm`, `%cosmors`, `%plots`, `%output`, `%elprop` and `%neb` blocks, merged into
    `parsed_blocks`;
  - `write_input`;
  - `parse_output`, with its termination, energy, Gibbs-consistency, Mulliken, Hirshfeld and
    vibrational sections;
  - the end-point checks of the NEB drivers;
  - the reader of the relaxed-scan energies;
  - the precedence of the COSMO-RS settings;
- the ORCA wrapper of the legacy package (`compechem/engines/orca.py`): its job description
  with the setters, `write_input` and `parse_output`;
- the DFTB+ wrapper (`spycci/engines/dftbplus.py`): the output suffix of its constructor, the
  HSD input `write_input` produces and `parse_output`.

## How it is organised

Each Dafny module follows one part of the program.

| file | module | models |
|---|---|---|
| `wrappers.dfy` | `Wrappers` | `Option`, `Result` and the outcome of a parse |
| `pystr.dfy` | `PyStr` | the `str` operations the wrappers use: `split`, `strip`, `in`, `upper`, `join` |
| `pynum.dfy` | `PyNum` | `int(...)`, `float(...)` on decimal text, `np.isclose` |
| `pydict.dfy` | `PyDict` | an insertion-ordered `dict` with string keys |
| `errors.dfy` | `Errors` | the exceptions the wrappers raise |
| `properties.dfy` | `Properties` | the property set the parsers write to |
| `systems.dfy` | `Systems` | what the wrappers read of a `System` |
| `orca_log.dfy` | `OrcaLog` | the section readers both ORCA wrappers share |
| `orca_job.dfy` | `OrcaJob` | `OrcaJobInfo` of the current package |
| `orca_input.dfy` | `OrcaInput` | the current ORCA engine: settings, suffix, `write_input`, NEB checks, scan reader, COSMO-RS |
| `orca_parse.dfy` | `OrcaParse` | `parse_output` of the current ORCA engine |
| `legacy_orca.dfy` | `LegacyOrca` | the legacy ORCA wrapper |
| `dftbplus.dfy` | `Dftb` | the DFTB+ wrapper |

The modelling choices:

- Objects whose methods update fields in place are classes, with `modifies` clauses: the job
  descriptions, the DFTB+ engine and the property set. Each method is proved against a value
  snapshot of the object (`Value()`, `Settings()`) and a function that specifies the new state.
- `write_input` methods keep the operands of the source's `+=` statements in a sequence and join
  them once, at the end. Each method is proved equal to an input-text function. The properties
  of the file are lemmas about that function: which blocks appear, when, in what order and with
  what contents.
- A log is a sequence of lines. `readline()` past the end gives the empty line, as in Python.
  Each reading loop is a method proved equal to a recursive function, and the lemmas are about
  the function.
- Failures are values. A missing file, an abnormal termination, a failed Gibbs check and a line
  that does not decode give an `Error` in a `Result` or outcome, with the property values written
  before the failure kept.
- File existence and the contents of the files the program opens are parameters: `output.out`,
  the `.gen` file of DFTB+ and the log of a scan. So are the number of available cores and the
  parameter directory found at start-up.

Where the documentation of the program and its code disagree, the model follows the code:

- The current ORCA parser keeps the populations of the FIRST consecutive run of Hirshfeld
  sections, and the last Mulliken section.
- Setting an optimisation or SCF level to `None` clears the print level, not the level itself
  (`spycci/engines/orca.py:406-492`, `compechem/engines/orca.py:85-153`). The setters are
  modelled as written.

## Model

| member | source | states |
|---|---|---|
| PyStr.Count | spycci/engines/orca.py:1937 | `str.count` of a non-empty pattern, counted left to right without overlap, is at most the length of the text |
| PyStr.CountPositiveIffContains | spycci/engines/orca.py:1937 | a pattern is counted at least once exactly when it occurs in the text |
| PyStr.Split | spycci/engines/orca.py:2107 | `str.split()` yields non-empty fields free of whitespace |
| PyStr.SplitOnJoin | spycci/engines/orca.py:2125 | `str.split(sep)` loses nothing: joining the fields with the separator gives the text back |
| PyStr.RStripChars | spycci/engines/orca.py:2048-2051 | `rstrip(chars)` removes exactly the trailing characters that belong to the set `chars`: the result is a prefix, does not end in one of them, and everything cut is one of them |
| PyStr.Upper | spycci/engines/orca.py:383-388 | `str.upper` keeps the length and upper-cases each character |
| PyStr.Lower | spycci/engines/orca.py:122-124 | `str.lower` keeps the length and lower-cases each character |
| PyStr.UpperFacts | spycci/engines/orca.py:383-388 | upper-casing is idempotent, yields upper-case text and maps a text and its lower-case form to the same text |
| PyStr.LowerFacts | spycci/engines/orca.py:122-124 | lower-casing is idempotent, yields lower-case text and maps a text and its upper-case form to the same text |
| PyNum.ParseIntOfIntToString | spycci/engines/orca.py:1471 | `int(str(n)) == n`: the decimal rendering of an integer parses back to it |
| PyNum.ParseRealOfIntToString | spycci/engines/orca.py:1915 | `float(str(n)) == n` for the rendering of an integer |
| PyDict.Set | spycci/engines/orca.py:124 | `d[k] = v` keeps the key order of `d`, appending `k` when it is new |
| PyDict.SetGet | spycci/engines/orca.py:124 | after `d[k] = v`, `k` holds `v` and every other key keeps its value |
| PyDict.MergeGet | spycci/engines/orca.py:141-157 | after a run of assignments, each key assigned holds its last value and every other key keeps its value |
| PyDict.MergeKeysPrefix | spycci/engines/orca.py:141-157 | a run of assignments keeps the position of every existing key and appends the new ones behind them |
| PyDict.MergeIdempotent | spycci/engines/orca.py:139-159 | making the same assignments twice gives the dictionary that making them once gives |
| Properties.GibbsFreeEnergy | spycci/engines/orca.py:1924-1928 | the Gibbs free energy the property set reports exists exactly when the electronic energy and the correction are both known, and is their sum |
| Properties.PropertySet.SetElectronicEnergy | spycci/engines/orca.py:1916 | sets the electronic energy and nothing else |
| Properties.PropertySet.SetFreeEnergyCorrection | spycci/engines/orca.py:1919 | sets the free-energy correction and nothing else |
| Properties.PropertySet.SetGibbsFreeEnergy | compechem/engines/orca.py:767 | stores the Gibbs free energy as read and nothing else |
| Properties.PropertySet.SetMulliken | spycci/engines/orca.py:1980-1982 | sets the Mulliken charges and spin populations and nothing else |
| Properties.PropertySet.SetHirshfeld | spycci/engines/orca.py:2013-2015 | sets the Hirshfeld charges and spin populations and nothing else |
| Properties.PropertySet.SetVibrationalData | spycci/engines/orca.py:2155-2156 | sets the vibrational data and nothing else |
| OrcaLog.LineAt | spycci/engines/orca.py:1961 | `readline()` past the end of the file gives the empty line |
| OrcaLog.Skip | spycci/engines/orca.py:1993-1994 | skipping `n` lines moves the cursor forward by `n`, never past the end of the file |
| OrcaLog.FindMarker | spycci/engines/orca.py:1898-1903 | the termination flag is set exactly when some line of the log contains the marker |
| OrcaLog.FromEnd | spycci/engines/orca.py:1915 | a token counted from the end exists exactly when the line has that many tokens |
| OrcaLog.At | spycci/engines/orca.py:1966 | a token counted from the start exists exactly when the line is long enough |
| OrcaLog.ReadEnergies | spycci/engines/orca.py:1912-1921 | the energy loop over the log gives the readings of the energy scan specification |
| OrcaLog.EnergyStep | spycci/engines/orca.py:1914-1921 | specification of one line of the energy loop: each of the three markers found on the line sets its value from the token that far from the end (`EnergyStepFacts` states it) |
| OrcaLog.EnergyScan | spycci/engines/orca.py:1912-1921 | specification of the energy loop over the first lines of the log, one `EnergyStep` per line (`ReadEnergies` computes it, `EnergiesLastWins` states what it holds) |
| OrcaLog.LastValue | compechem/engines/orca.py:757-767 | specification of the value a marker's last line carries, read from a token counted from the end |
| OrcaLog.CountInLog | spycci/engines/orca.py:1937 | specification of `file.read().count(header)`, counted line by line |
| OrcaLog.FailureIsFinal | spycci/engines/orca.py:1915-1921 | once a marked line fails to decode, later lines change nothing (the exception ends the parse) |
| OrcaLog.LastLineWith | spycci/engines/orca.py:1913-1921 | the index found is a line with the marker and no later line has it; absent only when no line has it |
| OrcaLog.EnergyStepFacts | spycci/engines/orca.py:1914-1921 | one line fails exactly when a marker it carries has an undecodable token; otherwise it replaces each value whose marker it carries and keeps the others |
| OrcaLog.EnergiesFail | spycci/engines/orca.py:1914-1921 | the energy loop fails if and only if some marked line cannot be decoded |
| OrcaLog.EnergiesLastWins | spycci/engines/orca.py:1914-1921 | when the loop succeeds, each of the three energies is the value on the last line carrying its marker |
| OrcaLog.ReadRows | spycci/engines/orca.py:1960-1971 | a table read keeps the rows already held as a prefix and leaves the cursor inside the file |
| OrcaLog.ReadRowsFrom | spycci/engines/orca.py:1960-1971 | the `while True` row loop computes the table-read specification |
| OrcaLog.DecodedRows | spycci/engines/orca.py:1965-1971 | one decoded row per line, in line order |
| OrcaLog.ReadRowsSection | spycci/engines/orca.py:1960-1971 | a table of decodable rows ending at an end line yields exactly those rows in order and leaves the cursor after the end line |
| OrcaLog.ReadRowsWithoutEnd | spycci/engines/orca.py:1960-1971 | a table that never reaches its end line fails as a malformed log |
| OrcaLog.MullikenRow | spycci/engines/orca.py:1965-1971 | the empty line is rejected; without a spin column the spin is 0.0 |
| OrcaLog.HirshfeldRow | spycci/engines/orca.py:2006-2008 | the empty line is rejected |
| OrcaLog.FrequencyRow | spycci/engines/orca.py:2040-2051 | the empty line is rejected; the legacy reader never reports an imaginary-mode warning |
| OrcaLog.IrRow | spycci/engines/orca.py:2104-2107 | the empty line is rejected |
| OrcaLog.ParseInts | spycci/engines/orca.py:2125 | every field converts, one integer each |
| OrcaLog.OvertoneRow | spycci/engines/orca.py:2123-2131 | the empty line is rejected |
| OrcaLog.RamanRow | spycci/engines/orca.py:2147-2153 | the empty line is rejected |
| OrcaLog.ScanMulliken | spycci/engines/orca.py:1945-1978 | the Mulliken loop computes the section-counter specification |
| OrcaLog.MullikenScan | spycci/engines/orca.py:1945-1978 | specification of the Mulliken loop: the first section entered once the header counter reaches the section count that yields a row is the result (`ScanMulliken` computes it, `MullikenSkipsToLast` states it) |
| OrcaLog.CountIsLines | spycci/engines/orca.py:1937 | when the header occurs at most once per line, counting it in the whole text equals counting the lines that contain it |
| OrcaLog.LinesWithMonotone | spycci/engines/orca.py:1946-1948 | the header counter never decreases and stays put across lines without the header |
| OrcaLog.MullikenSkipsToLast | spycci/engines/orca.py:1946-1952 | before the last header the counter stays below the section count, so no line is read as a table |
| OrcaLog.MullikenLastSection | spycci/engines/orca.py:1932-1978 | the Mulliken table read is exactly the rows of the LAST section, in the format its header selects |
| OrcaLog.MullikenSectionAt | spycci/engines/orca.py:1952-1978 | entering the section at a header reads its rows and stops |
| OrcaLog.MullikenSectionRows | spycci/engines/orca.py:1957-1971 | after skipping the rule line the rows up to the sum line are read, and there is at least one |
| OrcaLog.ZeroSpinsWithoutColumn | spycci/engines/orca.py:1968-1971 | every row of a section without a spin column carries spin 0.0 |
| OrcaLog.ScanHirshfeld | spycci/engines/orca.py:1986-2011 | the Hirshfeld loop computes the Hirshfeld-scan specification |
| OrcaLog.HirshfeldScan | spycci/engines/orca.py:1986-2011 | specification of the Hirshfeld loop: the first table with rows, ended by the first line that is not a row (`ScanHirshfeld` computes it) |
| OrcaLog.HirshfeldFirstSection | spycci/engines/orca.py:1988-2011 | the Hirshfeld rows read are those of the FIRST section, whatever sections follow |
| OrcaLog.HirshfeldSectionAt | spycci/engines/orca.py:1990-2011 | a section at a header reads its rows after the six skipped lines and stops at the next non-header line |
| OrcaLog.HirshfeldStopsAfter | spycci/engines/orca.py:2010-2011 | once rows are held, the first non-header line ends the search |
| OrcaLog.HirshfeldSkipsToFirst | spycci/engines/orca.py:1988-1990 | lines before the first header leave the search unchanged |
| OrcaLog.ParseReals | spycci/engines/orca.py:2080-2081 | every token converts, one value each |
| OrcaLog.ModeRow | spycci/engines/orca.py:2078-2081 | an empty line has no values, so it adds nothing to the columns |
| OrcaLog.AddRow | spycci/engines/orca.py:2080-2081 | the number of columns is kept and each column grows by at most one value |
| OrcaLog.AddRowAt | spycci/engines/orca.py:2080-2081 | column `i` gains the row's `i`-th value when the row has one, else is unchanged |
| OrcaLog.BlockRows | spycci/engines/orca.py:2077-2081 | a block read keeps the column count and grows each column by at most one value per row |
| OrcaLog.ModeBlocks | spycci/engines/orca.py:2059-2088 | the block loop leaves the cursor inside the file |
| OrcaLog.AppendRow | spycci/engines/orca.py:2080-2081 | the enumerate loop appends the row to the columns as the specification does |
| OrcaLog.ReadBlock | spycci/engines/orca.py:2076-2081 | reading one block into fresh columns computes the block-read specification |
| OrcaLog.ReadNormalModes | spycci/engines/orca.py:2059-2088 | the block loop computes the block-tiling specification |
| OrcaLog.ModeBlocksCount | spycci/engines/orca.py:2059-2088 | the blocks add exactly as many vectors as there are coordinates left, after the ones already read, none longer than the coordinate count |
| OrcaLog.NormalModeCount | spycci/engines/orca.py:2065-2088 | for `n` atoms the reader yields exactly 3n normal-mode vectors |
| OrcaLog.FullBlockColumns | spycci/engines/orca.py:2076-2081 | a block whose every row decodes to one value per column yields columns that all have one value per row, and stops right after its rows |
| OrcaLog.ModeBlocksLengths | spycci/engines/orca.py:2059-2088 | in a table whose blocks are full, the block loop succeeds and every vector it reads has one value per coordinate |
| OrcaLog.NormalModeVectors | spycci/engines/orca.py:2059-2088 | for `n` atoms and a table whose blocks are full, the reader yields exactly 3n vectors, each of exactly 3n values |
| OrcaLog.BlockRowsFull | spycci/engines/orca.py:2077-2081 | when every row fills all columns, each column grows by one value per row |
| OrcaLog.FrequencyValues | spycci/engines/orca.py:2052 | the frequencies in row order |
| OrcaLog.ImaginaryCount | spycci/engines/orca.py:2046-2047 | at most one warning per frequency row |
| OrcaLog.VibrationalStep | spycci/engines/orca.py:2022-2153 | each step of the vibrational loop moves the cursor forward |
| OrcaLog.VibrationalLine | spycci/engines/orca.py:2022-2153 | the body of the vibrational loop computes the step specification for every section kind |
| OrcaLog.ScanVibrations | spycci/engines/orca.py:2019-2156 | the vibrational loop over the log computes the vibrational-scan specification |
| OrcaLog.VibrationalScan | spycci/engines/orca.py:2019-2156 | specification of the vibrational loop: frequencies, normal modes, IR and Raman tables read in file order with the imaginary-mode warnings counted (`ScanVibrations` computes it) |
| OrcaLog.VibrationalScanStep | spycci/engines/orca.py:2022-2153 | the scan is the fold of its steps, stopping at the first failure |
| OrcaLog.VibrationalStepFrequencies | spycci/engines/orca.py:2022-2153 | a step either starts fresh vibrational data at a frequency header, holding that table's frequencies, or keeps the frequencies it had; the other tables never create data |
| OrcaLog.VibrationalScanNext | spycci/engines/orca.py:2022-2153 | a successful loop goes on from a later cursor with the step's data, whose frequencies are kept or read from the table at that line |
| OrcaLog.VibrationalScanFrequencies | spycci/engines/orca.py:2019-2156 | after a successful loop the frequencies are those held on entry or those of a frequency table at or after the cursor |
| OrcaLog.VibrationalFrequenciesFromTable | spycci/engines/orca.py:2019-2156 | the frequencies of a successful vibrational analysis are those read from a frequency table of the log |
| OrcaLog.ReadScanEnergies | spycci/engines/orca.py:1298-1309 | the scan-energy loop computes the scan-table specification |
| OrcaLog.ScanEnergiesFrom | spycci/engines/orca.py:1298-1309 | specification of the scan-energy loop: after the header, the last token of each two-column line until the first other line (`ReadScanEnergies` computes it) |
| OrcaLog.ScanEnergiesTable | spycci/engines/orca.py:1298-1309 | the energies are exactly the last tokens of the rows after the first header, in order, up to the first line that is not a row |
| OrcaLog.ScanSkipsToHeader | spycci/engines/orca.py:1298-1303 | lines before the first header leave the reading unchanged |
| OrcaLog.ScanReadsTable | spycci/engines/orca.py:1304-1309 | once reading, every accepted row appends its value in order |
| OrcaJob.Accept | spycci/engines/orca.py:374-391 | a level is accepted exactly when its upper-case form is listed, and is then stored upper-case and listed; otherwise the error names the value |
| OrcaJob.AcceptIgnoresCase | spycci/engines/orca.py:374-391 | a value and its lower-case form are accepted or refused alike, as the same level |
| OrcaJob.AcceptsListedLevels | spycci/engines/orca.py:374-492 | every listed level of the four vocabularies is accepted as itself |
| OrcaJob.LibraryName.Position | spycci/engines/orca.py:301-319 | each library block has one place in the fixed order geom, cpcm, plots, output, elprop, neb, under its own name |
| OrcaJob.OrderPosition | spycci/engines/orca.py:301-319 | each place of the order holds the block whose position it is, under the listed name |
| OrcaJob.NameInjective | spycci/engines/orca.py:323 | different library blocks have different names |
| OrcaJob.OtherNameUntouched | spycci/engines/orca.py:128-288 | no block getter writes to a block whose name is not a library name |
| OrcaJob.LibraryNameUntouched | spycci/engines/orca.py:128-288 | each getter writes to its own user block only |
| OrcaJob.UserBlock | spycci/engines/orca.py:139 | the user's block when the name is defined, the empty block otherwise |
| OrcaJob.WriteBack | spycci/engines/orca.py:139-159 | a getter that changes the user's block in place keeps the set and order of block names |
| OrcaJob.LibraryBlockGet | spycci/engines/orca.py:139-288 | library assignments win: a key a getter assigns holds the last value it assigns, any other key keeps the user's value |
| OrcaJob.Truthy | spycci/engines/orca.py:175 | Python's truth value of an optional text: present and not empty |
| OrcaJob.GeomUpdates | spycci/engines/orca.py:141-157 | the assignments `geom_block` makes, in program order: Hessian and full-scan switches, scan then transition-state scan under the same key, constraints and their inversion |
| OrcaJob.CpcmUpdates | spycci/engines/orca.py:175-177 | the SMD assignments `cpcm_block` makes for a truthy solvent only |
| OrcaJob.PlotsUpdates | spycci/engines/orca.py:211-219 | the cube-file assignments `plots_block` makes when a cube size is set, with the spin density for a system that is not a singlet |
| OrcaJob.OutputUpdates | spycci/engines/orca.py:236-237 | the Hirshfeld print switch of `output_block` |
| OrcaJob.ElpropUpdates | spycci/engines/orca.py:256-257 | the polarisability switch of `elprop_block` |
| OrcaJob.NebUpdates | spycci/engines/orca.py:275-286 | the assignments `neb_block` makes for a NEB-CI or NEB-TS job only: product, then guess, image count and pre-optimisation when set |
| OrcaJob.Updates | spycci/engines/orca.py:128-288 | the assignment table of each library block |
| OrcaJob.LibraryBlock | spycci/engines/orca.py:139-288 | specification of a block getter's result: the user's block of that name with the library assignments made on it (`LibraryBlockGet` states it key by key) |
| OrcaJob.Refreshed | spycci/engines/orca.py:303-319 | specification of the user blocks after the getters of the first blocks of the fixed order have run |
| OrcaJob.LibrarySection | spycci/engines/orca.py:301-319 | specification of the first part of `parsed_blocks`: the non-empty library blocks in the fixed order |
| OrcaJob.WithOtherBlocks | spycci/engines/orca.py:321-324 | specification of the second part of `parsed_blocks`: the user blocks whose names are not library names, assigned in order |
| OrcaJob.ParsedBlocksOf | spycci/engines/orca.py:290-326 | specification of `parsed_blocks`: the library section followed by the other user blocks as they stand once the getters have run (`ParsedBlocksLibrary`, `ParsedBlocksOther` and `ParsedBlocksIdempotent` state what it holds) |
| OrcaJob.ScanUpdatesWrite | spycci/engines/orca.py:147-151 | the `scan_ts` assignment of `scan` comes after the `scan` one |
| OrcaJob.GeomScanWrite | spycci/engines/orca.py:141-157 | among the `%geom` assignments, `scan` is written only by the two scan assignments |
| OrcaJob.ScanTsReplacesScan | spycci/engines/orca.py:147-151 | `scan_ts` replaces `scan` in `%geom`, either one replaces the user's `scan`, and without both the user's entry is kept |
| OrcaJob.LastWriteAppend | spycci/engines/orca.py:139-159 | of two runs of assignments, the later run's write to a key wins |
| OrcaJob.NebKeysOnlyForNeb | spycci/engines/orca.py:273-288 | `%neb` is the user's block unless the job is NEB-CI or NEB-TS, and then always names the product |
| OrcaJob.LowerFoldUnique | spycci/engines/orca.py:116-126 | the stored user blocks, and the keys of each, have no repeated name |
| OrcaJob.LowerFoldLowerCase | spycci/engines/orca.py:116-126 | every stored name is lower-case |
| OrcaJob.LowerFoldCovers | spycci/engines/orca.py:116-126 | every given name is stored in lower-case form |
| OrcaJob.LowerFoldOnlyFrom | spycci/engines/orca.py:116-126 | every stored name comes from a given name |
| OrcaJob.LowerFoldLastWins | spycci/engines/orca.py:121-124 | of names that differ in case only, the last one's value is stored (the reset at line 122 discards the earlier block) |
| OrcaJob.LowerFoldNoCollision | spycci/engines/orca.py:116-126 | without case collisions every entry is kept, in place, with its value |
| OrcaJob.LowerBlocksInner | spycci/engines/orca.py:121-124 | every stored block has distinct lower-case keys |
| OrcaJob.WriteBackGet | spycci/engines/orca.py:139-159 | a getter stores its block under its own name, if the user defined that block, and changes no other block |
| OrcaJob.RefreshedKeys | spycci/engines/orca.py:303-319 | running the getters adds and removes no user block and keeps their order |
| OrcaJob.RefreshedUntouched | spycci/engines/orca.py:303-319 | a block no getter in a stretch writes is left as it was |
| OrcaJob.RefreshedBefore | spycci/engines/orca.py:303-319 | each getter in `parsed_blocks` sees the user's own block, untouched by the getters before it |
| OrcaJob.RefreshedAt | spycci/engines/orca.py:303-319 | right after its getter ran, the user's library block holds what the getter returned |
| OrcaJob.RefreshedLibrary | spycci/engines/orca.py:303-319 | after all getters, the user's library block holds what its getter returned |
| OrcaJob.RefreshedOther | spycci/engines/orca.py:303-324 | the getters leave every non-library block alone |
| OrcaJob.RefreshTwice | spycci/engines/orca.py:303-304 | calling a getter twice (as the `if` and its body do) returns the same block and changes nothing more |
| OrcaJob.SectionKeys | spycci/engines/orca.py:301-319 | the library part of the result holds the non-empty library blocks, in the fixed order |
| OrcaJob.SectionNames | spycci/engines/orca.py:301-319 | the library part holds library names only, none of a getter yet to run |
| OrcaJob.SectionUnique | spycci/engines/orca.py:301-319 | the library part names every block once |
| OrcaJob.SectionStep | spycci/engines/orca.py:303-304 | `blocks[name] = block` adds the block at the end of the library part |
| OrcaJob.SectionGet | spycci/engines/orca.py:301-319 | in the library part, a library block is its getter's result when that is not empty |
| OrcaJob.WithOtherBlocksUnique | spycci/engines/orca.py:321-324 | adding the other blocks repeats no name |
| OrcaJob.WithOtherBlocksKeys | spycci/engines/orca.py:321-324 | the other blocks are appended in the user's order |
| OrcaJob.WithOtherBlocksLibrary | spycci/engines/orca.py:323 | a library name keeps the block of the library part |
| OrcaJob.WithOtherBlocksOther | spycci/engines/orca.py:321-324 | any other name finds the user's block |
| OrcaJob.SectionLibraryNames | spycci/engines/orca.py:301-319 | the library part holds library names only |
| OrcaJob.ParsedBlocksKeys | spycci/engines/orca.py:290-326 | the result lists the non-empty library blocks in the fixed order geom, cpcm, plots, output, elprop, neb, then the user's other blocks in insertion order |
| OrcaJob.ParsedBlocksUnique | spycci/engines/orca.py:290-326 | the result never names a block twice |
| OrcaJob.ParsedBlocksLibrary | spycci/engines/orca.py:303-319 | a library block is present exactly when its getter returns a non-empty block, and then holds that block |
| OrcaJob.ParsedBlocksOther | spycci/engines/orca.py:321-324 | each other block is present as the user defined it |
| OrcaJob.LibraryBlockStable | spycci/engines/orca.py:139-288 | after the getters have run, each getter returns what it returned the first time |
| OrcaJob.RefreshedFixed | spycci/engines/orca.py:303-319 | once every library block holds its getter's result, the getters change nothing |
| OrcaJob.ParsedBlocksIdempotent | spycci/engines/orca.py:290-326 | asking for the parsed blocks twice gives the same blocks and leaves the user blocks as the first call left them |
| OrcaJob.AddOtherBlocks | spycci/engines/orca.py:321-324 | the loop over the user blocks adds every non-library block as the specification does |
| OrcaJob.OrcaJobInfo.constructor | spycci/engines/orca.py:73-108 | the defaults: all available cores, 750 MB per core, singlet, no solvent, every job flag off, no user blocks, no levels |
| OrcaJob.OrcaJobInfo.SetNcores | spycci/engines/orca.py:341-343 | `None` selects all available cores, anything else is stored |
| OrcaJob.OrcaJobInfo.SetMaxcore | spycci/engines/orca.py:357-359 | `None` selects 750 MB, anything else is stored |
| OrcaJob.OrcaJobInfo.SetPrintLevel | spycci/engines/orca.py:374-391 | `None` clears the level; a listed value is stored upper-case; any other value raises and changes nothing |
| OrcaJob.OrcaJobInfo.SetOptimizationLevel | spycci/engines/orca.py:406-423 | a listed value is stored upper-case, others raise and change nothing; `None` clears the PRINT level and keeps the optimization level |
| OrcaJob.OrcaJobInfo.SetScfConvergenceLevel | spycci/engines/orca.py:438-458 | as above for the SCF convergence levels; `None` clears the print level |
| OrcaJob.OrcaJobInfo.SetScfConvergenceStrategy | spycci/engines/orca.py:473-492 | as above for the SCF convergence strategies; `None` clears the print level |
| OrcaJob.OrcaJobInfo.SetUserBlocks | spycci/engines/orca.py:115-126 | stores the lower-cased blocks, which keeps names and keys unique |
| OrcaJob.LowerFold | spycci/engines/orca.py:118-126 | specification of the setter's fold: keys lower-cased and assigned in order, so of keys that differ only in case the last value is kept at the first one's place |
| OrcaJob.LowerBlocks | spycci/engines/orca.py:115-126 | specification of the value the `user_blocks` setter stores: block names and keys lower-cased |
| OrcaJob.OrcaJobInfo.MergeUserBlock | spycci/engines/orca.py:139-288 | a getter returns the user's block with the library assignments made, writes it back into the user's own block and changes no flag |
| OrcaJob.OrcaJobInfo.GeomBlock | spycci/engines/orca.py:128-159 | `geom_block`: the merged `%geom` block, written back in place |
| OrcaJob.OrcaJobInfo.CpcmBlock | spycci/engines/orca.py:162-179 | `cpcm_block`: the SMD solvent is set only for a truthy solvent |
| OrcaJob.OrcaJobInfo.PlotsBlock | spycci/engines/orca.py:198-221 | `plots_block`: cube output, with the spin density for a non-singlet |
| OrcaJob.OrcaJobInfo.OutputBlock | spycci/engines/orca.py:223-239 | `output_block`: Hirshfeld printing when requested |
| OrcaJob.OrcaJobInfo.ElpropBlock | spycci/engines/orca.py:242-259 | `elprop_block`: polarisability for a Raman job |
| OrcaJob.OrcaJobInfo.NebBlock | spycci/engines/orca.py:261-288 | `neb_block`: product, guess, images and pre-optimisation for a NEB job |
| OrcaJob.OrcaJobInfo.CosmorsBlock | spycci/engines/orca.py:182-195 | `cosmors_block`: the user's block, nothing added |
| OrcaJob.OrcaJobInfo.LibraryGetter | spycci/engines/orca.py:128-288 | dispatches to the getter of a library block |
| OrcaJob.OrcaJobInfo.AddLibraryBlock | spycci/engines/orca.py:303-319 | one `if` of `parsed_blocks`: the block is added when the getter's result is not empty |
| OrcaJob.OrcaJobInfo.ParsedBlocks | spycci/engines/orca.py:290-326 | `parsed_blocks` returns the parsed-blocks specification and leaves the user blocks refreshed by all getters |
| OrcaInput.NewEngine | spycci/engines/orca.py:525-541 | a missing or empty basis set or auxiliary basis is stored as the empty text; method, solvent and options are stored as given; the arguments default to PBE, def2-TZVP, def2/J, no solvent and no options |
| OrcaInput.DefaultEngine | spycci/engines/orca.py:525-547 | the engine built with every default is PBE/def2-TZVP with the def2/J auxiliary basis in vacuum, suffixed `orca_PBE_def2-TZVP_vacuum` |
| OrcaInput.OutputSuffix | spycci/engines/orca.py:546-548 | specification of the suffix before `clean_suffix`: `orca_<method>`, `_<basis>` for a truthy basis set, then `_<solvent>` or `_vacuum` (`OutputSuffixShape` states its shape) |
| OrcaInput.OutputSuffixShape | spycci/engines/orca.py:546-548 | the suffix starts with `orca_<method>` and ends with `_<solvent>` for a truthy solvent or `_vacuum` otherwise, and its length accounts for exactly those parts and the optional basis |
| OrcaInput.JobLineIn | spycci/engines/orca.py:603-631 | a keyword line is written exactly for the keywords requested, and only keyword lines are |
| OrcaInput.DowngradeKeepsFrequencies | spycci/engines/orca.py:598-601 | the switch never drops a frequency request and leaves no analytical frequencies in a solvated optimisation |
| OrcaInput.DowngradeOnlyFrequencies | spycci/engines/orca.py:598-601 | the switch is idempotent and changes nothing outside its trigger |
| OrcaInput.AppendSubEntries | spycci/engines/orca.py:644-645 | the sub-entry loop appends one `    <subkey> <subvalue>` line per entry, in order |
| OrcaInput.AppendEntries | spycci/engines/orca.py:641-648 | the entry loop appends each entry of a block in order, nested dictionaries as sub-blocks |
| OrcaInput.AppendBlocks | spycci/engines/orca.py:637-650 | the block loop appends `%<name>`, the entries and `end` per block, in order |
| OrcaInput.AppendWord | spycci/engines/orca.py:586-592 | a set level is written followed by a space |
| OrcaInput.MethodLines | spycci/engines/orca.py:577-581 | the method line, and the RIJCOSX line for a non-empty auxiliary basis, are written only without a COSMO-RS block |
| OrcaInput.ScfLines | spycci/engines/orca.py:583-593 | the SCF line holds the level and then the strategy, each followed by a space, and is written when either is set |
| OrcaInput.PrintLines | spycci/engines/orca.py:595-596 | the print-level line is written when the level is set |
| OrcaInput.SwitchFrequencies | spycci/engines/orca.py:598-601 | the job's flags after the switch are the downgraded flags |
| OrcaInput.Downgrade | spycci/engines/orca.py:598-601 | specification of the frequency switch: an optimisation with analytical frequencies in an engine solvent asks for numerical frequencies instead (`DowngradeOnlyFrequencies` and `DowngradeKeepsFrequencies` state it) |
| OrcaInput.JobKeywords | spycci/engines/orca.py:603-631 | specification of the calculation keywords, in the order the input file lists them |
| OrcaInput.AppendKeyword | spycci/engines/orca.py:603-631 | one `! <keyword>` line when its flag is set |
| OrcaInput.KeywordStep | spycci/engines/orca.py:603-631 | the keyword lines so far followed by the next one are the keyword lines of the extended list |
| OrcaInput.NextKeyword | spycci/engines/orca.py:603-631 | each keyword `if` extends the written keyword lines by its own keyword |
| OrcaInput.KeywordLines | spycci/engines/orca.py:603-631 | the keyword lines are those of the requested keywords, in the fixed order Opt or the optimisation level, Opt for a scan, OptTS, ScanTS, Freq, NumFreq, NearIR, NEB-CI, NEB-TS |
| OrcaInput.BlockLines | spycci/engines/orca.py:635-650 | the block section writes the parsed blocks, and leaves the user blocks refreshed by the getters |
| OrcaInput.WriteInput | spycci/engines/orca.py:551-657 | the file text is the input-text specification of the job as it was before the call; afterwards the flags are downgraded and the user blocks refreshed |
| OrcaInput.InputPieces | spycci/engines/orca.py:570-652 | specification of the `+=` operands of `input.inp`: resources, directives, a blank line, the parsed blocks and the coordinates line (`InputPiecesShape` states it) |
| OrcaInput.InputText | spycci/engines/orca.py:551-657 | specification of the text of `input.inp`, the operands joined (`InputFrame` states how it begins and ends) |
| OrcaInput.InputPiecesShape | spycci/engines/orca.py:570-652 | the file's operands are grouped as `write_input` appends them |
| OrcaInput.InputFrame | spycci/engines/orca.py:570-652 | the file opens with the `%pal`/`%maxcore` resources and closes with the coordinates line |
| OrcaInput.MethodLineIffNoCosmors | spycci/engines/orca.py:577-581 | the method line is written if and only if the job has no COSMO-RS block, and is then the first directive |
| OrcaInput.SolventSwitchesToNumFreq | spycci/engines/orca.py:598-620 | a solvated optimisation with analytical frequencies asks for `NumFreq` and not `Freq` |
| OrcaInput.FreqKeptOtherwise | spycci/engines/orca.py:598-620 | otherwise a frequency request is written as `Freq` |
| OrcaInput.EndpointCheck | spycci/engines/orca.py:1549-1559 | it passes if and only if the end points have different names, the same spin and the same charge |
| OrcaInput.NebCiCheck | spycci/engines/orca.py:1549-1559 | `neb_ci` runs if and only if reactant and product are compatible |
| OrcaInput.NebTsCheck | spycci/engines/orca.py:1676-1702 | `neb_ts` runs if and only if the product, and the guess when given, are compatible with the reactant |
| OrcaInput.EndpointCheckOrder | spycci/engines/orca.py:1549-1559 | the first failing check is reported: same name, then spin, then charge |
| OrcaInput.NebTsAgreesWithNebCi | spycci/engines/orca.py:1676-1702 | without a guess `neb_ts` checks what `neb_ci` checks; a failing guess is reported before any product failure |
| OrcaInput.SolventName | spycci/engines/orca.py:1825 | the solvent name holds no dot |
| OrcaInput.CosmorsBlocks | spycci/engines/orca.py:1815-1841 | a successful call always leaves a `cosmors` block |
| OrcaInput.CosmorsTheoryGet | spycci/engines/orca.py:1837-1839 | the level-of-theory entries leave every other entry alone |
| OrcaInput.CosmorsOfIs | spycci/engines/orca.py:1815-1841 | the stored block is the solvent choice followed by the level of theory |
| OrcaInput.CosmorsSolvent | spycci/engines/orca.py:1815-1836 | specification of the solvent entry of the COSMO-RS block: an explicit solvent, then a solvent file that exists, then the engine's solvent, otherwise an error |
| OrcaInput.CosmorsTheory | spycci/engines/orca.py:1837-1839 | specification of the level of theory written into the block when the engine's settings are used |
| OrcaInput.CosmorsOf | spycci/engines/orca.py:1815-1841 | specification of the COSMO-RS block of a successful call (`CosmorsExplicitSolventWins`, `CosmorsEngineTheory` and `CosmorsKeepsTheRest` state it) |
| OrcaInput.CosmorsExplicitSolventWins | spycci/engines/orca.py:1817-1818 | an explicit solvent always succeeds and is written, whatever file or engine solvent is also given |
| OrcaInput.CosmorsSolventFileNext | spycci/engines/orca.py:1820-1827 | without a solvent, a solvent file succeeds exactly when it exists and names the solvent by its base name; a missing file is an error |
| OrcaInput.CosmorsEngineSolventLast | spycci/engines/orca.py:1829-1835 | with neither, the engine's solvent is used, and without one the call fails |
| OrcaInput.CosmorsKeepsTheRest | spycci/engines/orca.py:1815-1841 | only the `cosmors` block changes, and in it the user's other entries are kept |
| OrcaInput.CosmorsEngineTheory | spycci/engines/orca.py:1837-1839 | with the engine's settings the block names the engine's functional and basis set |
| OrcaParse.Charges | spycci/engines/orca.py:1966 | one charge per row, in row order |
| OrcaParse.Spins | spycci/engines/orca.py:1968-1971 | one spin population per row, in row order |
| OrcaParse.GibbsCheck | spycci/engines/orca.py:1924-1928 | it passes if and only if no Gibbs line was read or the property set's Gibbs energy exists and is close to it; a Gibbs line without a correction is its own error |
| OrcaParse.Parse | spycci/engines/orca.py:1895-1907 | a missing file and a log without the termination marker fail before anything is written |
| OrcaParse.ReadSections | spycci/engines/orca.py:1932-2156 | the population and vibrational sections write what the sections specification says, stopping at the first failure |
| OrcaParse.WithEnergies | spycci/engines/orca.py:1916-1919 | the electronic energy and free-energy correction are set only when read; a value never read leaves the property as it was |
| OrcaParse.WithMulliken | spycci/engines/orca.py:1980-1982 | Mulliken charges and spins are set only when the table had rows |
| OrcaParse.WithHirshfeld | spycci/engines/orca.py:2013-2015 | Hirshfeld charges and spins are set only when the table had rows |
| OrcaParse.WithVibrations | spycci/engines/orca.py:2155-2156 | vibrational data are set only when some were read |
| OrcaParse.MullikenOf | spycci/engines/orca.py:1932-1978 | specification of the Mulliken rows: no section is searched when the log has no header (`MullikenFromLastSection` and `NoMullikenHeaderNoRows` state it) |
| OrcaParse.Sections | spycci/engines/orca.py:1932-2156 | specification of the population and vibrational sections, each written as soon as it is read, a failure leaving what was written before it (`ReadSections` computes it) |
| OrcaParse.ParseOutput | spycci/engines/orca.py:1878-2156 | `parse_output` returns the outcome and leaves the property values of the parse specification |
| OrcaParse.SectionsKeepEnergies | spycci/engines/orca.py:1932-2156 | the sections after the energy loop leave both energies alone |
| OrcaParse.EnergiesLastWin | spycci/engines/orca.py:1911-1919 | after a normal termination whose energy lines decode, the electronic energy and the correction are those of the last marked lines, or the earlier values when there is none |
| OrcaParse.GibbsConsistentOnSuccess | spycci/engines/orca.py:1920-1928 | a successful parse with a Gibbs line leaves a Gibbs free energy that is close to the last such line |
| OrcaParse.GibbsWithoutCorrectionFails | spycci/engines/orca.py:1924-1926 | a Gibbs line with no correction, read now or before, fails the parse after the energies were set |
| OrcaParse.NoMullikenHeaderNoRows | spycci/engines/orca.py:1937-1939 | a log without a Mulliken header yields no Mulliken rows: the guard skips the search |
| OrcaParse.NoMullikenSections | spycci/engines/orca.py:1937 | a log without a Mulliken header counts zero sections |
| OrcaParse.MullikenFromLastSection | spycci/engines/orca.py:1932-1978 | the Mulliken rows are those of the last section, with spin 0.0 throughout when its header names no spin column |
| OrcaParse.MullikenSetTogether | spycci/engines/orca.py:1980-1982 | charges and spin populations are set together, one per row, and not at all when no row was read |
| LegacyOrca.OrcaJobInfo.constructor | compechem/engines/orca.py:20-40 | the legacy defaults: all available cores, 750 MB per core, nothing requested, no level set |
| LegacyOrca.OrcaJobInfo.SetNcores | compechem/engines/orca.py:46-48 | `None` selects all available cores, anything else is stored |
| LegacyOrca.OrcaJobInfo.SetMaxcore | compechem/engines/orca.py:54-56 | `None` selects 750 MB, anything else is stored |
| LegacyOrca.OrcaJobInfo.SetPrintLevel | compechem/engines/orca.py:62-79 | `None` clears the level; a listed value is stored upper-case; any other value raises and changes nothing |
| LegacyOrca.OrcaJobInfo.SetOptimizationLevel | compechem/engines/orca.py:85-102 | a listed value is stored upper-case, others raise and change nothing; `None` clears the PRINT level and keeps the optimization level |
| LegacyOrca.OrcaJobInfo.SetScfConvergenceLevel | compechem/engines/orca.py:108-128 | as above for the SCF convergence levels; `None` clears the print level |
| LegacyOrca.OrcaJobInfo.SetScfConvergenceStrategy | compechem/engines/orca.py:134-153 | as above for the SCF convergence strategies; `None` clears the print level |
| LegacyOrca.NewEngine | compechem/engines/orca.py:178-194 | the basis set and auxiliary basis are empty exactly when not given or empty, and otherwise stored as given; the other settings are stored as given; the arguments default to PBE, def2-TZVP, def2/J, no solvent, no options and an empty `%scf` block |
| LegacyOrca.DefaultEngine | compechem/engines/orca.py:178-194 | the legacy engine built with every default is PBE/def2-TZVP with RIJCOSX on def2/J, in vacuum, with no `%scf` block |
| LegacyOrca.PiecesOfParts | compechem/engines/orca.py:214-300 | the file's operands are those of its groups, in order |
| LegacyOrca.Emit | compechem/engines/orca.py:222-298 | one `if` writes the part's operands when its condition holds and nothing otherwise |
| LegacyOrca.ScfLines | compechem/engines/orca.py:222-232 | the SCF line (with the corrected separator) is written when a level or a strategy is set |
| LegacyOrca.RijcosxLine | compechem/engines/orca.py:234-235 | the RIJCOSX line is written for a non-empty auxiliary basis |
| LegacyOrca.PrintLevelLine | compechem/engines/orca.py:237-238 | the print-level line is written when the level is set |
| LegacyOrca.KeywordLine | compechem/engines/orca.py:245-258 | one `! <keyword>` line when its flag is set |
| LegacyOrca.GeomLines | compechem/engines/orca.py:260-268 | the `%geom` scan block, with the constraints and the inversion switch when given, is written for a scan |
| LegacyOrca.CpcmLines | compechem/engines/orca.py:270-271 | the `%CPCM` block is written for a truthy solvent |
| LegacyOrca.PlotLines | compechem/engines/orca.py:273-282 | the `%plots` block is written for a cube size, with the spin density for a non-singlet |
| LegacyOrca.HirshfeldLines | compechem/engines/orca.py:284-287 | the `%output` block is written for a Hirshfeld request |
| LegacyOrca.AppendScfEntries | compechem/engines/orca.py:291-292 | one `  <key> <value>` line per SCF setting, in insertion order |
| LegacyOrca.ScfBlockLines | compechem/engines/orca.py:289-293 | the `%scf` block is written when the engine has SCF settings |
| LegacyOrca.ElpropLines | compechem/engines/orca.py:295-298 | the `%elprop` block is written for a Raman request |
| LegacyOrca.CoordinatesLine | compechem/engines/orca.py:300 | the coordinates line names the charge, the spin and the `.xyz` file |
| LegacyOrca.ResourceLines | compechem/engines/orca.py:214-220 | every input starts with `%pal`, `%maxcore` and the method line |
| LegacyOrca.OpeningLines | compechem/engines/orca.py:222-238 | the SCF, RIJCOSX and print-level lines in that order |
| LegacyOrca.SwitchFrequencies | compechem/engines/orca.py:240-243 | an optimisation with frequencies in a solvent that is not `None` switches to numerical frequencies; nothing else changes |
| LegacyOrca.KeywordLines | compechem/engines/orca.py:245-258 | the keyword lines of the flags as switched, in the order Opt or the level, Freq, NumFreq, NearIR |
| LegacyOrca.ModelBlockLines | compechem/engines/orca.py:260-282 | the `%geom`, `%CPCM` and `%plots` blocks in that order |
| LegacyOrca.OutputBlockLines | compechem/engines/orca.py:284-298 | the `%output`, `%scf` and `%elprop` blocks in that order |
| LegacyOrca.ClosingLines | compechem/engines/orca.py:245-300 | the keyword lines, the blocks and the coordinates line |
| LegacyOrca.WriteInput | compechem/engines/orca.py:204-305 | the file text is the input-text specification of the job before the call, with the corrected SCF separator of the findings below, and the job is left with its frequency flags switched |
| LegacyOrca.Parts | compechem/engines/orca.py:214-300 | specification of the parts of `input.inp` for a job as it is when `write_input` is called, with the frequency flags as switched (`PartsInOrder`, `PartsFrame` and the part lemmas state what it holds) |
| LegacyOrca.InputText | compechem/engines/orca.py:204-305 | specification of the text of `input.inp`, with the corrected SCF separator |
| LegacyOrca.AsWrittenPartPieces | compechem/engines/orca.py:214-300 | the operands of each part as the code writes them: those of the SCF line as `AsWrittenScfPieces` says, all others as corrected |
| LegacyOrca.AsWrittenInputText | compechem/engines/orca.py:204-305 | the text of `input.inp` exactly as the code writes it, with `""` after the SCF level |
| LegacyOrca.AsWrittenInputDiffersInScfLine | compechem/engines/orca.py:214-300 | the file as written and the corrected file are the same resources block, then their own SCF line when one is asked for, then the same remaining text |
| LegacyOrca.AsWrittenInputWithoutLevel | compechem/engines/orca.py:222-232 | without an SCF convergence level the file as written is the corrected file |
| LegacyOrca.ScfLineText | compechem/engines/orca.py:222-232 | corrected: each SCF word given is followed by a space |
| LegacyOrca.AsWrittenScfLineJoinsWords | compechem/engines/orca.py:222-232 | as written, a level and a strategy run together into one word |
| LegacyOrca.AsWrittenScfPieces | compechem/engines/orca.py:222-232 | the SCF line operands as written: the level followed by `""`, the strategy by a space |
| LegacyOrca.AsWrittenScfLineExample | compechem/engines/orca.py:222-232 | `TIGHTSCF` with `SLOWCONV` gives `! TIGHTSCFSLOWCONV ` as written and `! TIGHTSCF SLOWCONV ` corrected |
| LegacyOrca.PartsFrame | compechem/engines/orca.py:214-300 | every file starts with the resources and method line and ends with the coordinates line |
| LegacyOrca.PartsInOrder | compechem/engines/orca.py:214-300 | the parts come in one fixed order of kinds whatever the job: resources, SCF, RIJCOSX, print level, keywords, `%geom`, `%CPCM`, `%plots`, `%output`, `%scf`, `%elprop`, coordinates |
| LegacyOrca.InGroups | compechem/engines/orca.py:214-300 | a part is in the file exactly when it is in its group, and each kind is found in the group it belongs to |
| LegacyOrca.InKeywords | compechem/engines/orca.py:245-258 | the keyword line of each flag set is written, and no other |
| LegacyOrca.GeomOnlyForScan | compechem/engines/orca.py:260-268 | a `%geom` block is written exactly for a scan, and carries its scan, constraints and inversion switch |
| LegacyOrca.CpcmOnlyForSolvent | compechem/engines/orca.py:270-271 | a `%CPCM` block is written exactly for a truthy solvent, and names it |
| LegacyOrca.PlotsOnlyForCubes | compechem/engines/orca.py:273-282 | a `%plots` block is written exactly for a cube size, with the spin density for any spin other than 1 |
| LegacyOrca.PlotsSpinDensity | compechem/engines/orca.py:273-282 | the `%plots` block always asks for the electron density, and for the spin density exactly when told to |
| LegacyOrca.ScfBlockOnlyWithSettings | compechem/engines/orca.py:289-293 | a `%scf` block is written exactly when the engine has SCF settings |
| LegacyOrca.FreqKeyword | compechem/engines/orca.py:240-252 | `Freq` is written exactly for frequencies not in a solvated optimisation |
| LegacyOrca.NumFreqKeyword | compechem/engines/orca.py:240-255 | `NumFreq` is written exactly when requested or when a solvated optimisation asks for frequencies |
| LegacyOrca.EmptySolventSwitchesWithoutCpcm | compechem/engines/orca.py:240-271 | an empty solvent name switches to numerical frequencies and still writes no solvation block |
| LegacyOrca.ParseWith | compechem/engines/orca.py:741-753 | a missing file and a log without the termination marker fail before anything is written |
| LegacyOrca.ReadSections | compechem/engines/orca.py:771-982 | the sections after the energies write what the sections specification says, stopping at the first failure |
| LegacyOrca.ParseOutput | compechem/engines/orca.py:724-982 | `parse_output` returns the outcome and leaves the property values of the corrected parse specification |
| LegacyOrca.SectionsKeepEnergies | compechem/engines/orca.py:771-982 | the sections after the energy loop leave the three energies alone |
| LegacyOrca.EnergiesLastWin | compechem/engines/orca.py:757-767 | the electronic energy, the correction and the Gibbs energy are those of the last marked lines, with no check between them |
| LegacyOrca.AsWrittenMullikenFails | compechem/engines/orca.py:776-815 | as written, a log without a Mulliken header or a sum line fails: the whole file is read as one table that never ends; the corrected reader gives no rows |
| LegacyOrca.AsWrittenParseFailsWithoutMulliken | compechem/engines/orca.py:771-819 | as written, such a log stops the parse with an error once the energies are set |
| LegacyOrca.AsWrittenMulliken | compechem/engines/orca.py:776-815 | specification of the Mulliken rows as written: the section search runs even when the log has no header |
| LegacyOrca.AsWrittenParse | compechem/engines/orca.py:724-982 | specification of `parse_output` as written, with that Mulliken search |
| LegacyOrca.Parse | compechem/engines/orca.py:724-982 | specification of `parse_output` with the Mulliken search skipped when the log has no header (`ParseOutput` computes it, `ParseSkipsMissingMulliken` states the difference) |
| LegacyOrca.Sections | compechem/engines/orca.py:771-982 | specification of the sections after the energy loop, given the Mulliken rows |
| LegacyOrca.Tail | compechem/engines/orca.py:821-982 | specification of the Hirshfeld populations and the vibrational analysis, read after the Mulliken table |
| LegacyOrca.ParseSkipsMissingMulliken | compechem/engines/orca.py:771-852 | corrected, such a log goes on to the Hirshfeld and vibrational sections with no Mulliken populations written |
| LegacyOrca.NoGibbsCheck | compechem/engines/orca.py:757-767 | when every section reads, the parse succeeds whatever Gibbs energy the log reports |
| Dftb.OutputSuffix | spycci/engines/dftbplus.py:108-110 | the suffix starts with `DFTB`, ends with `-D3` under dispersion, and has one character for the third order and three for dispersion |
| Dftb.SuffixIdentifiesOptions | spycci/engines/dftbplus.py:108-110 | the suffix tells the four combinations of the third-order and dispersion switches apart |
| Dftb.PathJoin | spycci/engines/dftbplus.py:252 | an absolute second path wins; otherwise the result starts with the first path, ends with the second, with exactly one added separator when the first does not end in one |
| Dftb.DftbInput.constructor | spycci/engines/dftbplus.py:74-155 | the engine holds the settings given, the three element tables and the output suffix of its switches; the arguments default to `DFTB` with `3ob/3ob-3-1`, no solver, third order on, dispersion and Fermi smearing off, and 300 K |
| Dftb.DefaultSuffix | spycci/engines/dftbplus.py:74-111 | the default engine, third-order DFTB without dispersion, writes outputs suffixed `DFTB3` |
| Dftb.DftbInput.WriteInput | spycci/engines/dftbplus.py:157-293 | the text is the input-text specification of the settings before the call, and `parameters` becomes `gfn2` exactly after a successful xTB input |
| Dftb.Parts | spycci/engines/dftbplus.py:168-288 | specification of the parts of `dftb_in.hsd`, or the `KeyError` of an atom type missing from a table (`HamiltonianClosedOnlyForKnownMethods` states its shape) |
| Dftb.InputText | spycci/engines/dftbplus.py:168-288 | specification of the text of `dftb_in.hsd`, the parts' operands joined (`InputBeginsAndEnds` states how it begins and ends) |
| Dftb.Entries | spycci/engines/dftbplus.py:238-266 | specification of the per-atom-type entries of a table, in order, or the `KeyError` of the first missing type (`EntryAt` states it entry by entry) |
| Dftb.DriverParts | spycci/engines/dftbplus.py:170-222 | specification of the `Driver` block chosen by the job type |
| Dftb.AnnealingProfile | spycci/engines/dftbplus.py:205-210 | specification of the simulated-annealing profile: heat to the target temperature, hold it, cool down (`AnnealingProfileShape` states it) |
| Dftb.SpinParts | spycci/engines/dftbplus.py:229-244 | specification of the spin-polarisation and spin-constant blocks for a multiplicity (`SpinBlockPresence` states when they appear) |
| Dftb.DftbParts | spycci/engines/dftbplus.py:246-277 | specification of the rest of the Hamiltonian for the method `DFTB` |
| Dftb.XtbParts | spycci/engines/dftbplus.py:279-286 | specification of the rest of the Hamiltonian for the method `xTB` |
| Dftb.EntriesSucceedIff | spycci/engines/dftbplus.py:238-266 | a per-atom-type loop finishes exactly when every atom type is in its table |
| Dftb.EntriesInOrder | spycci/engines/dftbplus.py:238-266 | a finished loop writes one entry per atom type, in the order of the atom types, holding that type's table value |
| Dftb.EntryAt | spycci/engines/dftbplus.py:238-266 | entry `i` of a finished loop is that of atom type `i` |
| Dftb.EntriesFirstMissing | spycci/engines/dftbplus.py:238-266 | a failed loop raises the `KeyError` of the first atom type missing from the table, all earlier ones present |
| Dftb.EntriesFailurePersists | spycci/engines/dftbplus.py:238-266 | once a prefix of the atom types fails, the whole list fails with the same error |
| Dftb.AppendEntries | spycci/engines/dftbplus.py:238-243 | the loop appends the entries of the atom types in order, or stops with the `KeyError` |
| Dftb.DriverLines | spycci/engines/dftbplus.py:170-222 | the driver block chosen by the job type is appended |
| Dftb.HeadLines | spycci/engines/dftbplus.py:168-227 | the geometry include, the driver, the opening of the Hamiltonian and the Fermi filling when enabled |
| Dftb.SpinLines | spycci/engines/dftbplus.py:229-244 | the spin block of a non-singlet, or the `KeyError` of an atom type without spin constants |
| Dftb.ThirdOrderLines | spycci/engines/dftbplus.py:263-267 | the third-order blocks when enabled, or the `KeyError` of an atom type without a Hubbard derivative |
| Dftb.SolverLines | spycci/engines/dftbplus.py:247-248 | the solver line when a solver is set |
| Dftb.DftbTailLines | spycci/engines/dftbplus.py:260-277 | the rest of the DFTB Hamiltonian after the angular momenta |
| Dftb.DftbLines | spycci/engines/dftbplus.py:246-277 | the DFTB Hamiltonian, or the `KeyError` of its first missing atom type |
| Dftb.XtbLines | spycci/engines/dftbplus.py:279-286 | the xTB Hamiltonian |
| Dftb.PiecesOfParts | spycci/engines/dftbplus.py:168-288 | the file's operands are those of its four groups in order |
| Dftb.Emit | spycci/engines/dftbplus.py:226-288 | one `if` writes the part's operands when its condition holds and nothing otherwise |
| Dftb.TextFrame | spycci/engines/dftbplus.py:168-288 | text that starts with a geometry include and ends with the parser options starts and ends with their text |
| Dftb.InputBeginsAndEnds | spycci/engines/dftbplus.py:168-288 | every input starts with the include of the system's `.gen` file and ends with the parser options |
| Dftb.SinglePointDriver | spycci/engines/dftbplus.py:170-171 | a single point is a geometry optimisation of zero steps |
| Dftb.GeometryOptimizationDriver | spycci/engines/dftbplus.py:173-178 | an optimisation moves the lattice exactly when `latticeopt` is set |
| Dftb.DynamicsText | spycci/engines/dftbplus.py:180-222 | both dynamics blocks open the velocity Verlet driver and close it at their end |
| Dftb.DynamicsDriver | spycci/engines/dftbplus.py:180-222 | `md_nvt` and `simulated_annealing` use the velocity Verlet driver |
| Dftb.NoDriver | spycci/engines/dftbplus.py:170-222 | every other job type writes no driver |
| Dftb.AnnealingProfileShape | spycci/engines/dftbplus.py:205-210 | the annealing profile heats in two segments, holds and cools back: it starts and ends at the start temperature and lasts twice the ramp plus the hold |
| Dftb.AnnealingProfileText | spycci/engines/dftbplus.py:205-210 | the profile text holds one line per segment, in order |
| Dftb.SpinBlockPresence | spycci/engines/dftbplus.py:229-244 | a singlet writes no spin block; any other multiplicity writes one exactly when every atom type has spin constants |
| Dftb.SpinBlockShape | spycci/engines/dftbplus.py:229-244 | the spin block opens with `spin - 1` unpaired electrons, resolves shells only for "DFTB", and closes after one entry per atom type |
| Dftb.SpinBlockEntries | spycci/engines/dftbplus.py:238-243 | spin-constant entry `i` holds the constants of atom type `i` |
| Dftb.SpinEntriesOnly | spycci/engines/dftbplus.py:238-243 | the spin loop writes spin-constant entries only |
| Dftb.AngularEntriesOnly | spycci/engines/dftbplus.py:258-259 | the angular-momentum loop writes angular-momentum entries only |
| Dftb.HubbardEntriesOnly | spycci/engines/dftbplus.py:265-266 | the Hubbard loop writes Hubbard derivatives only |
| Dftb.DftbBranchSucceeds | spycci/engines/dftbplus.py:246-277 | the DFTB Hamiltonian is written exactly when every atom type has an angular momentum and, under the third order, a Hubbard derivative |
| Dftb.ThirdOrderShape | spycci/engines/dftbplus.py:263-267 | the third-order blocks are the Hubbard derivatives between their opening and the hydrogen correction, or nothing |
| Dftb.DftbBranchSwitches | spycci/engines/dftbplus.py:261-276 | k-points only for periodic systems, dispersion only with `dispersion`, the third-order blocks only with `thirdorder` |
| Dftb.HubbardOnlyWithThirdOrder | spycci/engines/dftbplus.py:263-267 | a Hubbard derivative in the DFTB Hamiltonian implies the third order |
| Dftb.DftbAngularMomenta | spycci/engines/dftbplus.py:247-259 | after the optional solver and the Slater-Koster files under the parameter directory, the angular momentum of each atom type from the element table, in order |
| Dftb.XtbBranch | spycci/engines/dftbplus.py:279-286 | the xTB Hamiltonian names GFN2-xTB, has k-points only for periodic systems and is closed |
| Dftb.HamiltonianClosedOnlyForKnownMethods | spycci/engines/dftbplus.py:224-286 | the Hamiltonian opened for every method is closed exactly for "DFTB" and "xTB" |
| Dftb.EnergyLines | spycci/engines/dftbplus.py:732-736 | the energy loop changes only the electronic energy and fails only with a malformed line |
| Dftb.Parse | spycci/engines/dftbplus.py:704-736 | a missing file and a log with an error line fail and change nothing; otherwise only the electronic energy changes |
| Dftb.EnergyFailureStays | spycci/engines/dftbplus.py:732-736 | once a line fails to decode, later lines change nothing |
| Dftb.ReadTotalEnergies | spycci/engines/dftbplus.py:732-736 | the loop leaves the outcome and properties of the energy-loop specification |
| Dftb.ParseOutput | spycci/engines/dftbplus.py:704-736 | `parse_output` leaves the outcome and properties of the parse specification |
| Dftb.LastTotalEnergyWins | spycci/engines/dftbplus.py:732-736 | when every energy line decodes, the electronic energy is that of the last `Total Energy` line, or the earlier value without one |
| Dftb.MalformedEnergyLineRaises | spycci/engines/dftbplus.py:732-736 | a marked line that does not decode raises, with the energy of the last marked line before it kept |
| Dftb.ParseReadsLastTotalEnergy | spycci/engines/dftbplus.py:721-736 | a log without error lines whose energy lines decode parses, giving the third token of the last `Total Energy` line |
| Dftb.ThirdToken | spycci/engines/dftbplus.py:735 | specification of `float(line.split()[2])` |

## Left out

- Process and file-system plumbing is not modelled. This covers the `mpirun`/`orca`/`dftb+` commands, temporary directories, `process_output`, `OMP_NUM_THREADS`, and writing the `.xyz` and `.gen` files.
- The calculation drivers (`spe`, `opt`, `freq`, `nfreq`, `scan`, `scan_ts`, `neb_ci`, `neb_ts`, `cosmors`, the DFTB+ dynamics) are not modelled as a whole. They run the program, so only the decisions inside them are modelled: the NEB end-point checks, the scan-energy reader and the COSMO-RS solvent precedence.
- The files the program reads are parameters: whether `output.out` exists and its lines, the species line of the DFTB+ `.gen` file, and the scan log.
- The available cores (`get_ncores`) and the DFTB+ parameter directory found at start-up are parameters.
- `clean_suffix`, `find_orca_version`, `System`, `Ensemble` and `VibrationalData` are not part of this model. The property set is modelled as far as the parsers write to it: its setters and the Gibbs free energy it reports.
- Numbers are exact reals. Floating-point rounding is not modelled, and neither are `numpy` arrays.
- `np.isclose` is the inequality `|a - b| <= 1e-8 + 1e-9 * |b|`, evaluated exactly.
- `float(...)` and `int(...)` read the decimal forms found in the logs: a sign, digits and an optional fraction. Exponents, `inf`, `nan` and underscores are rejected here although Python accepts them, so logs holding them are outside the model.
- Values written into input files, such as temperatures, Hubbard derivatives, time steps and `%block` values, are held as the text `str(...)` gives them. How Python formats a float is not modelled.
- Logging and warnings are not modelled. The exceptions they accompany are.
- The trajectory compression and the random file suffixes of the DFTB+ dynamics are not modelled.
- LegacyOrca.WriteInput: the text it returns carries the corrected SCF separator (a space after the convergence level), not the `""` of `compechem/engines/orca.py:227`. The text exactly as written is `LegacyOrca.AsWrittenInputText`, and `LegacyOrca.AsWrittenInputDiffersInScfLine` proves that the two differ only in that line.
- OrcaInput.NewEngine: the engine's own `blocks` (passed on to jobs by the drivers) and `ORCADIR` are not stored. The drivers that read them are not modelled, and the ORCA directory is file-system plumbing.
- LegacyOrca.NewEngine: `ORCADIR` is not stored, as it only locates the program.
- Dftb.DftbInput.constructor: `parallel`, `verbose` and `DFTBPATH` are not modelled. They only choose how the program is run and where its output goes.
- Dftb.DftbInput.WriteInput: `job_info` is a record of typed fields, so a missing key (a `KeyError` in Python) cannot occur. Only the element-table lookups can raise.
- The `*_block` getters of `OrcaJobInfo` update `user_blocks` in place. The dictionary object is not shared with the caller, so aliasing through a reference the caller still holds is not modelled.
- Text is `seq<char>` with ASCII case folding. Unicode case mapping in `str.upper()`/`str.lower()` is not modelled.

## Findings

| source | as written | input that shows it | evidently intended | confidence | as-written member | corrected member |
|---|---|---|---|---|---|---|
| compechem/engines/orca.py:222-232 | the SCF convergence level is followed by `""`, so a level and a strategy are written as one word | level `TIGHTSCF` with strategy `SLOWCONV` writes `! TIGHTSCFSLOWCONV `, one keyword instead of the two requested | a space after the level, as after the strategy: `! TIGHTSCF SLOWCONV ` | not executed | LegacyOrca.AsWrittenScfLineJoinsWords | LegacyOrca.ScfLineText |
| compechem/engines/orca.py:771-819 | the Mulliken reader has no guard for zero sections: with no header, `counter == sections` holds on the first line and the reader takes the top of the file as a table | a normally terminated log with no `MULLIKEN ATOMIC CHARGES` header and no end-of-table line: the reader never meets the end of its table and stops the parse with an error | no Mulliken populations for such a log, as the current package's reader gives (`spycci/engines/orca.py:1939`) | not executed | LegacyOrca.AsWrittenParseFailsWithoutMulliken | LegacyOrca.ParseSkipsMissingMulliken |
