/** The ORCA engine of the current package (`OrcaInput`): its settings and output suffix, the
    input file `write_input` produces for a job description, the pre-flight checks of the two NEB
    drivers and the solvent precedence of the COSMO-RS driver. */
module OrcaInput {
  import opened Wrappers
  import opened PyStr
  import opened PyDict
  import opened Errors
  import opened Systems
  import opened OrcaJob

  // ---------------------------------------------------------------------------------------------
  // The engine
  // ---------------------------------------------------------------------------------------------

  /** The settings of an `OrcaInput` engine that its input files read. */
  datatype Engine = Engine(
    methodName: string,
    basisSet: string,
    auxBasis: string,
    solvent: Option<string>,
    optionals: string)

  /** The constructor: a missing or empty basis set or auxiliary basis is stored as "". */
  function NewEngine(methodName: string := "PBE", basisSet: Option<string> := Some("def2-TZVP"),
                     auxBasis: Option<string> := Some("def2/J"), solvent: Option<string> := None,
                     optionals: string := ""): (e: Engine)
    ensures Truthy(basisSet) ==> e.basisSet == basisSet.value
    ensures !Truthy(basisSet) ==> e.basisSet == ""
    ensures Truthy(auxBasis) ==> e.auxBasis == auxBasis.value
    ensures !Truthy(auxBasis) ==> e.auxBasis == ""
    ensures e.methodName == methodName && e.solvent == solvent && e.optionals == optionals
  {
    Engine(methodName, if Truthy(basisSet) then basisSet.value else "",
           if Truthy(auxBasis) then auxBasis.value else "", solvent, optionals)
  }

  /** The engine built with every default: PBE/def2-TZVP with the def2/J auxiliary basis, in
      vacuum, whose outputs carry the suffix `orca_PBE_def2-TZVP_vacuum`. */
  lemma DefaultEngine()
    ensures NewEngine() == Engine("PBE", "def2-TZVP", "def2/J", None, "")
    ensures OutputSuffix("PBE", Some("def2-TZVP"), None) == "orca_PBE_def2-TZVP_vacuum"
  {
  }

  /** The output suffix before `clean_suffix`: `orca_<method>`, then `_<basis>` when a basis set
      is given, then `_<solvent>` or `_vacuum`. */
  function OutputSuffix(methodName: string, basisSet: Option<string>, solvent: Option<string>): string {
    "orca_" + methodName
    + (if Truthy(basisSet) then "_" + basisSet.value else "")
    + (if Truthy(solvent) then "_" + solvent.value else "_vacuum")
  }

  /** The suffix names the method first and the medium last: the solvent when one is given,
      `vacuum` otherwise. */
  lemma OutputSuffixShape(methodName: string, basisSet: Option<string>, solvent: Option<string>)
    ensures IsPrefix("orca_" + methodName, OutputSuffix(methodName, basisSet, solvent))
    ensures Truthy(solvent) ==> EndsWith(OutputSuffix(methodName, basisSet, solvent), "_" + solvent.value)
    ensures !Truthy(solvent) ==> EndsWith(OutputSuffix(methodName, basisSet, solvent), "_vacuum")
    ensures |OutputSuffix(methodName, basisSet, solvent)| ==
      5 + |methodName| + (if Truthy(basisSet) then 1 + |basisSet.value| else 0)
      + (if Truthy(solvent) then 1 + |solvent.value| else 7)
  {
    var head := "orca_" + methodName;
    var basis := if Truthy(basisSet) then "_" + basisSet.value else "";
    var tail := if Truthy(solvent) then "_" + solvent.value else "_vacuum";
    assert OutputSuffix(methodName, basisSet, solvent) == head + (basis + tail);
    assert (head + (basis + tail))[..|head|] == head;
  }

  // ---------------------------------------------------------------------------------------------
  // The directive lines of an input file
  // ---------------------------------------------------------------------------------------------

  /** The four closed-vocabulary levels of a job description. */
  datatype Levels = Levels(
    printLevel: Option<string>,
    optimizationLevel: Option<string>,
    scfConvergenceLevel: Option<string>,
    scfConvergenceStrategy: Option<string>)

  function LevelsOf(job: OrcaJobInfo): Levels
    reads job`printLevel, job`optimizationLevel, job`scfConvergenceLevel, job`scfConvergenceStrategy
  {
    Levels(job.printLevel, job.optimizationLevel, job.scfConvergenceLevel, job.scfConvergenceStrategy)
  }

  /** Levels as the setters leave them: each one absent or listed in its vocabulary. */
  predicate ValidLevels(lv: Levels) {
    && (lv.printLevel.Some? ==> lv.printLevel.value in PrintLevels)
    && (lv.optimizationLevel.Some? ==> lv.optimizationLevel.value in OptimizationLevels)
    && (lv.scfConvergenceLevel.Some? ==> lv.scfConvergenceLevel.value in ScfConvergenceLevels)
    && (lv.scfConvergenceStrategy.Some? ==> lv.scfConvergenceStrategy.value in ScfConvergenceStrategies)
  }

  /** One `!` line of the input file (the RIJCOSX and print-level lines are followed by a blank
      line). */
  datatype Directive =
    | MethodLine(methodName: string, basisSet: string, optionals: string)
    | Rijcosx(auxBasis: string)
    | ScfLine(level: Option<string>, strategy: Option<string>)
    | PrintLine(printLevel: string)
    | JobLine(keyword: string)
  {
    /** The `+=` operands that write the line. */
    function Pieces(): seq<string> {
      match this
      case MethodLine(m, b, o) => ["! " + m + " " + b + " " + o + "\n"]
      case Rijcosx(aux) => ["! RIJCOSX " + aux + "\n\n"]
      case ScfLine(level, strategy) => ["! "] + Word(level) + Word(strategy) + ["\n"]
      case PrintLine(p) => ["! " + p + "\n\n"]
      case JobLine(k) => ["! " + k + "\n"]
    }
  }

  /** A level of the SCF line and the space after it, when it is set. */
  function Word(o: Option<string>): seq<string> {
    if o.Some? then [o.value, " "] else []
  }

  function DirectivePieces(d: Directive): seq<string> {
    d.Pieces()
  }

  /** The method line and the RIJCOSX line, written only when the COSMO-RS block is empty. */
  function MethodDirectives(e: Engine, cosmorsEmpty: bool): seq<Directive> {
    if cosmorsEmpty then
      [MethodLine(e.methodName, e.basisSet, e.optionals)] + (if e.auxBasis != "" then [Rijcosx(e.auxBasis)] else [])
    else []
  }

  function ScfDirectives(lv: Levels): seq<Directive> {
    if lv.scfConvergenceStrategy.Some? || lv.scfConvergenceLevel.Some? then
      [ScfLine(lv.scfConvergenceLevel, lv.scfConvergenceStrategy)]
    else []
  }

  function PrintDirectives(lv: Levels): seq<Directive> {
    if lv.printLevel.Some? then [PrintLine(lv.printLevel.value)] else []
  }

  /** `[word]` when `flag` is set: one conditional calculation keyword. */
  function Keyword(flag: bool, word: string): seq<string> {
    if flag then [word] else []
  }

  /** The calculation keywords, in the order the input file lists them. */
  function JobKeywords(s: JobSettings, optimizationLevel: Option<string>): seq<string> {
    Keyword(s.opt, optimizationLevel.GetOr("Opt")) + Keyword(s.scan.Some?, "Opt") + Keyword(s.optTs, "OptTS")
    + Keyword(s.scanTs.Some?, "ScanTS") + Keyword(s.freq, "Freq") + Keyword(s.nfreq, "NumFreq")
    + Keyword(s.nearir, "NearIR") + Keyword(s.nebCi, "NEB-CI") + Keyword(s.nebTs, "NEB-TS")
  }

  /** One `! <keyword>` line per keyword. */
  function JobDirectives(keywords: seq<string>): seq<Directive> {
    seq(|keywords|, i requires 0 <= i < |keywords| => JobLine(keywords[i]))
  }

  lemma JobDirectivesAppend(ks: seq<string>, more: seq<string>)
    ensures JobDirectives(ks + more) == JobDirectives(ks) + JobDirectives(more)
  {
    assert forall i :: 0 <= i < |ks + more| ==> JobDirectives(ks + more)[i] == (JobDirectives(ks) + JobDirectives(more))[i];
  }

  /** A keyword line is written exactly for the keywords listed, and only keyword lines are. */
  lemma JobLineIn(ks: seq<string>, d: Directive)
    ensures d in JobDirectives(ks) <==> d.JobLine? && d.keyword in ks
  {
    if d.JobLine? && d.keyword in ks {
      var i :| 0 <= i < |ks| && ks[i] == d.keyword;
      assert JobDirectives(ks)[i] == d;
    }
  }

  /** The `!` lines of an input file, in order. */
  function Directives(e: Engine, cosmorsEmpty: bool, lv: Levels, s: JobSettings): seq<Directive> {
    MethodDirectives(e, cosmorsEmpty) + ScfDirectives(lv) + PrintDirectives(lv)
    + JobDirectives(JobKeywords(s, lv.optimizationLevel))
  }

  /** The switch `write_input` makes before the calculation keywords: an optimisation with
      analytical frequencies in an engine solvent asks for numerical frequencies instead. */
  function Downgrade(s: JobSettings, engineSolvent: Option<string>): JobSettings {
    if (s.opt || s.optTs) && s.freq && engineSolvent.Some? then s.(freq := false, nfreq := true) else s
  }

  /** The switch never drops a frequency request and leaves no analytical frequencies in a
      solvated optimisation. */
  lemma DowngradeKeepsFrequencies(s: JobSettings, engineSolvent: Option<string>)
    ensures (Downgrade(s, engineSolvent).freq || Downgrade(s, engineSolvent).nfreq) == (s.freq || s.nfreq)
    ensures !((Downgrade(s, engineSolvent).opt || Downgrade(s, engineSolvent).optTs)
              && Downgrade(s, engineSolvent).freq && engineSolvent.Some?)
  {
    if (s.opt || s.optTs) && s.freq && engineSolvent.Some? {
      assert Downgrade(s, engineSolvent) == s.(freq := false, nfreq := true);
    }
  }

  /** The switch is idempotent and changes only the two frequency flags. */
  lemma DowngradeOnlyFrequencies(s: JobSettings, engineSolvent: Option<string>)
    ensures Downgrade(Downgrade(s, engineSolvent), engineSolvent) == Downgrade(s, engineSolvent)
    ensures !((s.opt || s.optTs) && s.freq && engineSolvent.Some?) ==> Downgrade(s, engineSolvent) == s
  {
    if (s.opt || s.optTs) && s.freq && engineSolvent.Some? {
      var d := s.(freq := false, nfreq := true);
      assert Downgrade(s, engineSolvent) == d;
      assert !d.freq;
    }
  }

  // ---------------------------------------------------------------------------------------------
  // The input file
  // ---------------------------------------------------------------------------------------------

  function Header(ncores: int, maxcore: int): string {
    "%pal\n" + "  nprocs " + IntToString(ncores) + "\n" + "end\n\n" + "%maxcore " + IntToString(maxcore) + "\n\n"
  }

  function Footer(mol: System): string {
    "* xyzfile " + IntToString(mol.charge) + " " + IntToString(mol.spin) + " " + mol.name + ".xyz\n\n"
  }

  /** One line of a nested entry: `    <subkey> <subvalue>`. */
  function SubEntryPieces(sub: (string, string)): seq<string> {
    ["    " + sub.0 + " " + sub.1 + "\n"]
  }

  /** One entry of a block: a text value on the key's line, a nested dictionary as a sub-block. */
  function EntryPieces(entry: (string, Entry)): seq<string> {
    match entry.1
    case Text(t) => ["  " + entry.0 + " " + t + "\n"]
    case Nested(d) => ["  " + entry.0 + "\n"] + Flatten(d, SubEntryPieces) + ["  end\n"]
  }

  function BlockPieces(block: (string, Block)): seq<string> {
    ["%" + block.0 + "\n"] + Flatten(block.1, EntryPieces) + ["end\n\n"]
  }

  /** The directives of the input file for a job whose user blocks are `ub` and whose flags
      were `s` when `write_input` was called. */
  function InputDirectives(e: Engine, ub: Blocks, lv: Levels, s: JobSettings): seq<Directive> {
    Directives(e, UserBlock(ub, "cosmors") == [], lv, Downgrade(s, e.solvent))
  }

  /** The `+=` operands of `input.inp`: resources, the directives, a blank line, the parsed
      blocks and the coordinates line. */
  function InputPieces(e: Engine, mol: System, ncores: int, maxcore: int, ub: Blocks, lv: Levels,
                       s: JobSettings): seq<string>
  {
    [Header(ncores, maxcore)] + Flatten(InputDirectives(e, ub, lv, s), DirectivePieces) + ["\n"]
    + Flatten(ParsedBlocksOf(ub, Downgrade(s, e.solvent)), BlockPieces) + [Footer(mol)]
  }

  function InputText(e: Engine, mol: System, ncores: int, maxcore: int, ub: Blocks, lv: Levels,
                     s: JobSettings): string
  {
    Concat(InputPieces(e, mol, ncores, maxcore, ub, lv, s))
  }

  // The text `write_input` builds with `input += ...` is held as the sequence of its operands,
  // `written`, and joined once at the end: `Concat(written)` is the text at every step.

  /** The sub-entries loop of `write_input`. */
  method AppendSubEntries(written: seq<string>, d: Dict<string>) returns (written': seq<string>)
    ensures written' == written + Flatten(d, SubEntryPieces)
  {
    written' := written;
    for k := 0 to |d|
      invariant written' == written + Flatten(d[..k], SubEntryPieces)
    {
      var (subkey, subvalue) := d[k];
      FlattenPrefix(d, k, SubEntryPieces);
      written' := written' + ["    " + subkey + " " + subvalue + "\n"];
    }
    assert d[..|d|] == d;
  }

  /** The entries loop of `write_input`, over one block. */
  method AppendEntries(written: seq<string>, block: Block) returns (written': seq<string>)
    ensures written' == written + Flatten(block, EntryPieces)
  {
    written' := written;
    for j := 0 to |block|
      invariant written' == written + Flatten(block[..j], EntryPieces)
    {
      var (key, entry) := block[j];
      FlattenPrefix(block, j, EntryPieces);
      ghost var before := written';
      match entry
      case Nested(d) =>
        written' := written' + ["  " + key + "\n"];
        written' := AppendSubEntries(written', d);
        written' := written' + ["  end\n"];
      case Text(t) =>
        written' := written' + ["  " + key + " " + t + "\n"];
      assert written' == before + EntryPieces(block[j]);
    }
    assert block[..|block|] == block;
  }

  /** The blocks loop of `write_input`. */
  method AppendBlocks(written: seq<string>, blocks: Blocks) returns (written': seq<string>)
    ensures written' == written + Flatten(blocks, BlockPieces)
  {
    written' := written;
    for i := 0 to |blocks|
      invariant written' == written + Flatten(blocks[..i], BlockPieces)
    {
      var (name, block) := blocks[i];
      FlattenPrefix(blocks, i, BlockPieces);
      ghost var before := written';
      written' := written' + ["%" + name + "\n"];
      written' := AppendEntries(written', block);
      written' := written' + ["end\n\n"];
      assert written' == before + BlockPieces(blocks[i]);
    }
    assert blocks[..|blocks|] == blocks;
  }

  /** `input += o.value; input += " "` when the level `o` is set. */
  method AppendWord(written: seq<string>, o: Option<string>) returns (written': seq<string>)
    ensures written' == written + Word(o)
  {
    written' := written;
    if o.Some? {
      written' := written' + [o.value];
      written' := written' + [" "];
    }
  }

  /** The method line and the RIJCOSX line of `write_input`. */
  method MethodLines(written: seq<string>, e: Engine, cosmorsEmpty: bool) returns (written': seq<string>)
    ensures written' == written + Flatten(MethodDirectives(e, cosmorsEmpty), DirectivePieces)
  {
    written' := written;
    if cosmorsEmpty {
      var m := MethodLine(e.methodName, e.basisSet, e.optionals);
      FlattenOne(m, DirectivePieces);
      written' := written' + ["! " + e.methodName + " " + e.basisSet + " " + e.optionals + "\n"];
      if e.auxBasis != "" {
        FlattenSnoc([m], Rijcosx(e.auxBasis), DirectivePieces);
        written' := written' + ["! RIJCOSX " + e.auxBasis + "\n\n"];
      }
    }
  }

  /** The SCF line of `write_input`. */
  method ScfLines(written: seq<string>, lv: Levels) returns (written': seq<string>)
    ensures written' == written + Flatten(ScfDirectives(lv), DirectivePieces)
  {
    written' := written;
    if lv.scfConvergenceStrategy.Some? || lv.scfConvergenceLevel.Some? {
      FlattenOne(ScfLine(lv.scfConvergenceLevel, lv.scfConvergenceStrategy), DirectivePieces);
      written' := written' + ["! "];
      written' := AppendWord(written', lv.scfConvergenceLevel);
      written' := AppendWord(written', lv.scfConvergenceStrategy);
      written' := written' + ["\n"];
    }
  }

  /** The print-level line of `write_input`. */
  method PrintLines(written: seq<string>, lv: Levels) returns (written': seq<string>)
    ensures written' == written + Flatten(PrintDirectives(lv), DirectivePieces)
  {
    written' := written;
    if lv.printLevel.Some? {
      FlattenOne(PrintLine(lv.printLevel.value), DirectivePieces);
      written' := written' + ["! " + lv.printLevel.value + "\n\n"];
    }
  }

  /** The frequency switch of `write_input`. */
  method SwitchFrequencies(job: OrcaJobInfo, engineSolvent: Option<string>)
    modifies job`freq, job`nfreq
    ensures job.Settings() == Downgrade(old(job.Settings()), engineSolvent)
  {
    if (job.opt || job.optTs) && job.freq && engineSolvent.Some? {
      job.freq := false;
      job.nfreq := true;
    }
  }

  /** One `if` of the calculation keywords: `input += "! " + word + "\n"` when `flag` is set. */
  method AppendKeyword(written: seq<string>, flag: bool, word: string) returns (written': seq<string>)
    ensures written' == written + Flatten(JobDirectives(Keyword(flag, word)), DirectivePieces)
  {
    written' := written;
    if flag {
      assert JobDirectives([word]) == [JobLine(word)];
      FlattenOne(JobLine(word), DirectivePieces);
      written' := written' + ["! " + word + "\n"];
    }
  }

  /** The keyword lines written so far are those of `ks`, and `word` comes next when `flag` is set. */
  lemma KeywordStep(before: seq<string>, ks: seq<string>, flag: bool, word: string)
    ensures before + Flatten(JobDirectives(ks), DirectivePieces) + Flatten(JobDirectives(Keyword(flag, word)), DirectivePieces)
            == before + Flatten(JobDirectives(ks + Keyword(flag, word)), DirectivePieces)
  {
    JobDirectivesAppend(ks, Keyword(flag, word));
    FlattenAppend(JobDirectives(ks), JobDirectives(Keyword(flag, word)), DirectivePieces);
  }

  /** A keyword `if` after the keyword lines of `ks`. */
  method NextKeyword(written: seq<string>, ghost before: seq<string>, ghost ks: seq<string>, flag: bool, word: string)
    returns (written': seq<string>)
    requires written == before + Flatten(JobDirectives(ks), DirectivePieces)
    ensures written' == before + Flatten(JobDirectives(ks + Keyword(flag, word)), DirectivePieces)
  {
    written' := AppendKeyword(written, flag, word);
    KeywordStep(before, ks, flag, word);
  }

  /** The calculation keyword lines of `write_input`, for the flags `s` as switched. */
  method KeywordLines(written: seq<string>, s: JobSettings, optimizationLevel: Option<string>)
    returns (written': seq<string>)
    ensures written' == written + Flatten(JobDirectives(JobKeywords(s, optimizationLevel)), DirectivePieces)
  {
    var k := optimizationLevel.GetOr("Opt");
    written' := AppendKeyword(written, s.opt, k);
    ghost var ks := Keyword(s.opt, k);
    written' := NextKeyword(written', written, ks, s.scan.Some?, "Opt");
    ks := ks + Keyword(s.scan.Some?, "Opt");
    written' := NextKeyword(written', written, ks, s.optTs, "OptTS");
    ks := ks + Keyword(s.optTs, "OptTS");
    written' := NextKeyword(written', written, ks, s.scanTs.Some?, "ScanTS");
    ks := ks + Keyword(s.scanTs.Some?, "ScanTS");
    written' := NextKeyword(written', written, ks, s.freq, "Freq");
    ks := ks + Keyword(s.freq, "Freq");
    written' := NextKeyword(written', written, ks, s.nfreq, "NumFreq");
    ks := ks + Keyword(s.nfreq, "NumFreq");
    written' := NextKeyword(written', written, ks, s.nearir, "NearIR");
    ks := ks + Keyword(s.nearir, "NearIR");
    written' := NextKeyword(written', written, ks, s.nebCi, "NEB-CI");
    ks := ks + Keyword(s.nebCi, "NEB-CI");
    written' := NextKeyword(written', written, ks, s.nebTs, "NEB-TS");
  }

  /** The block section of `write_input`: `parsed_blocks` is asked whether it is empty and,
      when it is not, asked again for the blocks it writes. */
  method BlockLines(written: seq<string>, job: OrcaJobInfo) returns (written': seq<string>)
    requires job.Valid()
    modifies job`userBlocks
    ensures written' == written + Flatten(ParsedBlocksOf(old(job.userBlocks), job.Settings()), BlockPieces)
    ensures job.userBlocks == Refreshed(old(job.userBlocks), job.Settings(), |LibraryOrder|)
    ensures job.Valid() && job.Settings() == old(job.Settings())
  {
    ghost var ub := job.userBlocks;
    written' := written;
    var parsed := job.ParsedBlocks();
    if parsed != [] {
      ParsedBlocksIdempotent(ub, job.Settings());
      var blocks := job.ParsedBlocks();
      written' := AppendBlocks(written', blocks);
    } else {
      assert written' == written + Flatten(parsed, BlockPieces);
    }
  }

  /** `write_input`: the text of `input.inp` for `mol` and `job`. The job is left with its
      frequency flags switched as `Downgrade` says and with its user blocks refreshed by the
      block getters that `parsed_blocks` runs. */
  method WriteInput(e: Engine, mol: System, job: OrcaJobInfo) returns (text: string)
    requires job.Valid()
    modifies job`freq, job`nfreq, job`userBlocks
    ensures text == old(InputText(e, mol, job.ncores, job.maxcore, job.userBlocks, LevelsOf(job), job.Settings()))
    ensures job.Settings() == Downgrade(old(job.Settings()), e.solvent)
    ensures job.userBlocks == Refreshed(old(job.userBlocks), job.Settings(), |LibraryOrder|)
    ensures job.Valid()
  {
    ghost var ub, s0 := job.userBlocks, job.Settings();
    var ncores, maxcore, lv := job.ncores, job.maxcore, LevelsOf(job);
    var cosmorsEmpty := job.CosmorsBlock() == [];
    var written := [Header(ncores, maxcore)];
    written := MethodLines(written, e, cosmorsEmpty);
    written := ScfLines(written, lv);
    written := PrintLines(written, lv);
    SwitchFrequencies(job, e.solvent);
    var s := job.Settings();
    written := KeywordLines(written, s, lv.optimizationLevel);
    written := written + ["\n"];
    written := BlockLines(written, job);
    written := written + ["* xyzfile " + IntToString(mol.charge) + " " + IntToString(mol.spin) + " " + mol.name + ".xyz\n\n"];
    assert job.Settings() == s == Downgrade(s0, e.solvent);
    InputPiecesShape(e, mol, ncores, maxcore, ub, lv, s0);
    text := Concat(written);
  }

  lemma Assoc(a: seq<string>, b: seq<string>, c: seq<string>, d: seq<string>, e: seq<string>)
    ensures a + (b + c + d + e) == a + b + c + d + e
  {
  }

  /** The operands of the input file, grouped as `write_input` appends them. */
  lemma InputPiecesShape(e: Engine, mol: System, ncores: int, maxcore: int, ub: Blocks, lv: Levels, s: JobSettings)
    ensures InputPieces(e, mol, ncores, maxcore, ub, lv, s)
      == [Header(ncores, maxcore)]
         + Flatten(MethodDirectives(e, UserBlock(ub, "cosmors") == []), DirectivePieces)
         + Flatten(ScfDirectives(lv), DirectivePieces) + Flatten(PrintDirectives(lv), DirectivePieces)
         + Flatten(JobDirectives(JobKeywords(Downgrade(s, e.solvent), lv.optimizationLevel)), DirectivePieces)
         + ["\n"] + Flatten(ParsedBlocksOf(ub, Downgrade(s, e.solvent)), BlockPieces) + [Footer(mol)]
  {
    var m := MethodDirectives(e, UserBlock(ub, "cosmors") == []);
    var sc := ScfDirectives(lv);
    var pr := PrintDirectives(lv);
    var jd := JobDirectives(JobKeywords(Downgrade(s, e.solvent), lv.optimizationLevel));
    FlattenAppend(m + sc + pr, jd, DirectivePieces);
    FlattenAppend(m + sc, pr, DirectivePieces);
    FlattenAppend(m, sc, DirectivePieces);
    Assoc([Header(ncores, maxcore)], Flatten(m, DirectivePieces), Flatten(sc, DirectivePieces),
          Flatten(pr, DirectivePieces), Flatten(jd, DirectivePieces));
  }

  // ---------------------------------------------------------------------------------------------
  // What the input file says
  // ---------------------------------------------------------------------------------------------

  /** Text written as a first operand, three runs of operands and a last operand opens with the
      first and closes with the last. */
  lemma FramedConcat(first: string, a: seq<string>, b: seq<string>, c: seq<string>, last: string)
    ensures IsPrefix(first, Concat([first] + a + b + c + [last]))
    ensures EndsWith(Concat([first] + a + b + c + [last]), last)
  {
    var middle := a + b + c;
    assert [first] + a + b + c + [last] == [first] + middle + [last];
    ConcatAppend([first] + middle, [last]);
    ConcatAppend([first], middle);
    assert Concat([first]) == first by { assert [first][..0] == []; }
    assert Concat([last]) == last by { assert [last][..0] == []; }
    var t := first + Concat(middle) + last;
    assert t[..|first|] == first;
    assert t[|t| - |last|..] == last;
  }

  /** The file opens with the resources and closes with the coordinates line. */
  lemma InputFrame(e: Engine, mol: System, ncores: int, maxcore: int, ub: Blocks, lv: Levels, s: JobSettings)
    ensures IsPrefix(Header(ncores, maxcore), InputText(e, mol, ncores, maxcore, ub, lv, s))
    ensures EndsWith(InputText(e, mol, ncores, maxcore, ub, lv, s), Footer(mol))
  {
    FramedConcat(Header(ncores, maxcore), Flatten(InputDirectives(e, ub, lv, s), DirectivePieces), ["\n"],
                 Flatten(ParsedBlocksOf(ub, Downgrade(s, e.solvent)), BlockPieces), Footer(mol));
  }

  /** The method line, and with it the RIJCOSX line, is written exactly when the job has no
      COSMO-RS block; the method line is then the first directive. */
  lemma MethodLineIffNoCosmors(e: Engine, ub: Blocks, lv: Levels, s: JobSettings)
    ensures var ds := InputDirectives(e, ub, lv, s);
      MethodLine(e.methodName, e.basisSet, e.optionals) in ds <==> UserBlock(ub, "cosmors") == []
    ensures var ds := InputDirectives(e, ub, lv, s);
      UserBlock(ub, "cosmors") == [] ==> ds[0] == MethodLine(e.methodName, e.basisSet, e.optionals)
    ensures var ds := InputDirectives(e, ub, lv, s);
      Rijcosx(e.auxBasis) in ds <==> UserBlock(ub, "cosmors") == [] && e.auxBasis != ""
  {
    var ks := JobKeywords(Downgrade(s, e.solvent), lv.optimizationLevel);
    JobLineIn(ks, MethodLine(e.methodName, e.basisSet, e.optionals));
    JobLineIn(ks, Rijcosx(e.auxBasis));
  }

  /** A solvated optimisation with analytical frequencies is written with numerical
      frequencies: `NumFreq` is requested and `Freq` is not. */
  lemma SolventSwitchesToNumFreq(e: Engine, ub: Blocks, lv: Levels, s: JobSettings)
    requires ValidLevels(lv)
    requires (s.opt || s.optTs) && s.freq && e.solvent.Some?
    ensures JobLine("NumFreq") in InputDirectives(e, ub, lv, s)
    ensures JobLine("Freq") !in InputDirectives(e, ub, lv, s)
  {
    var ks := JobKeywords(Downgrade(s, e.solvent), lv.optimizationLevel);
    assert "NumFreq" in ks;
    assert "Freq" !in ks;
    JobLineIn(ks, JobLine("NumFreq"));
    JobLineIn(ks, JobLine("Freq"));
  }

  /** Without that combination, a frequency request is written as analytical frequencies. */
  lemma FreqKeptOtherwise(e: Engine, ub: Blocks, lv: Levels, s: JobSettings)
    requires s.freq && !((s.opt || s.optTs) && e.solvent.Some?)
    ensures JobLine("Freq") in InputDirectives(e, ub, lv, s)
  {
    var ks := JobKeywords(Downgrade(s, e.solvent), lv.optimizationLevel);
    assert "Freq" in ks;
    JobLineIn(ks, JobLine("Freq"));
  }

  // ---------------------------------------------------------------------------------------------
  // The NEB pre-flight checks
  // ---------------------------------------------------------------------------------------------

  /** The three checks of the reactant against another end point, in program order; `role`
      names the other end point in the messages ("product" or "TS guess"). */
  function EndpointCheck(reactant: System, other: System, role: string): (r: Outcome<Error>)
    ensures r.Pass? <==> Compatible(reactant, other)
  {
    if reactant.name == other.name then
      Fail(IncompatibleSystems("Reactant and " + role + " must have different names"))
    else if reactant.spin != other.spin then
      Fail(IncompatibleSystems("Reactant and " + role + " must have the same spin multiplicity"))
    else if reactant.charge != other.charge then
      Fail(IncompatibleSystems("Reactant and " + role + " must have the same charge"))
    else Pass
  }

  /** `neb_ci`: the reactant and product checks. */
  function NebCiCheck(reactant: System, product: System): (r: Outcome<Error>)
    ensures r.Pass? <==> Compatible(reactant, product)
  {
    EndpointCheck(reactant, product, "product")
  }

  /** `neb_ts`: the transition-state guess, when given, is checked against the reactant before
      the product is. */
  function NebTsCheck(reactant: System, product: System, guess: Option<System>): (r: Outcome<Error>)
    ensures r.Pass? <==> Compatible(reactant, product) && (guess.Some? ==> Compatible(reactant, guess.value))
  {
    if guess.Some? && EndpointCheck(reactant, guess.value, "TS guess").Fail? then
      EndpointCheck(reactant, guess.value, "TS guess")
    else NebCiCheck(reactant, product)
  }

  /** The conditions are examined in turn and the first failing one decides: names before spin before charge. */
  lemma EndpointCheckOrder(reactant: System, other: System, role: string)
    ensures reactant.name == other.name ==>
      EndpointCheck(reactant, other, role) == Fail(IncompatibleSystems("Reactant and " + role + " must have different names"))
    ensures reactant.name != other.name && reactant.spin != other.spin ==>
      EndpointCheck(reactant, other, role) == Fail(IncompatibleSystems("Reactant and " + role + " must have the same spin multiplicity"))
    ensures reactant.name != other.name && reactant.spin == other.spin && reactant.charge != other.charge ==>
      EndpointCheck(reactant, other, role) == Fail(IncompatibleSystems("Reactant and " + role + " must have the same charge"))
  {
  }

  /** Without a guess, `neb_ts` checks exactly what `neb_ci` checks; with a guess that fails a
      check, the guess's failure is reported whatever the product is. */
  lemma NebTsAgreesWithNebCi(reactant: System, product: System, guess: Option<System>)
    ensures NebTsCheck(reactant, product, None) == NebCiCheck(reactant, product)
    ensures guess.Some? && !Compatible(reactant, guess.value) ==>
      NebTsCheck(reactant, product, guess) == EndpointCheck(reactant, guess.value, "TS guess")
    ensures guess.Some? && Compatible(reactant, guess.value) ==>
      NebTsCheck(reactant, product, guess) == NebCiCheck(reactant, product)
  {
  }

  // ---------------------------------------------------------------------------------------------
  // The COSMO-RS solvent
  // ---------------------------------------------------------------------------------------------

  /** `basename(path).split(".")[0]`. */
  function SolventName(path: string): (name: string)
    ensures '.' !in name
  {
    SplitOn(LastField(path, '/'), '.')[0]
  }

  /** The solvent entry of the COSMO-RS block: an explicit solvent first, then a solvent
      structure file (which must exist), then the engine's solvent; with none of them the
      driver raises. */
  function CosmorsSolvent(block: Block, solvent: Option<string>, solventFile: Option<string>,
                          fileExists: bool, engineSolvent: Option<string>): Result<Block, Error>
  {
    if solvent.Some? then Success(Set(block, "solvent", Text(Quoted(solvent))))
    else if solventFile.Some? then
      if !fileExists then Failure(SolventFileNotFound(solventFile.value))
      else Success(Set(block, "solventfilename", Text(Quoted(Some(SolventName(solventFile.value))))))
    else if engineSolvent.Some? then Success(Set(block, "solvent", Text(Quoted(engineSolvent))))
    else Failure(NoSolvent)
  }

  /** The level of theory written into the block when the engine's settings are used. */
  function CosmorsTheory(block: Block, e: Engine, useEngineSettings: bool): Block {
    if useEngineSettings then
      Set(Set(block, "dftfunc", Text(Quoted(Some(e.methodName)))), "dftbas", Text(Quoted(Some(e.basisSet))))
    else block
  }

  /** The user blocks `cosmors` passes to the job: the user's `cosmors` block (or a new one)
      completed with the solvent and, on request, the engine's level of theory. */
  function CosmorsBlocks(blocks: Blocks, solvent: Option<string>, solventFile: Option<string>,
                         fileExists: bool, e: Engine, useEngineSettings: bool): (r: Result<Blocks, Error>)
    ensures r.Success? ==> "cosmors" in Keys(r.value)
  {
    var named := CosmorsSolvent(UserBlock(blocks, "cosmors"), solvent, solventFile, fileExists, e.solvent);
    if named.Failure? then Failure(named.error)
    else Success(Set(blocks, "cosmors", CosmorsTheory(named.value, e, useEngineSettings)))
  }

  /** The COSMO-RS block of a successful call. */
  function CosmorsOf(blocks: Blocks, solvent: Option<string>, solventFile: Option<string>,
                     fileExists: bool, e: Engine, useEngineSettings: bool): Block
    requires CosmorsBlocks(blocks, solvent, solventFile, fileExists, e, useEngineSettings).Success?
  {
    Get(CosmorsBlocks(blocks, solvent, solventFile, fileExists, e, useEngineSettings).value, "cosmors").value
  }

  /** The level-of-theory entries leave the solvent entries alone. */
  lemma CosmorsTheoryGet(block: Block, e: Engine, useEngineSettings: bool, k: string)
    requires k != "dftfunc" && k != "dftbas"
    ensures Get(CosmorsTheory(block, e, useEngineSettings), k) == Get(block, k)
  {
    if useEngineSettings {
      SetGet(block, "dftfunc", Text(Quoted(Some(e.methodName))), k);
      SetGet(Set(block, "dftfunc", Text(Quoted(Some(e.methodName)))), "dftbas", Text(Quoted(Some(e.basisSet))), k);
    }
  }

  /** The block the call produces, read back from the returned blocks. */
  lemma CosmorsOfIs(blocks: Blocks, solvent: Option<string>, solventFile: Option<string>,
                    fileExists: bool, e: Engine, useEngineSettings: bool)
    requires CosmorsBlocks(blocks, solvent, solventFile, fileExists, e, useEngineSettings).Success?
    ensures var named := CosmorsSolvent(UserBlock(blocks, "cosmors"), solvent, solventFile, fileExists, e.solvent);
      named.Success? && CosmorsOf(blocks, solvent, solventFile, fileExists, e, useEngineSettings)
        == CosmorsTheory(named.value, e, useEngineSettings)
  {
    var named := CosmorsSolvent(UserBlock(blocks, "cosmors"), solvent, solventFile, fileExists, e.solvent);
    SetGet(blocks, "cosmors", CosmorsTheory(named.value, e, useEngineSettings), "cosmors");
  }

  /** An explicit solvent always wins, whatever file or engine solvent is also given. */
  lemma CosmorsExplicitSolventWins(blocks: Blocks, solvent: Option<string>, solventFile: Option<string>,
                                   fileExists: bool, e: Engine, useEngineSettings: bool)
    requires solvent.Some?
    ensures CosmorsBlocks(blocks, solvent, solventFile, fileExists, e, useEngineSettings).Success?
    ensures Get(CosmorsOf(blocks, solvent, solventFile, fileExists, e, useEngineSettings), "solvent")
      == Some(Text("\"" + solvent.value + "\""))
  {
    CosmorsOfIs(blocks, solvent, solventFile, fileExists, e, useEngineSettings);
    var block := UserBlock(blocks, "cosmors");
    SetGet(block, "solvent", Text(Quoted(solvent)), "solvent");
    CosmorsTheoryGet(Set(block, "solvent", Text(Quoted(solvent))), e, useEngineSettings, "solvent");
  }

  /** Without an explicit solvent, a solvent file is used when it exists and is an error when it
      does not; the engine's solvent is not consulted. */
  lemma CosmorsSolventFileNext(blocks: Blocks, solventFile: Option<string>, fileExists: bool, e: Engine,
                               useEngineSettings: bool)
    requires solventFile.Some?
    ensures CosmorsBlocks(blocks, None, solventFile, fileExists, e, useEngineSettings).Success? <==> fileExists
    ensures !fileExists ==>
      CosmorsBlocks(blocks, None, solventFile, fileExists, e, useEngineSettings)
      == Failure(SolventFileNotFound(solventFile.value))
    ensures fileExists ==>
      Get(CosmorsOf(blocks, None, solventFile, fileExists, e, useEngineSettings), "solventfilename")
        == Some(Text("\"" + SolventName(solventFile.value) + "\""))
  {
    if fileExists {
      CosmorsOfIs(blocks, None, solventFile, fileExists, e, useEngineSettings);
      var block := UserBlock(blocks, "cosmors");
      var v := Text(Quoted(Some(SolventName(solventFile.value))));
      SetGet(block, "solventfilename", v, "solventfilename");
      CosmorsTheoryGet(Set(block, "solventfilename", v), e, useEngineSettings, "solventfilename");
    }
  }

  /** With neither a solvent nor a file, the engine's solvent is used, and without one the
      driver raises. */
  lemma CosmorsEngineSolventLast(blocks: Blocks, fileExists: bool, e: Engine, useEngineSettings: bool)
    ensures CosmorsBlocks(blocks, None, None, fileExists, e, useEngineSettings).Success? <==> e.solvent.Some?
    ensures e.solvent.None? ==> CosmorsBlocks(blocks, None, None, fileExists, e, useEngineSettings) == Failure(NoSolvent)
    ensures e.solvent.Some? ==>
      Get(CosmorsOf(blocks, None, None, fileExists, e, useEngineSettings), "solvent")
        == Some(Text("\"" + e.solvent.value + "\""))
  {
    if e.solvent.Some? {
      CosmorsOfIs(blocks, None, None, fileExists, e, useEngineSettings);
      var block := UserBlock(blocks, "cosmors");
      SetGet(block, "solvent", Text(Quoted(e.solvent)), "solvent");
      CosmorsTheoryGet(Set(block, "solvent", Text(Quoted(e.solvent))), e, useEngineSettings, "solvent");
    }
  }

  /** Only the `cosmors` block changes; in it, the user's entries other than the solvent, file
      and level-of-theory entries are kept. */
  lemma CosmorsKeepsTheRest(blocks: Blocks, solvent: Option<string>, solventFile: Option<string>,
                            fileExists: bool, e: Engine, useEngineSettings: bool, name: string, key: string)
    requires CosmorsBlocks(blocks, solvent, solventFile, fileExists, e, useEngineSettings).Success?
    requires name != "cosmors"
    requires key !in ["solvent", "solventfilename", "dftfunc", "dftbas"]
    ensures Get(CosmorsBlocks(blocks, solvent, solventFile, fileExists, e, useEngineSettings).value, name)
      == Get(blocks, name)
    ensures Get(CosmorsOf(blocks, solvent, solventFile, fileExists, e, useEngineSettings), key)
      == Get(UserBlock(blocks, "cosmors"), key)
  {
    var block := UserBlock(blocks, "cosmors");
    var named := CosmorsSolvent(block, solvent, solventFile, fileExists, e.solvent);
    CosmorsOfIs(blocks, solvent, solventFile, fileExists, e, useEngineSettings);
    SetGet(blocks, "cosmors", CosmorsTheory(named.value, e, useEngineSettings), name);
    CosmorsTheoryGet(named.value, e, useEngineSettings, key);
    if solvent.Some? {
      SetGet(block, "solvent", Text(Quoted(solvent)), key);
    } else if solventFile.Some? {
      SetGet(block, "solventfilename", Text(Quoted(Some(SolventName(solventFile.value)))), key);
    } else {
      SetGet(block, "solvent", Text(Quoted(e.solvent)), key);
    }
  }

  /** With the engine's settings, the block names the engine's functional and basis set. */
  lemma CosmorsEngineTheory(blocks: Blocks, solvent: Option<string>, solventFile: Option<string>,
                            fileExists: bool, e: Engine)
    requires CosmorsBlocks(blocks, solvent, solventFile, fileExists, e, true).Success?
    ensures Get(CosmorsOf(blocks, solvent, solventFile, fileExists, e, true), "dftfunc") == Some(Text("\"" + e.methodName + "\""))
    ensures Get(CosmorsOf(blocks, solvent, solventFile, fileExists, e, true), "dftbas") == Some(Text("\"" + e.basisSet + "\""))
  {
    var named := CosmorsSolvent(UserBlock(blocks, "cosmors"), solvent, solventFile, fileExists, e.solvent);
    CosmorsOfIs(blocks, solvent, solventFile, fileExists, e, true);
    var b1 := Set(named.value, "dftfunc", Text(Quoted(Some(e.methodName))));
    SetGet(named.value, "dftfunc", Text(Quoted(Some(e.methodName))), "dftfunc");
    SetGet(b1, "dftbas", Text(Quoted(Some(e.basisSet))), "dftfunc");
    SetGet(b1, "dftbas", Text(Quoted(Some(e.basisSet))), "dftbas");
  }
}
