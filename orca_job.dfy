/** The ORCA job description of the current package (`OrcaJobInfo`): the calculation flags, the
    four closed-vocabulary levels, the user's custom `%blocks` and the blocks the library derives
    from the flags. */
module OrcaJob {
  import opened Wrappers
  import opened PyStr
  import opened PyDict
  import opened Errors

  /** A value inside a `%block`: either text, as `str(value)` renders it, or a nested dictionary,
      which the renderer writes as a sub-block. */
  datatype Entry = Text(text: string) | Nested(entries: Dict<string>)

  type Block = Dict<Entry>
  type Blocks = Dict<Block>

  // ---------------------------------------------------------------------------------------------
  // The four closed vocabularies
  // ---------------------------------------------------------------------------------------------

  const PrintLevels: seq<string> := ["MINIPRINT", "SMALLPRINT", "NORMALPRINT", "LARGEPRINT"]
  const OptimizationLevels: seq<string> := ["VERYTIGHTOPT", "TIGHTOPT", "NORMALOPT", "LOOSEOPT"]
  const ScfConvergenceLevels: seq<string> :=
    ["NORMALSCF", "LOOSESCF", "SLOPPYSCF", "STRONGSCF", "TIGHTSCF", "VERYTIGHTSCF", "EXTREMESCF"]
  const ScfConvergenceStrategies: seq<string> :=
    ["EASYCONV", "NORMALCONV", "SLOWCONV", "VERYSLOWCONV", "FORCECONV", "IGNORECONV"]

  /** The validation every level setter applies to a value that is not `None`: the value is accepted,
      upper-cased, exactly when its upper-case form is listed; otherwise a `ValueError` names it. */
  function Accept(vocabulary: seq<string>, value: string): (r: Result<string, Error>)
    ensures r.Success? <==> Upper(value) in vocabulary
    ensures r.Success? ==> r.value in vocabulary && IsUpper(r.value)
    ensures r.Failure? ==> r.error == InvalidValue(value)
  {
    UpperFacts(value);
    if Upper(value) in vocabulary then Success(Upper(value)) else Failure(InvalidValue(value))
  }

  /** Acceptance does not depend on case: `value` and `value.lower()` are treated alike. */
  lemma AcceptIgnoresCase(vocabulary: seq<string>, value: string)
    ensures Accept(vocabulary, Lower(value)).Success? == Accept(vocabulary, value).Success?
    ensures Accept(vocabulary, value).Success? ==>
      Accept(vocabulary, Lower(value)).value == Accept(vocabulary, value).value
  {
    UpperFacts(value);
  }

  /** A text without lower-case letters is its own upper-case form. */
  lemma {:induction false} UpperOfUpper(s: string)
    requires IsUpper(s)
    ensures Upper(s) == s
  {
    assert forall i :: 0 <= i < |s| ==> UpperChar(s[i]) == s[i];
  }

  /** Every listed level is accepted as itself, in each of the four vocabularies. */
  lemma AcceptsListedLevels(vocabulary: seq<string>, level: string)
    requires vocabulary in [PrintLevels, OptimizationLevels, ScfConvergenceLevels, ScfConvergenceStrategies]
    requires level in vocabulary
    ensures Accept(vocabulary, level) == Success(level)
  {
    assert IsUpper(level);
    UpperOfUpper(level);
  }

  // ---------------------------------------------------------------------------------------------
  // The flags the block getters read
  // ---------------------------------------------------------------------------------------------

  /** The public flags of a job description, as one value. */
  datatype JobSettings = JobSettings(
    isSinglet: bool,
    solvent: Option<string>,
    opt: bool,
    optTs: bool,
    freq: bool,
    nfreq: bool,
    scan: Option<string>,
    scanTs: Option<string>,
    nebCi: bool,
    nebTs: bool,
    constraints: Option<string>,
    invertConstraints: bool,
    fullscan: bool,
    cubeDim: Option<int>,
    calcHess: bool,
    hirshfeld: bool,
    nearir: bool,
    raman: bool,
    nebProduct: Option<string>,
    nebTsGuess: Option<string>,
    nebImages: Option<int>,
    nebPreopt: bool)

  /** The flags of a new job description. */
  const DefaultSettings := JobSettings(
    true, None, false, false, false, false, None, None, false, false, None, false, false, None,
    false, false, false, false, None, None, None, false)

  /** Python's truth value of an optional string: present and not empty. */
  predicate Truthy(s: Option<string>) {
    s.Some? && s.value != ""
  }

  /** `f'"{s}"'`, where a missing value renders as `None`. */
  function Quoted(s: Option<string>): string {
    "\"" + (if s.Some? then s.value else "None") + "\""
  }

  /** The assignments of `geom_block`, in program order (a later one replaces an earlier one):
      the Hessian and full-scan switches, the scan, the constraints. */
  function GeomUpdates(s: JobSettings): Block {
    GeomSwitches(s) + ScanUpdates(s) + ConstraintUpdates(s)
  }

  function GeomSwitches(s: JobSettings): Block {
    (if s.calcHess then [("calc_hess", Text("true"))] else [])
    + (if s.fullscan then [("fullscan", Text("true"))] else [])
  }

  /** `scan` is assigned for a relaxed scan and assigned again for a transition-state scan. */
  function ScanUpdates(s: JobSettings): Block {
    (if s.scan.Some? then [("scan", Text(s.scan.value + "  end"))] else [])
    + (if s.scanTs.Some? then [("scan", Text(s.scanTs.value + "  end"))] else [])
  }

  function ConstraintUpdates(s: JobSettings): Block {
    (if s.constraints.Some? then [("constraints", Text("{ " + s.constraints.value + " C }  end"))] else [])
    + (if s.invertConstraints then [("invertconstraints", Text("true"))] else [])
  }

  /** The assignments of `cpcm_block`: the SMD solvent, for a truthy solvent only. */
  function CpcmUpdates(s: JobSettings): Block {
    if Truthy(s.solvent) then [("smd", Text("true")), ("smdsolvent", Text(Quoted(s.solvent)))] else []
  }

  /** The assignments of `plots_block`: cube output of the electron density, and of the spin
      density for a system that is not a singlet. */
  function PlotsUpdates(s: JobSettings): Block {
    if s.cubeDim.None? then []
    else
      var dim := Text(IntToString(s.cubeDim.value));
      [("format", Text("gaussian_cube")), ("dim1", dim), ("dim2", dim), ("dim3", dim),
       ("eldens(\"eldens.cube\");", Text(""))]
      + (if !s.isSinglet then [("spindens(\"spindens.cube\");", Text(""))] else [])
  }

  /** The assignments of `output_block`. */
  function OutputUpdates(s: JobSettings): Block {
    if s.hirshfeld then [("print[p_hirshfeld]", Text("1"))] else []
  }

  /** The assignments of `elprop_block`. */
  function ElpropUpdates(s: JobSettings): Block {
    if s.raman then [("polar", Text("1"))] else []
  }

  /** The assignments of `neb_block`, made only for a NEB-CI or NEB-TS job. */
  function NebUpdates(s: JobSettings): Block {
    if !(s.nebCi || s.nebTs) then []
    else
      [("product", Text(Quoted(s.nebProduct)))]
      + (if s.nebTsGuess.Some? then [("ts", Text(Quoted(s.nebTsGuess)))] else [])
      + (if s.nebImages.Some? then [("nimages", Text(IntToString(s.nebImages.value)))] else [])
      + (if s.nebPreopt then [("preopt", Text("true"))] else [])
  }

  /** The six blocks the library writes to. */
  datatype LibraryName = Geom | Cpcm | Plots | Output | Elprop | Neb {
    /** The block name as it appears in the input, `%geom` and so on. */
    function Name(): string {
      match this
      case Geom => "geom"
      case Cpcm => "cpcm"
      case Plots => "plots"
      case Output => "output"
      case Elprop => "elprop"
      case Neb => "neb"
    }

    /** The place of the block in `LibraryOrder`. */
    function Position(): (p: nat)
      ensures p < |LibraryOrder| && LibraryOrder[p] == this
      ensures LibraryBlockNames[p] == Name()
    {
      match this
      case Geom => 0
      case Cpcm => 1
      case Plots => 2
      case Output => 3
      case Elprop => 4
      case Neb => 5
    }
  }

  /** The order in which `parsed_blocks` emits the library blocks. */
  const LibraryOrder: seq<LibraryName> := [Geom, Cpcm, Plots, Output, Elprop, Neb]

  /** `["geom", "cpcm", "plots", "output", "elprop", "neb"]`, the names a user block must avoid
      to be emitted after the library blocks. */
  const LibraryBlockNames: seq<string> := ["geom", "cpcm", "plots", "output", "elprop", "neb"]

  /** Each place of the library order holds the block whose position it is. */
  lemma OrderPosition(j: nat)
    requires j < |LibraryOrder|
    ensures LibraryOrder[j].Position() == j
    ensures LibraryOrder[j].Name() == LibraryBlockNames[j]
  {
  }

  /** Different library blocks have different names. */
  lemma NameInjective(a: LibraryName, b: LibraryName)
    requires a.Name() == b.Name()
    ensures a == b
  {
    assert a.Name()[0] == b.Name()[0];
    if a.Name()[0] == 'o' || a.Name()[0] == 'e' {
      assert a.Name()[1] == b.Name()[1];
    }
  }

  /** None of the getters in places `m` to `n - 1` writes under `k`. */
  predicate Untouched(k: string, m: nat, n: nat)
    requires n <= |LibraryOrder|
  {
    forall j :: m <= j < n ==> LibraryOrder[j].Name() != k
  }

  /** A name outside `LibraryBlockNames` is touched by no getter. */
  lemma OtherNameUntouched(k: string, m: nat, n: nat)
    requires k !in LibraryBlockNames && n <= |LibraryOrder|
    ensures Untouched(k, m, n)
  {
    forall j | m <= j < n ensures LibraryOrder[j].Name() != k {
      OrderPosition(j);
    }
  }

  /** A library block is touched by no getter but its own. */
  lemma LibraryNameUntouched(lib: LibraryName, m: nat, n: nat)
    requires n <= |LibraryOrder| && !(m <= lib.Position() < n)
    ensures Untouched(lib.Name(), m, n)
  {
    forall j | m <= j < n ensures LibraryOrder[j].Name() != lib.Name() {
      if LibraryOrder[j].Name() == lib.Name() {
        NameInjective(LibraryOrder[j], lib);
        OrderPosition(j);
      }
    }
  }

  /** The library assignments of one block. */
  function Updates(s: JobSettings, n: LibraryName): Block {
    match n
    case Geom => GeomUpdates(s)
    case Cpcm => CpcmUpdates(s)
    case Plots => PlotsUpdates(s)
    case Output => OutputUpdates(s)
    case Elprop => ElpropUpdates(s)
    case Neb => NebUpdates(s)
  }

  /** `{} if name not in user_blocks else user_blocks[name]`. */
  function UserBlock(ub: Blocks, name: string): (b: Block)
    ensures name !in Keys(ub) ==> b == []
    ensures name in Keys(ub) ==> Get(ub, name) == Some(b)
  {
    Get(ub, name).GetOr([])
  }

  /** What a block getter returns: the user's block with the library assignments made on it. */
  function LibraryBlock(ub: Blocks, s: JobSettings, n: LibraryName): Block {
    Merge(UserBlock(ub, n.Name()), Updates(s, n))
  }

  /** The user blocks after a getter has written into the user's own block: the getter changes
      the dictionary stored under `name` in place, and stores nothing when there is none. */
  function WriteBack(ub: Blocks, name: string, b: Block): (r: Blocks)
    ensures Keys(r) == Keys(ub)
  {
    if name in Keys(ub) then Set(ub, name, b) else ub
  }

  /** Library assignments win: after a getter, a key it assigns holds the library value (the
      last one assigned), every other key keeps the user's value. */
  lemma LibraryBlockGet(ub: Blocks, s: JobSettings, n: LibraryName, key: string)
    ensures Get(LibraryBlock(ub, s, n), key) ==
      if key in Keys(Updates(s, n)) then LastWrite(Updates(s, n), key) else Get(UserBlock(ub, n.Name()), key)
  {
    MergeGet(UserBlock(ub, n.Name()), Updates(s, n), key);
  }

  /** Of the two `scan` assignments, the one of `scan_ts` comes last. */
  lemma ScanUpdatesWrite(s: JobSettings)
    ensures LastWrite(ScanUpdates(s), "scan") ==
      if s.scanTs.Some? then Some(Text(s.scanTs.value + "  end"))
      else if s.scan.Some? then Some(Text(s.scan.value + "  end"))
      else None
  {
    var first := if s.scan.Some? then [("scan", Text(s.scan.value + "  end"))] else [];
    var second := if s.scanTs.Some? then [("scan", Text(s.scanTs.value + "  end"))] else [];
    LastWriteAppend(first, second, "scan");
  }

  /** The library's `scan` assignment in the `%geom` block is the last of the scan assignments. */
  lemma GeomScanWrite(s: JobSettings)
    ensures LastWrite(GeomUpdates(s), "scan") == LastWrite(ScanUpdates(s), "scan")
  {
    LastWriteAppend(GeomSwitches(s) + ScanUpdates(s), ConstraintUpdates(s), "scan");
    LastWriteAppend(GeomSwitches(s), ScanUpdates(s), "scan");
    assert "scan" !in Keys(ConstraintUpdates(s));
    assert "scan" !in Keys(GeomSwitches(s));
  }

  /** `scan_ts` replaces `scan` in the `%geom` block, and both replace a user `scan` entry. */
  lemma ScanTsReplacesScan(ub: Blocks, s: JobSettings)
    ensures s.scanTs.Some? ==> Get(LibraryBlock(ub, s, Geom), "scan") == Some(Text(s.scanTs.value + "  end"))
    ensures s.scanTs.None? && s.scan.Some? ==> Get(LibraryBlock(ub, s, Geom), "scan") == Some(Text(s.scan.value + "  end"))
    ensures s.scanTs.None? && s.scan.None? ==> Get(LibraryBlock(ub, s, Geom), "scan") == Get(UserBlock(ub, "geom"), "scan")
  {
    ScanUpdatesWrite(s);
    GeomScanWrite(s);
    LibraryBlockGet(ub, s, Geom, "scan");
  }

  /** The last assignment of a concatenation is the one in its second part, if there is one. */
  lemma {:induction false} LastWriteAppend(a: Block, b: Block, k: string)
    ensures LastWrite(a + b, k) == if LastWrite(b, k).Some? then LastWrite(b, k) else LastWrite(a, k)
    decreases |a|
  {
    if a != [] {
      assert (a + b)[1..] == a[1..] + b;
      LastWriteAppend(a[1..], b, k);
    } else {
      assert a + b == b;
    }
  }

  /** The `%neb` block gains keys only for a NEB-CI or NEB-TS job, and then always names the
      product. */
  lemma NebKeysOnlyForNeb(ub: Blocks, s: JobSettings)
    ensures !(s.nebCi || s.nebTs) ==> LibraryBlock(ub, s, Neb) == UserBlock(ub, "neb")
    ensures s.nebCi || s.nebTs ==> Get(LibraryBlock(ub, s, Neb), "product") == Some(Text(Quoted(s.nebProduct)))
  {
    var u := NebUpdates(s);
    if s.nebCi || s.nebTs {
      var rest := (if s.nebTsGuess.Some? then [("ts", Text(Quoted(s.nebTsGuess)))] else [])
        + (if s.nebImages.Some? then [("nimages", Text(IntToString(s.nebImages.value)))] else [])
        + (if s.nebPreopt then [("preopt", Text("true"))] else []);
      assert u == [("product", Text(Quoted(s.nebProduct)))] + rest;
      assert "product" !in Keys(rest);
      LastWriteAppend([("product", Text(Quoted(s.nebProduct)))], rest, "product");
      LibraryBlockGet(ub, s, Neb, "product");
    }
  }

  // ---------------------------------------------------------------------------------------------
  // The `user_blocks` setter
  // ---------------------------------------------------------------------------------------------

  /** `d` with every key lower-cased and every value mapped by `f`, assigned in order: of keys
      that only differ in case, the last one's value is kept, at the first one's position. */
  function LowerFold<V, W>(d: Dict<V>, f: V -> W): Dict<W>
    decreases |d|
  {
    if d == [] then [] else Set(LowerFold(d[..|d| - 1], f), Lower(d[|d| - 1].0), f(d[|d| - 1].1))
  }

  function Identity(e: Entry): Entry {
    e
  }

  /** The keys of one user block, lower-cased. */
  function LowerKeys(block: Block): Block {
    LowerFold(block, Identity)
  }

  /** The value the `user_blocks` setter stores: block names and keys lower-cased. */
  function LowerBlocks(value: Blocks): Blocks {
    LowerFold(value, LowerKeys)
  }

  /** No two keys of `d` differ in case only. */
  predicate NoCaseCollision<V>(d: Dict<V>) {
    forall i, j :: 0 <= i < j < |d| ==> Lower(d[i].0) != Lower(d[j].0)
  }

  /** Lower-casing yields duplicate-free keys. */
  lemma {:induction false} LowerFoldUnique<V, W>(d: Dict<V>, f: V -> W)
    ensures UniqueKeys(LowerFold(d, f))
    decreases |d|
  {
    if d != [] {
      LowerFoldUnique(d[..|d| - 1], f);
      SetUnique(LowerFold(d[..|d| - 1], f), Lower(d[|d| - 1].0), f(d[|d| - 1].1));
    }
  }

  /** Lower-casing yields lower-case keys only. */
  lemma {:induction false} LowerFoldLowerCase<V, W>(d: Dict<V>, f: V -> W)
    ensures forall k :: k in Keys(LowerFold(d, f)) ==> IsLower(k)
    decreases |d|
  {
    if d != [] {
      var d' := d[..|d| - 1];
      var lk := Lower(d[|d| - 1].0);
      LowerFoldLowerCase(d', f);
      LowerFacts(d[|d| - 1].0);
      var r' := LowerFold(d', f);
      assert Keys(LowerFold(d, f)) == if lk in Keys(r') then Keys(r') else Keys(r') + [lk];
    }
  }

  /** Every key of the input has its lower-case form among the keys of the result. */
  lemma {:induction false} LowerFoldCovers<V, W>(d: Dict<V>, f: V -> W)
    ensures forall i :: 0 <= i < |d| ==> Lower(d[i].0) in Keys(LowerFold(d, f))
    decreases |d|
  {
    if d != [] {
      var d' := d[..|d| - 1];
      var lk := Lower(d[|d| - 1].0);
      LowerFoldCovers(d', f);
      var r' := LowerFold(d', f);
      assert Keys(LowerFold(d, f)) == if lk in Keys(r') then Keys(r') else Keys(r') + [lk];
      forall i | 0 <= i < |d'| ensures Lower(d[i].0) in Keys(LowerFold(d, f)) {
        assert d'[i] == d[i];
        assert Lower(d'[i].0) in Keys(r');
      }
    }
  }

  /** Every key of the result is the lower-case form of a key of the input. */
  lemma {:induction false} LowerFoldOnlyFrom<V, W>(d: Dict<V>, f: V -> W)
    ensures forall k :: k in Keys(LowerFold(d, f)) ==> exists i :: 0 <= i < |d| && Lower(d[i].0) == k
    decreases |d|
  {
    if d != [] {
      var d' := d[..|d| - 1];
      var lk := Lower(d[|d| - 1].0);
      LowerFoldOnlyFrom(d', f);
      var r' := LowerFold(d', f);
      assert Keys(LowerFold(d, f)) == if lk in Keys(r') then Keys(r') else Keys(r') + [lk];
      forall k | k in Keys(LowerFold(d, f)) ensures exists i :: 0 <= i < |d| && Lower(d[i].0) == k {
        if k == lk {
          assert 0 <= |d| - 1 < |d| && Lower(d[|d| - 1].0) == k;
        } else {
          var i :| 0 <= i < |d'| && Lower(d'[i].0) == k;
          assert d[i] == d'[i];
        }
      }
    }
  }

  /** Of keys that differ in case only, the value of the last one is kept: a value whose key is
      not repeated later (in any case) is stored unchanged under the lower-cased key. */
  lemma {:induction false} LowerFoldLastWins<V, W>(d: Dict<V>, f: V -> W, i: nat)
    requires i < |d|
    requires forall j :: i < j < |d| ==> Lower(d[j].0) != Lower(d[i].0)
    ensures Get(LowerFold(d, f), Lower(d[i].0)) == Some(f(d[i].1))
    decreases |d|
  {
    var d' := d[..|d| - 1];
    SetGet(LowerFold(d', f), Lower(d[|d| - 1].0), f(d[|d| - 1].1), Lower(d[i].0));
    if i < |d| - 1 {
      assert d'[i] == d[i];
      LowerFoldLastWins(d', f, i);
    }
  }

  /** Without case collisions, lower-casing keeps every entry, in place, with its value. */
  lemma {:induction false} LowerFoldNoCollision<V, W>(d: Dict<V>, f: V -> W)
    requires NoCaseCollision(d)
    ensures |LowerFold(d, f)| == |d|
    ensures forall i :: 0 <= i < |d| ==> LowerFold(d, f)[i] == (Lower(d[i].0), f(d[i].1))
    decreases |d|
  {
    if d != [] {
      var d' := d[..|d| - 1];
      var last := d[|d| - 1];
      assert NoCaseCollision(d') by {
        forall i, j | 0 <= i < j < |d'| ensures Lower(d'[i].0) != Lower(d'[j].0) {
          assert d'[i] == d[i] && d'[j] == d[j];
        }
      }
      LowerFoldNoCollision(d', f);
      var r' := LowerFold(d', f);
      assert Lower(last.0) !in Keys(r') by {
        forall i | 0 <= i < |r'| ensures r'[i].0 != Lower(last.0) {
          assert d'[i] == d[i];
        }
      }
      forall i | 0 <= i < |d'| ensures d'[i] == d[i] { }
    }
  }

  /** Every block the setter stores has distinct, lower-case keys. */
  lemma {:induction false} LowerBlocksInner(value: Blocks, name: string)
    ensures Get(LowerBlocks(value), name).Some? ==>
      && UniqueKeys(Get(LowerBlocks(value), name).value)
      && forall key :: key in Keys(Get(LowerBlocks(value), name).value) ==> IsLower(key)
    decreases |value|
  {
    if value != [] {
      var v' := value[..|value| - 1];
      var last := value[|value| - 1];
      LowerBlocksInner(v', name);
      SetGet(LowerBlocks(v'), Lower(last.0), LowerKeys(last.1), name);
      LowerFoldUnique(last.1, Identity);
      LowerFoldLowerCase(last.1, Identity);
    }
  }

  // ---------------------------------------------------------------------------------------------
  // `parsed_blocks`
  // ---------------------------------------------------------------------------------------------

  /** The user blocks once the getter of `lib` has run on them. */
  function Refresh(p: Blocks, s: JobSettings, lib: LibraryName): Blocks {
    WriteBack(p, lib.Name(), LibraryBlock(p, s, lib))
  }

  /** The user blocks after the getters of the first `n` library blocks have run. */
  function Refreshed(ub: Blocks, s: JobSettings, n: nat): Blocks
    requires n <= |LibraryOrder|
  {
    if n == 0 then ub else Refresh(Refreshed(ub, s, n - 1), s, LibraryOrder[n - 1])
  }

  /** The first `n` library blocks that are not empty, in order, each under a key not used
      before. */
  function LibrarySection(ub: Blocks, s: JobSettings, n: nat): Blocks
    requires n <= |LibraryOrder|
  {
    if n == 0 then []
    else
      var b := LibraryBlock(ub, s, LibraryOrder[n - 1]);
      LibrarySection(ub, s, n - 1) + (if b == [] then [] else [(LibraryOrder[n - 1].Name(), b)])
  }

  /** `acc` followed by the blocks of `ub` whose names are not library block names. */
  function WithOtherBlocks(acc: Blocks, ub: Blocks): Blocks
    decreases |ub|
  {
    if ub == [] then acc
    else
      var r := WithOtherBlocks(acc, ub[..|ub| - 1]);
      var (name, block) := ub[|ub| - 1];
      if name in LibraryBlockNames then r else Set(r, name, block)
  }

  /** What `parsed_blocks` returns: the non-empty library blocks, then the other user blocks as
      they stand once the getters have run. */
  function ParsedBlocksOf(ub: Blocks, s: JobSettings): Blocks {
    WithOtherBlocks(LibrarySection(ub, s, |LibraryOrder|), Refreshed(ub, s, |LibraryOrder|))
  }

  /** The names of the non-empty library blocks among the first `n`, in order. */
  function NonEmptyLibraryNames(ub: Blocks, s: JobSettings, n: nat): seq<string>
    requires n <= |LibraryOrder|
  {
    if n == 0 then []
    else
      NonEmptyLibraryNames(ub, s, n - 1)
      + (if LibraryBlock(ub, s, LibraryOrder[n - 1]) == [] then [] else [LibraryOrder[n - 1].Name()])
  }

  /** The names of `names` that are not library block names, in order. */
  function OtherNames(names: seq<string>): seq<string>
    decreases |names|
  {
    if names == [] then []
    else OtherNames(names[..|names| - 1]) + (if names[|names| - 1] in LibraryBlockNames then [] else [names[|names| - 1]])
  }

  /** A getter stores its block under its own name, if the user defined that block, and
      changes no other block. */
  lemma WriteBackGet(ub: Blocks, name: string, b: Block, k: string)
    ensures Get(WriteBack(ub, name, b), k) == if k == name && name in Keys(ub) then Some(b) else Get(ub, k)
  {
    if name in Keys(ub) {
      SetGet(ub, name, b, k);
    }
  }

  /** Dicts with the same key order repeat a key alike. */
  lemma UniqueByKeys<V, W>(a: Dict<V>, b: Dict<W>)
    requires Keys(a) == Keys(b) && UniqueKeys(a)
    ensures UniqueKeys(b)
  {
    forall i, j | 0 <= i < j < |b| ensures b[i].0 != b[j].0 {
      assert Keys(a)[i] == a[i].0 && Keys(a)[j] == a[j].0;
    }
  }

  /** The getters add and remove no block and keep the order of the blocks. */
  lemma {:induction false} RefreshedKeys(ub: Blocks, s: JobSettings, n: nat)
    requires n <= |LibraryOrder|
    ensures Keys(Refreshed(ub, s, n)) == Keys(ub)
  {
    if n > 0 {
      RefreshedKeys(ub, s, n - 1);
    }
  }

  /** A block that none of the getters in places `m` to `n - 1` writes is left as it was. */
  lemma {:induction false} RefreshedUntouched(ub: Blocks, s: JobSettings, m: nat, n: nat, k: string)
    requires m <= n <= |LibraryOrder|
    requires Untouched(k, m, n)
    ensures Get(Refreshed(ub, s, n), k) == Get(Refreshed(ub, s, m), k)
    decreases n
  {
    if m < n {
      RefreshedUntouched(ub, s, m, n - 1, k);
      var p := Refreshed(ub, s, n - 1);
      var lib := LibraryOrder[n - 1];
      WriteBackGet(p, lib.Name(), LibraryBlock(p, s, lib), k);
    }
  }

  /** Each getter sees the user's own block: the getters before it write to other blocks. */
  lemma RefreshedBefore(ub: Blocks, s: JobSettings, lib: LibraryName)
    ensures Get(Refreshed(ub, s, lib.Position()), lib.Name()) == Get(ub, lib.Name())
    ensures LibraryBlock(Refreshed(ub, s, lib.Position()), s, lib) == LibraryBlock(ub, s, lib)
  {
    LibraryNameUntouched(lib, 0, lib.Position());
    RefreshedUntouched(ub, s, 0, lib.Position(), lib.Name());
  }

  /** Right after its getter has run, the user's own library block holds what the getter
      returned. */
  lemma RefreshedAt(ub: Blocks, s: JobSettings, lib: LibraryName)
    ensures Get(Refreshed(ub, s, lib.Position() + 1), lib.Name()) ==
      if lib.Name() in Keys(ub) then Some(LibraryBlock(ub, s, lib)) else None
  {
    var q := Refreshed(ub, s, lib.Position());
    RefreshedBefore(ub, s, lib);
    RefreshedKeys(ub, s, lib.Position());
    WriteBackGet(q, lib.Name(), LibraryBlock(q, s, lib), lib.Name());
  }

  /** Once all getters have run, the user's own library block holds what its getter returned. */
  lemma RefreshedLibrary(ub: Blocks, s: JobSettings, lib: LibraryName)
    ensures Get(Refreshed(ub, s, |LibraryOrder|), lib.Name()) ==
      if lib.Name() in Keys(ub) then Some(LibraryBlock(ub, s, lib)) else None
  {
    RefreshedAt(ub, s, lib);
    LibraryNameUntouched(lib, lib.Position() + 1, |LibraryOrder|);
    RefreshedUntouched(ub, s, lib.Position() + 1, |LibraryOrder|, lib.Name());
  }

  /** The getters leave every other block alone. */
  lemma RefreshedOther(ub: Blocks, s: JobSettings, k: string)
    requires k !in LibraryBlockNames
    ensures Get(Refreshed(ub, s, |LibraryOrder|), k) == Get(ub, k)
  {
    OtherNameUntouched(k, 0, |LibraryOrder|);
    RefreshedUntouched(ub, s, 0, |LibraryOrder|, k);
  }

  /** A getter called a second time returns what the first call returned and changes nothing:
      the library assignments it repeats are already in place. */
  lemma RefreshTwice(p: Blocks, s: JobSettings, lib: LibraryName)
    ensures LibraryBlock(Refresh(p, s, lib), s, lib) == LibraryBlock(p, s, lib)
    ensures WriteBack(Refresh(p, s, lib), lib.Name(), LibraryBlock(p, s, lib)) == Refresh(p, s, lib)
  {
    var b := LibraryBlock(p, s, lib);
    var p' := Refresh(p, s, lib);
    WriteBackGet(p, lib.Name(), b, lib.Name());
    MergeIdempotent(UserBlock(p, lib.Name()), Updates(s, lib));
    if lib.Name() in Keys(p) {
      SetSame(p', lib.Name(), b);
    }
  }

  /** The library section is keyed by the non-empty library block names, in order. */
  lemma {:induction false} SectionKeys(ub: Blocks, s: JobSettings, n: nat)
    requires n <= |LibraryOrder|
    ensures Keys(LibrarySection(ub, s, n)) == NonEmptyLibraryNames(ub, s, n)
  {
    if n > 0 {
      SectionKeys(ub, s, n - 1);
      var b := LibraryBlock(ub, s, LibraryOrder[n - 1]);
      if b != [] {
        KeysAppend(LibrarySection(ub, s, n - 1), LibraryOrder[n - 1].Name(), b);
      }
    }
  }

  /** The library section holds library block names only, and none of a getter yet to come. */
  lemma {:induction false} SectionNames(ub: Blocks, s: JobSettings, n: nat, k: string)
    requires n <= |LibraryOrder|
    ensures k in Keys(LibrarySection(ub, s, n)) ==> k in LibraryBlockNames && !Untouched(k, 0, n)
  {
    if n > 0 {
      SectionNames(ub, s, n - 1, k);
      var b := LibraryBlock(ub, s, LibraryOrder[n - 1]);
      OrderPosition(n - 1);
      if b != [] {
        KeysAppend(LibrarySection(ub, s, n - 1), LibraryOrder[n - 1].Name(), b);
      }
    }
  }

  /** The library section names every block once. */
  lemma {:induction false} SectionUnique(ub: Blocks, s: JobSettings, n: nat)
    requires n <= |LibraryOrder|
    ensures UniqueKeys(LibrarySection(ub, s, n))
  {
    if n > 0 {
      SectionUnique(ub, s, n - 1);
      var lib := LibraryOrder[n - 1];
      OrderPosition(n - 1);
      LibraryNameUntouched(lib, 0, n - 1);
      SectionNames(ub, s, n - 1, lib.Name());
      var b := LibraryBlock(ub, s, lib);
      if b != [] {
        KeysAppend(LibrarySection(ub, s, n - 1), lib.Name(), b);
        var acc := LibrarySection(ub, s, n - 1);
        forall i | 0 <= i < |acc| ensures acc[i].0 != lib.Name() {
          assert Keys(acc)[i] == acc[i].0;
        }
      }
    }
  }

  /** `blocks[name] = block` of `parsed_blocks` adds the block at the end of the section. */
  lemma SectionStep(ub: Blocks, s: JobSettings, lib: LibraryName)
    requires LibraryBlock(ub, s, lib) != []
    ensures Set(LibrarySection(ub, s, lib.Position()), lib.Name(), LibraryBlock(ub, s, lib)) ==
      LibrarySection(ub, s, lib.Position() + 1)
  {
    LibraryNameUntouched(lib, 0, lib.Position());
    SectionNames(ub, s, lib.Position(), lib.Name());
  }

  /** In the library section, a library block is its getter's result when that is not empty. */
  lemma {:induction false} SectionGet(ub: Blocks, s: JobSettings, n: nat, lib: LibraryName)
    requires n <= |LibraryOrder|
    ensures Get(LibrarySection(ub, s, n), lib.Name()) ==
      if lib.Position() < n && LibraryBlock(ub, s, lib) != [] then Some(LibraryBlock(ub, s, lib)) else None
  {
    if n > 0 {
      SectionGet(ub, s, n - 1, lib);
      var other := LibraryOrder[n - 1];
      var acc := LibrarySection(ub, s, n - 1);
      var b := LibraryBlock(ub, s, other);
      OrderPosition(n - 1);
      if other == lib {
        if b != [] {
          GetAppend(acc, lib.Name(), b, lib.Name());
        } else {
          assert LibrarySection(ub, s, n) == acc;
        }
      } else {
        assert other.Name() != lib.Name() by {
          if other.Name() == lib.Name() {
            NameInjective(other, lib);
          }
        }
        if b != [] {
          GetAppend(acc, other.Name(), b, lib.Name());
        } else {
          assert LibrarySection(ub, s, n) == acc;
        }
      }
    }
  }

  /** `WithOtherBlocks` repeats no name. */
  lemma {:induction false} WithOtherBlocksUnique(acc: Blocks, ub: Blocks)
    requires UniqueKeys(acc)
    ensures UniqueKeys(WithOtherBlocks(acc, ub))
    decreases |ub|
  {
    if ub != [] {
      WithOtherBlocksUnique(acc, ub[..|ub| - 1]);
      var last := ub[|ub| - 1];
      if last.0 !in LibraryBlockNames {
        SetUnique(WithOtherBlocks(acc, ub[..|ub| - 1]), last.0, last.1);
      }
    }
  }

  lemma PrefixUnique<V>(d: Dict<V>, n: nat)
    requires UniqueKeys(d) && n <= |d|
    ensures UniqueKeys(d[..n])
  {
    forall i, j | 0 <= i < j < n ensures d[..n][i].0 != d[..n][j].0 {
      assert d[..n][i] == d[i] && d[..n][j] == d[j];
    }
  }

  /** The last name of a duplicate-free dict is not among the names before it. */
  lemma LastNameNew<V>(d: Dict<V>)
    requires UniqueKeys(d) && d != []
    ensures d[|d| - 1].0 !in Keys(d[..|d| - 1])
  {
    var d' := d[..|d| - 1];
    forall i | 0 <= i < |d'| ensures Keys(d')[i] != d[|d| - 1].0 {
      assert d'[i] == d[i];
    }
  }

  lemma {:induction false} OtherNamesNotIn(names: seq<string>, name: string)
    requires name !in names
    ensures name !in OtherNames(names)
    decreases |names|
  {
    if names != [] {
      OtherNamesNotIn(names[..|names| - 1], name);
    }
  }

  /** `WithOtherBlocks` appends the names of the non-library blocks of a duplicate-free `ub`, in
      order. */
  lemma {:induction false} WithOtherBlocksKeys(acc: Blocks, ub: Blocks)
    requires UniqueKeys(ub)
    requires forall k :: k in Keys(acc) ==> k in LibraryBlockNames
    ensures Keys(WithOtherBlocks(acc, ub)) == Keys(acc) + OtherNames(Keys(ub))
    decreases |ub|
  {
    if ub != [] {
      var n := |ub| - 1;
      var ub' := ub[..n];
      var last := ub[n];
      PrefixUnique(ub, n);
      WithOtherBlocksKeys(acc, ub');
      KeysPrefix(ub, n);
      if last.0 !in LibraryBlockNames {
        LastNameNew(ub);
        OtherNamesNotIn(Keys(ub'), last.0);
      }
    }
  }

  /** In `WithOtherBlocks`, a library name finds the block of `acc`. */
  lemma {:induction false} WithOtherBlocksLibrary(acc: Blocks, ub: Blocks, k: string)
    requires k in LibraryBlockNames
    ensures Get(WithOtherBlocks(acc, ub), k) == Get(acc, k)
    decreases |ub|
  {
    if ub != [] {
      WithOtherBlocksLibrary(acc, ub[..|ub| - 1], k);
      var last := ub[|ub| - 1];
      if last.0 !in LibraryBlockNames {
        SetGet(WithOtherBlocks(acc, ub[..|ub| - 1]), last.0, last.1, k);
      }
    }
  }

  /** In `WithOtherBlocks` over a duplicate-free `ub`, any other name finds the block of `ub`. */
  lemma {:induction false} WithOtherBlocksOther(acc: Blocks, ub: Blocks, k: string)
    requires UniqueKeys(ub) && k !in LibraryBlockNames
    requires forall k :: k in Keys(acc) ==> k in LibraryBlockNames
    ensures Get(WithOtherBlocks(acc, ub), k) == Get(ub, k)
    decreases |ub|
  {
    if ub != [] {
      var ub' := ub[..|ub| - 1];
      var last := ub[|ub| - 1];
      PrefixUnique(ub, |ub| - 1);
      WithOtherBlocksOther(acc, ub', k);
      assert ub == ub' + [last];
      GetAppend(ub', last.0, last.1, k);
      LastNameNew(ub);
      if last.0 !in LibraryBlockNames {
        SetGet(WithOtherBlocks(acc, ub'), last.0, last.1, k);
      }
    }
  }

  /** The library section holds library block names only. */
  lemma SectionLibraryNames(ub: Blocks, s: JobSettings)
    ensures forall k :: k in Keys(LibrarySection(ub, s, |LibraryOrder|)) ==> k in LibraryBlockNames
  {
    forall k | k in Keys(LibrarySection(ub, s, |LibraryOrder|)) ensures k in LibraryBlockNames {
      SectionNames(ub, s, |LibraryOrder|, k);
    }
  }

  /** `parsed_blocks` emits the non-empty library blocks in the fixed order geom, cpcm, plots,
      output, elprop, neb, then the user's other blocks in insertion order. */
  lemma ParsedBlocksKeys(ub: Blocks, s: JobSettings)
    requires UniqueKeys(ub)
    ensures Keys(ParsedBlocksOf(ub, s)) == NonEmptyLibraryNames(ub, s, |LibraryOrder|) + OtherNames(Keys(ub))
  {
    var q := Refreshed(ub, s, |LibraryOrder|);
    RefreshedKeys(ub, s, |LibraryOrder|);
    UniqueByKeys(ub, q);
    SectionLibraryNames(ub, s);
    SectionKeys(ub, s, |LibraryOrder|);
    WithOtherBlocksKeys(LibrarySection(ub, s, |LibraryOrder|), q);
  }

  /** `parsed_blocks` never emits a name twice. */
  lemma ParsedBlocksUnique(ub: Blocks, s: JobSettings)
    ensures UniqueKeys(ParsedBlocksOf(ub, s))
  {
    SectionUnique(ub, s, |LibraryOrder|);
    WithOtherBlocksUnique(LibrarySection(ub, s, |LibraryOrder|), Refreshed(ub, s, |LibraryOrder|));
  }

  /** Each library block is emitted exactly when its getter returns a non-empty block, and then
      holds that block. */
  lemma ParsedBlocksLibrary(ub: Blocks, s: JobSettings, lib: LibraryName)
    ensures Get(ParsedBlocksOf(ub, s), lib.Name()) ==
      if LibraryBlock(ub, s, lib) == [] then None else Some(LibraryBlock(ub, s, lib))
  {
    WithOtherBlocksLibrary(LibrarySection(ub, s, |LibraryOrder|), Refreshed(ub, s, |LibraryOrder|), lib.Name());
    SectionGet(ub, s, |LibraryOrder|, lib);
  }

  /** Each other block is emitted as the user defined it. */
  lemma ParsedBlocksOther(ub: Blocks, s: JobSettings, name: string)
    requires UniqueKeys(ub) && name !in LibraryBlockNames
    ensures Get(ParsedBlocksOf(ub, s), name) == Get(ub, name)
  {
    var q := Refreshed(ub, s, |LibraryOrder|);
    RefreshedKeys(ub, s, |LibraryOrder|);
    UniqueByKeys(ub, q);
    SectionLibraryNames(ub, s);
    WithOtherBlocksOther(LibrarySection(ub, s, |LibraryOrder|), q, name);
    RefreshedOther(ub, s, name);
  }

  /** After the getters have run, every getter returns what it returned the first time. */
  lemma LibraryBlockStable(ub: Blocks, s: JobSettings, lib: LibraryName)
    ensures LibraryBlock(Refreshed(ub, s, |LibraryOrder|), s, lib) == LibraryBlock(ub, s, lib)
  {
    RefreshedLibrary(ub, s, lib);
    MergeIdempotent(UserBlock(ub, lib.Name()), Updates(s, lib));
  }

  /** Once every library block holds its getter's result, the getters change nothing. */
  lemma {:induction false} RefreshedFixed(q: Blocks, s: JobSettings, n: nat)
    requires n <= |LibraryOrder|
    requires forall lib: LibraryName :: lib.Name() in Keys(q) ==> Get(q, lib.Name()) == Some(LibraryBlock(q, s, lib))
    ensures Refreshed(q, s, n) == q
  {
    if n > 0 {
      RefreshedFixed(q, s, n - 1);
      var lib := LibraryOrder[n - 1];
      if lib.Name() in Keys(q) {
        SetSame(q, lib.Name(), LibraryBlock(q, s, lib));
      }
    }
  }

  lemma {:induction false} SectionsAgree(a: Blocks, b: Blocks, s: JobSettings, n: nat)
    requires n <= |LibraryOrder|
    requires forall lib: LibraryName :: LibraryBlock(a, s, lib) == LibraryBlock(b, s, lib)
    ensures LibrarySection(a, s, n) == LibrarySection(b, s, n)
  {
    if n > 0 {
      SectionsAgree(a, b, s, n - 1);
    }
  }

  /** Asking for the parsed blocks again gives the same blocks and leaves the user blocks as the
      first call left them. */
  lemma ParsedBlocksIdempotent(ub: Blocks, s: JobSettings)
    ensures Refreshed(Refreshed(ub, s, |LibraryOrder|), s, |LibraryOrder|) == Refreshed(ub, s, |LibraryOrder|)
    ensures ParsedBlocksOf(Refreshed(ub, s, |LibraryOrder|), s) == ParsedBlocksOf(ub, s)
  {
    var q := Refreshed(ub, s, |LibraryOrder|);
    RefreshedKeys(ub, s, |LibraryOrder|);
    forall lib: LibraryName ensures LibraryBlock(q, s, lib) == LibraryBlock(ub, s, lib) {
      LibraryBlockStable(ub, s, lib);
    }
    forall lib: LibraryName | lib.Name() in Keys(q) ensures Get(q, lib.Name()) == Some(LibraryBlock(q, s, lib)) {
      RefreshedLibrary(ub, s, lib);
    }
    RefreshedFixed(q, s, |LibraryOrder|);
    SectionsAgree(q, ub, s, |LibraryOrder|);
  }

  /** The loop of `parsed_blocks` over the user blocks: every block whose name is not a
      library block name is assigned to `blocks`. */
  method AddOtherBlocks(acc: Blocks, ub: Blocks) returns (blocks: Blocks)
    ensures blocks == WithOtherBlocks(acc, ub)
  {
    blocks := acc;
    for i := 0 to |ub|
      invariant blocks == WithOtherBlocks(acc, ub[..i])
    {
      var (name, block) := ub[i];
      assert ub[..i + 1][..i] == ub[..i];
      if name !in LibraryBlockNames {
        blocks := Set(blocks, name, block);
      }
    }
    assert ub[..|ub|] == ub;
  }

  // ---------------------------------------------------------------------------------------------
  // The job description
  // ---------------------------------------------------------------------------------------------

  class OrcaJobInfo {
    var ncores: int
    var maxcore: int
    var isSinglet: bool
    var solvent: Option<string>
    var opt: bool
    var optTs: bool
    var freq: bool
    var nfreq: bool
    var scan: Option<string>
    var scanTs: Option<string>
    var nebCi: bool
    var nebTs: bool
    var constraints: Option<string>
    var invertConstraints: bool
    var fullscan: bool
    var cubeDim: Option<int>
    var calcHess: bool
    var hirshfeld: bool
    var nearir: bool
    var raman: bool
    var nebProduct: Option<string>
    var nebTsGuess: Option<string>
    var nebImages: Option<int>
    var nebPreopt: bool
    var userBlocks: Blocks
    var printLevel: Option<string>
    var optimizationLevel: Option<string>
    var scfConvergenceLevel: Option<string>
    var scfConvergenceStrategy: Option<string>

    /** The flags the block getters read. */
    function Settings(): JobSettings
      reads this`isSinglet, this`solvent, this`opt, this`optTs, this`freq, this`nfreq, this`scan,
            this`scanTs, this`nebCi, this`nebTs, this`constraints, this`invertConstraints,
            this`fullscan, this`cubeDim, this`calcHess, this`hirshfeld, this`nearir, this`raman,
            this`nebProduct, this`nebTsGuess, this`nebImages, this`nebPreopt
    {
      JobSettings(isSinglet, solvent, opt, optTs, freq, nfreq, scan, scanTs, nebCi, nebTs, constraints,
                  invertConstraints, fullscan, cubeDim, calcHess, hirshfeld, nearir, raman, nebProduct,
                  nebTsGuess, nebImages, nebPreopt)
    }

    /** The invariant every method keeps: the user blocks are those the setter produces or the
        getters refresh, without repeated names or keys. */
    ghost predicate Valid()
      reads this
    {
      UniqueKeys(userBlocks)
    }

    /** A new job description; `availableCores` is what `get_ncores()` reports. */
    constructor (availableCores: int)
      ensures Valid()
      ensures ncores == availableCores && maxcore == 750
      ensures Settings() == DefaultSettings
      ensures userBlocks == []
      ensures printLevel == None && optimizationLevel == None
      ensures scfConvergenceLevel == None && scfConvergenceStrategy == None
    {
      ncores := availableCores;
      maxcore := 750;
      isSinglet := true;
      solvent := None;
      opt := false;
      optTs := false;
      freq := false;
      nfreq := false;
      scan := None;
      scanTs := None;
      nebCi := false;
      nebTs := false;
      constraints := None;
      invertConstraints := false;
      fullscan := false;
      cubeDim := None;
      calcHess := false;
      hirshfeld := false;
      nearir := false;
      raman := false;
      nebProduct := None;
      nebTsGuess := None;
      nebImages := None;
      nebPreopt := false;
      userBlocks := [];
      printLevel := None;
      optimizationLevel := None;
      scfConvergenceLevel := None;
      scfConvergenceStrategy := None;
    }

    /** `ncores = value`: `None` selects all available cores. */
    method SetNcores(value: Option<int>, availableCores: int)
      modifies this`ncores
      ensures ncores == value.GetOr(availableCores)
    {
      ncores := if value.None? then availableCores else value.value;
    }

    /** `maxcore = value`: `None` selects 750 MB per core. */
    method SetMaxcore(value: Option<int>)
      modifies this`maxcore
      ensures maxcore == value.GetOr(750)
    {
      maxcore := if value.None? then 750 else value.value;
    }

    method SetPrintLevel(value: Option<string>) returns (outcome: Outcome<Error>)
      modifies this`printLevel
      ensures value.None? ==> outcome == Pass && printLevel == None
      ensures value.Some? && Accept(PrintLevels, value.value).Success? ==>
        outcome == Pass && printLevel == Some(Accept(PrintLevels, value.value).value)
      ensures value.Some? && Accept(PrintLevels, value.value).Failure? ==>
        outcome == Fail(Accept(PrintLevels, value.value).error) && printLevel == old(printLevel)
    {
      if value.Some? {
        var checked := Accept(PrintLevels, value.value);
        if checked.Failure? {
          return Fail(checked.error);
        }
        printLevel := Some(checked.value);
      } else {
        printLevel := None;
      }
      outcome := Pass;
    }

    /** `optimization_level = value`; assigning `None` clears the print level instead. */
    method SetOptimizationLevel(value: Option<string>) returns (outcome: Outcome<Error>)
      modifies this`optimizationLevel, this`printLevel
      ensures value.None? ==> outcome == Pass && printLevel == None && optimizationLevel == old(optimizationLevel)
      ensures value.Some? ==> printLevel == old(printLevel)
      ensures value.Some? && Accept(OptimizationLevels, value.value).Success? ==>
        outcome == Pass && optimizationLevel == Some(Accept(OptimizationLevels, value.value).value)
      ensures value.Some? && Accept(OptimizationLevels, value.value).Failure? ==>
        outcome == Fail(Accept(OptimizationLevels, value.value).error) && optimizationLevel == old(optimizationLevel)
    {
      if value.Some? {
        var checked := Accept(OptimizationLevels, value.value);
        if checked.Failure? {
          return Fail(checked.error);
        }
        optimizationLevel := Some(checked.value);
      } else {
        printLevel := None;
      }
      outcome := Pass;
    }

    /** `scf_convergence_level = value`; assigning `None` clears the print level instead. */
    method SetScfConvergenceLevel(value: Option<string>) returns (outcome: Outcome<Error>)
      modifies this`scfConvergenceLevel, this`printLevel
      ensures value.None? ==> outcome == Pass && printLevel == None && scfConvergenceLevel == old(scfConvergenceLevel)
      ensures value.Some? ==> printLevel == old(printLevel)
      ensures value.Some? && Accept(ScfConvergenceLevels, value.value).Success? ==>
        outcome == Pass && scfConvergenceLevel == Some(Accept(ScfConvergenceLevels, value.value).value)
      ensures value.Some? && Accept(ScfConvergenceLevels, value.value).Failure? ==>
        outcome == Fail(Accept(ScfConvergenceLevels, value.value).error) && scfConvergenceLevel == old(scfConvergenceLevel)
    {
      if value.Some? {
        var checked := Accept(ScfConvergenceLevels, value.value);
        if checked.Failure? {
          return Fail(checked.error);
        }
        scfConvergenceLevel := Some(checked.value);
      } else {
        printLevel := None;
      }
      outcome := Pass;
    }

    /** `scf_convergence_strategy = value`; assigning `None` clears the print level instead. */
    method SetScfConvergenceStrategy(value: Option<string>) returns (outcome: Outcome<Error>)
      modifies this`scfConvergenceStrategy, this`printLevel
      ensures value.None? ==> outcome == Pass && printLevel == None && scfConvergenceStrategy == old(scfConvergenceStrategy)
      ensures value.Some? ==> printLevel == old(printLevel)
      ensures value.Some? && Accept(ScfConvergenceStrategies, value.value).Success? ==>
        outcome == Pass && scfConvergenceStrategy == Some(Accept(ScfConvergenceStrategies, value.value).value)
      ensures value.Some? && Accept(ScfConvergenceStrategies, value.value).Failure? ==>
        outcome == Fail(Accept(ScfConvergenceStrategies, value.value).error) && scfConvergenceStrategy == old(scfConvergenceStrategy)
    {
      if value.Some? {
        var checked := Accept(ScfConvergenceStrategies, value.value);
        if checked.Failure? {
          return Fail(checked.error);
        }
        scfConvergenceStrategy := Some(checked.value);
      } else {
        printLevel := None;
      }
      outcome := Pass;
    }

    /** `user_blocks = value`: a fresh dictionary of fresh blocks, names and keys lower-cased. */
    method SetUserBlocks(value: Blocks)
      modifies this`userBlocks
      ensures userBlocks == LowerBlocks(value)
      ensures Valid()
    {
      var blocks: Blocks := [];
      for i := 0 to |value|
        invariant blocks == LowerFold(value[..i], LowerKeys)
      {
        var (name, block) := value[i];
        var acc := blocks;
        blocks := Set(blocks, Lower(name), []);
        for j := 0 to |block|
          invariant blocks == Set(acc, Lower(name), LowerKeys(block[..j]))
        {
          var (key, entry) := block[j];
          SetGet(acc, Lower(name), LowerKeys(block[..j]), Lower(name));
          var inner := Get(blocks, Lower(name)).value;
          assert inner == LowerKeys(block[..j]);
          assert block[..j + 1][..j] == block[..j];
          blocks := Set(blocks, Lower(name), Set(inner, Lower(key), entry));
          SetSet(acc, Lower(name), inner, Set(inner, Lower(key), entry));
        }
        assert block[..|block|] == block;
        assert value[..i + 1][..i] == value[..i];
      }
      assert value[..|value|] == value;
      userBlocks := blocks;
      LowerFoldUnique(value, LowerKeys);
    }

    /** The library part shared by the six block getters: the library assignments are made on
        the user's own block (in place, when the user defined one) or on a fresh one. */
    method MergeUserBlock(lib: LibraryName) returns (block: Block)
      requires Valid()
      modifies this`userBlocks
      ensures block == LibraryBlock(old(userBlocks), Settings(), lib)
      ensures userBlocks == WriteBack(old(userBlocks), lib.Name(), block)
      ensures Settings() == old(Settings())
      ensures Valid()
    {
      var name := lib.Name();
      block := Merge(UserBlock(userBlocks, name), Updates(Settings(), lib));
      if name in Keys(userBlocks) {
        SetUnique(userBlocks, name, block);
        userBlocks := Set(userBlocks, name, block);
      }
    }

    method GeomBlock() returns (block: Block)
      requires Valid()
      modifies this`userBlocks
      ensures block == LibraryBlock(old(userBlocks), Settings(), Geom)
      ensures userBlocks == WriteBack(old(userBlocks), Geom.Name(), block)
      ensures Settings() == old(Settings())
      ensures Valid()
    {
      block := MergeUserBlock(Geom);
    }

    method CpcmBlock() returns (block: Block)
      requires Valid()
      modifies this`userBlocks
      ensures block == LibraryBlock(old(userBlocks), Settings(), Cpcm)
      ensures userBlocks == WriteBack(old(userBlocks), Cpcm.Name(), block)
      ensures Settings() == old(Settings())
      ensures Valid()
    {
      block := MergeUserBlock(Cpcm);
    }

    method PlotsBlock() returns (block: Block)
      requires Valid()
      modifies this`userBlocks
      ensures block == LibraryBlock(old(userBlocks), Settings(), Plots)
      ensures userBlocks == WriteBack(old(userBlocks), Plots.Name(), block)
      ensures Settings() == old(Settings())
      ensures Valid()
    {
      block := MergeUserBlock(Plots);
    }

    method OutputBlock() returns (block: Block)
      requires Valid()
      modifies this`userBlocks
      ensures block == LibraryBlock(old(userBlocks), Settings(), Output)
      ensures userBlocks == WriteBack(old(userBlocks), Output.Name(), block)
      ensures Settings() == old(Settings())
      ensures Valid()
    {
      block := MergeUserBlock(Output);
    }

    method ElpropBlock() returns (block: Block)
      requires Valid()
      modifies this`userBlocks
      ensures block == LibraryBlock(old(userBlocks), Settings(), Elprop)
      ensures userBlocks == WriteBack(old(userBlocks), Elprop.Name(), block)
      ensures Settings() == old(Settings())
      ensures Valid()
    {
      block := MergeUserBlock(Elprop);
    }

    method NebBlock() returns (block: Block)
      requires Valid()
      modifies this`userBlocks
      ensures block == LibraryBlock(old(userBlocks), Settings(), Neb)
      ensures userBlocks == WriteBack(old(userBlocks), Neb.Name(), block)
      ensures Settings() == old(Settings())
      ensures Valid()
    {
      block := MergeUserBlock(Neb);
    }

    /** `cosmors_block`: the user's block, to which the library adds nothing. */
    function CosmorsBlock(): (block: Block)
      reads this
      ensures "cosmors" in Keys(userBlocks) ==> Get(userBlocks, "cosmors") == Some(block)
      ensures "cosmors" !in Keys(userBlocks) ==> block == []
    {
      UserBlock(userBlocks, "cosmors")
    }

    /** The getter of `lib`. */
    method LibraryGetter(lib: LibraryName) returns (block: Block)
      requires Valid()
      modifies this`userBlocks
      ensures block == LibraryBlock(old(userBlocks), Settings(), lib)
      ensures userBlocks == Refresh(old(userBlocks), Settings(), lib)
      ensures Settings() == old(Settings())
      ensures Valid()
    {
      match lib
      case Geom => block := GeomBlock();
      case Cpcm => block := CpcmBlock();
      case Plots => block := PlotsBlock();
      case Output => block := OutputBlock();
      case Elprop => block := ElpropBlock();
      case Neb => block := NebBlock();
    }

    /** One `if self.<name>_block != {}: blocks[<name>] = self.<name>_block` of `parsed_blocks`:
        the getter is asked once to test its block for emptiness and once more for the block it
        stores. */
    method AddLibraryBlock(lib: LibraryName, ghost ub: Blocks, ghost s: JobSettings, blocks: Blocks)
      returns (blocks': Blocks)
      requires Valid() && Settings() == s
      requires userBlocks == Refreshed(ub, s, lib.Position())
      requires blocks == LibrarySection(ub, s, lib.Position())
      modifies this`userBlocks
      ensures Valid() && Settings() == s
      ensures userBlocks == Refreshed(ub, s, lib.Position() + 1)
      ensures blocks' == LibrarySection(ub, s, lib.Position() + 1)
    {
      RefreshedBefore(ub, s, lib);
      RefreshTwice(userBlocks, s, lib);
      var b := LibraryGetter(lib);
      blocks' := blocks;
      if b != [] {
        b := LibraryGetter(lib);
        SectionStep(ub, s, lib);
        blocks' := Set(blocks, lib.Name(), b);
      }
    }

    /** `parsed_blocks`: the non-empty library blocks in their fixed order (the six `if`
        statements, one per entry of `LibraryOrder`), then the other user blocks. */
    method ParsedBlocks() returns (blocks: Blocks)
      requires Valid()
      modifies this`userBlocks
      ensures blocks == ParsedBlocksOf(old(userBlocks), Settings())
      ensures userBlocks == Refreshed(old(userBlocks), Settings(), |LibraryOrder|)
      ensures Valid() && Settings() == old(Settings())
    {
      ghost var ub := userBlocks;
      ghost var s := Settings();
      blocks := [];
      for i := 0 to |LibraryOrder|
        invariant Valid() && Settings() == s
        invariant userBlocks == Refreshed(ub, s, i)
        invariant blocks == LibrarySection(ub, s, i)
      {
        OrderPosition(i);
        blocks := AddLibraryBlock(LibraryOrder[i], ub, s, blocks);
      }
      blocks := AddOtherBlocks(blocks, userBlocks);
    }
  }
}
