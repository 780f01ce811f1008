/**
 * FSF prototype propagation for FSL FEAT (clpipe's `glm_prepare`). A
 * prototype design file is a list of lines; the lines carrying fixed
 * markers are located once, and for every selected image (level 1) or every
 * group of level-1 results (level 2) those lines are overwritten and the
 * whole list is written out as a new design file.
 *
 * The world the code consults is an input: the working directory, the
 * results of `glob`, the number of volumes `nibabel` reports for an image,
 * which paths exist, the lines of the prototype files and the rows of the
 * level-2 subject table.
 */
module GlmPrepare {
  import opened Wrappers
  import opened Strings
  import opened Paths
  import opened Comprehensions

  /** What the code reads from outside: all of it is given. */
  datatype World = World(
    cwd: string,
    glob: string -> seq<string>,
    volumes: string -> nat,
    pathExists: string -> bool,
    readLines: string -> seq<string>,
    subjectTable: string -> seq<SubjectRow>)

  /** One row of the level-2 subject table (`L2_name`, `fsf_name`, `feat_folders`). */
  datatype SubjectRow = SubjectRow(l2Name: string, fsfName: string, featFolder: string)

  /**
   * `ImageIncludeList` / `ImageExcludeList`: the configuration holds either
   * the empty string (no list) or a list of base names.
   */
  datatype NameList = NoNames | Names(names: seq<string>)

  /** One entry of `Level1Setups`. */
  datatype L1Block = L1Block(
    modelName: string,
    targetDirectory: string,
    targetSuffix: string,
    fsfPrototype: string,
    fsfDir: string,
    outputDir: string,
    evDirectory: string,
    evFileSuffices: seq<string>,
    confoundDirectory: string,
    confoundSuffix: string,
    imageIncludeList: NameList,
    imageExcludeList: NameList)

  /** One entry of `Level2Setups`. */
  datatype L2Block = L2Block(
    modelName: string,
    subjectFile: string,
    fsfPrototype: string,
    fsfDir: string,
    outputDir: string)

  /** The `GLMSetupOptions` entries the propagation reads. */
  datatype SetupOptions = SetupOptions(taskName: string, referenceImage: string)

  datatype GlmError =
    | LevelNotValid
    | ModelNotUnique(matches: nat)
    | IncludeAndExclude
    | EvFileNotFound(found: nat, needed: nat)
    | ConfoundsNotFound(matches: nat)
    | MissingLine(marker: string)
    | FeatNotFound(folder: string)

  // ---------------------------------------------------------------------
  // Level and model selection

  datatype Level = L1 | L2

  /**
   * The level is checked against the valid level-1 values first, then the
   * level-2 ones; anything else ends the program (`sys.exit(0)`).
   */
  function SelectLevel<L(==)>(level: L, validL1: set<L>, validL2: set<L>): (r: Result<Level, GlmError>)
    ensures r == Ok(L1) <==> level in validL1
    ensures r == Ok(L2) <==> level !in validL1 && level in validL2
    ensures r.Err? <==> level !in validL1 + validL2
  {
    if level in validL1 then Ok(L1)
    else if level in validL2 then Ok(L2)
    else Err(LevelNotValid)
  }

  /** A predicate that compares with a fixed string. */
  function Equals(want: string): string -> bool {
    x => x == want
  }

  /**
   * The one block whose `ModelName` equals `str(model)`; none or several
   * raise `ValueError`.
   */
  function SelectModel(names: seq<string>, model: Option<string>): (r: Result<nat, GlmError>) {
    var hits := IndicesWhere(names, Equals(OptStr(model)));
    if |hits| != 1 then Err(ModelNotUnique(|hits|)) else Ok(hits[0])
  }

  /**
   * Model selection finds the one block carrying the name; it fails exactly
   * when no block or two different blocks carry it.
   */
  lemma SelectModelUnique(names: seq<string>, model: Option<string>)
    ensures var r := SelectModel(names, model);
      && (r.Ok? ==> r.value < |names| && names[r.value] == OptStr(model)
                    && forall j :: 0 <= j < |names| && names[j] == OptStr(model) ==> j == r.value)
      && (r.Err? ==> (forall j :: 0 <= j < |names| ==> names[j] != OptStr(model))
                     || exists j, k :: 0 <= j < k < |names| && names[j] == OptStr(model) && names[k] == OptStr(model))
  {
    var want := OptStr(model);
    var hits := IndicesWhere(names, Equals(want));
    forall j | 0 <= j < |names| && names[j] == want
      ensures j in hits
    {
      IndicesWhereComplete(names, Equals(want), j);
    }
    if |hits| > 1 {
      assert names[hits[0]] == want && names[hits[1]] == want;
    }
  }

  // ---------------------------------------------------------------------
  // Markers

  const OutputMarker := "set fmri(outputdir)"
  const FeatMarker := "set feat_files"
  const EvMarker := "set fmri(custom"
  const ConfoundMarker := "set confoundev_files(1)"
  const RegMarker := "set fmri(regstandard)"
  const NptsMarker := "set fmri(npts)"

  /** The test `marker in line`. */
  function HasMarker(marker: string): string -> bool {
    line => Contains(line, marker)
  }

  /** The ascending indices of the lines containing `marker`. */
  function MarkerIndices(lines: seq<string>, marker: string): seq<nat> {
    IndicesWhere(lines, HasMarker(marker))
  }

  /** A marker's index list holds exactly the ascending indices of the lines that contain it. */
  lemma MarkerIndicesExact(lines: seq<string>, marker: string)
    ensures var r := MarkerIndices(lines, marker);
      && (forall i: int :: i in r <==> 0 <= i < |lines| && Contains(lines[i], marker))
      && (forall j, k :: 0 <= j < k < |r| ==> r[j] < r[k])
  {
    var r := MarkerIndices(lines, marker);
    forall i: nat | i < |lines| && Contains(lines[i], marker)
      ensures i in r
    {
      IndicesWhereComplete(lines, HasMarker(marker), i);
    }
    forall i: int | i in r
      ensures 0 <= i < |lines| && Contains(lines[i], marker)
    {
      var k :| 0 <= k < |r| && r[k] == i;
    }
  }

  /** The marker index lists of a prototype. */
  datatype Markers = Markers(
    output: seq<nat>,
    image: seq<nat>,
    ev: seq<nat>,
    confound: seq<nat>,
    regstandard: seq<nat>,
    npts: seq<nat>)

  function FindMarkers(lines: seq<string>): Markers {
    Markers(
      MarkerIndices(lines, OutputMarker),
      MarkerIndices(lines, FeatMarker),
      MarkerIndices(lines, EvMarker),
      MarkerIndices(lines, ConfoundMarker),
      MarkerIndices(lines, RegMarker),
      MarkerIndices(lines, NptsMarker))
  }

  /** Every index in `m` addresses a line of a list of length `n`. */
  predicate MarkersBelow(m: Markers, n: nat) {
    && (forall k :: 0 <= k < |m.output| ==> m.output[k] < n)
    && (forall k :: 0 <= k < |m.image| ==> m.image[k] < n)
    && (forall k :: 0 <= k < |m.ev| ==> m.ev[k] < n)
    && (forall k :: 0 <= k < |m.confound| ==> m.confound[k] < n)
    && (forall k :: 0 <= k < |m.regstandard| ==> m.regstandard[k] < n)
    && (forall k :: 0 <= k < |m.npts| ==> m.npts[k] < n)
  }

  /** The indices of a single marker kind come in strictly ascending order. */
  predicate Ascending(r: seq<nat>) {
    forall j, k :: 0 <= j < k < |r| ==> r[j] < r[k]
  }

  lemma FindMarkersShape(lines: seq<string>)
    ensures MarkersBelow(FindMarkers(lines), |lines|)
    ensures Ascending(FindMarkers(lines).image) && Ascending(FindMarkers(lines).ev)
  {
  }

  // ---------------------------------------------------------------------
  // Image selection

  /** The `glob` pattern of the candidate images: `<TargetDirectory>/**/*<TargetSuffix>`. */
  function CandidatePattern(block: L1Block): string {
    PathJoin(PathJoin(block.targetDirectory, "**"), "*" + block.targetSuffix)
  }

  function BaseIn(names: seq<string>): string -> bool {
    f => Basename(f) in names
  }

  function BaseNotIn(names: seq<string>): string -> bool {
    f => Basename(f) !in names
  }

  function OfTask(task: string): string -> bool {
    f => Contains(f, "task-" + task)
  }

  /**
   * The include filter, then the exclude filter, then the task filter. Both
   * lists set at once is a `ValueError`.
   */
  function SelectImages(block: L1Block, task: string, candidates: seq<string>): Result<seq<string>, GlmError> {
    if block.imageIncludeList.Names? && block.imageExcludeList.Names? then Err(IncludeAndExclude)
    else
      var included := if block.imageIncludeList.Names? then Keep(candidates, BaseIn(block.imageIncludeList.names)) else candidates;
      var kept := if block.imageExcludeList.Names? then Keep(included, BaseNotIn(block.imageExcludeList.names)) else included;
      Ok(Keep(kept, OfTask(task)))
  }

  /** The three filters as one condition on a path. */
  predicate Wanted(block: L1Block, task: string, f: string) {
    && (block.imageIncludeList.Names? ==> Basename(f) in block.imageIncludeList.names)
    && (block.imageExcludeList.Names? ==> Basename(f) !in block.imageExcludeList.names)
    && Contains(f, "task-" + task)
  }

  /**
   * Selection fails exactly when both lists are set; otherwise it keeps, in
   * their original order, precisely the candidates that pass every filter.
   */
  lemma SelectImagesFilters(block: L1Block, task: string, candidates: seq<string>)
    ensures var r := SelectImages(block, task, candidates);
      && (r.Err? <==> block.imageIncludeList.Names? && block.imageExcludeList.Names?)
      && (r.Ok? ==> r.value == Keep(candidates, f => Wanted(block, task, f)))
      && (r.Ok? ==> forall f :: f in r.value <==> f in candidates && Wanted(block, task, f))
  {
    var inc, exc := block.imageIncludeList, block.imageExcludeList;
    var w := f => Wanted(block, task, f);
    if !(inc.Names? && exc.Names?) {
      var r := SelectImages(block, task, candidates).value;
      if inc.Names? {
        KeepKeep(candidates, BaseIn(inc.names), OfTask(task), w);
      } else if exc.Names? {
        KeepKeep(candidates, BaseNotIn(exc.names), OfTask(task), w);
      } else {
        KeepSame(candidates, OfTask(task), w);
      }
      forall f | f in candidates && Wanted(block, task, f)
        ensures f in r
      {
        KeepComplete(candidates, w, f);
      }
    }
  }

  /** The base names of a list of paths. */
  function BaseNames(files: seq<string>): (r: seq<string>)
    ensures |r| == |files| && forall i :: 0 <= i < |files| ==> r[i] == Basename(files[i])
  {
    seq(|files|, i requires 0 <= i < |files| => Basename(files[i]))
  }

  function NotIn(names: seq<string>): string -> bool {
    x => x !in names
  }

  /** `files_not_found`: the base names of the included images that are not in the include list. */
  function FilesNotFound(included: seq<string>, names: seq<string>): seq<string> {
    Keep(BaseNames(included), NotIn(names))
  }

  /**
   * The missing-file report is always empty: it is computed from the names
   * that already passed the include filter.
   */
  lemma FilesNotFoundEmpty(candidates: seq<string>, names: seq<string>)
    ensures FilesNotFound(Keep(candidates, BaseIn(names)), names) == []
  {
    var inc := Keep(candidates, BaseIn(names));
    var b := BaseNames(inc);
    forall x | x in b
      ensures !NotIn(names)(x)
    {
      var i :| 0 <= i < |b| && b[i] == x;
      assert inc[i] in inc;
    }
    KeepNone(b, NotIn(names));
  }

  // ---------------------------------------------------------------------
  // Output names

  /** `out_dir`: the image's base name with `_<suffix>` replaced by `.feat`, under `OutputDir`. */
  function FeatDir(block: L1Block, file: string): string {
    PathJoin(block.outputDir, ReplaceAll(Basename(file), "_" + block.targetSuffix, ".feat"))
  }

  /** `out_fsf`: the same replacement by `.fsf`, under `FSFDir`. */
  function OutFsf(block: L1Block, file: string): string {
    PathJoin(block.fsfDir, ReplaceAll(Basename(file), "_" + block.targetSuffix, ".fsf"))
  }

  /**
   * An image named `<stem>_<suffix>` whose first `_<suffix>` is the final
   * one gives `<stem>.feat` and `<stem>.fsf`.
   */
  lemma OutputNamesOfSuffixed(block: L1Block, file: string, stem: string)
    requires Basename(file) == stem + ("_" + block.targetSuffix)
    requires forall i :: 0 <= i < |stem| ==> !IsPrefix("_" + block.targetSuffix, (stem + ("_" + block.targetSuffix))[i..])
    ensures FeatDir(block, file) == PathJoin(block.outputDir, stem + ".feat")
    ensures OutFsf(block, file) == PathJoin(block.fsfDir, stem + ".fsf")
  {
    ReplaceAtEnd(stem, "_" + block.targetSuffix, ".feat");
    ReplaceAtEnd(stem, "_" + block.targetSuffix, ".fsf");
  }

  /** An image whose base name lacks `_<suffix>` keeps its base name, so its design file is named like the image. */
  lemma OutputNamesOfUnsuffixed(block: L1Block, file: string)
    requires !Contains(Basename(file), "_" + block.targetSuffix)
    ensures FeatDir(block, file) == PathJoin(block.outputDir, Basename(file))
    ensures OutFsf(block, file) == PathJoin(block.fsfDir, Basename(file))
  {
    ReplaceAbsent(Basename(file), "_" + block.targetSuffix, ".feat");
    ReplaceAbsent(Basename(file), "_" + block.targetSuffix, ".fsf");
  }

  // ---------------------------------------------------------------------
  // EV and confound files

  /** The result of `_get_ev_confound_mat`: the EV files and, when asked for, the confound file. */
  datatype EvConfound = EvConfound(evs: seq<string>, confounds: Option<string>)

  /** `<dir>/**/<name>`. */
  function SearchPath(dir: string, name: string): string {
    PathJoin(PathJoin(dir, "**"), name)
  }

  /** The image's base name with the target suffix removed. */
  function FilePrefix(block: L1Block, file: string): string {
    ReplaceAll(Basename(file), block.targetSuffix, "")
  }

  function EvSearch(block: L1Block, file: string, suffix: string): string {
    SearchPath(block.evDirectory, FilePrefix(block, file) + suffix)
  }

  function ConfoundSearch(block: L1Block, file: string): string {
    SearchPath(block.confoundDirectory, FilePrefix(block, file) + block.confoundSuffix)
  }

  /** The EV files found for the suffixes, in order: a suffix counts only when its search matched exactly one file. */
  function EvFound(w: World, block: L1Block, file: string, suffixes: seq<string>): (r: seq<string>)
    ensures |r| <= |suffixes|
    decreases |suffixes|
  {
    if suffixes == [] then []
    else
      var hits := w.glob(EvSearch(block, file, suffixes[|suffixes| - 1]));
      EvFound(w, block, file, suffixes[..|suffixes| - 1]) + (if |hits| == 1 then [hits[0]] else [])
  }

  /** Every suffix is found exactly when each search matched one file, and then the files line up with the suffixes. */
  lemma {:induction false} EvFoundAll(w: World, block: L1Block, file: string, suffixes: seq<string>)
    ensures var r := EvFound(w, block, file, suffixes);
      && (|r| == |suffixes| <==> forall k :: 0 <= k < |suffixes| ==> |w.glob(EvSearch(block, file, suffixes[k]))| == 1)
      && (|r| == |suffixes| ==> forall k :: 0 <= k < |suffixes| ==> r[k] == w.glob(EvSearch(block, file, suffixes[k]))[0])
    decreases |suffixes|
  {
    if suffixes != [] {
      var n := |suffixes| - 1;
      var init := suffixes[..n];
      EvFoundAll(w, block, file, init);
      var r := EvFound(w, block, file, suffixes);
      var r0 := EvFound(w, block, file, init);
      var hits := w.glob(EvSearch(block, file, suffixes[n]));
      if |r| == |suffixes| {
        assert |hits| == 1 && |r0| == n;
        assert r == r0 + [hits[0]];
        forall k | 0 <= k < |suffixes|
          ensures |w.glob(EvSearch(block, file, suffixes[k]))| == 1
          ensures r[k] == w.glob(EvSearch(block, file, suffixes[k]))[0]
        {
          if k < n {
            assert init[k] == suffixes[k];
          }
        }
      } else if |hits| == 1 {
        var k :| 0 <= k < n && |w.glob(EvSearch(block, file, init[k]))| != 1;
        assert init[k] == suffixes[k];
      }
    }
  }

  /** `_get_ev_confound_mat`, as a value. */
  function EvConfoundMatSpec(w: World, block: L1Block, file: string): (r: Result<EvConfound, GlmError>)
    ensures r.Ok? ==> |r.value.evs| == |block.evFileSuffices|
    ensures r.Ok? ==> (r.value.confounds.Some? <==> block.confoundSuffix != "")
  {
    var evs := EvFound(w, block, file, block.evFileSuffices);
    if |evs| != |block.evFileSuffices| then Err(EvFileNotFound(|evs|, |block.evFileSuffices|))
    else if block.confoundSuffix != "" then
      var hits := w.glob(ConfoundSearch(block, file));
      if |hits| != 1 then Err(ConfoundsNotFound(|hits|)) else Ok(EvConfound(evs, Some(hits[0])))
    else Ok(EvConfound(evs, None))
  }

  /**
   * The EV and confound lookup succeeds exactly when every EV suffix and (if
   * one is set) the confound suffix matched exactly one file; the result
   * lists those files, and has a confound file exactly when a confound
   * suffix is set.
   */
  lemma EvConfoundMatOk(w: World, block: L1Block, file: string)
    ensures var r := EvConfoundMatSpec(w, block, file);
      && (r.Ok? <==>
            (forall k :: 0 <= k < |block.evFileSuffices| ==> |w.glob(EvSearch(block, file, block.evFileSuffices[k]))| == 1)
            && (block.confoundSuffix != "" ==> |w.glob(ConfoundSearch(block, file))| == 1))
      && (r.Ok? ==> forall k :: 0 <= k < |block.evFileSuffices| ==>
            r.value.evs[k] == w.glob(EvSearch(block, file, block.evFileSuffices[k]))[0])
      && (r.Ok? && block.confoundSuffix != "" ==> r.value.confounds == Some(w.glob(ConfoundSearch(block, file))[0]))
      && (r.Ok? && block.confoundSuffix == "" ==> r.value.confounds == None)
  {
    EvFoundAll(w, block, file, block.evFileSuffices);
  }

  /** `_get_ev_confound_mat`: the EV loop appends one file per suffix that matched exactly once. */
  method EvConfoundMat(w: World, block: L1Block, file: string) returns (r: Result<EvConfound, GlmError>)
    ensures r == EvConfoundMatSpec(w, block, file)
  {
    var suffixes := block.evFileSuffices;
    var evFiles: seq<string> := [];
    var i := 0;
    while i < |suffixes|
      invariant 0 <= i <= |suffixes|
      invariant evFiles == EvFound(w, block, file, suffixes[..i])
    {
      var hits := w.glob(EvSearch(block, file, suffixes[i]));
      if |hits| == 1 {
        evFiles := evFiles + [hits[0]];
      }
      assert suffixes[..i + 1][..i] == suffixes[..i];
      i := i + 1;
    }
    assert suffixes[..i] == suffixes;
    if |evFiles| != |suffixes| {
      return Err(EvFileNotFound(|evFiles|, |suffixes|));
    }
    if block.confoundSuffix != "" {
      var hits := w.glob(ConfoundSearch(block, file));
      if |hits| != 1 {
        return Err(ConfoundsNotFound(|hits|));
      }
      return Ok(EvConfound(evFiles, Some(hits[0])));
    }
    return Ok(EvConfound(evFiles, None));
  }

  // ---------------------------------------------------------------------
  // Line rewrites

  /** The assignment `lines[index] = line`. */
  datatype Write = Write(index: nat, line: string)

  function Put(s: seq<string>, wr: Write): (r: seq<string>)
    ensures |r| == |s|
  {
    if wr.index < |s| then s[wr.index := wr.line] else s
  }

  /** The line last written at `j`, if any. */
  function LastLine(ws: seq<Write>, j: nat): Option<string>
    decreases |ws|
  {
    if ws == [] then None
    else if ws[|ws| - 1].index == j then Some(ws[|ws| - 1].line)
    else LastLine(ws[..|ws| - 1], j)
  }

  /**
   * The writes carried out one after another: every line holds the last
   * line written to it, or its old text when nothing touched it
   * (`ApplySnoc` relates this to the assignments made one at a time).
   */
  function Apply(s: seq<string>, ws: seq<Write>): (r: seq<string>)
    ensures |r| == |s|
  {
    seq(|s|, j requires 0 <= j < |s| => LastLine(ws, j).GetOr(s[j]))
  }

  /** No write at all leaves the lines as they are. */
  lemma ApplyNone(s: seq<string>)
    ensures Apply(s, []) == s
  {
  }

  /** Writing once more is one more assignment. */
  lemma ApplySnoc(s: seq<string>, ws: seq<Write>, wr: Write)
    ensures Apply(s, ws + [wr]) == Put(Apply(s, ws), wr)
  {
    assert (ws + [wr])[..|ws|] == ws;
  }

  /** The line numbers a list of writes touches. */
  function Indices(ws: seq<Write>): set<nat> {
    set k | 0 <= k < |ws| :: ws[k].index
  }

  /** A line has a last write exactly when some write touches it. */
  lemma {:induction false} LastLineSome(ws: seq<Write>, j: nat)
    ensures LastLine(ws, j).Some? <==> j in Indices(ws)
    decreases |ws|
  {
    if ws != [] {
      var n := |ws| - 1;
      LastLineSome(ws[..n], j);
      if ws[n].index != j {
        if j in Indices(ws) {
          var k :| 0 <= k < |ws| && ws[k].index == j;
          assert ws[..n][k].index == j;
        }
        if j in Indices(ws[..n]) {
          var k :| 0 <= k < n && ws[..n][k].index == j;
          assert ws[k].index == j;
        }
      }
    }
  }

  /** A later list of writes that touches every line an earlier one touched hides the earlier one. */
  lemma ApplyOver(s: seq<string>, w1: seq<Write>, w2: seq<Write>)
    requires Indices(w1) <= Indices(w2)
    ensures Apply(Apply(s, w1), w2) == Apply(s, w2)
  {
    var a, b := Apply(Apply(s, w1), w2), Apply(s, w2);
    forall j | 0 <= j < |s|
      ensures a[j] == b[j]
    {
      LastLineSome(w1, j);
      LastLineSome(w2, j);
    }
  }

  /** A line's last write in `a + b` is its last write in `b`, or else in `a`. */
  lemma {:induction false} LastLineAppend(a: seq<Write>, b: seq<Write>, j: nat)
    ensures LastLine(a + b, j) == if LastLine(b, j).Some? then LastLine(b, j) else LastLine(a, j)
    decreases |b|
  {
    if b == [] {
      assert a + b == a;
    } else {
      var n := |b| - 1;
      assert (a + b)[..|a + b| - 1] == a + b[..n];
      LastLineAppend(a, b[..n], j);
    }
  }

  /** Two lists of writes one after the other are their concatenation. */
  lemma ApplyAppend(s: seq<string>, a: seq<Write>, b: seq<Write>)
    ensures Apply(Apply(s, a), b) == Apply(s, a + b)
  {
    forall j | 0 <= j < |s|
      ensures Apply(Apply(s, a), b)[j] == Apply(s, a + b)[j]
    {
      LastLineAppend(a, b, j);
    }
  }

  /** No two writes touch the same line. */
  predicate Distinct(ws: seq<Write>) {
    forall a, b :: 0 <= a < b < |ws| ==> ws[a].index != ws[b].index
  }

  /** With distinct targets, each write's line is what ends up there. */
  lemma {:induction false} LastLineDistinct(ws: seq<Write>, k: nat)
    requires Distinct(ws) && k < |ws|
    ensures LastLine(ws, ws[k].index) == Some(ws[k].line)
    decreases |ws|
  {
    var n := |ws| - 1;
    if k < n {
      assert ws[n].index != ws[k].index;
      LastLineDistinct(ws[..n], k);
    }
  }

  lemma ApplyDistinct(s: seq<string>, ws: seq<Write>, k: nat)
    requires Distinct(ws) && k < |ws| && ws[k].index < |s|
    ensures Apply(s, ws)[ws[k].index] == ws[k].line
  {
    LastLineDistinct(ws, k);
  }

  // ---------------------------------------------------------------------
  // The rewritten lines

  function NptsLine(volumes: nat): string {
    NptsMarker + " " + NatToString(volumes) + "\n"
  }

  function OutputLine(dir: string): string {
    OutputMarker + " \"" + dir + "\"\n"
  }

  function FeatLine(k: nat, path: string): string {
    FeatMarker + "(" + NatToString(k) + ") \"" + path + "\"\n"
  }

  function RegLine(path: string): string {
    RegMarker + " \"" + path + "\"\n"
  }

  function ConfoundLine(path: string): string {
    ConfoundMarker + " \"" + path + "\"\n"
  }

  function CustomLine(k: nat, path: string): string {
    EvMarker + NatToString(k) + ") \"" + path + "\"\n"
  }

  // ---------------------------------------------------------------------
  // Level 1

  /** What one image does to the shared line list. */
  datatype Step =
    | Skip(reason: GlmError)
    | Edit(writes: seq<Write>, path: string)
    | Crash(error: GlmError)

  /** The writes every processed image makes before its EV lines. */
  function FixedWrites(abs: string -> string, w: World, block: L1Block, setup: SetupOptions, m: Markers, file: string, e: EvConfound): seq<Write>
    requires |m.npts| > 0 && |m.output| > 0 && |m.image| > 0
    requires setup.referenceImage != "" ==> |m.regstandard| > 0
    requires block.confoundSuffix != "" ==> |m.confound| > 0 && e.confounds.Some?
  {
    var head := [Write(m.npts[0], NptsLine(w.volumes(file)))]
      + [Write(m.output[0], OutputLine(abs(FeatDir(block, file))))]
      + [Write(m.image[0], FeatLine(1, abs(file)))];
    var withReg := if setup.referenceImage != "" then head + [Write(m.regstandard[0], RegLine(abs(setup.referenceImage)))] else head;
    if block.confoundSuffix != "" then withReg + [Write(m.confound[0], ConfoundLine(abs(e.confounds.value)))] else withReg
  }

  /** `lines[ev_file_inds[i]] = custom(i+1)` for every EV file. */
  function EvWrites(abs: string -> string, inds: seq<nat>, evs: seq<string>): seq<Write>
    requires |evs| <= |inds|
  {
    seq(|evs|, i requires 0 <= i < |evs| => Write(inds[i], CustomLine(i + 1, abs(evs[i]))))
  }

  lemma EvWritesSnoc(abs: string -> string, inds: seq<nat>, evs: seq<string>, k: nat)
    requires k < |evs| && k < |inds|
    ensures EvWrites(abs, inds, evs[..k + 1])
         == EvWrites(abs, inds, evs[..k]) + [Write(inds[k], CustomLine(k + 1, abs(evs[k])))]
  {
  }

  /**
   * The first line the fixed writes need that the prototype lacks, if any:
   * indexing an empty marker list is an uncaught `IndexError`, met in the
   * order the assignments run.
   */
  function FixedCrash(block: L1Block, setup: SetupOptions, m: Markers): (r: Option<GlmError>)
    ensures r.None? <==> |m.npts| > 0 && |m.output| > 0 && |m.image| > 0
                         && (setup.referenceImage != "" ==> |m.regstandard| > 0)
                         && (block.confoundSuffix != "" ==> |m.confound| > 0)
  {
    if |m.npts| == 0 then Some(MissingLine(NptsMarker))
    else if |m.output| == 0 then Some(MissingLine(OutputMarker))
    else if |m.image| == 0 then Some(MissingLine(FeatMarker))
    else if setup.referenceImage != "" && |m.regstandard| == 0 then Some(MissingLine(RegMarker))
    else if block.confoundSuffix != "" && |m.confound| == 0 then Some(MissingLine(ConfoundMarker))
    else None
  }

  /**
   * One image of the loop: a missing EV or confound file skips it (the
   * error is caught); a line the writes need and the prototype lacks is an
   * uncaught `IndexError`.
   */
  function ImageStep(abs: string -> string, w: World, block: L1Block, setup: SetupOptions, m: Markers, file: string): Step
  {
    var ev := EvConfoundMatSpec(w, block, file);
    if ev.Err? then Skip(ev.error)
    else match FixedCrash(block, setup, m)
      case Some(err) => Crash(err)
      case None =>
        if |m.ev| < |ev.value.evs| then Crash(MissingLine(EvMarker))
        else Edit(FixedWrites(abs, w, block, setup, m, file, ev.value) + EvWrites(abs, m.ev, ev.value.evs), OutFsf(block, file))
  }

  function ImageSteps(abs: string -> string, w: World, block: L1Block, setup: SetupOptions, m: Markers, images: seq<string>): seq<Step>
  {
    seq(|images|, i requires 0 <= i < |images| => ImageStep(abs, w, block, setup, m, images[i]))
  }

  /** `os.path.abspath` in the working directory `cwd`. */
  function AbsIn(cwd: string): string -> string
    requires IsAbs(cwd)
  {
    p => AbsPath(cwd, p)
  }

  /** A design file written out. */
  datatype FsfFile = FsfFile(path: string, lines: seq<string>)

  /** The files written, in order, and the error that stopped the loop, if any. */
  datatype L1Outcome = L1Outcome(files: seq<FsfFile>, failure: Option<GlmError>)

  function Prefixed(files: seq<FsfFile>, o: L1Outcome): L1Outcome {
    L1Outcome(files + o.files, o.failure)
  }

  lemma PrefixedTwice(files: seq<FsfFile>, f: FsfFile, o: L1Outcome)
    ensures Prefixed(files, Prefixed([f], o)) == Prefixed(files + [f], o)
  {
    assert files + ([f] + o.files) == (files + [f]) + o.files;
  }

  /**
   * The loop over images, as written: the line list is the prototype itself
   * (`new_fsf = fsf_file_template` copies no list), so each image edits the
   * list the previous images left behind.
   */
  function L1Run(state: seq<string>, steps: seq<Step>): L1Outcome
    decreases |steps|
  {
    if steps == [] then L1Outcome([], None)
    else match steps[0]
      case Skip(_) => L1Run(state, steps[1..])
      case Crash(e) => L1Outcome([], Some(e))
      case Edit(ws, path) =>
        var next := Apply(state, ws);
        Prefixed([FsfFile(path, next)], L1Run(next, steps[1..]))
  }

  /** The reference: every image edits a fresh copy of the prototype. */
  function FreshRun(template: seq<string>, steps: seq<Step>): L1Outcome
    decreases |steps|
  {
    if steps == [] then L1Outcome([], None)
    else match steps[0]
      case Skip(_) => FreshRun(template, steps[1..])
      case Crash(e) => L1Outcome([], Some(e))
      case Edit(ws, path) => Prefixed([FsfFile(path, Apply(template, ws))], FreshRun(template, steps[1..]))
  }

  /** `_glm_l1_propagate`, as a value. */
  function L1Propagation(w: World, block: L1Block, setup: SetupOptions): L1Outcome
    requires IsAbs(w.cwd)
  {
    var template := w.readLines(block.fsfPrototype);
    match SelectImages(block, setup.taskName, w.glob(CandidatePattern(block)))
    case Err(e) => L1Outcome([], Some(e))
    case Ok(images) => L1Run(template, ImageSteps(AbsIn(w.cwd), w, block, setup, FindMarkers(template), images))
  }

  /** Two lists of writes that touch the same lines in the same order. */
  predicate SameSlots(a: seq<Write>, b: seq<Write>) {
    |a| == |b| && forall k :: 0 <= k < |a| ==> a[k].index == b[k].index
  }

  lemma SameSlotsIndices(a: seq<Write>, b: seq<Write>)
    requires SameSlots(a, b)
    ensures Indices(a) == Indices(b)
  {
    forall j | j in Indices(a)
      ensures j in Indices(b)
    {
      var k :| 0 <= k < |a| && a[k].index == j;
      assert b[k].index == j;
    }
    forall j | j in Indices(b)
      ensures j in Indices(a)
    {
      var k :| 0 <= k < |b| && b[k].index == j;
      assert a[k].index == j;
    }
  }

  /** Two images with as many EV files write to the same lines in the same order. */
  lemma WritesShareSlots(abs: string -> string, w: World, block: L1Block, setup: SetupOptions, m: Markers,
                         f1: string, f2: string, e1: EvConfound, e2: EvConfound)
    requires |m.npts| > 0 && |m.output| > 0 && |m.image| > 0
    requires setup.referenceImage != "" ==> |m.regstandard| > 0
    requires block.confoundSuffix != "" ==> |m.confound| > 0 && e1.confounds.Some? && e2.confounds.Some?
    requires |e1.evs| == |e2.evs| <= |m.ev|
    ensures SameSlots(FixedWrites(abs, w, block, setup, m, f1, e1) + EvWrites(abs, m.ev, e1.evs),
                      FixedWrites(abs, w, block, setup, m, f2, e2) + EvWrites(abs, m.ev, e2.evs))
  {
    var a1, a2 := FixedWrites(abs, w, block, setup, m, f1, e1), FixedWrites(abs, w, block, setup, m, f2, e2);
    var b1, b2 := EvWrites(abs, m.ev, e1.evs), EvWrites(abs, m.ev, e2.evs);
    var ws1: seq<Write>, ws2: seq<Write> := a1 + b1, a2 + b2;
    FixedWritesSlots(abs, w, block, setup, m, f1, e1);
    FixedWritesSlots(abs, w, block, setup, m, f2, e2);
    forall k | 0 <= k < |ws1|
      ensures ws1[k].index == ws2[k].index
    {
      if k < |a1| {
        assert ws1[k] == a1[k] && ws2[k] == a2[k];
      } else {
        assert ws1[k] == b1[k - |a1|] && ws2[k] == b2[k - |a2|];
      }
    }
  }

  /** Every processed image rewrites the same lines: they depend on the markers and the settings only. */
  lemma EditsShareSlots(abs: string -> string, w: World, block: L1Block, setup: SetupOptions, m: Markers, f1: string, f2: string)
    requires ImageStep(abs, w, block, setup, m, f1).Edit? && ImageStep(abs, w, block, setup, m, f2).Edit?
    ensures Indices(ImageStep(abs, w, block, setup, m, f1).writes) == Indices(ImageStep(abs, w, block, setup, m, f2).writes)
  {
    var e1, e2 := EvConfoundMatSpec(w, block, f1).value, EvConfoundMatSpec(w, block, f2).value;
    WritesShareSlots(abs, w, block, setup, m, f1, f2, e1, e2);
    SameSlotsIndices(ImageStep(abs, w, block, setup, m, f1).writes, ImageStep(abs, w, block, setup, m, f2).writes);
  }

  /**
   * Running on the shared list gives the same files as running on fresh
   * copies, as long as the list so far differs from the prototype only on
   * lines every edit rewrites.
   */
  lemma {:induction false} SharedRunIsFresh(t: seq<string>, prev: seq<Write>, slots: set<nat>, steps: seq<Step>)
    requires Indices(prev) <= slots
    requires forall k :: 0 <= k < |steps| && steps[k].Edit? ==> Indices(steps[k].writes) == slots
    ensures L1Run(Apply(t, prev), steps) == FreshRun(t, steps)
    decreases |steps|
  {
    if steps != [] {
      assert forall k :: 0 <= k < |steps[1..]| ==> steps[1..][k] == steps[k + 1];
      match steps[0]
      case Skip(_) =>
        SharedRunIsFresh(t, prev, slots, steps[1..]);
      case Crash(_) =>
      case Edit(ws, path) =>
        ApplyOver(t, prev, ws);
        SharedRunIsFresh(t, ws, slots, steps[1..]);
    }
  }

  /**
   * The aliasing of the prototype is harmless at level 1: every written
   * design file equals the prototype with only that image's lines rewritten.
   */
  lemma L1AliasingUnobservable(w: World, block: L1Block, setup: SetupOptions)
    requires IsAbs(w.cwd)
    ensures var template := w.readLines(block.fsfPrototype);
      var selected := SelectImages(block, setup.taskName, w.glob(CandidatePattern(block)));
      selected.Ok? ==>
        L1Propagation(w, block, setup) == FreshRun(template, ImageSteps(AbsIn(w.cwd), w, block, setup, FindMarkers(template), selected.value))
  {
    var template := w.readLines(block.fsfPrototype);
    var selected := SelectImages(block, setup.taskName, w.glob(CandidatePattern(block)));
    if selected.Ok? {
      var m := FindMarkers(template);
      var images := selected.value;
      var steps := ImageSteps(AbsIn(w.cwd), w, block, setup, m, images);
      var slots: set<nat> := {};
      if k :| 0 <= k < |steps| && steps[k].Edit? {
        slots := Indices(steps[k].writes);
        forall k2 | 0 <= k2 < |steps| && steps[k2].Edit?
          ensures Indices(steps[k2].writes) == slots
        {
          EditsShareSlots(AbsIn(w.cwd), w, block, setup, m, images[k2], images[k]);
        }
      }
      ApplyNone(template);
      SharedRunIsFresh(template, [], slots, steps);
    }
  }

  /** A line no write touches keeps its text. */
  lemma ApplyUntouched(t: seq<string>, ws: seq<Write>, j: nat)
    requires j < |t| && forall k :: 0 <= k < |ws| ==> ws[k].index != j
    ensures Apply(t, ws)[j] == t[j]
  {
    LastLineSome(ws, j);
  }

  /** The fixed writes followed by the EV writes leave every other line alone. */
  lemma EditKeepsOthers(abs: string -> string, w: World, block: L1Block, setup: SetupOptions, m: Markers,
                        file: string, e: EvConfound, t: seq<string>, j: nat)
    requires |m.npts| > 0 && |m.output| > 0 && |m.image| > 0
    requires setup.referenceImage != "" ==> |m.regstandard| > 0
    requires block.confoundSuffix != "" ==> |m.confound| > 0 && e.confounds.Some?
    requires |e.evs| <= |m.ev|
    requires j < |t| && j != m.npts[0] && j != m.output[0] && j != m.image[0]
    requires setup.referenceImage != "" ==> j != m.regstandard[0]
    requires block.confoundSuffix != "" ==> j != m.confound[0]
    requires forall i :: 0 <= i < |e.evs| ==> j != m.ev[i]
    ensures Apply(t, FixedWrites(abs, w, block, setup, m, file, e) + EvWrites(abs, m.ev, e.evs))[j] == t[j]
  {
    var a := FixedWrites(abs, w, block, setup, m, file, e);
    var b := EvWrites(abs, m.ev, e.evs);
    var ws: seq<Write> := a + b;
    forall k | 0 <= k < |ws|
      ensures ws[k].index != j
    {
      if k >= |a| {
        assert ws[k] == b[k - |a|];
      }
    }
    ApplyUntouched(t, ws, j);
  }

  /** The lines the fixed writes target, in order. */
  function FixedSlots(m: Markers, ref: bool, conf: bool): seq<nat>
    requires |m.npts| > 0 && |m.output| > 0 && |m.image| > 0
    requires ref ==> |m.regstandard| > 0
    requires conf ==> |m.confound| > 0
  {
    [m.npts[0], m.output[0], m.image[0]] + (if ref then [m.regstandard[0]] else []) + (if conf then [m.confound[0]] else [])
  }

  /**
   * No line is targeted twice: the lines the fixed writes target are
   * pairwise different, and none of them is among the first `n` EV lines.
   */
  predicate TargetsApart(m: Markers, ref: bool, conf: bool, n: nat)
    requires |m.npts| > 0 && |m.output| > 0 && |m.image| > 0
    requires ref ==> |m.regstandard| > 0
    requires conf ==> |m.confound| > 0
  {
    var fixed := FixedSlots(m, ref, conf);
    && (forall x, y :: 0 <= x < y < |fixed| ==> fixed[x] != fixed[y])
    && (forall x, i :: 0 <= x < |fixed| && 0 <= i < n && i < |m.ev| ==> fixed[x] != m.ev[i])
  }

  /** Writes to ascending line numbers touch each line once. */
  lemma EvWritesDistinct(abs: string -> string, inds: seq<nat>, evs: seq<string>)
    requires |evs| <= |inds| && Ascending(inds)
    ensures Distinct(EvWrites(abs, inds, evs))
  {
  }

  /** The fixed writes target `FixedSlots`, one by one. */
  lemma FixedWritesSlots(abs: string -> string, w: World, block: L1Block, setup: SetupOptions, m: Markers, file: string, e: EvConfound)
    requires |m.npts| > 0 && |m.output| > 0 && |m.image| > 0
    requires setup.referenceImage != "" ==> |m.regstandard| > 0
    requires block.confoundSuffix != "" ==> |m.confound| > 0 && e.confounds.Some?
    ensures var a := FixedWrites(abs, w, block, setup, m, file, e);
      var f := FixedSlots(m, setup.referenceImage != "", block.confoundSuffix != "");
      |a| == |f| && forall x :: 0 <= x < |a| ==> a[x].index == f[x]
  {
  }

  /** When the targets are apart, an image's writes touch each line once. */
  lemma EditDistinct(abs: string -> string, w: World, block: L1Block, setup: SetupOptions, m: Markers, file: string, e: EvConfound)
    requires |m.npts| > 0 && |m.output| > 0 && |m.image| > 0
    requires setup.referenceImage != "" ==> |m.regstandard| > 0
    requires block.confoundSuffix != "" ==> |m.confound| > 0 && e.confounds.Some?
    requires |e.evs| <= |m.ev| && Ascending(m.ev)
    requires TargetsApart(m, setup.referenceImage != "", block.confoundSuffix != "", |e.evs|)
    ensures Distinct(FixedWrites(abs, w, block, setup, m, file, e) + EvWrites(abs, m.ev, e.evs))
  {
    var a := FixedWrites(abs, w, block, setup, m, file, e);
    var b := EvWrites(abs, m.ev, e.evs);
    var ws := a + b;
    FixedWritesSlots(abs, w, block, setup, m, file, e);
    forall x, y | 0 <= x < y < |ws|
      ensures ws[x].index != ws[y].index
    {
      if y < |a| {
        assert ws[x] == a[x] && ws[y] == a[y];
      } else if x >= |a| {
        assert ws[x] == b[x - |a|] && ws[y] == b[y - |a|];
      } else {
        assert ws[x] == a[x] && ws[y] == b[y - |a|];
      }
    }
  }

  lemma ApplyDistinctPrefix(t: seq<string>, a: seq<Write>, b: seq<Write>, k: nat)
    requires Distinct(a + b) && k < |a| && a[k].index < |t|
    ensures Apply(t, a + b)[a[k].index] == a[k].line
  {
    assert (a + b)[k] == a[k];
    ApplyDistinct(t, a + b, k);
  }

  lemma ApplyDistinctSuffix(t: seq<string>, a: seq<Write>, b: seq<Write>, k: nat)
    requires Distinct(a + b) && k < |b| && b[k].index < |t|
    ensures Apply(t, a + b)[b[k].index] == b[k].line
  {
    assert (a + b)[|a| + k] == b[k];
    ApplyDistinct(t, a + b, |a| + k);
  }

  /** After distinct writes, the i-th EV line holds `custom(i+1)`. */
  lemma EvLinesExact(t: seq<string>, a: seq<Write>, abs: string -> string, inds: seq<nat>, evs: seq<string>)
    requires |evs| <= |inds| && forall i :: 0 <= i < |inds| ==> inds[i] < |t|
    requires Distinct(a + EvWrites(abs, inds, evs))
    ensures forall i :: 0 <= i < |evs| ==> Apply(t, a + EvWrites(abs, inds, evs))[inds[i]] == CustomLine(i + 1, abs(evs[i]))
  {
    var b := EvWrites(abs, inds, evs);
    forall i | 0 <= i < |evs|
      ensures Apply(t, a + b)[inds[i]] == CustomLine(i + 1, abs(evs[i]))
    {
      assert b[i] == Write(inds[i], CustomLine(i + 1, abs(evs[i])));
      ApplyDistinctSuffix(t, a, b, i);
    }
  }

  /** When no line is targeted twice, each targeted line holds exactly what was written to it. */
  lemma EditLinesExact(abs: string -> string, w: World, block: L1Block, setup: SetupOptions, m: Markers,
                       file: string, e: EvConfound, t: seq<string>)
    requires |m.npts| > 0 && |m.output| > 0 && |m.image| > 0
    requires setup.referenceImage != "" ==> |m.regstandard| > 0
    requires block.confoundSuffix != "" ==> |m.confound| > 0 && e.confounds.Some?
    requires |e.evs| <= |m.ev| && MarkersBelow(m, |t|) && Ascending(m.ev)
    requires TargetsApart(m, setup.referenceImage != "", block.confoundSuffix != "", |e.evs|)
    ensures var r := Apply(t, FixedWrites(abs, w, block, setup, m, file, e) + EvWrites(abs, m.ev, e.evs));
      && r[m.npts[0]] == NptsLine(w.volumes(file))
      && r[m.output[0]] == OutputLine(abs(FeatDir(block, file)))
      && r[m.image[0]] == FeatLine(1, abs(file))
      && (setup.referenceImage != "" ==> r[m.regstandard[0]] == RegLine(abs(setup.referenceImage)))
      && (block.confoundSuffix != "" ==> r[m.confound[0]] == ConfoundLine(abs(e.confounds.value)))
      && (forall i :: 0 <= i < |e.evs| ==> r[m.ev[i]] == CustomLine(i + 1, abs(e.evs[i])))
  {
    var a := FixedWrites(abs, w, block, setup, m, file, e);
    var b := EvWrites(abs, m.ev, e.evs);
    EditDistinct(abs, w, block, setup, m, file, e);
    ApplyDistinctPrefix(t, a, b, 0);
    ApplyDistinctPrefix(t, a, b, 1);
    ApplyDistinctPrefix(t, a, b, 2);
    if setup.referenceImage != "" {
      ApplyDistinctPrefix(t, a, b, 3);
    }
    if block.confoundSuffix != "" {
      ApplyDistinctPrefix(t, a, b, |a| - 1);
    }
    EvLinesExact(t, a, abs, m.ev, e.evs);
  }

  /**
   * What an image writes: the volume count, the output directory, the image
   * itself, the reference image (when set), the confound file (when a
   * confound suffix is set) and the i-th EV file as `custom(i+1)`; all other
   * lines are left as they were. The line contents are exact when no line
   * is targeted twice (`TargetsApart`).
   */
  lemma ImageEditLines(abs: string -> string, w: World, block: L1Block, setup: SetupOptions, m: Markers, file: string, t: seq<string>)
    requires m == FindMarkers(t)
    requires ImageStep(abs, w, block, setup, m, file).Edit?
    ensures var ws := ImageStep(abs, w, block, setup, m, file).writes;
      var e := EvConfoundMatSpec(w, block, file).value;
      var r := Apply(t, ws);
      && (forall j :: 0 <= j < |t| && j != m.npts[0] && j != m.output[0] && j != m.image[0]
            && (setup.referenceImage != "" ==> j != m.regstandard[0])
            && (block.confoundSuffix != "" ==> j != m.confound[0])
            && (forall i :: 0 <= i < |e.evs| ==> j != m.ev[i])
            ==> r[j] == t[j])
      && (TargetsApart(m, setup.referenceImage != "", block.confoundSuffix != "", |e.evs|) ==>
            && r[m.npts[0]] == NptsLine(w.volumes(file))
            && r[m.output[0]] == OutputLine(abs(FeatDir(block, file)))
            && r[m.image[0]] == FeatLine(1, abs(file))
            && (setup.referenceImage != "" ==> r[m.regstandard[0]] == RegLine(abs(setup.referenceImage)))
            && (block.confoundSuffix != "" ==> r[m.confound[0]] == ConfoundLine(abs(e.confounds.value)))
            && (forall i :: 0 <= i < |e.evs| ==> r[m.ev[i]] == CustomLine(i + 1, abs(e.evs[i]))))
  {
    var e := EvConfoundMatSpec(w, block, file).value;
    assert ImageStep(abs, w, block, setup, m, file).writes
        == FixedWrites(abs, w, block, setup, m, file, e) + EvWrites(abs, m.ev, e.evs);
    forall j | 0 <= j < |t| && j != m.npts[0] && j != m.output[0] && j != m.image[0]
        && (setup.referenceImage != "" ==> j != m.regstandard[0])
        && (block.confoundSuffix != "" ==> j != m.confound[0])
        && (forall i :: 0 <= i < |e.evs| ==> j != m.ev[i])
      ensures Apply(t, ImageStep(abs, w, block, setup, m, file).writes)[j] == t[j]
    {
      EditKeepsOthers(abs, w, block, setup, m, file, e, t, j);
    }
    FindMarkersShape(t);
    if TargetsApart(m, setup.referenceImage != "", block.confoundSuffix != "", |e.evs|) {
      EditLinesExact(abs, w, block, setup, m, file, e, t);
    }
  }

  /** How one image of the loop ended, as the method reports it. */
  datatype Rewrite = Skipped | Crashed(error: GlmError) | Rewrote(path: string)

  /** `res` reports `step`, and the lines went from `before` to `after` as the step says. */
  predicate Performed(step: Step, res: Rewrite, before: seq<string>, after: seq<string>) {
    match step
    case Skip(_) => res == Skipped && after == before
    case Crash(e) => res == Crashed(e)
    case Edit(ws, path) => res == Rewrote(path) && after == Apply(before, ws)
  }

  /** One turn of the level-1 loop, seen from the run that is left. */
  lemma L1RunStep(state: seq<string>, steps: seq<Step>, res: Rewrite, after: seq<string>)
    requires steps != [] && Performed(steps[0], res, state, after)
    ensures res.Skipped? ==> L1Run(state, steps) == L1Run(after, steps[1..])
    ensures res.Crashed? ==> L1Run(state, steps) == L1Outcome([], Some(res.error))
    ensures res.Rewrote? ==> L1Run(state, steps) == Prefixed([FsfFile(res.path, after)], L1Run(after, steps[1..]))
  {
  }

  /** The assignment `lines[wr.index] = wr.line`, one more write after `done`. */
  method PutLine(fsf: array<string>, ghost s0: seq<string>, ghost done: seq<Write>, wr: Write)
    requires wr.index < fsf.Length && fsf[..] == Apply(s0, done)
    modifies fsf
    ensures fsf[..] == Apply(s0, done + [wr])
  {
    fsf[wr.index] := wr.line;
    ApplySnoc(s0, done, wr);
  }

  /** The fixed assignments of one image, made in place; it stops at the first missing line. */
  method WriteFixed(fsf: array<string>, abs: string -> string, w: World, block: L1Block, setup: SetupOptions, m: Markers, file: string, e: EvConfound)
    returns (crash: Option<GlmError>)
    requires MarkersBelow(m, fsf.Length)
    requires block.confoundSuffix != "" ==> e.confounds.Some?
    modifies fsf
    ensures crash == FixedCrash(block, setup, m)
    ensures crash.None? ==> fsf[..] == Apply(old(fsf[..]), FixedWrites(abs, w, block, setup, m, file, e))
  {
    ghost var s0 := fsf[..];
    if |m.npts| == 0 {
      return Some(MissingLine(NptsMarker));
    }
    var wr := Write(m.npts[0], NptsLine(w.volumes(file)));
    ApplyNone(s0);
    PutLine(fsf, s0, [], wr);
    assert [] + [wr] == [wr];
    ghost var done := [wr];
    if |m.output| == 0 {
      return Some(MissingLine(OutputMarker));
    }
    wr := Write(m.output[0], OutputLine(abs(FeatDir(block, file))));
    PutLine(fsf, s0, done, wr);
    done := done + [wr];
    if |m.image| == 0 {
      return Some(MissingLine(FeatMarker));
    }
    wr := Write(m.image[0], FeatLine(1, abs(file)));
    PutLine(fsf, s0, done, wr);
    done := done + [wr];
    if setup.referenceImage != "" {
      if |m.regstandard| == 0 {
        return Some(MissingLine(RegMarker));
      }
      wr := Write(m.regstandard[0], RegLine(abs(setup.referenceImage)));
      PutLine(fsf, s0, done, wr);
      done := done + [wr];
    }
    if block.confoundSuffix != "" {
      if |m.confound| == 0 {
        return Some(MissingLine(ConfoundMarker));
      }
      wr := Write(m.confound[0], ConfoundLine(abs(e.confounds.value)));
      PutLine(fsf, s0, done, wr);
      done := done + [wr];
    }
    return None;
  }

  /** The EV assignments in place: `custom(i+1)` at the i-th EV line, failing when the lines run out. */
  method WriteEvLines(fsf: array<string>, abs: string -> string, m: Markers, evs: seq<string>, ghost s0: seq<string>, ghost done: seq<Write>)
    returns (ok: bool)
    requires MarkersBelow(m, fsf.Length) && fsf[..] == Apply(s0, done)
    modifies fsf
    ensures ok <==> |evs| <= |m.ev|
    ensures ok ==> fsf[..] == Apply(s0, done + EvWrites(abs, m.ev, evs))
  {
    assert done + EvWrites(abs, m.ev, evs[..0]) == done;
    var i := 0;
    while i < |evs|
      invariant 0 <= i <= |evs| && i <= |m.ev|
      invariant fsf[..] == Apply(s0, done + EvWrites(abs, m.ev, evs[..i]))
    {
      if i >= |m.ev| {
        return false;
      }
      ghost var cur := done + EvWrites(abs, m.ev, evs[..i]);
      var wr := Write(m.ev[i], CustomLine(i + 1, abs(evs[i])));
      PutLine(fsf, s0, cur, wr);
      EvWritesSnoc(abs, m.ev, evs, i);
      assert done + EvWrites(abs, m.ev, evs[..i + 1]) == cur + [wr];
      i := i + 1;
    }
    assert evs[..i] == evs;
    return true;
  }

  /** The body of the level-1 loop for one image: it edits the shared lines in place. */
  method RewriteImage(fsf: array<string>, abs: string -> string, w: World, block: L1Block, setup: SetupOptions, m: Markers, file: string)
    returns (res: Rewrite)
    requires MarkersBelow(m, fsf.Length)
    modifies fsf
    ensures Performed(ImageStep(abs, w, block, setup, m, file), res, old(fsf[..]), fsf[..])
  {
    var ev := EvConfoundMat(w, block, file);
    if ev.Err? {
      return Skipped;
    }
    var e := ev.value;
    var crash := WriteFixed(fsf, abs, w, block, setup, m, file, e);
    if crash.Some? {
      return Crashed(crash.value);
    }
    var ok := WriteEvLines(fsf, abs, m, e.evs, old(fsf[..]), FixedWrites(abs, w, block, setup, m, file, e));
    if !ok {
      return Crashed(MissingLine(EvMarker));
    }
    return Rewrote(OutFsf(block, file));
  }

  /** The level-1 loop over the selected images, all editing the one array. */
  method RunImages(fsf: array<string>, abs: string -> string, w: World, block: L1Block, setup: SetupOptions, m: Markers, images: seq<string>)
    returns (out: L1Outcome)
    requires MarkersBelow(m, fsf.Length)
    modifies fsf
    ensures out == L1Run(old(fsf[..]), ImageSteps(abs, w, block, setup, m, images))
  {
    ghost var steps := ImageSteps(abs, w, block, setup, m, images);
    ghost var s0 := fsf[..];
    var files: seq<FsfFile> := [];
    var i := 0;
    while i < |images|
      invariant 0 <= i <= |images|
      invariant L1Run(s0, steps) == Prefixed(files, L1Run(fsf[..], steps[i..]))
    {
      ghost var before := fsf[..];
      var res := RewriteImage(fsf, abs, w, block, setup, m, images[i]);
      assert steps[i..][0] == steps[i] && steps[i..][1..] == steps[i + 1..];
      L1RunStep(before, steps[i..], res, fsf[..]);
      match res {
        case Skipped =>
        case Crashed(e) =>
          return L1Outcome(files, Some(e));
        case Rewrote(path) =>
          PrefixedTwice(files, FsfFile(path, fsf[..]), L1Run(fsf[..], steps[i + 1..]));
          files := files + [FsfFile(path, fsf[..])];
      }
      i := i + 1;
    }
    return L1Outcome(files, None);
  }

  /** `_glm_l1_propagate`: one array holds the prototype's lines and is rewritten image after image. */
  method GlmL1Propagate(w: World, block: L1Block, setup: SetupOptions) returns (out: L1Outcome)
    requires IsAbs(w.cwd)
    ensures out == L1Propagation(w, block, setup)
  {
    var template := w.readLines(block.fsfPrototype);
    var m := FindMarkers(template);
    var selected := SelectImages(block, setup.taskName, w.glob(CandidatePattern(block)));
    if selected.Err? {
      return L1Outcome([], Some(selected.error));
    }
    var fsf := new string[|template|](i requires 0 <= i < |template| => template[i]);
    assert fsf[..] == template;
    FindMarkersShape(template);
    out := RunImages(fsf, AbsIn(w.cwd), w, block, setup, m, selected.value);
  }

  // ---------------------------------------------------------------------
  // Level 2

  /** The rows of one level-2 model: `sub_tab['L2_name'] == ModelName`. */
  function OfModel(model: string): SubjectRow -> bool {
    (r: SubjectRow) => r.l2Name == model
  }

  /** The rows of one design file: `sub_tab["fsf_name"] == fsf`. */
  function OfFsf(name: string): SubjectRow -> bool {
    (r: SubjectRow) => r.fsfName == name
  }

  function FsfNames(rows: seq<SubjectRow>): seq<string> {
    seq(|rows|, i requires 0 <= i < |rows| => rows[i].fsfName)
  }

  function Folders(rows: seq<SubjectRow>): seq<string> {
    seq(|rows|, i requires 0 <= i < |rows| => rows[i].featFolder)
  }

  /** `.feat_folders` of the rows of one design file, in table order. */
  function FeatsOf(rows: seq<SubjectRow>, name: string): seq<string> {
    Folders(Keep(rows, OfFsf(name)))
  }

  /** The index at which `x` first appears in `s`. */
  function FirstAt(s: seq<string>, x: string): (k: nat)
    requires x in s
    ensures k < |s| && s[k] == x
    ensures forall j :: 0 <= j < k ==> s[j] != x
    decreases |s|
  {
    if s[0] == x then 0 else 1 + FirstAt(s[1..], x)
  }

  /** Appending an element moves no first appearance, and places a new one last. */
  lemma FirstAtSnoc(s: seq<string>, y: string, x: string)
    requires x in s + [y]
    ensures x in s ==> FirstAt(s + [y], x) == FirstAt(s, x)
    ensures x !in s ==> FirstAt(s + [y], x) == |s|
  {
    var k := FirstAt(s + [y], x);
    if x in s {
      var k0 := FirstAt(s, x);
      assert (s + [y])[k0] == x;
    }
  }

  /** `Series.unique()`: every value once, in order of first appearance. */
  function UniqueInOrder(s: seq<string>): (r: seq<string>)
    ensures forall x :: x in r <==> x in s
    ensures forall i, j :: 0 <= i < j < |r| ==> r[i] != r[j]
    ensures forall i, j :: 0 <= i < j < |r| ==> FirstAt(s, r[i]) < FirstAt(s, r[j])
    decreases |s|
  {
    if s == [] then []
    else
      var n := |s| - 1;
      var u := UniqueInOrder(s[..n]);
      assert s == s[..n] + [s[n]];
      assert forall x :: x in s[..n] ==> FirstAt(s, x) == FirstAt(s[..n], x) by {
        forall x | x in s[..n] { FirstAtSnoc(s[..n], s[n], x); }
      }
      if s[n] in u then u
      else
        FirstAtSnoc(s[..n], s[n], s[n]);
        u + [s[n]]
  }

  /** The first index whose feat folder is missing, or the length when none is. */
  function FirstMissing(present: string -> bool, feats: seq<string>): (r: nat)
    ensures r <= |feats|
    ensures forall j :: 0 <= j < r ==> present(feats[j])
    ensures r < |feats| ==> !present(feats[r])
    decreases |feats|
  {
    if feats == [] || !present(feats[0]) then 0
    else 1 + FirstMissing(present, feats[1..])
  }

  /** `new_fsf[image_files_ind[c-1]] = feat_files(c)` for the first `k` folders. */
  function FeatWrites(abs: string -> string, image: seq<nat>, feats: seq<string>, k: nat): seq<Write>
    requires k <= |image| && k <= |feats|
  {
    seq(k, j requires 0 <= j < k => Write(image[j], FeatLine(j + 1, abs(feats[j]))))
  }

  lemma FeatWritesSnoc(abs: string -> string, image: seq<nat>, feats: seq<string>, k: nat)
    requires k < |image| && k < |feats|
    ensures FeatWrites(abs, image, feats, k + 1)
         == FeatWrites(abs, image, feats, k) + [Write(image[k], FeatLine(k + 1, abs(feats[k])))]
  {
  }

  /** What one design file of level 2 does: the writes it made, and the file it writes or the error it logs. */
  datatype GroupStep = GroupStep(writes: seq<Write>, result: Result<string, GlmError>)

  /**
   * One pass of the level-2 loop: the feat lines are written folder by
   * folder until a folder is missing (`FileNotFoundError`) or the prototype
   * runs out of feat lines (`IndexError`); then the output directory and
   * the reference image. Every error is caught and ends only this design
   * file, and the lines already written stay written.
   */
  function GroupStepOf(abs: string -> string, w: World, block: L2Block, setup: SetupOptions, m: Markers, name: string, feats: seq<string>): GroupStep
  {
    var miss := FirstMissing(w.pathExists, feats);
    var k := if miss < |m.image| then miss else |m.image|;
    var fw := FeatWrites(abs, m.image, feats, k);
    if k < |feats| then GroupStep(fw, Err(if k == miss then FeatNotFound(feats[k]) else MissingLine(FeatMarker)))
    else if |m.output| == 0 then GroupStep(fw, Err(MissingLine(OutputMarker)))
    else
      var withOut := fw + [Write(m.output[0], OutputLine(abs(PathJoin(block.outputDir, name + ".gfeat"))))];
      if setup.referenceImage == "" then GroupStep(withOut, Ok(PathJoin(block.fsfDir, name + ".fsf")))
      else if |m.regstandard| == 0 then GroupStep(withOut, Err(MissingLine(RegMarker)))
      else GroupStep(withOut + [Write(m.regstandard[0], RegLine(abs(setup.referenceImage)))], Ok(PathJoin(block.fsfDir, name + ".fsf")))
  }

  /** The outcome for one design file of level 2. */
  datatype L2Outcome = Wrote(file: FsfFile) | Failed(error: GlmError)

  function Outcome(step: GroupStep, lines: seq<string>): L2Outcome {
    match step.result
    case Ok(path) => Wrote(FsfFile(path, lines))
    case Err(e) => Failed(e)
  }

  /** The loop over design files, all editing the one line list (the prototype is not copied). */
  function L2Run(state: seq<string>, steps: seq<GroupStep>): (r: seq<L2Outcome>)
    ensures |r| == |steps|
    ensures forall i :: 0 <= i < |r| ==> (r[i].Wrote? <==> steps[i].result.Ok?)
    ensures forall i :: 0 <= i < |r| && r[i].Wrote? ==> |r[i].file.lines| == |state|
    decreases |steps|
  {
    if steps == [] then []
    else
      var next := Apply(state, steps[0].writes);
      [Outcome(steps[0], next)] + L2Run(next, steps[1..])
  }

  /** All the writes of a run of design files, in order. */
  function AllWrites(steps: seq<GroupStep>): seq<Write>
    decreases |steps|
  {
    if steps == [] then [] else steps[0].writes + AllWrites(steps[1..])
  }

  function GroupSteps(abs: string -> string, w: World, block: L2Block, setup: SetupOptions, m: Markers,
                      rows: seq<SubjectRow>, names: seq<string>): seq<GroupStep>
  {
    seq(|names|, i requires 0 <= i < |names| => GroupStepOf(abs, w, block, setup, m, names[i], FeatsOf(rows, names[i])))
  }

  /** `_glm_l2_propagate`, as a value. */
  function L2Propagation(w: World, block: L2Block, setup: SetupOptions): seq<L2Outcome>
    requires IsAbs(w.cwd)
  {
    var template := w.readLines(block.fsfPrototype);
    var rows := Keep(w.subjectTable(block.subjectFile), OfModel(block.modelName));
    var names := UniqueInOrder(FsfNames(rows));
    L2Run(template, GroupSteps(AbsIn(w.cwd), w, block, setup, FindMarkers(template), rows, names))
  }

  lemma {:induction false} L2RunFrom(t: seq<string>, prev: seq<Write>, steps: seq<GroupStep>, i: nat)
    requires i < |steps|
    ensures L2Run(Apply(t, prev), steps)[i] == Outcome(steps[i], Apply(t, prev + AllWrites(steps[..i + 1])))
    decreases i
  {
    ApplyAppend(t, prev, steps[0].writes);
    if i == 0 {
      assert steps[..1][1..] == [];
      assert AllWrites(steps[..1]) == steps[0].writes + [];
      assert steps[0].writes + [] == steps[0].writes;
      assert L2Run(Apply(t, prev), steps)[0] == Outcome(steps[0], Apply(Apply(t, prev), steps[0].writes));
    } else {
      L2RunFrom(t, prev + steps[0].writes, steps[1..], i - 1);
      assert steps[1..][i - 1] == steps[i];
      assert steps[..i + 1][1..] == steps[1..][..i];
      assert prev + steps[0].writes + AllWrites(steps[1..][..i]) == prev + AllWrites(steps[..i + 1]);
    }
  }

  /**
   * The i-th design file of level 2 is the prototype after the writes of
   * every design file up to and including it, failed ones included: the
   * line list is shared and never reset.
   */
  lemma L2FileAt(t: seq<string>, steps: seq<GroupStep>, i: nat)
    requires i < |steps|
    ensures L2Run(t, steps)[i] == Outcome(steps[i], Apply(t, AllWrites(steps[..i + 1])))
  {
    ApplyNone(t);
    L2RunFrom(t, [], steps, i);
    assert [] + AllWrites(steps[..i + 1]) == AllWrites(steps[..i + 1]);
  }

  lemma {:induction false} AllWritesSnoc(steps: seq<GroupStep>, i: nat)
    requires i < |steps|
    ensures AllWrites(steps[..i + 1]) == AllWrites(steps[..i]) + steps[i].writes
    decreases i
  {
    if i == 0 {
      assert steps[..1][1..] == [] && steps[..0] == [];
      assert steps[0].writes + [] == [] + steps[0].writes;
    } else {
      AllWritesSnoc(steps[1..], i - 1);
      assert steps[..i + 1][1..] == steps[1..][..i];
      assert steps[..i][1..] == steps[1..][..i - 1];
      assert steps[1..][i - 1] == steps[i];
    }
  }

  lemma AllWritesOne(steps: seq<GroupStep>)
    requires |steps| > 0
    ensures AllWrites(steps[..1]) == steps[0].writes
  {
    assert steps[..1][1..] == [];
    assert steps[0].writes + [] == steps[0].writes;
  }

  /**
   * A line the i-th design file does not write holds whatever the design
   * files before it left there (or the prototype's line).
   */
  lemma L2LinesCarryOver(t: seq<string>, steps: seq<GroupStep>, i: nat, j: nat)
    requires i < |steps| && steps[i].result.Ok? && j < |t| && j !in Indices(steps[i].writes)
    ensures L2Run(t, steps)[i].file.lines[j] == LastLine(AllWrites(steps[..i]), j).GetOr(t[j])
  {
    L2FileAt(t, steps, i);
    AllWritesSnoc(steps, i);
    LastLineAppend(AllWrites(steps[..i]), steps[i].writes, j);
    LastLineSome(steps[i].writes, j);
  }

  /**
   * Lines leak from one level-2 design file into the next: a line the first
   * design file wrote, and the second does not write, appears in the
   * second file, even when the first one failed.
   */
  lemma L2StaleLine(t: seq<string>, steps: seq<GroupStep>, k: nat)
    requires |steps| >= 2 && steps[1].result.Ok?
    requires Distinct(steps[0].writes) && k < |steps[0].writes| && steps[0].writes[k].index < |t|
    requires steps[0].writes[k].index !in Indices(steps[1].writes)
    ensures L2Run(t, steps)[1].file.lines[steps[0].writes[k].index] == steps[0].writes[k].line
  {
    var wr := steps[0].writes[k];
    L2LinesCarryOver(t, steps, 1, wr.index);
    AllWritesOne(steps);
    LastLineDistinct(steps[0].writes, k);
  }

  /** A folder list with no missing folder is scanned to the end. */
  lemma FirstMissingNone(present: string -> bool, feats: seq<string>)
    requires forall j :: 0 <= j < |feats| ==> present(feats[j])
    ensures FirstMissing(present, feats) == |feats|
  {
  }

  /** `FirstMissing` is the first missing folder, wherever that is. */
  lemma FirstMissingAt(present: string -> bool, feats: seq<string>, j: nat)
    requires j < |feats| && !present(feats[j]) && forall i :: 0 <= i < j ==> present(feats[i])
    ensures FirstMissing(present, feats) == j
  {
  }

  /**
   * A level-2 design file is written exactly when every folder exists, the
   * prototype has a feat line for every folder and an output line, and a
   * reference line when a reference image is set. The first missing folder
   * reached before the feat lines run out is the error reported.
   */
  lemma GroupStepOk(abs: string -> string, w: World, block: L2Block, setup: SetupOptions, m: Markers, name: string, feats: seq<string>)
    ensures var g := GroupStepOf(abs, w, block, setup, m, name, feats);
      && (g.result.Ok? <==>
            (forall j :: 0 <= j < |feats| ==> w.pathExists(feats[j])) && |feats| <= |m.image| && |m.output| > 0
            && (setup.referenceImage != "" ==> |m.regstandard| > 0))
      && (g.result.Ok? ==> g.result.value == PathJoin(block.fsfDir, name + ".fsf"))
      && (forall j :: (0 <= j < |feats| && j <= |m.image| && !w.pathExists(feats[j])
                        && forall i :: 0 <= i < j ==> w.pathExists(feats[i]))
                      ==> g.result == Err(FeatNotFound(feats[j])))
      && (((forall j :: 0 <= j <= |m.image| && j < |feats| ==> w.pathExists(feats[j])) && |m.image| < |feats|)
          ==> g.result == Err(MissingLine(FeatMarker)))
  {
    var miss := FirstMissing(w.pathExists, feats);
    if forall j :: 0 <= j < |feats| ==> w.pathExists(feats[j]) {
      FirstMissingNone(w.pathExists, feats);
    }
    forall j | 0 <= j < |feats| && j <= |m.image| && !w.pathExists(feats[j]) && (forall i :: 0 <= i < j ==> w.pathExists(feats[i]))
      ensures GroupStepOf(abs, w, block, setup, m, name, feats).result == Err(FeatNotFound(feats[j]))
    {
      FirstMissingAt(w.pathExists, feats, j);
    }
  }

  /** Feat writes to ascending lines, then writes to other lines, touch each line once. */
  lemma WritesAfterFeatsDistinct(fw: seq<Write>, image: seq<nat>, ow: Write, rs: seq<Write>)
    requires |fw| <= |image| && Ascending(image) && forall j :: 0 <= j < |fw| ==> fw[j].index == image[j]
    requires |rs| <= 1 && forall j :: 0 <= j < |fw| ==> fw[j].index != ow.index
    requires |rs| == 1 ==> rs[0].index != ow.index && forall j :: 0 <= j < |fw| ==> fw[j].index != rs[0].index
    ensures Distinct(fw + [ow] + rs)
  {
    var ws := fw + [ow] + rs;
    forall x, y | 0 <= x < y < |ws|
      ensures ws[x].index != ws[y].index
    {
      if y < |fw| {
        assert ws[x] == fw[x] && ws[y] == fw[y];
      } else if x < |fw| {
        assert ws[x] == fw[x];
      }
    }
  }

  /**
   * A written level-2 design file holds the c-th folder at the c-th feat
   * line, the output directory and (when set) the reference image, when
   * those lines are apart.
   */
  lemma GroupLinesExact(abs: string -> string, w: World, block: L2Block, setup: SetupOptions, m: Markers, name: string,
                        feats: seq<string>, before: seq<string>)
    requires MarkersBelow(m, |before|) && Ascending(m.image)
    requires GroupStepOf(abs, w, block, setup, m, name, feats).result.Ok?
    requires forall j :: 0 <= j < |feats| ==> m.image[j] != m.output[0]
    requires setup.referenceImage != "" ==> m.regstandard[0] != m.output[0] && forall j :: 0 <= j < |feats| ==> m.image[j] != m.regstandard[0]
    ensures var r := Apply(before, GroupStepOf(abs, w, block, setup, m, name, feats).writes);
      && (forall j :: 0 <= j < |feats| ==> r[m.image[j]] == FeatLine(j + 1, abs(feats[j])))
      && r[m.output[0]] == OutputLine(abs(PathJoin(block.outputDir, name + ".gfeat")))
      && (setup.referenceImage != "" ==> r[m.regstandard[0]] == RegLine(abs(setup.referenceImage)))
  {
    GroupStepOk(abs, w, block, setup, m, name, feats);
    FirstMissingNone(w.pathExists, feats);
    var fw := FeatWrites(abs, m.image, feats, |feats|);
    var ow := Write(m.output[0], OutputLine(abs(PathJoin(block.outputDir, name + ".gfeat"))));
    var rs := if setup.referenceImage != "" then [Write(m.regstandard[0], RegLine(abs(setup.referenceImage)))] else [];
    var ws := fw + [ow] + rs;
    assert GroupStepOf(abs, w, block, setup, m, name, feats).writes == ws;
    WritesAfterFeatsDistinct(fw, m.image, ow, rs);
    forall j | 0 <= j < |feats|
      ensures Apply(before, ws)[m.image[j]] == FeatLine(j + 1, abs(feats[j]))
    {
      assert ws[j] == fw[j];
      ApplyDistinct(before, ws, j);
    }
    assert ws[|fw|] == ow;
    ApplyDistinct(before, ws, |fw|);
    if setup.referenceImage != "" {
      assert ws[|fw| + 1] == rs[0];
      ApplyDistinct(before, ws, |fw| + 1);
    }
  }

  /** The body of the level-2 loop for one design file: it edits the shared lines in place. */
  method FillGroup(fsf: array<string>, abs: string -> string, w: World, block: L2Block, setup: SetupOptions, m: Markers,
                   name: string, feats: seq<string>)
    returns (res: Result<string, GlmError>)
    requires MarkersBelow(m, fsf.Length)
    modifies fsf
    ensures var g := GroupStepOf(abs, w, block, setup, m, name, feats);
      res == g.result && fsf[..] == Apply(old(fsf[..]), g.writes)
  {
    ghost var s0 := fsf[..];
    ApplyNone(s0);
    assert FeatWrites(abs, m.image, feats, 0) == [];
    var counter := 0;
    while counter < |feats|
      invariant counter <= |feats| && counter <= |m.image|
      invariant forall j :: 0 <= j < counter ==> w.pathExists(feats[j])
      invariant fsf[..] == Apply(s0, FeatWrites(abs, m.image, feats, counter))
    {
      if !w.pathExists(feats[counter]) {
        FirstMissingAt(w.pathExists, feats, counter);
        return Err(FeatNotFound(feats[counter]));
      }
      if counter >= |m.image| {
        return Err(MissingLine(FeatMarker));
      }
      PutLine(fsf, s0, FeatWrites(abs, m.image, feats, counter), Write(m.image[counter], FeatLine(counter + 1, abs(feats[counter]))));
      FeatWritesSnoc(abs, m.image, feats, counter);
      counter := counter + 1;
    }
    FirstMissingNone(w.pathExists, feats);
    ghost var done := FeatWrites(abs, m.image, feats, |feats|);
    if |m.output| == 0 {
      return Err(MissingLine(OutputMarker));
    }
    var wr := Write(m.output[0], OutputLine(abs(PathJoin(block.outputDir, name + ".gfeat"))));
    PutLine(fsf, s0, done, wr);
    done := done + [wr];
    if setup.referenceImage != "" {
      if |m.regstandard| == 0 {
        return Err(MissingLine(RegMarker));
      }
      wr := Write(m.regstandard[0], RegLine(abs(setup.referenceImage)));
      PutLine(fsf, s0, done, wr);
      done := done + [wr];
    }
    return Ok(PathJoin(block.fsfDir, name + ".fsf"));
  }

  lemma AppendAssoc<T>(a: seq<T>, b: seq<T>, c: seq<T>)
    ensures a + (b + c) == (a + b) + c
  {
  }

  /** One turn of the level-2 loop, seen from the run that is left. */
  lemma L2RunStep(state: seq<string>, steps: seq<GroupStep>, after: seq<string>)
    requires steps != [] && after == Apply(state, steps[0].writes)
    ensures L2Run(state, steps) == [Outcome(steps[0], after)] + L2Run(after, steps[1..])
  {
  }

  /** The level-2 loop over design files, all editing the one array. */
  method RunGroups(fsf: array<string>, abs: string -> string, w: World, block: L2Block, setup: SetupOptions, m: Markers,
                   rows: seq<SubjectRow>, names: seq<string>)
    returns (out: seq<L2Outcome>)
    requires MarkersBelow(m, fsf.Length)
    modifies fsf
    ensures out == L2Run(old(fsf[..]), GroupSteps(abs, w, block, setup, m, rows, names))
  {
    ghost var steps := GroupSteps(abs, w, block, setup, m, rows, names);
    ghost var s0 := fsf[..];
    out := [];
    var i := 0;
    while i < |names|
      invariant 0 <= i <= |names|
      invariant L2Run(s0, steps) == out + L2Run(fsf[..], steps[i..])
    {
      ghost var before := fsf[..];
      var res := FillGroup(fsf, abs, w, block, setup, m, names[i], FeatsOf(rows, names[i]));
      var outcome := match res
        case Ok(path) => Wrote(FsfFile(path, fsf[..]))
        case Err(e) => Failed(e);
      L2RunStep(before, steps[i..], fsf[..]);
      assert steps[i..][0] == steps[i] && steps[i..][1..] == steps[i + 1..];
      AppendAssoc(out, [outcome], L2Run(fsf[..], steps[i + 1..]));
      out := out + [outcome];
      i := i + 1;
    }
  }

  /** `_glm_l2_propagate`: one array holds the prototype's lines and is rewritten design file after design file. */
  method GlmL2Propagate(w: World, block: L2Block, setup: SetupOptions) returns (out: seq<L2Outcome>)
    requires IsAbs(w.cwd)
    ensures out == L2Propagation(w, block, setup)
  {
    var template := w.readLines(block.fsfPrototype);
    var rows := Keep(w.subjectTable(block.subjectFile), OfModel(block.modelName));
    var names := UniqueInOrder(FsfNames(rows));
    var fsf := new string[|template|](i requires 0 <= i < |template| => template[i]);
    assert fsf[..] == template;
    FindMarkersShape(template);
    out := RunGroups(fsf, AbsIn(w.cwd), w, block, setup, FindMarkers(template), rows, names);
  }

  // ---------------------------------------------------------------------
  // The entry point

  /** The GLM configuration file: the setup options and the blocks of both levels. */
  datatype GlmConfig = GlmConfig(setup: SetupOptions, level1: seq<L1Block>, level2: seq<L2Block>)

  /** How `glm_prepare` ends. */
  datatype GlmRun = L1Done(l1: L1Outcome) | L2Done(l2: seq<L2Outcome>) | Stopped(error: GlmError)

  function L1Names(blocks: seq<L1Block>): seq<string> {
    seq(|blocks|, i requires 0 <= i < |blocks| => blocks[i].modelName)
  }

  function L2Names(blocks: seq<L2Block>): seq<string> {
    seq(|blocks|, i requires 0 <= i < |blocks| => blocks[i].modelName)
  }

  /** `glm_prepare`, as a value: pick the level, then the one block of that level named `model`, then propagate. */
  function GlmPrepareSpec<L(==)>(w: World, config: GlmConfig, level: L, validL1: set<L>, validL2: set<L>, model: Option<string>): GlmRun
    requires IsAbs(w.cwd)
  {
    match SelectLevel(level, validL1, validL2)
    case Err(e) => Stopped(e)
    case Ok(L1) =>
      (match SelectModel(L1Names(config.level1), model)
       case Err(e) => Stopped(e)
       case Ok(i) => L1Done(L1Propagation(w, config.level1[i], config.setup)))
    case Ok(L2) =>
      (match SelectModel(L2Names(config.level2), model)
       case Err(e) => Stopped(e)
       case Ok(i) => L2Done(L2Propagation(w, config.level2[i], config.setup)))
  }

  /** `glm_prepare` stops before any work exactly when the level is not a valid one. */
  lemma GlmPrepareLevel<L>(w: World, config: GlmConfig, level: L, validL1: set<L>, validL2: set<L>, model: Option<string>)
    requires IsAbs(w.cwd)
    ensures GlmPrepareSpec(w, config, level, validL1, validL2, model) == Stopped(LevelNotValid) <==> level !in validL1 + validL2
  {
  }

  /** There is exactly one index in `names` holding `want`. */
  predicate UniqueName(names: seq<string>, want: string) {
    exists i :: 0 <= i < |names| && names[i] == want && forall j :: 0 <= j < |names| && names[j] == want ==> j == i
  }

  /** The model is selected exactly when the name is unique, and then the selected block carries it. */
  lemma SelectModelIff(names: seq<string>, model: Option<string>)
    ensures var r := SelectModel(names, model);
      && (r.Ok? <==> UniqueName(names, OptStr(model)))
      && (r.Ok? ==> r.value < |names| && names[r.value] == OptStr(model))
  {
    SelectModelUnique(names, model);
    var r := SelectModel(names, model);
    if r.Ok? {
      assert names[r.value] == OptStr(model);
    }
  }

  /**
   * At level 1, `glm_prepare` propagates exactly when exactly one level-1
   * block is named `model`, and then it propagates that block.
   */
  lemma GlmPrepareL1<L>(w: World, config: GlmConfig, level: L, validL1: set<L>, validL2: set<L>, model: Option<string>)
    requires IsAbs(w.cwd) && level in validL1
    ensures var r := GlmPrepareSpec(w, config, level, validL1, validL2, model);
      && (r.L1Done? <==> UniqueName(L1Names(config.level1), OptStr(model)))
      && (r.L1Done? ==> exists i :: 0 <= i < |config.level1| && config.level1[i].modelName == OptStr(model)
                                    && r.l1 == L1Propagation(w, config.level1[i], config.setup))
      && !r.L2Done?
  {
    var n1 := L1Names(config.level1);
    SelectModelIff(n1, model);
    var s1 := SelectModel(n1, model);
    if s1.Ok? {
      assert n1[s1.value] == config.level1[s1.value].modelName;
    }
  }

  /**
   * At level 2, `glm_prepare` propagates exactly when exactly one level-2
   * block is named `model`, and then it propagates that block.
   */
  lemma GlmPrepareL2<L>(w: World, config: GlmConfig, level: L, validL1: set<L>, validL2: set<L>, model: Option<string>)
    requires IsAbs(w.cwd) && level !in validL1 && level in validL2
    ensures var r := GlmPrepareSpec(w, config, level, validL1, validL2, model);
      && (r.L2Done? <==> UniqueName(L2Names(config.level2), OptStr(model)))
      && (r.L2Done? ==> exists i :: 0 <= i < |config.level2| && config.level2[i].modelName == OptStr(model)
                                    && r.l2 == L2Propagation(w, config.level2[i], config.setup))
      && !r.L1Done?
  {
    var n2 := L2Names(config.level2);
    SelectModelIff(n2, model);
    var s2 := SelectModel(n2, model);
    if s2.Ok? {
      assert n2[s2.value] == config.level2[s2.value].modelName;
    }
  }

  /** `glm_prepare`. */
  method GlmPrepareRun<L(==)>(w: World, config: GlmConfig, level: L, validL1: set<L>, validL2: set<L>, model: Option<string>)
    returns (r: GlmRun)
    requires IsAbs(w.cwd)
    ensures r == GlmPrepareSpec(w, config, level, validL1, validL2, model)
  {
    var lv := SelectLevel(level, validL1, validL2);
    if lv.Err? {
      return Stopped(lv.error);
    }
    if lv.value == L1 {
      var sel := SelectModel(L1Names(config.level1), model);
      if sel.Err? {
        return Stopped(sel.error);
      }
      var out := GlmL1Propagate(w, config.level1[sel.value], config.setup);
      return L1Done(out);
    } else {
      var sel := SelectModel(L2Names(config.level2), model);
      if sel.Err? {
        return Stopped(sel.error);
      }
      var out := GlmL2Propagate(w, config.level2[sel.value], config.setup);
      return L2Done(out);
    }
  }
}
