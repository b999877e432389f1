/**
 * Incremental coverage of the JaCoCo command line tool: for every source file of a
 * bundle, the lines that changed between an old and a new revision are looked up in
 * the coverage data of the new revision, and the weights of their statuses are summed
 * into one ratio over all changed lines.
 *
 * The aggregation is specified by Tally values: what the lookups of a list of line
 * indices add to the two running totals of visitBundle, (linesCovered,
 * totalNumberOfLinesChanged).
 */
module IncrementalCoverage {
  import opened Wrappers
  import opened LineReading

  // Line status codes of org.jacoco.core.analysis.ICounter.
  const Empty: int := 0x00
  const NotCovered: int := 0x01
  const FullyCovered: int := 0x02
  const PartlyCovered: int := 0x03

  /** A region of one revision: its 0-based start and the lines it holds. */
  datatype Chunk = Chunk(position: int, lines: seq<string>) {
    function End(): int {
      position + |lines|
    }
  }

  /** One edit found by the diff: the region of the old revision and the region of the new revision that replaces it. */
  datatype Delta = Delta(source: Chunk, target: Chunk)

  /** The diff library (DiffUtils.diff): the deltas that turn the old lines into the new lines. */
  type Differ = (seq<string>, seq<string>) -> seq<Delta>

  /** A source locator: the text of a file, by package name and file name, or None (Java's null) if there is none. */
  type SourceLocator = (string, string) -> Option<string>

  /**
   * The coverage of one source file: its name, whether it contains code, and the status
   * of the line that source.getLine(i) answers for each index i.
   */
  datatype SourceFileCoverage = SourceFileCoverage(name: string, containsCode: bool, lineStatus: int -> int)

  datatype PackageCoverage = PackageCoverage(name: string, sourceFiles: seq<SourceFileCoverage>)

  datatype BundleCoverage = BundleCoverage(packages: seq<PackageCoverage>)

  /** The two running totals of visitBundle: the sum of the line weights and the number of lines looked up. */
  datatype Tally = Tally(covered: real, changed: int) {
    function Plus(t: Tally): Tally {
      Tally(covered + t.covered, changed + t.changed)
    }

    /** No line is worth more than one, and none less than nothing. */
    predicate Bounded() {
      0 <= changed && 0.0 <= covered <= changed as real
    }
  }

  const Nothing := Tally(0.0, 0)

  /** The indices lo, lo + 1, ..., hi - 1 in ascending order (none when hi <= lo). */
  function Range(lo: int, hi: int): (r: seq<int>)
    ensures |r| == if lo <= hi then hi - lo else 0
    ensures forall k :: 0 <= k < |r| ==> r[k] == lo + k
  {
    if hi <= lo then [] else seq(hi - lo, k => lo + k)
  }

  /** What looking up the given indices, in order, adds to the running totals. */
  function LookUps(lineStatus: int -> int, indices: seq<int>): (t: Tally)
    ensures t.changed == |indices|
    ensures t.Bounded()
    decreases |indices|
  {
    if indices == [] then Nothing
    else
      var last := indices[|indices| - 1];
      LookUps(lineStatus, indices[..|indices| - 1]).Plus(Tally(IncrementalVisitor.GetCoveragePercent(lineStatus(last)), 1))
  }

  /** The new-revision indices one delta covers: [position, position + size) of its target. */
  function TargetLines(d: Delta): seq<int> {
    Range(d.target.position, d.target.End())
  }

  /** The new-revision indices the deltas cover, delta by delta, in the order the diff lists them. */
  function DeltaLines(deltas: seq<Delta>): seq<int>
    decreases |deltas|
  {
    if deltas == [] then []
    else DeltaLines(deltas[..|deltas| - 1]) + TargetLines(deltas[|deltas| - 1])
  }

  /** The sum of the sizes of the deltas' target regions. */
  function TargetSize(deltas: seq<Delta>): nat
    decreases |deltas|
  {
    if deltas == [] then 0 else TargetSize(deltas[..|deltas| - 1]) + |deltas[|deltas| - 1].target.lines|
  }

  /**
   * What the diff promises of its deltas for a new revision of n lines: every target
   * region lies inside the new revision, and the regions come in ascending order
   * without overlapping.
   */
  predicate WellFormedDeltas(deltas: seq<Delta>, n: int) {
    && (forall j :: 0 <= j < |deltas| ==> 0 <= deltas[j].target.position && deltas[j].target.End() <= n)
    && (forall j, k :: 0 <= j < k < |deltas| ==> deltas[j].target.End() <= deltas[k].target.position)
  }

  predicate StrictlyAscending(xs: seq<int>) {
    forall a, b :: 0 <= a < b < |xs| ==> xs[a] < xs[b]
  }

  /**
   * The indices of a file that count as changed: every index of the new revision when
   * there is no old revision, otherwise the target regions of the diff's deltas.
   */
  function ChangedLines(newLines: seq<string>, oldLines: Option<seq<string>>, diff: Differ): seq<int> {
    match oldLines
    case None => Range(0, |newLines|)
    case Some(previous) => DeltaLines(diff(previous, newLines))
  }

  /** The lines of a revision that may be missing. */
  function ReadRevision(text: Option<string>): Option<seq<string>> {
    match text
    case None => None
    case Some(t) => Some(Lines(t))
  }

  /** What one source file of a package adds to the running totals. */
  function FileTally(pkgName: string, f: SourceFileCoverage, locator: SourceLocator, oldLocator: SourceLocator, diff: Differ): (t: Tally)
    ensures t.Bounded()
  {
    if !f.containsCode then Nothing
    else
      match locator(pkgName, f.name)
      case None => Nothing
      case Some(text) =>
        LookUps(f.lineStatus, ChangedLines(Lines(text), ReadRevision(oldLocator(pkgName, f.name)), diff))
  }

  /** What the source files of one package add to the running totals, file by file. */
  function FilesTally(pkgName: string, files: seq<SourceFileCoverage>, locator: SourceLocator, oldLocator: SourceLocator, diff: Differ): (t: Tally)
    ensures t.Bounded()
    decreases |files|
  {
    if files == [] then Nothing
    else
      FilesTally(pkgName, files[..|files| - 1], locator, oldLocator, diff)
        .Plus(FileTally(pkgName, files[|files| - 1], locator, oldLocator, diff))
  }

  /** What the packages add to the running totals, package by package. */
  function PackagesTally(packages: seq<PackageCoverage>, locator: SourceLocator, oldLocator: SourceLocator, diff: Differ): (t: Tally)
    ensures t.Bounded()
    decreases |packages|
  {
    if packages == [] then Nothing
    else
      var p := packages[|packages| - 1];
      PackagesTally(packages[..|packages| - 1], locator, oldLocator, diff)
        .Plus(FilesTally(p.name, p.sourceFiles, locator, oldLocator, diff))
  }

  function BundleTally(bundle: BundleCoverage, locator: SourceLocator, oldLocator: SourceLocator, diff: Differ): Tally {
    PackagesTally(bundle.packages, locator, oldLocator, diff)
  }

  /**
   * The final ratio of visitBundle: 100 when no line changed, otherwise the covered
   * share of the changed lines, a number in [0, 1]. The two cases are on different
   * scales, as in the source.
   */
  function CoverageRatio(t: Tally): (r: real)
    ensures t.changed == 0 ==> r == 100.0
    ensures t.Bounded() && t.changed > 0 ==> 0.0 <= r <= 1.0 && r * t.changed as real == t.covered
  {
    if t.changed == 0 then 100.0 else t.covered / t.changed as real
  }

  class IncrementalVisitor {
    const oldSourceLocator: SourceLocator

    constructor (oldSourceLocator: SourceLocator)
      ensures this.oldSourceLocator == oldSourceLocator
    {
      this.oldSourceLocator := oldSourceLocator;
    }

    /** The weight of a line status: full for fully covered, half for partly covered, none for anything else. */
    static function GetCoveragePercent(status: int): (percent: real)
      ensures 0.0 <= percent <= 1.0
      ensures percent == 1.0 <==> status == FullyCovered
      ensures percent == 0.5 <==> status == PartlyCovered
      ensures percent == 0.0 <==> status != FullyCovered && status != PartlyCovered
    {
      match status
      case NotCovered => 0.0
      case FullyCovered => 1.0
      case PartlyCovered => 0.5
      case _ => 0.0
    }

    /** All lines of a character stream, in the order readLine returns them. */
    method ReadAllLines(reader: string) returns (result: seq<string>)
      ensures result == Lines(reader)
    {
      var lineBuffer := new LineReader(reader);
      result := [];
      var nr := 0;
      var line := lineBuffer.ReadLine();
      while line.Some?
        invariant lineBuffer.Valid()
        invariant nr == |result|
        invariant result + Unread(line, reader[lineBuffer.pos..]) == Lines(reader)
        decreases |reader| - lineBuffer.pos + (if line.Some? then 1 else 0)
      {
        ConcatAssociative(result, [line.value], Lines(reader[lineBuffer.pos..]));
        nr := nr + 1;
        result := result + [line.value];
        line := lineBuffer.ReadLine();
      }
    }

    /**
     * Looks up every changed line of every source file with code of the bundle and
     * answers the number of changed lines and the coverage ratio.
     */
    method VisitBundle(bundle: BundleCoverage, locator: SourceLocator, diff: Differ)
      returns (totalNumberOfLinesChanged: int, percent: real)
      ensures totalNumberOfLinesChanged == BundleTally(bundle, locator, oldSourceLocator, diff).changed
      ensures percent == CoverageRatio(BundleTally(bundle, locator, oldSourceLocator, diff))
    {
      var linesCovered: real := 0.0;
      totalNumberOfLinesChanged := 0;
      var packages := bundle.packages;
      for p := 0 to |packages|
        invariant Tally(linesCovered, totalNumberOfLinesChanged) == PackagesTally(packages[..p], locator, oldSourceLocator, diff)
      {
        var pkg := packages[p];
        ghost var before := Tally(linesCovered, totalNumberOfLinesChanged);
        for s := 0 to |pkg.sourceFiles|
          invariant Tally(linesCovered, totalNumberOfLinesChanged)
                    == before.Plus(FilesTally(pkg.name, pkg.sourceFiles[..s], locator, oldSourceLocator, diff))
        {
          var source := pkg.sourceFiles[s];
          FilesTallySnoc(pkg.name, pkg.sourceFiles, s, locator, oldSourceLocator, diff);
          if !source.containsCode {
            continue;
          }
          linesCovered, totalNumberOfLinesChanged :=
            VisitSourceFile(pkg.name, source, locator, diff, linesCovered, totalNumberOfLinesChanged);
        }
        assert pkg.sourceFiles[..|pkg.sourceFiles|] == pkg.sourceFiles;
        PackagesTallySnoc(packages, p, locator, oldSourceLocator, diff);
      }
      assert packages[..|packages|] == packages;
      percent := if totalNumberOfLinesChanged == 0 then 100.0 else linesCovered / totalNumberOfLinesChanged as real;
    }

    /**
     * One pass of the source-file loop of visitBundle for a file with code: reads the
     * new revision (skipping the file when there is none) and the old one, and adds
     * every changed line to the running totals.
     */
    method VisitSourceFile(packagename: string, source: SourceFileCoverage, locator: SourceLocator, diff: Differ,
                           linesCovered0: real, totalNumberOfLinesChanged0: int)
      returns (linesCovered: real, totalNumberOfLinesChanged: int)
      requires source.containsCode
      ensures Tally(linesCovered, totalNumberOfLinesChanged)
              == Tally(linesCovered0, totalNumberOfLinesChanged0).Plus(FileTally(packagename, source, locator, oldSourceLocator, diff))
    {
      linesCovered, totalNumberOfLinesChanged := linesCovered0, totalNumberOfLinesChanged0;
      var sourcename := source.name;
      var reader := locator(packagename, sourcename);
      var oldFileReader := oldSourceLocator(packagename, sourcename);
      if reader.Some? {
        var newSourceFile := ReadAllLines(reader.value);
        if oldFileReader.Some? {
          var oldSourceFile := ReadAllLines(oldFileReader.value);
          var deltas := diff(oldSourceFile, newSourceFile);
          linesCovered, totalNumberOfLinesChanged :=
            VisitDeltas(source.lineStatus, deltas, linesCovered, totalNumberOfLinesChanged);
        } else {
          for i := 0 to |newSourceFile|
            invariant Tally(linesCovered, totalNumberOfLinesChanged)
                      == Tally(linesCovered0, totalNumberOfLinesChanged0).Plus(LookUps(source.lineStatus, Range(0, i)))
          {
            var linePercent := GetCoveragePercent(source.lineStatus(i));
            LookUpsSnoc(source.lineStatus, Range(0, i), i);
            RangeSnoc(0, i);
            linesCovered := linesCovered + linePercent;
            totalNumberOfLinesChanged := totalNumberOfLinesChanged + 1;
          }
        }
      }
    }

    /** The delta loop of visitBundle: adds every index of every delta's target region to the running totals. */
    method VisitDeltas(lineStatus: int -> int, deltas: seq<Delta>, linesCovered0: real, totalNumberOfLinesChanged0: int)
      returns (linesCovered: real, totalNumberOfLinesChanged: int)
      ensures Tally(linesCovered, totalNumberOfLinesChanged)
              == Tally(linesCovered0, totalNumberOfLinesChanged0).Plus(LookUps(lineStatus, DeltaLines(deltas)))
    {
      linesCovered, totalNumberOfLinesChanged := linesCovered0, totalNumberOfLinesChanged0;
      ghost var before := Tally(linesCovered0, totalNumberOfLinesChanged0);
      for j := 0 to |deltas|
        invariant Tally(linesCovered, totalNumberOfLinesChanged) == before.Plus(LookUps(lineStatus, DeltaLines(deltas[..j])))
      {
        var d := deltas[j];
        var startLine := d.target.position;
        var lineCount := |d.target.lines|;
        ghost var done := DeltaLines(deltas[..j]);
        assert done + Range(startLine, startLine) == done;
        for i := startLine to startLine + lineCount
          invariant Tally(linesCovered, totalNumberOfLinesChanged) == before.Plus(LookUps(lineStatus, done + Range(startLine, i)))
        {
          var linePercent := GetCoveragePercent(lineStatus(i));
          LookUpsSnoc(lineStatus, done + Range(startLine, i), i);
          RangeSnoc(startLine, i);
          assert done + Range(startLine, i + 1) == done + Range(startLine, i) + [i];
          linesCovered := linesCovered + linePercent;
          totalNumberOfLinesChanged := totalNumberOfLinesChanged + 1;
        }
        assert deltas[..j + 1][..j] == deltas[..j];
      }
      assert deltas[..|deltas|] == deltas;
    }
  }

  // Unfolding steps of the specification, one loop iteration each.

  lemma ConcatAssociative<T>(a: seq<T>, b: seq<T>, c: seq<T>)
    ensures a + (b + c) == (a + b) + c
  {
  }

  lemma LookUpsSnoc(lineStatus: int -> int, indices: seq<int>, i: int)
    ensures LookUps(lineStatus, indices + [i])
            == LookUps(lineStatus, indices).Plus(Tally(IncrementalVisitor.GetCoveragePercent(lineStatus(i)), 1))
  {
    assert (indices + [i])[..|indices|] == indices;
  }

  lemma RangeSnoc(lo: int, hi: int)
    requires lo <= hi
    ensures Range(lo, hi + 1) == Range(lo, hi) + [hi]
  {
  }

  lemma FilesTallySnoc(pkgName: string, files: seq<SourceFileCoverage>, s: nat, locator: SourceLocator, oldLocator: SourceLocator, diff: Differ)
    requires s < |files|
    ensures FilesTally(pkgName, files[..s + 1], locator, oldLocator, diff)
            == FilesTally(pkgName, files[..s], locator, oldLocator, diff).Plus(FileTally(pkgName, files[s], locator, oldLocator, diff))
  {
    assert files[..s + 1][..s] == files[..s];
  }

  lemma PackagesTallySnoc(packages: seq<PackageCoverage>, p: nat, locator: SourceLocator, oldLocator: SourceLocator, diff: Differ)
    requires p < |packages|
    ensures PackagesTally(packages[..p + 1], locator, oldLocator, diff)
            == PackagesTally(packages[..p], locator, oldLocator, diff)
                 .Plus(FilesTally(packages[p].name, packages[p].sourceFiles, locator, oldLocator, diff))
  {
    assert packages[..p + 1][..p] == packages[..p];
  }

  // Properties of the aggregation.

  /** Looking up two runs of indices adds up their tallies; so neither running total ever decreases. */
  lemma {:induction false} LookUpsAppend(lineStatus: int -> int, xs: seq<int>, ys: seq<int>)
    ensures LookUps(lineStatus, xs + ys) == LookUps(lineStatus, xs).Plus(LookUps(lineStatus, ys))
    ensures LookUps(lineStatus, xs).changed <= LookUps(lineStatus, xs + ys).changed
    ensures LookUps(lineStatus, xs).covered <= LookUps(lineStatus, xs + ys).covered
    decreases |ys|
  {
    if ys == [] {
      assert xs + ys == xs;
    } else {
      var init := ys[..|ys| - 1];
      var last := ys[|ys| - 1];
      assert ys == init + [last];
      assert xs + ys == (xs + init) + [last];
      LookUpsSnoc(lineStatus, xs + init, last);
      LookUpsSnoc(lineStatus, init, last);
      LookUpsAppend(lineStatus, xs, init);
    }
  }

  /**
   * A looked-up line whose status is none of the covered kinds still counts as changed:
   * it adds one to the count and nothing to the covered sum.
   */
  lemma {:induction false} UncoveredLinesStillCount(lineStatus: int -> int, indices: seq<int>)
    requires forall k :: 0 <= k < |indices| ==> lineStatus(indices[k]) != FullyCovered && lineStatus(indices[k]) != PartlyCovered
    ensures LookUps(lineStatus, indices) == Tally(0.0, |indices|)
    decreases |indices|
  {
    if indices != [] {
      UncoveredLinesStillCount(lineStatus, indices[..|indices| - 1]);
    }
  }

  /** The covered sum reaches the count exactly when every looked-up line is fully covered. */
  lemma {:induction false} AllCoveredIff(lineStatus: int -> int, indices: seq<int>)
    ensures LookUps(lineStatus, indices).covered == |indices| as real
            <==> forall k :: 0 <= k < |indices| ==> lineStatus(indices[k]) == FullyCovered
    decreases |indices|
  {
    if indices != [] {
      var init := indices[..|indices| - 1];
      AllCoveredIff(lineStatus, init);
      if forall k :: 0 <= k < |init| ==> lineStatus(init[k]) == FullyCovered {
        if lineStatus(indices[|indices| - 1]) == FullyCovered {
          forall k | 0 <= k < |indices|
            ensures lineStatus(indices[k]) == FullyCovered
          {
            if k < |init| {
              assert indices[k] == init[k];
            }
          }
        }
      } else {
        var k :| 0 <= k < |init| && lineStatus(init[k]) != FullyCovered;
        assert indices[k] == init[k];
      }
    }
  }

  /** The deltas contribute exactly as many lookups as their target regions hold lines. */
  lemma {:induction false} DeltaLinesSize(deltas: seq<Delta>)
    ensures |DeltaLines(deltas)| == TargetSize(deltas)
    decreases |deltas|
  {
    if deltas != [] {
      DeltaLinesSize(deltas[..|deltas| - 1]);
    }
  }

  /** An index is looked up exactly when it lies in the target region [position, position + size) of some delta. */
  lemma {:induction false} DeltaLinesCover(deltas: seq<Delta>, i: int)
    ensures i in DeltaLines(deltas)
            <==> exists j :: 0 <= j < |deltas| && deltas[j].target.position <= i < deltas[j].target.End()
    decreases |deltas|
  {
    if deltas != [] {
      var init := deltas[..|deltas| - 1];
      var last := deltas[|deltas| - 1];
      DeltaLinesCover(init, i);
      if i in DeltaLines(init) {
        var j :| 0 <= j < |init| && init[j].target.position <= i < init[j].target.End();
        assert deltas[j] == init[j];
      } else if last.target.position <= i < last.target.End() {
        assert TargetLines(last)[i - last.target.position] == i;
      } else {
        forall j | 0 <= j < |deltas|
          ensures !(deltas[j].target.position <= i < deltas[j].target.End())
        {
          if j < |init| {
            assert deltas[j] == init[j];
          }
        }
      }
    }
  }

  /**
   * For well-formed deltas of a new revision of n lines, the looked-up indices are
   * strictly ascending (so none is looked up twice) and lie inside the new revision,
   * so a file never counts more changed lines than it has.
   */
  lemma {:induction false} DeltaLinesAscending(deltas: seq<Delta>, n: int)
    requires 0 <= n && WellFormedDeltas(deltas, n)
    ensures StrictlyAscending(DeltaLines(deltas))
    ensures forall k :: 0 <= k < |DeltaLines(deltas)| ==> 0 <= DeltaLines(deltas)[k] < n
    ensures |DeltaLines(deltas)| <= n
    decreases |deltas|
  {
    if deltas != [] {
      var init := deltas[..|deltas| - 1];
      var last := deltas[|deltas| - 1];
      assert WellFormedDeltas(init, last.target.position) by {
        forall j | 0 <= j < |init|
          ensures init[j].target.End() <= last.target.position
        {
          assert init[j] == deltas[j];
        }
      }
      DeltaLinesAscending(init, last.target.position);
      var xs, ys := DeltaLines(init), TargetLines(last);
      assert DeltaLines(deltas) == xs + ys;
      forall a, b | 0 <= a < b < |xs + ys|
        ensures (xs + ys)[a] < (xs + ys)[b]
      {
        if b < |xs| {
          assert (xs + ys)[a] == xs[a] && (xs + ys)[b] == xs[b];
        } else if a < |xs| {
          assert (xs + ys)[a] == xs[a] && (xs + ys)[b] == ys[b - |xs|];
        } else {
          assert (xs + ys)[a] == ys[a - |xs|] && (xs + ys)[b] == ys[b - |xs|];
        }
      }
      forall k | 0 <= k < |xs + ys|
        ensures 0 <= (xs + ys)[k] < n
      {
        if k < |xs| {
          assert (xs + ys)[k] == xs[k];
        } else {
          assert (xs + ys)[k] == ys[k - |xs|];
        }
      }
    }
  }

  /** A file with no old revision: indices 0 .. n - 1 of its n new lines are each looked up once, in ascending order. */
  lemma NewFileLooksUpEveryLine(pkgName: string, f: SourceFileCoverage, locator: SourceLocator, oldLocator: SourceLocator,
                                diff: Differ, text: string)
    requires f.containsCode && locator(pkgName, f.name) == Some(text) && oldLocator(pkgName, f.name) == None
    ensures FileTally(pkgName, f, locator, oldLocator, diff) == LookUps(f.lineStatus, Range(0, |Lines(text)|))
    ensures FileTally(pkgName, f, locator, oldLocator, diff).changed == |Lines(text)|
  {
  }

  /**
   * A file with an old revision: the count grows by the summed sizes of the deltas'
   * target regions (nothing for an empty delta list), and by at most the number of new
   * lines when the deltas are well formed.
   */
  lemma ChangedFileLooksUpDeltaLines(pkgName: string, f: SourceFileCoverage, locator: SourceLocator, oldLocator: SourceLocator,
                                     diff: Differ, text: string, oldText: string)
    requires f.containsCode && locator(pkgName, f.name) == Some(text) && oldLocator(pkgName, f.name) == Some(oldText)
    ensures FileTally(pkgName, f, locator, oldLocator, diff) == LookUps(f.lineStatus, DeltaLines(diff(Lines(oldText), Lines(text))))
    ensures FileTally(pkgName, f, locator, oldLocator, diff).changed == TargetSize(diff(Lines(oldText), Lines(text)))
    ensures diff(Lines(oldText), Lines(text)) == [] ==> FileTally(pkgName, f, locator, oldLocator, diff) == Nothing
    ensures WellFormedDeltas(diff(Lines(oldText), Lines(text)), |Lines(text)|)
            ==> FileTally(pkgName, f, locator, oldLocator, diff).changed <= |Lines(text)|
  {
    var deltas := diff(Lines(oldText), Lines(text));
    DeltaLinesSize(deltas);
    if WellFormedDeltas(deltas, |Lines(text)|) {
      DeltaLinesAscending(deltas, |Lines(text)|);
    }
  }

  /** The files of a package tally up piece by piece. */
  lemma {:induction false} FilesTallyAppend(pkgName: string, xs: seq<SourceFileCoverage>, ys: seq<SourceFileCoverage>,
                                            locator: SourceLocator, oldLocator: SourceLocator, diff: Differ)
    ensures FilesTally(pkgName, xs + ys, locator, oldLocator, diff)
            == FilesTally(pkgName, xs, locator, oldLocator, diff).Plus(FilesTally(pkgName, ys, locator, oldLocator, diff))
    decreases |ys|
  {
    if ys == [] {
      assert xs + ys == xs;
    } else {
      var init := ys[..|ys| - 1];
      assert (xs + ys)[..|xs + ys| - 1] == xs + init;
      FilesTallyAppend(pkgName, xs, init, locator, oldLocator, diff);
    }
  }

  /**
   * A file without code, or without a new revision, changes neither running total,
   * wherever it stands among the files of its package.
   */
  lemma SkippedFileContributesNothing(pkgName: string, xs: seq<SourceFileCoverage>, f: SourceFileCoverage, ys: seq<SourceFileCoverage>,
                                      locator: SourceLocator, oldLocator: SourceLocator, diff: Differ)
    requires !f.containsCode || locator(pkgName, f.name) == None
    ensures FilesTally(pkgName, xs + [f] + ys, locator, oldLocator, diff) == FilesTally(pkgName, xs + ys, locator, oldLocator, diff)
  {
    var ws := xs + [f];
    assert FileTally(pkgName, f, locator, oldLocator, diff) == Nothing;
    assert ws[..|ws| - 1] == xs && ws[|ws| - 1] == f;
    assert FilesTally(pkgName, ws, locator, oldLocator, diff) == FilesTally(pkgName, xs, locator, oldLocator, diff);
    FilesTallyAppend(pkgName, ws, ys, locator, oldLocator, diff);
    FilesTallyAppend(pkgName, xs, ys, locator, oldLocator, diff);
  }
}
