# Incremental coverage of JaCoCo's command line tool, in Dafny

This project models `IncrementalVisitor` of the JaCoCo command line tool. The visitor
rates how well tests cover the lines that changed between two revisions of each
source file. It walks the packages of a coverage bundle and then their source files.
It skips a file that has no code or no new revision. For each remaining file it finds
the changed line indices: every index of the new revision when there is no old
revision, and otherwise every index in the target region `[position, position + size)`
of each delta the diff library reports. It looks up the status of each changed index
with `source.getLine(i)`, passing the 0-based index unchanged. It then adds the
status's weight (1 fully covered, 0.5 partly covered, 0 otherwise) to `linesCovered`
and 1 to `totalNumberOfLinesChanged`. The result is 100 when no line changed, and
otherwise `linesCovered / totalNumberOfLinesChanged`.

Files:

- `wrappers.dfy`: `Option`, which stands for a Java reference that may be null.
- `line_reading.dfy`: module `LineReading`. It splits a character stream into lines the
  way `BufferedReader.readLine` does: a line ends at `\n`, `\r` or `\r\n`, and a last
  line without a terminator is still returned. The spec function is `Lines`. The class
  `LineReader` keeps a read position, and its `ReadLine` method is proved against
  `Lines`.
- `incremental_visitor.dfy`: module `IncrementalCoverage`. The class `IncrementalVisitor`
  has `GetCoveragePercent`, `ReadAllLines` and `VisitBundle`. The aggregation is
  specified by `Tally` values, which hold the pair (`linesCovered`,
  `totalNumberOfLinesChanged`). `LookUps` gives what looking up a list of indices adds
  to that pair. `FileTally`, `FilesTally`, `PackagesTally` and `BundleTally` give what
  one file, one package's files, and the whole bundle add.
  `VisitBundle` is proved equal to `BundleTally` and `CoverageRatio`. The lemmas state
  the properties of that specification.
- `scenarios.dfy`: module `Scenarios`. It works through examples on one-file bundles and
  pins the index convention.

The body of the source-file loop of `visitBundle` is split into `VisitSourceFile`, and
its delta loop into `VisitDeltas`. This lets each loop be proved on its own. The
accumulators pass through these methods as in/out parameters. Their loops, branches
and updates are those of the source.

Inputs that the code gets from collaborators are parameters:

- the diff library (`DiffUtils.diff`): `diff: (seq<string>, seq<string>) -> seq<Delta>`;
- the two source locators: `(package name, file name) -> Option<string>`, which gives
  the text the `Reader` would deliver;
- the coverage of a source file: a `containsCode` flag and `lineStatus: int -> int`,
  which gives the status of `source.getLine(i)`. The status codes are those of
  JaCoCo's `ICounter` (`EMPTY` 0, `NOT_COVERED` 1, `FULLY_COVERED` 2, `PARTLY_COVERED` 3).
  `ICounter` itself is not part of this model.

The model follows the code on two points a design reading might expect otherwise:

- A changed line whose status is none of the three covered kinds (for instance `EMPTY`,
  a line without code) counts toward `totalNumberOfLinesChanged` with weight 0. It is
  not left out of the denominator (`UncoveredLinesStillCount`).
- Diff positions and the loop counter reach `getLine` 0-based and unconverted. JaCoCo
  numbers source lines from 1, so the code may look up the line before each changed
  line. The model keeps the code's indices and does not model `getLine`'s numbering, so
  it cannot show or correct this. `Scenarios.NewFileScenario` and
  `Scenarios.ChangedLineScenario` pin the convention: the first line of a file is
  looked up at index 0.

## Model

| member | source | states |
|---|---|---|
| `IncrementalCoverage.IncrementalVisitor.GetCoveragePercent` | org.jacoco.cli/src/org/jacoco/cli/internal/commands/IncrementalVisitor.java:124-138 | The weight lies in [0, 1]. It is 1 exactly for FULLY_COVERED and 0.5 exactly for PARTLY_COVERED. It is 0 exactly for every other status (NOT_COVERED, EMPTY or any other code). |
| `IncrementalCoverage.IncrementalVisitor.ReadAllLines` | org.jacoco.cli/src/org/jacoco/cli/internal/commands/IncrementalVisitor.java:140-150 | Its loop collects exactly the lines successive `readLine` calls return, in read order, so empty input gives no lines. The unused counter `nr` stays equal to the list's length. |
| `IncrementalCoverage.IncrementalVisitor.VisitBundle` | org.jacoco.cli/src/org/jacoco/cli/internal/commands/IncrementalVisitor.java:58-122 | The package and file loops end with totals equal to `BundleTally`, the sum over packages and files of what each file adds. The result is `CoverageRatio` of that tally. |
| `IncrementalCoverage.IncrementalVisitor.VisitSourceFile` | org.jacoco.cli/src/org/jacoco/cli/internal/commands/IncrementalVisitor.java:67-106 | For a file with code, the totals grow by exactly `FileTally`. A missing new revision adds nothing. A missing old revision looks up indices 0..n-1. Otherwise the diff's target regions are looked up. |
| `IncrementalCoverage.IncrementalVisitor.VisitDeltas` | org.jacoco.cli/src/org/jacoco/cli/internal/commands/IncrementalVisitor.java:83-95 | The delta loops add exactly the lookups of every index of every delta's target region, delta by delta, in ascending order within a delta. |
| `IncrementalCoverage.LookUps` | org.jacoco.cli/src/org/jacoco/cli/internal/commands/IncrementalVisitor.java:90-93 | Looking up k indices adds exactly k to the count and a sum in [0, k] to the covered total, so `0 <= linesCovered <= totalNumberOfLinesChanged`. |
| `IncrementalCoverage.FileTally` | org.jacoco.cli/src/org/jacoco/cli/internal/commands/IncrementalVisitor.java:64-106 | What one file adds keeps the covered sum between 0 and the count. |
| `IncrementalCoverage.FilesTally` | org.jacoco.cli/src/org/jacoco/cli/internal/commands/IncrementalVisitor.java:63-108 | The running totals after any number of files keep `0 <= linesCovered <= totalNumberOfLinesChanged`. |
| `IncrementalCoverage.PackagesTally` | org.jacoco.cli/src/org/jacoco/cli/internal/commands/IncrementalVisitor.java:60-116 | The running totals after any number of packages keep `0 <= linesCovered <= totalNumberOfLinesChanged`. |
| `IncrementalCoverage.CoverageRatio` | org.jacoco.cli/src/org/jacoco/cli/internal/commands/IncrementalVisitor.java:117-118 | The ratio is exactly 100 when no line changed. Otherwise it is the share `linesCovered / total`, which lies in [0, 1]: two cases on different scales. |
| `IncrementalCoverage.LookUpsAppend` | org.jacoco.cli/src/org/jacoco/cli/internal/commands/IncrementalVisitor.java:92-93 | Lookups accumulate: two runs of lookups add up their tallies. Neither `linesCovered` nor `totalNumberOfLinesChanged` ever decreases. |
| `IncrementalCoverage.UncoveredLinesStillCount` | org.jacoco.cli/src/org/jacoco/cli/internal/commands/IncrementalVisitor.java:91-93 | Lines whose status is neither fully nor partly covered still add 1 each to the count and nothing to the covered sum, because the increment is unconditional. |
| `IncrementalCoverage.AllCoveredIff` | org.jacoco.cli/src/org/jacoco/cli/internal/commands/IncrementalVisitor.java:91-93 | The covered sum equals the number of lookups if and only if every looked-up line is fully covered. |
| `IncrementalCoverage.DeltaLinesSize` | org.jacoco.cli/src/org/jacoco/cli/internal/commands/IncrementalVisitor.java:83-95 | The deltas add exactly the sum of their target sizes to the count. |
| `IncrementalCoverage.DeltaLinesCover` | org.jacoco.cli/src/org/jacoco/cli/internal/commands/IncrementalVisitor.java:85-90 | An index is looked up if and only if it lies in `[position, position + size)` of some delta's target. |
| `IncrementalCoverage.DeltaLinesAscending` | org.jacoco.cli/src/org/jacoco/cli/internal/commands/IncrementalVisitor.java:81-90 | Take ascending, non-overlapping deltas inside a new revision of n lines. Their looked-up indices are strictly ascending, so each is looked up once. They lie in [0, n), so at most n lines count. |
| `IncrementalCoverage.NewFileLooksUpEveryLine` | org.jacoco.cli/src/org/jacoco/cli/internal/commands/IncrementalVisitor.java:97-103 | With no old revision, indices 0..n-1 of the n new lines are each looked up once, in ascending order, and the count grows by exactly n. |
| `IncrementalCoverage.ChangedFileLooksUpDeltaLines` | org.jacoco.cli/src/org/jacoco/cli/internal/commands/IncrementalVisitor.java:79-95 | With an old revision, the file adds the lookups of the deltas' target indices, and the count grows by the sum of the target sizes. An empty delta list adds nothing. Well-formed deltas add at most the new line count. |
| `IncrementalCoverage.FilesTallyAppend` | org.jacoco.cli/src/org/jacoco/cli/internal/commands/IncrementalVisitor.java:63-108 | The files of a package tally up piece by piece, in any split. |
| `IncrementalCoverage.SkippedFileContributesNothing` | org.jacoco.cli/src/org/jacoco/cli/internal/commands/IncrementalVisitor.java:63-75 | A file without code, or without a new revision, changes neither total, wherever it stands among its package's files. |
| `IncrementalCoverage.IncrementalVisitor.constructor` | org.jacoco.cli/src/org/jacoco/cli/internal/commands/IncrementalVisitor.java:49-52 | The visitor keeps the old-revision locator it is given. |
| `LineReading.LineReader.ReadLine` | org.jacoco.cli/src/org/jacoco/cli/internal/commands/IncrementalVisitor.java:145 | `readLine` answers null exactly at the end of the stream. Otherwise it returns the first of the remaining lines and consumes it, so the stream shrinks. |
| `LineReading.LineLength` | org.jacoco.cli/src/org/jacoco/cli/internal/commands/IncrementalVisitor.java:145 | A line read runs up to the first terminator (`\n` or `\r`) or the end of the stream, and holds no terminator. |
| `LineReading.LinesCons` | org.jacoco.cli/src/org/jacoco/cli/internal/commands/IncrementalVisitor.java:145-148 | One `readLine` step: a line followed by `\n`, `\r\n`, or a `\r` not followed by `\n`, is read as that line, then reading goes on after the terminator. |
| `LineReading.LinesOfLastLine` | org.jacoco.cli/src/org/jacoco/cli/internal/commands/IncrementalVisitor.java:145-148 | A last line without a terminator is still returned as one line. |
| `LineReading.LinesAreLines` | org.jacoco.cli/src/org/jacoco/cli/internal/commands/IncrementalVisitor.java:145-148 | No returned line holds a terminator. |
| `LineReading.LinesOfTerminated` | org.jacoco.cli/src/org/jacoco/cli/internal/commands/IncrementalVisitor.java:140-150 | Lines written one per line feed read back as the same lines, followed by whatever comes next. |
| `Scenarios.NewFileScenario` | org.jacoco.cli/src/org/jacoco/cli/internal/commands/IncrementalVisitor.java:97-103 | A new two-line file, fully and partly covered, is looked up at indices 0 and 1. It gives 2 changed lines and the ratio 0.75. |
| `Scenarios.ChangedLineScenario` | org.jacoco.cli/src/org/jacoco/cli/internal/commands/IncrementalVisitor.java:83-95 | Changing the middle of three lines looks up index 1 only. It gives 1 changed line, not covered, and the ratio 0. |
| `Scenarios.UnchangedFileScenario` | org.jacoco.cli/src/org/jacoco/cli/internal/commands/IncrementalVisitor.java:117-118 | Identical revisions give no delta, no changed line and the ratio 100. |
| `Scenarios.NoCodeScenario` | org.jacoco.cli/src/org/jacoco/cli/internal/commands/IncrementalVisitor.java:64-66 | A file without code is left out of both totals, and the ratio is 100. |
| `Scenarios.LinesOfMixedTerminators` | org.jacoco.cli/src/org/jacoco/cli/internal/commands/IncrementalVisitor.java:145-148 | `\r\n`, `\r` and `\n` each end one line. A terminator at the very end adds no empty line. |

## Left out

- The `System.out.println` of the count and of `percent * 100` (lines 119-121) is I/O. `VisitBundle` returns the pair (`totalNumberOfLinesChanged`, ratio) instead.
- The diff algorithm of `DiffUtils.diff` belongs to a foreign library. The diff is a parameter, and the code demands nothing of it. Ascending, non-overlapping target regions inside the new revision (`WellFormedDeltas`) are assumed only by the lemmas that need them.
- Acquiring and reading streams through `ISourceFileLocator` is left out: a locator answers the text a `Reader` would deliver. `IOException`s, the closing of readers, and the old reader being opened even when the new one is missing are not modelled.
- `ISourceFileCoverage.getLine` and JaCoCo's numbering of source lines are left out: a file's coverage is a function from the index passed to `getLine` to a status. So the model cannot tell whether index i names the intended line.
- Floating point: `linesCovered` and the ratio are exact reals. So `float` rounding, and the `float` division of the ratio, are not modelled.
- Java `int` overflow: neither `totalNumberOfLinesChanged` nor `startLine + lineCount` wraps around in the model, since integers are unbounded.
- The empty callbacks `visitInfo`, `visitGroup` and `visitEnd` are left out. So is the commented-out loop over classes.
