/**
 * Worked examples of the aggregation on bundles of one package holding one source
 * file. They also pin the index convention: the first line of a file is looked up at
 * index 0, as the diff positions and the loop counter are handed to getLine unchanged.
 */
module Scenarios {
  import opened Wrappers
  import opened LineReading
  import opened IncrementalCoverage

  function OneFileBundle(f: SourceFileCoverage): BundleCoverage {
    BundleCoverage([PackageCoverage("org/example", [f])])
  }

  /** The locator that finds the given text for every file. */
  function Finds(text: string): SourceLocator {
    (pkg, name) => Some(text)
  }

  /** The locator that finds no file. */
  function FindsNothing(): SourceLocator {
    (pkg, name) => None
  }

  /** A bundle of one file tallies what that file adds. */
  lemma OneFileBundleTally(f: SourceFileCoverage, locator: SourceLocator, oldLocator: SourceLocator, diff: Differ)
    ensures BundleTally(OneFileBundle(f), locator, oldLocator, diff) == FileTally("org/example", f, locator, oldLocator, diff)
  {
    var packages := OneFileBundle(f).packages;
    var t := FileTally("org/example", f, locator, oldLocator, diff);
    assert [f][..0] == [];
    assert FilesTally("org/example", [f], locator, oldLocator, diff) == Nothing.Plus(t);
    assert packages[..0] == [];
    assert PackagesTally(packages, locator, oldLocator, diff) == Nothing.Plus(Nothing.Plus(t));
  }

  /** Reading text whose first terminator, of t characters, starts at index k. */
  lemma LinesSplitAt(s: string, k: nat, t: nat)
    requires k + t <= |s| && IsLine(s[..k]) && EndsLine(s[k..k + t], s[k + t..])
    ensures Lines(s) == [s[..k]] + Lines(s[k + t..])
  {
    LinesCons(s[..k], s[k..k + t], s[k + t..]);
    assert s == s[..k] + s[k..k + t] + s[k + t..];
  }

  /** The text "a\nb", given character by character. */
  predicate SpellsAB(s: string) {
    |s| == 3 && s[0] == 'a' && s[1] == '\n' && s[2] == 'b'
  }

  /** The text "a\n?\nc", whose middle line is the one character m. */
  predicate SpellsAMC(s: string, m: char) {
    |s| == 5 && s[0] == 'a' && s[1] == '\n' && s[2] == m && s[3] == '\n' && s[4] == 'c'
  }

  lemma LinesOfAB(s: string)
    requires SpellsAB(s)
    ensures Lines(s) == ["a", "b"]
  {
    assert s[..1] == "a" && s[1..2] == "\n" && s[2..] == "b";
    LinesSplitAt(s, 1, 1);
    LinesOfLastLine(s[2..]);
  }

  lemma LinesOfAMC(s: string, m: char)
    requires SpellsAMC(s, m) && !IsTerminator(m)
    ensures Lines(s) == ["a", [m], "c"]
  {
    assert s[..1] == "a" && s[1..2] == "\n";
    LinesSplitAt(s, 1, 1);
    var s1 := s[2..];
    assert s1[..1] == [m] && s1[1..2] == "\n" && s1[2..] == "c";
    LinesSplitAt(s1, 1, 1);
    LinesOfLastLine(s1[2..]);
  }

  /** "c\n": a terminator at the very end adds no empty line. */
  lemma LinesOfTerminatedC(s: string)
    requires |s| == 2 && s[0] == 'c' && s[1] == '\n'
    ensures Lines(s) == ["c"]
  {
    assert s[..1] == "c" && s[1..2] == "\n" && s[2..] == [];
    LinesSplitAt(s, 1, 1);
  }

  /** "x\rc\n": a lone carriage return ends a line. */
  lemma LinesOfCarriageReturn(s: string)
    requires |s| == 4 && s[0] == 'x' && s[1] == '\r' && s[2] == 'c' && s[3] == '\n'
    ensures Lines(s) == ["x", "c"]
  {
    assert s[..1] == "x" && s[1..2] == "\r";
    LinesSplitAt(s, 1, 1);
    LinesOfTerminatedC(s[2..]);
  }

  /** "a\r\nx\rc\n": each of the three terminators ends a line; "\r\n" is one terminator. */
  lemma LinesOfMixedTerminators(s: string)
    requires |s| == 7 && s[0] == 'a' && s[1] == '\r' && s[2] == '\n' && s[3] == 'x'
    requires s[4] == '\r' && s[5] == 'c' && s[6] == '\n'
    ensures Lines(s) == ["a", "x", "c"]
  {
    assert s[..1] == "a" && s[1..3] == "\r\n";
    LinesSplitAt(s, 1, 2);
    LinesOfCarriageReturn(s[3..]);
  }

  /**
   * A new file of two lines, the first fully and the second partly covered: both lines
   * count, at indices 0 and 1, and the ratio is 0.75.
   */
  lemma NewFileScenario(text: string, diff: Differ)
    requires SpellsAB(text)
    ensures var f := SourceFileCoverage("A.java", true, i => if i == 0 then FullyCovered else if i == 1 then PartlyCovered else Empty);
            var t := BundleTally(OneFileBundle(f), Finds(text), FindsNothing(), diff);
            && ChangedLines(Lines(text), None, diff) == [0, 1]
            && t == Tally(1.5, 2)
            && CoverageRatio(t) == 0.75
  {
    LinesOfAB(text);
    var f := SourceFileCoverage("A.java", true, i => if i == 0 then FullyCovered else if i == 1 then PartlyCovered else Empty);
    assert Range(0, 2) == [0, 1];
    assert [0, 1][..1] == [0];
    assert LookUps(f.lineStatus, [0, 1]) == Tally(1.5, 2);
    OneFileBundleTally(f, Finds(text), FindsNothing(), diff);
  }

  /**
   * One line changed from "b" to "x": only index 1 is looked up; it is not covered, so
   * one changed line with ratio 0.
   */
  lemma ChangedLineScenario(text: string, oldText: string, diff: Differ)
    requires SpellsAMC(text, 'x') && SpellsAMC(oldText, 'b')
    requires diff(["a", "b", "c"], ["a", "x", "c"]) == [Delta(Chunk(1, ["b"]), Chunk(1, ["x"]))]
    ensures var f := SourceFileCoverage("A.java", true, i => if i == 1 then NotCovered else FullyCovered);
            var t := BundleTally(OneFileBundle(f), Finds(text), Finds(oldText), diff);
            && ChangedLines(Lines(text), Some(Lines(oldText)), diff) == [1]
            && t == Tally(0.0, 1)
            && CoverageRatio(t) == 0.0
  {
    LinesOfAMC(text, 'x');
    LinesOfAMC(oldText, 'b');
    var f := SourceFileCoverage("A.java", true, i => if i == 1 then NotCovered else FullyCovered);
    var d := Delta(Chunk(1, ["b"]), Chunk(1, ["x"]));
    assert [d][..0] == [];
    assert Range(1, 2) == [1];
    assert DeltaLines([d]) == [1];
    assert ChangedLines(Lines(text), Some(Lines(oldText)), diff) == [1];
    assert [1][..0] == [];
    assert LookUps(f.lineStatus, [1]) == Tally(0.0, 1);
    assert FileTally("org/example", f, Finds(text), Finds(oldText), diff) == Tally(0.0, 1);
    OneFileBundleTally(f, Finds(text), Finds(oldText), diff);
  }

  /** Identical revisions: the diff has no delta, nothing counts, and the ratio is 100. */
  lemma UnchangedFileScenario(text: string, diff: Differ, lineStatus: int -> int)
    requires text == ['a']
    requires diff(["a"], ["a"]) == []
    ensures var t := BundleTally(OneFileBundle(SourceFileCoverage("A.java", true, lineStatus)), Finds(text), Finds(text), diff);
            t == Nothing && CoverageRatio(t) == 100.0
  {
    LinesOfLastLine(text);
    OneFileBundleTally(SourceFileCoverage("A.java", true, lineStatus), Finds(text), Finds(text), diff);
  }

  /** A file without code is left out of both totals, whatever its revisions hold. */
  lemma NoCodeScenario(diff: Differ, lineStatus: int -> int, text: string, oldText: string)
    ensures var t := BundleTally(OneFileBundle(SourceFileCoverage("A.java", false, lineStatus)), Finds(text), Finds(oldText), diff);
            t == Nothing && CoverageRatio(t) == 100.0
  {
    OneFileBundleTally(SourceFileCoverage("A.java", false, lineStatus), Finds(text), Finds(oldText), diff);
  }
}
