/**
 * Splitting a character stream into lines the way java.io.BufferedReader.readLine
 * does: a line ends at a line feed, at a carriage return, or at a carriage return
 * immediately followed by a line feed; the terminator is not part of the line; a
 * last line without a terminator is still a line; at the end of the stream
 * readLine answers null.
 */
module LineReading {
  import opened Wrappers

  predicate IsTerminator(c: char) {
    c == '\n' || c == '\r'
  }

  /** A line as readLine returns it: it holds no terminator. */
  predicate IsLine(l: string) {
    forall j :: 0 <= j < |l| ==> !IsTerminator(l[j])
  }

  /** The length of the first line of s: the index of its first terminator, or |s| if it has none. */
  function LineLength(s: string): (k: nat)
    ensures k <= |s|
    ensures IsLine(s[..k])
    ensures k < |s| ==> IsTerminator(s[k])
  {
    if s == [] || IsTerminator(s[0]) then 0 else 1 + LineLength(s[1..])
  }

  /** The first line ends exactly where the first terminator is. */
  lemma {:induction false} LineLengthAt(s: string, m: nat)
    requires m <= |s| && IsLine(s[..m]) && (m < |s| ==> IsTerminator(s[m]))
    ensures LineLength(s) == m
  {
    if m > 0 {
      assert s[0] == s[..m][0];
      assert s[1..][..m - 1] == s[..m][1..];
      LineLengthAt(s[1..], m - 1);
    }
  }

  /** The number of characters of the terminator that starts at index k ("\r\n" is one terminator of two). */
  function TerminatorLength(s: string, k: nat): (t: nat)
    requires k <= |s|
    ensures k + t <= |s|
    ensures k < |s| <==> t > 0
  {
    if k == |s| then 0
    else if s[k] == '\r' && k + 1 < |s| && s[k + 1] == '\n' then 2
    else 1
  }

  /** The lines that successive readLine calls return on s, in order, before the first null. */
  function Lines(s: string): seq<string>
    decreases |s|
  {
    if s == [] then []
    else
      var k := LineLength(s);
      [s[..k]] + Lines(s[k + TerminatorLength(s, k)..])
  }

  /** The text a line followed by one of its terminators and the rest of the stream. */
  predicate EndsLine(term: string, tail: string) {
    || term == "\n"
    || term == "\r\n"
    || (term == "\r" && (tail == [] || tail[0] != '\n'))
  }

  /** One readLine step: a line, its terminator, then the rest of the stream. */
  lemma LinesCons(l: string, term: string, tail: string)
    requires IsLine(l) && EndsLine(term, tail)
    ensures Lines(l + term + tail) == [l] + Lines(tail)
  {
    var s := l + term + tail;
    assert s[..|l|] == l;
    assert s[|l|] == term[0];
    LineLengthAt(s, |l|);
    assert s[|l| + TerminatorLength(s, |l|)..] == tail;
  }

  /** A non-empty line with no terminator after it is read as one line. */
  lemma LinesOfLastLine(l: string)
    requires IsLine(l) && l != []
    ensures Lines(l) == [l]
  {
    assert l[..|l|] == l;
    LineLengthAt(l, |l|);
    assert l[|l| + TerminatorLength(l, |l|)..] == [];
  }

  /** Every line returned holds no terminator. */
  lemma {:induction false} LinesAreLines(s: string)
    ensures forall i :: 0 <= i < |Lines(s)| ==> IsLine(Lines(s)[i])
    decreases |s|
  {
    if s != [] {
      var k := LineLength(s);
      LinesAreLines(s[k + TerminatorLength(s, k)..]);
    }
  }

  /** The lines, each followed by a line feed. */
  function Terminated(ls: seq<string>): string {
    if ls == [] then [] else ls[0] + "\n" + Terminated(ls[1..])
  }

  /** Reading back lines written one per line feed gives the same lines, then whatever follows. */
  lemma {:induction false} LinesOfTerminated(ls: seq<string>, tail: string)
    requires forall i :: 0 <= i < |ls| ==> IsLine(ls[i])
    ensures Lines(Terminated(ls) + tail) == ls + Lines(tail)
  {
    if ls == [] {
      assert Terminated(ls) + tail == tail;
    } else {
      var rest := Terminated(ls[1..]) + tail;
      assert Terminated(ls) + tail == ls[0] + "\n" + rest;
      calc {
        Lines(Terminated(ls) + tail);
        Lines(ls[0] + "\n" + rest);
        { LinesCons(ls[0], "\n", rest); }
        [ls[0]] + Lines(rest);
        { LinesOfTerminated(ls[1..], tail); }
        [ls[0]] + (ls[1..] + Lines(tail));
        ls + Lines(tail);
      }
    }
  }

  /** The lines still to come when readLine has just answered line and rest is not yet read. */
  function Unread(line: Option<string>, rest: string): seq<string> {
    match line
    case None => []
    case Some(l) => [l] + Lines(rest)
  }

  /**
   * The character stream behind a java.io.BufferedReader: the text it delivers and
   * how much of it readLine has consumed so far; text[pos..] is still unread.
   */
  class LineReader {
    const text: string
    var pos: nat

    ghost predicate Valid()
      reads this
    {
      pos <= |text|
    }

    constructor (text: string)
      ensures Valid() && this.text == text && pos == 0
    {
      this.text := text;
      pos := 0;
    }

    /** Reads the next line, or answers None (Java's null) at the end of the stream. */
    method ReadLine() returns (line: Option<string>)
      requires Valid()
      modifies this
      ensures Valid()
      ensures line == None <==> old(pos) == |text|
      ensures line == None ==> pos == |text|
      ensures line.Some? ==> old(pos) < pos
      ensures Unread(line, text[pos..]) == Lines(text[old(pos)..])
    {
      if pos == |text| {
        line := None;
      } else {
        var rest := text[pos..];
        var k := LineLength(rest);
        line := Some(rest[..k]);
        pos := pos + k + TerminatorLength(rest, k);
        assert text[pos..] == rest[k + TerminatorLength(rest, k)..];
      }
    }
  }
}
