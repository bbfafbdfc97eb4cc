/**
 * Grouping a page's words into text lines by vertical proximity.  A line is
 * anchored at the `top` of its first word; a word joins the open line while
 * its `top` is within the tolerance of that anchor, otherwise it opens the
 * next line.  Later words of a line never move the anchor.
 */
module LineGrouping {
  import opened Options
  import opened Geometry

  const LineTolerance: real := 3.0

  /** `abs(top - anchor) <= 3`. */
  predicate InBand(top: real, anchor: real) {
    Abs(top - anchor) <= LineTolerance
  }

  /** The end of the line that starts at `ws[0]`, searching from index `k`. */
  function BandEnd(ws: seq<Word>, k: nat): (e: nat)
    requires 1 <= k <= |ws|
    ensures k <= e <= |ws|
    ensures forall m :: k <= m < e ==> InBand(ws[m].top, ws[0].top)
    ensures e == |ws| || !InBand(ws[e].top, ws[0].top)
    decreases |ws| - k
  {
    if k == |ws| || !InBand(ws[k].top, ws[0].top) then k else BandEnd(ws, k + 1)
  }

  /** The lines of a word sequence: the maximal anchored band first, then the lines of the rest. */
  function GroupLines(ws: seq<Word>): (lines: seq<seq<Word>>)
    ensures forall i :: 0 <= i < |lines| ==> lines[i] != []
    decreases |ws|
  {
    if ws == [] then []
    else
      var e := BandEnd(ws, 1);
      [ws[..e]] + GroupLines(ws[e..])
  }

  function Flatten(lines: seq<seq<Word>>): seq<Word> {
    if lines == [] then [] else Flatten(lines[..|lines| - 1]) + lines[|lines| - 1]
  }

  lemma {:induction false} FlattenPrepend(line: seq<Word>, lines: seq<seq<Word>>)
    ensures Flatten([line] + lines) == line + Flatten(lines)
    decreases |lines|
  {
    if lines != [] {
      var init := lines[..|lines| - 1];
      assert ([line] + lines)[..|lines|] == [line] + init;
      FlattenPrepend(line, init);
    }
  }

  /** A word sequence splits into lines at exactly one place: where the anchor band ends. */
  predicate IsLine(line: seq<Word>) {
    line != [] && forall m :: 0 <= m < |line| ==> InBand(line[m].top, line[0].top)
  }

  /** The first word of each line after the first lies outside the band of the previous line's first word. */
  ghost predicate AnchorsApart(lines: seq<seq<Word>>) {
    forall i {:trigger lines[i]} :: 0 <= i < |lines| - 1 ==>
      lines[i] != [] && lines[i + 1] != [] && !InBand(lines[i + 1][0].top, lines[i][0].top)
  }

  /** Grouping partitions the words: the lines, read in order, give back every word once. */
  lemma {:induction false} GroupLinesPartition(ws: seq<Word>)
    ensures Flatten(GroupLines(ws)) == ws
    ensures ws == [] <==> GroupLines(ws) == []
    decreases |ws|
  {
    if ws != [] {
      var e := BandEnd(ws, 1);
      var rest := GroupLines(ws[e..]);
      assert GroupLines(ws) == [ws[..e]] + rest;
      GroupLinesPartition(ws[e..]);
      FlattenPrepend(ws[..e], rest);
      assert Flatten(rest) == ws[e..];
      assert ws[..e] + ws[e..] == ws;
    }
  }

  /**
   * Every word of a line lies within the tolerance of the line's first word,
   * and the first word of each following line lies outside the tolerance of
   * the previous line's first word.
   */
  lemma {:induction false} GroupLinesBands(ws: seq<Word>)
    ensures forall i :: 0 <= i < |GroupLines(ws)| ==> IsLine(GroupLines(ws)[i])
    ensures AnchorsApart(GroupLines(ws))
    decreases |ws|
  {
    if ws != [] {
      var e := BandEnd(ws, 1);
      var rest := GroupLines(ws[e..]);
      GroupLinesBands(ws[e..]);
      GroupLinesPartition(ws[e..]);
      assert GroupLines(ws) == [ws[..e]] + rest;
      assert IsLine(ws[..e]);
      if rest != [] {
        assert rest[0] == ws[e..][..BandEnd(ws[e..], 1)];
        assert rest[0][0] == ws[e];
      }
    }
  }

  /** A line followed by a word outside its band stays a line of its own. */
  lemma LineThenBreak(line: seq<Word>, rest: seq<Word>)
    requires IsLine(line)
    requires rest == [] || !InBand(rest[0].top, line[0].top)
    ensures GroupLines(line + rest) == [line] + GroupLines(rest)
  {
    var ws := line + rest;
    assert forall m :: 0 <= m < |line| ==> ws[m] == line[m];
    assert |line| < |ws| ==> !InBand(ws[|line|].top, ws[0].top);
    var e := BandEnd(ws, 1);
    assert e == |line|;
    assert ws[..e] == line && ws[e..] == rest;
  }

  /**
   * The grouping loop's invariant after reading `words[..i]`: the finished
   * lines, then the lines of the open line followed by the unread words, make
   * up the grouping of all words; the open line is anchored at its first word.
   */
  predicate Scanned(words: seq<Word>, i: nat, currentY: Option<real>, open: seq<Word>, lines: seq<seq<Word>>) {
    i <= |words|
    && (i == 0 ==> currentY == None && open == [] && lines == [])
    && (i > 0 ==> IsLine(open) && currentY == Some(open[0].top))
    && lines + GroupLines(open + words[i..]) == GroupLines(words)
  }

  lemma ScannedStart(words: seq<Word>)
    ensures Scanned(words, 0, None, [], [])
  {
    assert [] + words[0..] == words;
  }

  /** The next word joins the open line (or opens the first one). */
  lemma ScannedJoin(words: seq<Word>, i: nat, currentY: Option<real>, open: seq<Word>, lines: seq<seq<Word>>)
    requires Scanned(words, i, currentY, open, lines) && i < |words|
    requires currentY.Some? ==> InBand(words[i].top, currentY.value)
    ensures Scanned(words, i + 1, Some(if i == 0 then words[i].top else currentY.value), open + [words[i]], lines)
  {
    assert words[i..] == [words[i]] + words[i + 1..];
    assert open + words[i..] == (open + [words[i]]) + words[i + 1..];
  }

  /** The next word lies outside the band: the open line is finished and the word opens the next one. */
  lemma ScannedBreak(words: seq<Word>, i: nat, currentY: Option<real>, open: seq<Word>, lines: seq<seq<Word>>)
    requires Scanned(words, i, currentY, open, lines) && i < |words|
    requires currentY.Some? && !InBand(words[i].top, currentY.value)
    ensures Scanned(words, i + 1, Some(words[i].top), [words[i]], lines + [open])
  {
    assert words[i..] == [words[i]] + words[i + 1..];
    LineThenBreak(open, words[i..]);
  }

  /** At the end of the page the open line, if any, is the last line. */
  lemma ScannedFlush(words: seq<Word>, currentY: Option<real>, open: seq<Word>, lines: seq<seq<Word>>)
    requires Scanned(words, |words|, currentY, open, lines)
    ensures (if open != [] then lines + [open] else lines) == GroupLines(words)
  {
    assert open + words[|words|..] == open;
    if open != [] {
      LineThenBreak(open, []);
      assert open + [] == open;
    }
  }

  /**
   * The grouping loop of the scanner.  `currentY` is the anchor of the open
   * line (`None` before the first word); a word outside the band flushes the
   * open line and starts the next one; the last open line is flushed at the end.
   */
  method GroupWords(words: seq<Word>) returns (lines: seq<seq<Word>>)
    ensures lines == GroupLines(words)
    ensures Flatten(lines) == words
  {
    var currentY: Option<real> := None;
    var currentLine: seq<Word> := [];
    lines := [];
    var i := 0;
    ScannedStart(words);
    while i < |words|
      invariant Scanned(words, i, currentY, currentLine, lines)
    {
      var word := words[i];
      if currentY.None? {
        ScannedJoin(words, i, currentY, currentLine, lines);
        currentY := Some(word.top);
        currentLine := currentLine + [word];
      } else if Abs(word.top - currentY.value) <= 3.0 {
        ScannedJoin(words, i, currentY, currentLine, lines);
        currentLine := currentLine + [word];
      } else {
        ScannedBreak(words, i, currentY, currentLine, lines);
        lines := lines + [currentLine];
        currentLine := [word];
        currentY := Some(word.top);
      }
      i := i + 1;
    }
    ScannedFlush(words, currentY, currentLine, lines);
    if currentLine != [] {
      lines := lines + [currentLine];
    }
    GroupLinesPartition(words);
  }
}
