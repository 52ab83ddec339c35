/**
 * `build_lines` (librpg/dialog.py): greedy word wrapping against a font's
 * measuring function.  The line being built grows word by word; a word whose
 * addition would make the measured width exceed the box width starts a new
 * line instead.
 *
 * `WrapFrom` states the result as a function of the loop's state (the words
 * of the line in progress, the height measured last, the words still to
 * place); `BuildLines` is the loop itself.  The lemmas state what the
 * wrapping means: the lines partition the words, every line of two or more
 * words fits, every line break is forced, and each line's height is the one
 * the source stores, including the quirk that a broken line takes the height
 * of the over-wide projection that broke it.
 */
module LineWrap {
  import opened Util
  import opened Text

  /** What `font.size(text)` reports: rendered width and height in pixels. */
  datatype Size = Size(width: nat, height: nat)

  /** The font's measuring function, `font.size`. */
  type Measure = string -> Size

  /** One wrapped line, the pair `[height, text]` of the source. */
  datatype Line = Line(height: nat, text: string)

  /** The words of each line, in order. */
  function LineWords(lines: seq<Line>): seq<seq<string>>
  {
    seq(|lines|, i requires 0 <= i < |lines| => Split(lines[i].text))
  }

  lemma LineWordsAppend(a: seq<Line>, b: seq<Line>)
    ensures LineWords(a + b) == LineWords(a) + LineWords(b)
  {
  }

  lemma LineWordsSingle(line: Line)
    ensures LineWords([line]) == [Split(line.text)]
  {
  }

  /**
   * The lines still to be produced when the line in progress holds the words
   * `cur`, the height measured last is `h`, and `rest` are the words not yet
   * placed.
   */
  function WrapFrom(cur: seq<string>, h: nat, rest: seq<string>, width: int, measure: Measure): (lines: seq<Line>)
    requires |cur| > 0
    ensures |lines| > 0
    decreases |rest|
  {
    if rest == [] then [Line(h, Join(cur))]
    else
      var size := measure(Join(cur + [rest[0]]));
      if size.width > width then
        [Line(size.height, Join(cur))] + WrapFrom([rest[0]], size.height, rest[1..], width, measure)
      else
        WrapFrom(cur + [rest[0]], size.height, rest[1..], width, measure)
  }

  /** The lines `build_lines` returns for the words of its text. */
  function Wrap(words: seq<string>, width: int, measure: Measure): seq<Line>
    requires |words| > 0
  {
    WrapFrom([words[0]], measure(words[0]).height, words[1..], width, measure)
  }

  /** `build_lines(text, box_width, font)`; it fails on `words[0]` when the text has no word. */
  method BuildLines(text: string, boxWidth: int, measure: Measure) returns (lines: seq<Line>)
    requires Split(text) != []
    ensures lines == Wrap(Split(text), boxWidth, measure)
  {
    var words := Split(text);
    lines := [];
    var cur := words[0];
    ghost var curWords := [words[0]];
    var height := measure(cur).height;
    var i := 1;
    while i < |words|
      invariant 1 <= i <= |words|
      invariant |curWords| > 0 && cur == Join(curWords)
      invariant lines + WrapFrom(curWords, height, words[i..], boxWidth, measure)
                == Wrap(words, boxWidth, measure)
    {
      var word := words[i];
      var projected := cur + " " + word;
      JoinSnoc(curWords, word);
      assert words[i..][0] == word && words[i..][1..] == words[i + 1..];
      var size := measure(projected);
      height := size.height;
      if size.width > boxWidth {
        lines := lines + [Line(height, cur)];
        cur := word;
        curWords := [word];
      } else {
        cur := projected;
        curWords := curWords + [word];
      }
      i := i + 1;
    }
    assert words[i..] == [];
    lines := lines + [Line(height, cur)];
  }

  /**
   * Line `i` was closed because adding the first word of line `i + 1` made
   * the projection measure wider than the box; line `i` stores that
   * projection's height.
   */
  predicate BreakForced(lines: seq<Line>, i: nat, width: int, measure: Measure)
    requires i + 1 < |lines|
  {
    && Split(lines[i + 1].text) != []
    && var projected := measure(lines[i].text + " " + Split(lines[i + 1].text)[0]);
       projected.width > width && lines[i].height == projected.height
  }

  /** A line holds a single word, kept however wide it is, or measures no wider than the box. */
  predicate LineFits(line: Line, width: int, measure: Measure)
  {
    |Split(line.text)| == 1 || measure(line.text).width <= width
  }

  predicate AllFit(lines: seq<Line>, width: int, measure: Measure)
  {
    forall i :: 0 <= i < |lines| ==> LineFits(lines[i], width, measure)
  }

  predicate AllBreaksForced(lines: seq<Line>, width: int, measure: Measure)
  {
    forall i :: 0 <= i < |lines| - 1 ==> BreakForced(lines, i, width, measure)
  }

  /** Every line holds at least one word and its text is its words joined by single spaces. */
  predicate LinesAreWords(lines: seq<Line>)
  {
    forall i :: 0 <= i < |lines| ==> Split(lines[i].text) != [] && lines[i].text == Join(Split(lines[i].text))
  }

  /**
   * The last line's height is its own measurement when it holds two or more
   * words; otherwise it is the height measured before its word was placed:
   * the previous line's height, or `h` when there is no previous line.
   */
  predicate LastHeightFrom(lines: seq<Line>, h: nat, measure: Measure)
    requires |lines| > 0
  {
    var last := lines[|lines| - 1];
    && (|Split(last.text)| >= 2 ==> last.height == measure(last.text).height)
    && (|Split(last.text)| < 2 && |lines| >= 2 ==> last.height == lines[|lines| - 2].height)
    && (|Split(last.text)| < 2 && |lines| == 1 ==> last.height == h)
  }

  /** The invariant of the line in progress: two or more words fit, and their measurement gave `h`. */
  ghost predicate InProgress(cur: seq<string>, h: nat, width: int, measure: Measure)
  {
    && |cur| > 0 && AllWords(cur)
    && (|cur| >= 2 ==> measure(Join(cur)).width <= width && measure(Join(cur)).height == h)
  }

  lemma AllWordsAppend(a: seq<string>, b: seq<string>)
    requires AllWords(a) && AllWords(b)
    ensures AllWords(a + b)
  {
    forall i | 0 <= i < |a + b| ensures IsWord((a + b)[i]) {
      if i >= |a| { assert (a + b)[i] == b[i - |a|]; }
    }
  }

  /** A line holding the words `ws`, put in front of well-formed lines, adds `ws` in front of their words. */
  lemma PrependLine(line: Line, ws: seq<string>, tail: seq<Line>)
    requires ws != [] && Split(line.text) == ws && line.text == Join(ws) && LinesAreWords(tail)
    ensures LinesAreWords([line] + tail)
    ensures Concat(LineWords([line] + tail)) == ws + Concat(LineWords(tail))
  {
    var out := [line] + tail;
    LineWordsAppend([line], tail);
    LineWordsSingle(line);
    ConcatAppend([ws], LineWords(tail));
    ConcatSingle(ws);
    forall i | 0 <= i < |out|
      ensures Split(out[i].text) != [] && out[i].text == Join(Split(out[i].text))
    {
      if i > 0 { assert out[i] == tail[i - 1]; }
    }
  }

  /** Every line holds at least one word, its text is its words joined, and the lines hold the words in order. */
  lemma {:induction false} WrapFromWords(cur: seq<string>, h: nat, rest: seq<string>, width: int, measure: Measure)
    requires |cur| > 0 && AllWords(cur) && AllWords(rest)
    ensures var out := WrapFrom(cur, h, rest, width, measure);
      && LinesAreWords(out)
      && Concat(LineWords(out)) == cur + rest
      && Split(out[0].text)[0] == cur[0]
    decreases |rest|
  {
    if rest == [] {
      SplitJoin(cur);
      LineWordsSingle(Line(h, Join(cur)));
      ConcatSingle(cur);
    } else {
      var next := cur + [rest[0]];
      var size := measure(Join(next));
      assert rest == [rest[0]] + rest[1..];
      if size.width > width {
        var tail := WrapFrom([rest[0]], size.height, rest[1..], width, measure);
        WrapFromWords([rest[0]], size.height, rest[1..], width, measure);
        SplitJoin(cur);
        PrependLine(Line(size.height, Join(cur)), cur, tail);
      } else {
        AllWordsAppend(cur, [rest[0]]);
        WrapFromWords(next, size.height, rest[1..], width, measure);
        assert next + rest[1..] == cur + rest;
      }
    }
  }

  /** A line of two or more words measures no wider than the box. */
  lemma {:induction false} WrapFromFits(cur: seq<string>, h: nat, rest: seq<string>, width: int, measure: Measure)
    requires InProgress(cur, h, width, measure) && AllWords(rest)
    ensures AllFit(WrapFrom(cur, h, rest, width, measure), width, measure)
    decreases |rest|
  {
    var out := WrapFrom(cur, h, rest, width, measure);
    SplitJoin(cur);
    if rest != [] {
      var next := cur + [rest[0]];
      AllWordsAppend(cur, [rest[0]]);
      var size := measure(Join(next));
      if size.width > width {
        var tail := WrapFrom([rest[0]], size.height, rest[1..], width, measure);
        WrapFromFits([rest[0]], size.height, rest[1..], width, measure);
        assert out == [Line(size.height, Join(cur))] + tail;
        forall i | 0 <= i < |out|
          ensures LineFits(out[i], width, measure)
        {
          if i > 0 {
            assert out[i] == tail[i - 1];
          } else {
            assert out[0].text == Join(cur);
          }
        }
      } else {
        WrapFromFits(next, size.height, rest[1..], width, measure);
      }
    }
  }

  /**
   * Every line break is forced: the line followed by the next line's first
   * word measures wider than the box, and the broken line stores the height
   * of exactly that over-wide projection.
   */
  lemma {:induction false} WrapFromBreaks(cur: seq<string>, h: nat, rest: seq<string>, width: int, measure: Measure)
    requires |cur| > 0 && AllWords(cur) && AllWords(rest)
    ensures AllBreaksForced(WrapFrom(cur, h, rest, width, measure), width, measure)
    decreases |rest|
  {
    var out := WrapFrom(cur, h, rest, width, measure);
    if rest != [] {
      var next := cur + [rest[0]];
      AllWordsAppend(cur, [rest[0]]);
      var size := measure(Join(next));
      if size.width > width {
        var tail := WrapFrom([rest[0]], size.height, rest[1..], width, measure);
        WrapFromBreaks([rest[0]], size.height, rest[1..], width, measure);
        WrapFromWords([rest[0]], size.height, rest[1..], width, measure);
        JoinSnoc(cur, rest[0]);
        assert out == [Line(size.height, Join(cur))] + tail;
        forall i | 0 <= i < |out| - 1
          ensures BreakForced(out, i, width, measure)
        {
          assert out[i + 1] == tail[i];
          if i > 0 {
            assert out[i] == tail[i - 1];
            assert BreakForced(tail, i - 1, width, measure);
          } else {
            assert out[0].text + " " + Split(out[1].text)[0] == Join(next);
          }
        }
      } else {
        WrapFromBreaks(next, size.height, rest[1..], width, measure);
      }
    }
  }

  /**
   * The last line's height: its own measurement when it holds two or more
   * words; otherwise the height measured last before it, which is the
   * previous line's height when there is one.
   */
  lemma {:induction false} WrapFromLastHeight(cur: seq<string>, h: nat, rest: seq<string>, width: int, measure: Measure)
    requires InProgress(cur, h, width, measure) && AllWords(rest)
    ensures LastHeightFrom(WrapFrom(cur, h, rest, width, measure), h, measure)
    decreases |rest|
  {
    var out := WrapFrom(cur, h, rest, width, measure);
    SplitJoin(cur);
    if rest != [] {
      var next := cur + [rest[0]];
      AllWordsAppend(cur, [rest[0]]);
      var size := measure(Join(next));
      if size.width > width {
        var tail := WrapFrom([rest[0]], size.height, rest[1..], width, measure);
        WrapFromLastHeight([rest[0]], size.height, rest[1..], width, measure);
        assert out == [Line(size.height, Join(cur))] + tail;
        assert out[|out| - 1] == tail[|tail| - 1];
        if |tail| >= 2 {
          assert out[|out| - 2] == tail[|tail| - 2];
        }
      } else {
        WrapFromLastHeight(next, size.height, rest[1..], width, measure);
        WrapFromWords(next, size.height, rest[1..], width, measure);
        if |out| == 1 {
          assert out == [out[0]];
          LineWordsSingle(out[0]);
          ConcatSingle(Split(out[0].text));
          assert |Split(out[0].text)| >= |next| >= 2;
        }
      }
    }
  }

  /** When every longer prefix of the words fits, no break happens: one line holds them all. */
  lemma {:induction false} WrapFromFitting(cur: seq<string>, h: nat, rest: seq<string>, width: int, measure: Measure)
    requires |cur| > 0
    requires forall k :: |cur| < k <= |cur| + |rest| ==> measure(Join((cur + rest)[..k])).width <= width
    ensures WrapFrom(cur, h, rest, width, measure) == [Line(WrapFrom(cur, h, rest, width, measure)[0].height, Join(cur + rest))]
    decreases |rest|
  {
    if rest == [] {
      assert cur + rest == cur;
    } else {
      var next := cur + [rest[0]];
      assert (cur + rest)[..|cur| + 1] == next;
      assert next + rest[1..] == cur + rest;
      WrapFromFitting(next, measure(Join(next)).height, rest[1..], width, measure);
    }
  }

  // ----- The properties of `build_lines`, for the words of a text -----

  /** The lines are non-empty, each is its own words joined by spaces, and together they hold exactly the text's words in order. */
  lemma WrapPartition(words: seq<string>, width: int, measure: Measure)
    requires |words| > 0 && AllWords(words)
    ensures var out := Wrap(words, width, measure);
      && |out| > 0
      && LinesAreWords(out)
      && Concat(LineWords(out)) == words
  {
    WrapFromWords([words[0]], measure(words[0]).height, words[1..], width, measure);
    assert [words[0]] + words[1..] == words;
  }

  /** Each line is a single (possibly over-wide, never split) word or measures no wider than the box. */
  lemma WrapFits(words: seq<string>, width: int, measure: Measure)
    requires |words| > 0 && AllWords(words)
    ensures AllFit(Wrap(words, width, measure), width, measure)
  {
    WrapFromFits([words[0]], measure(words[0]).height, words[1..], width, measure);
  }

  /** Greedy: each line but the last overflows once the next line's first word is added, and stores that projection's height. */
  lemma WrapGreedy(words: seq<string>, width: int, measure: Measure)
    requires |words| > 0 && AllWords(words)
    ensures AllBreaksForced(Wrap(words, width, measure), width, measure)
  {
    WrapFromBreaks([words[0]], measure(words[0]).height, words[1..], width, measure);
  }

  /** The last line keeps whatever height was measured last. */
  lemma WrapLastHeight(words: seq<string>, width: int, measure: Measure)
    requires |words| > 0 && AllWords(words)
    ensures var out := Wrap(words, width, measure);
      var last := out[|out| - 1];
      last.height == if |out| == 1 || |Split(last.text)| >= 2 then measure(last.text).height
                     else out[|out| - 2].height
  {
    var out := Wrap(words, width, measure);
    WrapFromLastHeight([words[0]], measure(words[0]).height, words[1..], width, measure);
    WrapPartition(words, width, measure);
    if |out| == 1 && |Split(out[0].text)| < 2 {
      assert out == [out[0]];
      LineWordsSingle(out[0]);
      ConcatSingle(Split(out[0].text));
      assert out[0].text == Join([words[0]]);
    }
  }

  /** Every prefix of two or more of the words `ws` measures no wider than the box. */
  ghost predicate PrefixesFit(ws: seq<string>, width: int, measure: Measure)
  {
    forall k :: 1 < k <= |ws| ==> measure(Join(ws[..k])).width <= width
  }

  /** Every prefix of every line's words fits the box. */
  ghost predicate AllPrefixesFit(lines: seq<Line>, width: int, measure: Measure)
  {
    forall i :: 0 <= i < |lines| ==> PrefixesFit(Split(lines[i].text), width, measure)
  }

  /**
   * A line only grows by a word whose projection fits, so each multi-word
   * prefix of a line is a projection that was measured and fitted.
   */
  lemma {:induction false} WrapFromPrefixesFit(cur: seq<string>, h: nat, rest: seq<string>, width: int, measure: Measure)
    requires |cur| > 0 && AllWords(cur) && AllWords(rest) && PrefixesFit(cur, width, measure)
    ensures AllPrefixesFit(WrapFrom(cur, h, rest, width, measure), width, measure)
    decreases |rest|
  {
    var out := WrapFrom(cur, h, rest, width, measure);
    SplitJoin(cur);
    if rest != [] {
      var next := cur + [rest[0]];
      AllWordsAppend(cur, [rest[0]]);
      var size := measure(Join(next));
      if size.width > width {
        var tail := WrapFrom([rest[0]], size.height, rest[1..], width, measure);
        WrapFromPrefixesFit([rest[0]], size.height, rest[1..], width, measure);
        assert out == [Line(size.height, Join(cur))] + tail;
        forall i | 0 <= i < |out|
          ensures PrefixesFit(Split(out[i].text), width, measure)
        {
          if i > 0 {
            assert out[i] == tail[i - 1];
          }
        }
      } else {
        forall k | 1 < k <= |next| ensures measure(Join(next[..k])).width <= width {
          if k <= |cur| {
            assert next[..k] == cur[..k];
          } else {
            assert next[..k] == next;
          }
        }
        WrapFromPrefixesFit(next, size.height, rest[1..], width, measure);
      }
    }
  }

  /** Every prefix of two or more words of a line measures no wider than the box. */
  lemma WrapPrefixesFit(words: seq<string>, width: int, measure: Measure)
    requires |words| > 0 && AllWords(words)
    ensures AllPrefixesFit(Wrap(words, width, measure), width, measure)
  {
    WrapFromPrefixesFit([words[0]], measure(words[0]).height, words[1..], width, measure);
  }

  /**
   * Re-wrapping a produced line at the same width gives its text back as one
   * line, whatever the font.  That line's height is the text's own
   * measurement, which differs from the stored height when the line was
   * closed by an over-wide projection.
   */
  lemma RewrapIsStable(words: seq<string>, width: int, measure: Measure, i: nat)
    requires |words| > 0 && AllWords(words)
    requires i < |Wrap(words, width, measure)|
    ensures var line := Wrap(words, width, measure)[i];
      && Split(line.text) != []
      && Wrap(Split(line.text), width, measure) == [Line(measure(line.text).height, line.text)]
  {
    var line := Wrap(words, width, measure)[i];
    WrapPartition(words, width, measure);
    WrapPrefixesFit(words, width, measure);
    var ws := Split(line.text);
    assert PrefixesFit(ws, width, measure);
    assert [ws[0]] + ws[1..] == ws;
    WrapFromFitting([ws[0]], measure(ws[0]).height, ws[1..], width, measure);
    WrapLastHeight(ws, width, measure);
  }
}
