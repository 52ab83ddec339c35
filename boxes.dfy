/**
 * `split_boxes` (librpg/dialog.py): greedy pagination of wrapped lines into
 * boxes of a fixed height.  The first line of a box counts only its own
 * height; each later line adds its height plus the line spacing.  A line
 * that would push the box past the budget starts the next box.
 */
module BoxSplit {
  import opened Util
  import opened LineWrap

  /** The height the source accumulates for a box: first height, then each later height plus the spacing. */
  function BoxHeight(box: seq<Line>, spacing: int): int
    requires |box| > 0
  {
    if |box| == 1 then box[0].height
    else BoxHeight(box[..|box| - 1], spacing) + box[|box| - 1].height + spacing
  }

  /** `sum(line[0] for line in lines)`. */
  function SumHeights(lines: seq<Line>): int
  {
    if lines == [] then 0 else SumHeights(lines[..|lines| - 1]) + lines[|lines| - 1].height
  }

  /**
   * The boxes still to be produced when the box being filled is `box` and
   * `rest` are the lines not yet placed.
   */
  function SplitFrom(box: seq<Line>, rest: seq<Line>, boxHeight: int, spacing: int): (boxes: seq<seq<Line>>)
    requires |box| > 0
    ensures |boxes| > 0
    decreases |rest|
  {
    if rest == [] then [box]
    else if BoxHeight(box, spacing) + rest[0].height + spacing > boxHeight then
      [box] + SplitFrom([rest[0]], rest[1..], boxHeight, spacing)
    else
      SplitFrom(box + [rest[0]], rest[1..], boxHeight, spacing)
  }

  /** The boxes `split_boxes` returns. */
  function Boxes(lines: seq<Line>, boxHeight: int, spacing: int): seq<seq<Line>>
    requires |lines| > 0
  {
    SplitFrom([lines[0]], lines[1..], boxHeight, spacing)
  }

  lemma BoxHeightSnoc(box: seq<Line>, line: Line, spacing: int)
    requires |box| > 0
    ensures BoxHeight(box + [line], spacing) == BoxHeight(box, spacing) + line.height + spacing
  {
    assert (box + [line])[..|box|] == box;
  }

  /** `split_boxes(lines, box_height, line_spacing)`; it fails on `lines[0]` when there is no line. */
  method SplitBoxes(lines: seq<Line>, boxHeight: int, lineSpacing: int) returns (boxes: seq<seq<Line>>)
    requires |lines| > 0
    ensures boxes == Boxes(lines, boxHeight, lineSpacing)
  {
    boxes := [];
    var boxCurHeight := lines[0].height;
    var box := [lines[0]];
    var i := 1;
    while i < |lines|
      invariant 1 <= i <= |lines|
      invariant |box| > 0 && boxCurHeight == BoxHeight(box, lineSpacing)
      invariant boxes + SplitFrom(box, lines[i..], boxHeight, lineSpacing) == Boxes(lines, boxHeight, lineSpacing)
    {
      var line := lines[i];
      assert lines[i..][0] == line && lines[i..][1..] == lines[i + 1..];
      if boxCurHeight + line.height + lineSpacing > boxHeight {
        boxes := boxes + [box];
        boxCurHeight := line.height;
        box := [line];
      } else {
        BoxHeightSnoc(box, line, lineSpacing);
        box := box + [line];
        boxCurHeight := boxCurHeight + line.height + lineSpacing;
      }
      i := i + 1;
    }
    assert lines[i..] == [];
    if box != [] {
      boxes := boxes + [box];
    }
  }

  predicate NonEmptyBoxes(boxes: seq<seq<Line>>)
  {
    forall i :: 0 <= i < |boxes| ==> |boxes[i]| > 0
  }

  /** A box of two or more lines stays within the budget; a single line may exceed it on its own. */
  predicate BoxFits(box: seq<Line>, boxHeight: int, spacing: int)
  {
    |box| >= 2 ==> BoxHeight(box, spacing) <= boxHeight
  }

  predicate AllBoxesFit(boxes: seq<seq<Line>>, boxHeight: int, spacing: int)
  {
    forall i :: 0 <= i < |boxes| ==> BoxFits(boxes[i], boxHeight, spacing)
  }

  /** Box `i` was closed because adding the first line of box `i + 1` would exceed the budget. */
  predicate BoxClosedWhenFull(boxes: seq<seq<Line>>, i: nat, boxHeight: int, spacing: int)
    requires i + 1 < |boxes|
  {
    |boxes[i]| > 0 && |boxes[i + 1]| > 0 && BoxHeight(boxes[i] + [boxes[i + 1][0]], spacing) > boxHeight
  }

  predicate AllBoxesFull(boxes: seq<seq<Line>>, boxHeight: int, spacing: int)
  {
    forall i :: 0 <= i < |boxes| - 1 ==> BoxClosedWhenFull(boxes, i, boxHeight, spacing)
  }

  lemma {:induction false} SplitFromPartition(box: seq<Line>, rest: seq<Line>, boxHeight: int, spacing: int)
    requires |box| > 0
    ensures NonEmptyBoxes(SplitFrom(box, rest, boxHeight, spacing))
    ensures Concat(SplitFrom(box, rest, boxHeight, spacing)) == box + rest
    decreases |rest|
  {
    var out := SplitFrom(box, rest, boxHeight, spacing);
    if rest == [] {
      ConcatSingle(box);
    } else if BoxHeight(box, spacing) + rest[0].height + spacing > boxHeight {
      var tail := SplitFrom([rest[0]], rest[1..], boxHeight, spacing);
      SplitFromPartition([rest[0]], rest[1..], boxHeight, spacing);
      assert out == [box] + tail;
      ConcatAppend([box], tail);
      ConcatSingle(box);
      assert rest == [rest[0]] + rest[1..];
      forall i | 0 <= i < |out| ensures |out[i]| > 0 {
        if i > 0 { assert out[i] == tail[i - 1]; }
      }
    } else {
      SplitFromPartition(box + [rest[0]], rest[1..], boxHeight, spacing);
      assert box + [rest[0]] + rest[1..] == box + rest;
    }
  }

  lemma {:induction false} SplitFromFits(box: seq<Line>, rest: seq<Line>, boxHeight: int, spacing: int)
    requires |box| > 0 && BoxFits(box, boxHeight, spacing)
    ensures AllBoxesFit(SplitFrom(box, rest, boxHeight, spacing), boxHeight, spacing)
    decreases |rest|
  {
    var out := SplitFrom(box, rest, boxHeight, spacing);
    if rest == [] {
    } else if BoxHeight(box, spacing) + rest[0].height + spacing > boxHeight {
      var tail := SplitFrom([rest[0]], rest[1..], boxHeight, spacing);
      SplitFromFits([rest[0]], rest[1..], boxHeight, spacing);
      assert out == [box] + tail;
      forall i | 0 <= i < |out| ensures BoxFits(out[i], boxHeight, spacing) {
        if i > 0 { assert out[i] == tail[i - 1]; }
      }
    } else {
      BoxHeightSnoc(box, rest[0], spacing);
      SplitFromFits(box + [rest[0]], rest[1..], boxHeight, spacing);
    }
  }

  lemma {:induction false} SplitFromFull(box: seq<Line>, rest: seq<Line>, boxHeight: int, spacing: int)
    requires |box| > 0
    ensures AllBoxesFull(SplitFrom(box, rest, boxHeight, spacing), boxHeight, spacing)
    decreases |rest|
  {
    var out := SplitFrom(box, rest, boxHeight, spacing);
    if rest == [] {
    } else if BoxHeight(box, spacing) + rest[0].height + spacing > boxHeight {
      var tail := SplitFrom([rest[0]], rest[1..], boxHeight, spacing);
      SplitFromFull([rest[0]], rest[1..], boxHeight, spacing);
      SplitFromPartition([rest[0]], rest[1..], boxHeight, spacing);
      assert out == [box] + tail;
      forall i | 0 <= i < |out| - 1 ensures BoxClosedWhenFull(out, i, boxHeight, spacing) {
        assert out[i + 1] == tail[i];
        if i > 0 {
          assert out[i] == tail[i - 1];
          assert BoxClosedWhenFull(tail, i - 1, boxHeight, spacing);
        } else {
          assert |tail[0]| > 0 && Concat(tail) == tail[0] + Concat(tail[1..]);
          assert tail[0][0] == Concat(tail)[0] == rest[0];
          BoxHeightSnoc(box, rest[0], spacing);
        }
      }
    } else {
      SplitFromFull(box + [rest[0]], rest[1..], boxHeight, spacing);
    }
  }

  // ----- The properties of `split_boxes` -----

  /** Every box is non-empty and the boxes, concatenated in order, give back exactly the input lines. */
  lemma BoxesPartition(lines: seq<Line>, boxHeight: int, spacing: int)
    requires |lines| > 0
    ensures NonEmptyBoxes(Boxes(lines, boxHeight, spacing))
    ensures Concat(Boxes(lines, boxHeight, spacing)) == lines
  {
    SplitFromPartition([lines[0]], lines[1..], boxHeight, spacing);
    assert [lines[0]] + lines[1..] == lines;
  }

  /** Every box of two or more lines stays within `box_height`: only a lone line may exceed it. */
  lemma BoxesFit(lines: seq<Line>, boxHeight: int, spacing: int)
    requires |lines| > 0
    ensures AllBoxesFit(Boxes(lines, boxHeight, spacing), boxHeight, spacing)
  {
    SplitFromFits([lines[0]], lines[1..], boxHeight, spacing);
  }

  /** Greedy: every box but the last would exceed `box_height` with the next box's first line added. */
  lemma BoxesGreedy(lines: seq<Line>, boxHeight: int, spacing: int)
    requires |lines| > 0
    ensures AllBoxesFull(Boxes(lines, boxHeight, spacing), boxHeight, spacing)
  {
    SplitFromFull([lines[0]], lines[1..], boxHeight, spacing);
  }

  /** The accumulated box height equals the source's closed form: the sum of the heights plus one spacing per gap. */
  lemma {:induction false} BoxHeightSum(box: seq<Line>, spacing: int)
    requires |box| > 0
    ensures BoxHeight(box, spacing) == SumHeights(box) + (|box| - 1) * spacing
    decreases |box|
  {
    if |box| > 1 {
      BoxHeightSum(box[..|box| - 1], spacing);
      assert (|box| - 1) * spacing == (|box| - 2) * spacing + spacing;
    } else {
      assert box[..0] == [];
    }
  }
}
