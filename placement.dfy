/**
 * The drawing loops of the four dialogs (librpg/dialog.py): one label per
 * line, at a fixed x and at `border_width + y_acc`, where `y_acc` grows by
 * each line's height plus the spacing.
 */
module Placement {
  import opened LineWrap
  import opened BoxSplit

  /** A text label added to a panel at position (x, y). */
  datatype Label = Label(text: string, x: int, y: int)

  /** How far `y_acc` advances over `lines`: each line's height plus the spacing. */
  function Advance(lines: seq<Line>, spacing: int): int
  {
    if lines == [] then 0 else Advance(lines[..|lines| - 1], spacing) + lines[|lines| - 1].height + spacing
  }

  /** The labels a drawing loop adds: line `i` at `x` and `top` plus the advance over the lines before it. */
  function Column(lines: seq<Line>, x: int, top: int, spacing: int): (labels: seq<Label>)
    ensures |labels| == |lines|
  {
    seq(|lines|, i requires 0 <= i < |lines| => Label(lines[i].text, x, top + Advance(lines[..i], spacing)))
  }

  /**
   * One drawing loop: `for line in lines: add Label(line[1]) at (x, top + y_acc);
   * y_acc += line[0] + spacing`, starting from `y_acc == yAcc0`.
   */
  method PlaceLabels(lines: seq<Line>, x: int, top: int, spacing: int, yAcc0: int) returns (labels: seq<Label>, yAcc: int)
    ensures labels == Column(lines, x, top + yAcc0, spacing)
    ensures yAcc == yAcc0 + Advance(lines, spacing)
  {
    labels := [];
    yAcc := yAcc0;
    for i := 0 to |lines|
      invariant labels == Column(lines[..i], x, top + yAcc0, spacing)
      invariant yAcc == yAcc0 + Advance(lines[..i], spacing)
    {
      ColumnSnoc(lines, x, top + yAcc0, spacing, i);
      assert lines[..i + 1][..i] == lines[..i];
      labels := labels + [Label(lines[i].text, x, top + yAcc)];
      yAcc := yAcc + lines[i].height + spacing;
    }
    assert lines[..|lines|] == lines;
  }

  lemma ColumnSnoc(lines: seq<Line>, x: int, top: int, spacing: int, i: nat)
    requires i < |lines|
    ensures Column(lines[..i + 1], x, top, spacing)
            == Column(lines[..i], x, top, spacing) + [Label(lines[i].text, x, top + Advance(lines[..i], spacing))]
  {
    var longer, shorter := Column(lines[..i + 1], x, top, spacing), Column(lines[..i], x, top, spacing);
    forall j | 0 <= j < i ensures longer[j] == shorter[j] {
      assert lines[..i + 1][..j] == lines[..j] == lines[..i][..j];
    }
    assert lines[..i + 1][..i] == lines[..i];
  }

  /** Labels are stacked: each starts the previous line's height plus the spacing below the previous label. */
  lemma ColumnStacked(lines: seq<Line>, x: int, top: int, spacing: int, i: nat)
    requires i + 1 < |lines|
    ensures Column(lines, x, top, spacing)[i + 1].y == Column(lines, x, top, spacing)[i].y + lines[i].height + spacing
  {
    assert lines[..i + 1][..i] == lines[..i];
  }

  /** The advance over a non-empty run of lines is its box height plus one trailing spacing. */
  lemma {:induction false} AdvanceIsBoxHeight(lines: seq<Line>, spacing: int)
    requires |lines| > 0
    ensures Advance(lines, spacing) == BoxHeight(lines, spacing) + spacing
    decreases |lines|
  {
    if |lines| > 1 {
      AdvanceIsBoxHeight(lines[..|lines| - 1], spacing);
    } else {
      assert lines[..0] == [];
    }
  }

  /** The last label's line ends exactly the box height below the top of the column. */
  lemma ColumnBottom(lines: seq<Line>, x: int, top: int, spacing: int)
    requires |lines| > 0
    ensures Column(lines, x, top, spacing)[|lines| - 1].y + lines[|lines| - 1].height == top + BoxHeight(lines, spacing)
  {
    var n := |lines|;
    if n > 1 {
      AdvanceIsBoxHeight(lines[..n - 1], spacing);
      assert lines[..n - 1][..n - 2] == lines[..n - 2];
    } else {
      assert lines[..0] == [];
    }
  }
}
