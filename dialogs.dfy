/**
 * The four dialog kinds of librpg/dialog.py.  Each lays out its text once,
 * at construction, and then answers input events: the answer says whether
 * the map's movement stays blocked, and the action key closes the dialog
 * (a multi-page dialog first shows its remaining pages).
 *
 * The widget toolkit is not modelled: a panel is a value holding its
 * labels, and `close()` sets the `closed` flag.
 */
module Dialogs {
  import opened Util
  import opened Text
  import opened LineWrap
  import opened BoxSplit
  import opened Placement

  /** An input event: a key press with its key code, or any other event. */
  datatype Event = KeyDown(key: int) | OtherEvent

  /** The key codes bound to the action, left and right commands. */
  datatype Keys = Keys(action: set<int>, left: set<int>, right: set<int>)

  /**
   * The read-only configuration the dialogs read.  `halfScreenHeight`
   * stands for `screen_height / 2`, taken as a whole number of pixels.
   */
  datatype Config = Config(
    screenWidth: int, screenHeight: int, halfScreenHeight: int,
    borderWidth: int, lineSpacing: int, choiceLineSpacing: int)

  /** A dialog's menu on screen: `Menu.__init__(width, height, x, y)`. */
  datatype Frame = Frame(width: int, height: int, x: int, y: int)

  /** A panel of the menu's size and the labels drawn on it. */
  datatype Panel = Panel(width: int, height: int, labels: seq<Label>)

  /** Why a dialog could not be built. */
  datatype Error = TooMuchText

  predicate IsAction(e: Event, keys: Keys)
  {
    e.KeyDown? && e.key in keys.action
  }

  predicate IsSideways(e: Event, keys: Keys)
  {
    e.KeyDown? && (e.key in keys.left || e.key in keys.right)
  }

  /** The lower half of the screen, inset by one border on each side: the menu of the fixed-size dialogs. */
  function LowerHalfFrame(cfg: Config): Frame
  {
    Frame(cfg.screenWidth - 2 * cfg.borderWidth, cfg.halfScreenHeight - 2 * cfg.borderWidth,
          cfg.borderWidth, cfg.halfScreenHeight + cfg.borderWidth)
  }

  /** The width message text is wrapped at: `screen_width - 4 * border_width`. */
  function TextWidth(cfg: Config): int
  {
    cfg.screenWidth - 4 * cfg.borderWidth
  }

  /** A panel of `frame`'s size with `lines` drawn at `(border, border + y_acc)`. */
  function TextPanel(lines: seq<Line>, frame: Frame, cfg: Config): Panel
  {
    Panel(frame.width, frame.height, Column(lines, cfg.borderWidth, cfg.borderWidth, cfg.lineSpacing))
  }

  // ----- MessageDialog -----

  /** A message in a fixed box over the lower half of the screen; its text is not paginated. */
  class MessageDialog {
    const text: string
    const blockMovement: bool
    const frame: Frame
    const lines: seq<Line>
    const panel: Panel
    var closed: bool

    constructor (text: string, blockMovement: bool, cfg: Config, measure: Measure)
      requires Split(text) != []
      ensures this.text == text && this.blockMovement == blockMovement
      ensures frame == LowerHalfFrame(cfg)
      ensures lines == Wrap(Split(text), TextWidth(cfg), measure)
      ensures panel == TextPanel(lines, frame, cfg)
      ensures !closed
    {
      this.text := text;
      this.blockMovement := blockMovement;
      var f := LowerHalfFrame(cfg);
      frame := f;
      var ls := BuildLines(text, TextWidth(cfg), measure);
      lines := ls;
      var labels, yAcc := PlaceLabels(ls, cfg.borderWidth, cfg.borderWidth, cfg.lineSpacing, 0);
      panel := Panel(f.width, f.height, labels);
      closed := false;
    }

    /** The action key closes the dialog; the answer is always `block_movement`. */
    method ProcessEvent(e: Event, keys: Keys) returns (blocks: bool)
      modifies this
      ensures closed == (old(closed) || IsAction(e, keys))
      ensures blocks == blockMovement
    {
      if e.KeyDown? && e.key in keys.action {
        closed := true;
      }
      blocks := blockMovement;
    }
  }

  // ----- ElasticMessageDialog -----

  /** The source's `box_height`: the lines' heights, one spacing per gap between lines, and four borders. */
  function ElasticBoxHeight(lines: seq<Line>, cfg: Config): (h: int)
    ensures |lines| > 0 ==> h == BoxHeight(lines, cfg.lineSpacing) + 4 * cfg.borderWidth
  {
    var h := SumHeights(lines) + (|lines| - 1) * cfg.lineSpacing + 4 * cfg.borderWidth;
    if |lines| > 0 then BoxHeightSum(lines, cfg.lineSpacing); h else h
  }

  /** The elastic dialog's menu: `box_height - 2 * border` tall, bottom edge one border above the screen's. */
  function ElasticFrame(boxHeight: int, cfg: Config): Frame
  {
    Frame(cfg.screenWidth - 2 * cfg.borderWidth, boxHeight - 2 * cfg.borderWidth,
          cfg.borderWidth, cfg.screenHeight - boxHeight + cfg.borderWidth)
  }

  /**
   * The elastic box is sized to its text: the last line ends one border
   * above the menu's bottom edge, and the menu ends one border above the
   * bottom of the screen.
   */
  lemma ElasticBoxFitsText(lines: seq<Line>, cfg: Config)
    requires |lines| > 0
    ensures var col := Column(lines, cfg.borderWidth, cfg.borderWidth, cfg.lineSpacing);
      var frame := ElasticFrame(ElasticBoxHeight(lines, cfg), cfg);
      && col[|lines| - 1].y + lines[|lines| - 1].height + cfg.borderWidth == frame.height
      && frame.y + frame.height + cfg.borderWidth == cfg.screenHeight
  {
    ColumnBottom(lines, cfg.borderWidth, cfg.borderWidth, cfg.lineSpacing);
  }

  /** A message in a box that grows with its text, anchored to the bottom of the screen. */
  class ElasticMessageDialog {
    const text: string
    const blockMovement: bool
    const lines: seq<Line>
    const boxHeight: int
    const frame: Frame
    const panel: Panel
    var closed: bool

    /** The part of `__init__` after the size check passed. */
    constructor (text: string, blockMovement: bool, lines: seq<Line>, cfg: Config)
      requires ElasticBoxHeight(lines, cfg) < cfg.screenHeight
      ensures this.text == text && this.blockMovement == blockMovement && this.lines == lines
      ensures boxHeight == ElasticBoxHeight(lines, cfg) && boxHeight < cfg.screenHeight
      ensures frame == ElasticFrame(boxHeight, cfg)
      ensures panel == TextPanel(lines, frame, cfg)
      ensures !closed
    {
      this.text := text;
      this.blockMovement := blockMovement;
      this.lines := lines;
      var h := ElasticBoxHeight(lines, cfg);
      boxHeight := h;
      var f := ElasticFrame(h, cfg);
      frame := f;
      var labels, yAcc := PlaceLabels(lines, cfg.borderWidth, cfg.borderWidth, cfg.lineSpacing, 0);
      panel := Panel(f.width, f.height, labels);
      closed := false;
    }

    /**
     * `ElasticMessageDialog(text, block_movement)`: wraps the text, then
     * aborts with 'Too much text for one box.' exactly when the box would be
     * at least as tall as the screen.
     */
    static method Create(text: string, blockMovement: bool, cfg: Config, measure: Measure)
      returns (r: Result<ElasticMessageDialog, Error>)
      requires Split(text) != []
      ensures var lines := Wrap(Split(text), TextWidth(cfg), measure);
        && (r.Err? <==> ElasticBoxHeight(lines, cfg) >= cfg.screenHeight)
        && (r.Err? ==> r.error == TooMuchText)
        && (r.Ok? ==> fresh(r.value) && r.value.text == text && r.value.blockMovement == blockMovement
                      && r.value.lines == lines && r.value.boxHeight == ElasticBoxHeight(lines, cfg)
                      && r.value.frame == ElasticFrame(r.value.boxHeight, cfg)
                      && r.value.panel == TextPanel(lines, r.value.frame, cfg)
                      && !r.value.closed)
    {
      var lines := BuildLines(text, TextWidth(cfg), measure);
      if ElasticBoxHeight(lines, cfg) >= cfg.screenHeight {
        return Err(TooMuchText);
      }
      var d := new ElasticMessageDialog(text, blockMovement, lines, cfg);
      return Ok(d);
    }

    /** The action key closes the dialog; the answer is always `block_movement`. */
    method ProcessEvent(e: Event, keys: Keys) returns (blocks: bool)
      modifies this
      ensures closed == (old(closed) || IsAction(e, keys))
      ensures blocks == blockMovement
    {
      if e.KeyDown? && e.key in keys.action {
        closed := true;
      }
      blocks := blockMovement;
    }
  }

  // ----- MultiMessageDialog -----

  /** The page height of a multi-page dialog: `screen_height / 2 - 4 * border_width`. */
  function PageHeight(cfg: Config): int
  {
    cfg.halfScreenHeight - 4 * cfg.borderWidth
  }

  /** One panel per box, each box drawn from the top of its panel. */
  function Pages(boxes: seq<seq<Line>>, frame: Frame, cfg: Config): (pages: seq<Panel>)
    ensures |pages| == |boxes|
  {
    seq(|boxes|, i requires 0 <= i < |boxes| => TextPanel(boxes[i], frame, cfg))
  }

  /**
   * Every page of two or more lines fits its panel: its last line ends at
   * least one border above the panel's bottom edge.
   */
  lemma PagesFitPanel(lines: seq<Line>, cfg: Config, i: nat)
    requires |lines| > 0
    requires i < |Boxes(lines, PageHeight(cfg), cfg.lineSpacing)|
    requires |Boxes(lines, PageHeight(cfg), cfg.lineSpacing)[i]| >= 2
    ensures var box := Boxes(lines, PageHeight(cfg), cfg.lineSpacing)[i];
      var labels := TextPanel(box, LowerHalfFrame(cfg), cfg).labels;
      labels[|box| - 1].y + box[|box| - 1].height + cfg.borderWidth <= LowerHalfFrame(cfg).height
  {
    var boxes := Boxes(lines, PageHeight(cfg), cfg.lineSpacing);
    BoxesFit(lines, PageHeight(cfg), cfg.lineSpacing);
    assert BoxFits(boxes[i], PageHeight(cfg), cfg.lineSpacing);
    ColumnBottom(boxes[i], cfg.borderWidth, cfg.borderWidth, cfg.lineSpacing);
  }

  /** A message split over as many pages as it needs; the action key turns the page. */
  class MultiMessageDialog {
    const text: string
    const blockMovement: bool
    const frame: Frame
    const boxes: seq<seq<Line>>
    /** Every page, in order: `self.panels` as drawn, before any is shown. */
    ghost const pages: seq<Panel>
    /** The pages not yet shown. */
    var panels: seq<Panel>
    var currentPanel: Option<Panel>
    var closed: bool
    /**
     * The index of the page shown: -1 before the first `advance_panel`,
     * `|pages|` once the last page has been moved past.
     */
    ghost var page: int

    /** Page `page` is shown and the later ones wait in order; only a dialog past its last page is closed. */
    ghost predicate Valid()
      reads this
    {
      && |pages| > 0 && 0 <= page + 1 <= |pages| + 1
      && panels == (if page < |pages| then pages[page + 1..] else [])
      && currentPanel == (if 0 <= page < |pages| then Some(pages[page]) else None)
      && (closed ==> page == |pages|)
    }

    /** Wraps the text, splits it into page-sized boxes, draws one panel per box and shows the first. */
    constructor (text: string, blockMovement: bool, cfg: Config, measure: Measure)
      requires Split(text) != []
      ensures Valid() && page == 0 && !closed
      ensures this.text == text && this.blockMovement == blockMovement
      ensures frame == LowerHalfFrame(cfg)
      ensures boxes == Boxes(Wrap(Split(text), TextWidth(cfg), measure), PageHeight(cfg), cfg.lineSpacing)
      ensures pages == Pages(boxes, frame, cfg)
    {
      this.text := text;
      this.blockMovement := blockMovement;
      var f := LowerHalfFrame(cfg);
      frame := f;
      var lines := BuildLines(text, TextWidth(cfg), measure);
      var bs := SplitBoxes(lines, PageHeight(cfg), cfg.lineSpacing);
      boxes := bs;
      var ps: seq<Panel> := [];
      for i := 0 to |bs|
        invariant |ps| == i
        invariant forall j :: 0 <= j < i ==> ps[j] == TextPanel(bs[j], f, cfg)
      {
        var labels, yAcc := PlaceLabels(bs[i], cfg.borderWidth, cfg.borderWidth, cfg.lineSpacing, 0);
        ps := ps + [Panel(f.width, f.height, labels)];
      }
      pages := ps;
      panels := ps;
      currentPanel := None;
      closed := false;
      page := -1;
      new;
      AdvancePanel();
    }

    /**
     * Takes down the shown panel, then shows the next waiting one, if any:
     * the dialog moves one page on, without closing even past the last page.
     */
    method AdvancePanel()
      requires Valid()
      modifies this`panels, this`currentPanel, this`page
      ensures Valid()
      ensures page == if old(page) < |pages| then old(page) + 1 else old(page)
      ensures currentPanel == (if old(panels) == [] then None else Some(old(panels)[0]))
      ensures panels == (if old(panels) == [] then [] else old(panels)[1..])
    {
      if currentPanel != None {
        currentPanel := None;
      }
      if panels != [] {
        currentPanel := Some(panels[0]);
        panels := panels[1..];
      }
      page := if page < |pages| then page + 1 else page;
    }

    /**
     * The action key moves to the next page, and closes the dialog once
     * there is none; other events change nothing.  The answer is always
     * `block_movement`.
     */
    method ProcessEvent(e: Event, keys: Keys) returns (blocks: bool)
      requires Valid()
      modifies this
      ensures Valid()
      ensures page == (if IsAction(e, keys) && old(page) < |pages| then old(page) + 1 else old(page))
      ensures closed == (old(closed) || (IsAction(e, keys) && page == |pages|))
      ensures blocks == blockMovement
    {
      if e.KeyDown? && e.key in keys.action {
        AdvancePanel();
        if currentPanel == None {
          closed := true;
        }
      }
      blocks := blockMovement;
    }
  }

  // ----- ChoiceDialog -----

  /** The words of each choice: `choice.split()` for every choice, in order. */
  function SplitEach(choices: seq<string>): seq<seq<string>>
  {
    seq(|choices|, i requires 0 <= i < |choices| => Split(choices[i]))
  }

  /** Every word list is a non-empty sequence of words, as `split()` gives for a choice with a word. */
  predicate AllHaveWords(wordLists: seq<seq<string>>)
  {
    forall i :: 0 <= i < |wordLists| ==> wordLists[i] != [] && AllWords(wordLists[i])
  }

  /** All the lines of the choices: each choice's words wrapped on their own, the results one after another. */
  function WrapEach(wordLists: seq<seq<string>>, width: int, measure: Measure): seq<Line>
    requires AllHaveWords(wordLists)
  {
    if wordLists == [] then []
    else WrapEach(wordLists[..|wordLists| - 1], width, measure) + Wrap(wordLists[|wordLists| - 1], width, measure)
  }

  lemma SplitEachHasWords(choices: seq<string>)
    requires forall i :: 0 <= i < |choices| ==> Split(choices[i]) != []
    ensures AllHaveWords(SplitEach(choices))
  {
  }

  lemma WrapEachSnoc(wordLists: seq<seq<string>>, i: nat, width: int, measure: Measure)
    requires AllHaveWords(wordLists) && i < |wordLists|
    ensures AllHaveWords(wordLists[..i]) && AllHaveWords(wordLists[..i + 1])
    ensures WrapEach(wordLists[..i + 1], width, measure) == WrapEach(wordLists[..i], width, measure) + Wrap(wordLists[i], width, measure)
  {
    assert wordLists[..i + 1][..i] == wordLists[..i];
  }

  /** The loop of `ChoiceDialog.__build_lines` over the choices: each wrapped at `width`, the lines collected in order. */
  method WrapChoices(choices: seq<string>, width: int, measure: Measure) returns (choiceLines: seq<Line>)
    requires forall i :: 0 <= i < |choices| ==> Split(choices[i]) != []
    ensures AllHaveWords(SplitEach(choices))
    ensures choiceLines == WrapEach(SplitEach(choices), width, measure)
  {
    ghost var wordLists := SplitEach(choices);
    SplitEachHasWords(choices);
    choiceLines := [];
    for i := 0 to |choices|
      invariant AllHaveWords(wordLists[..i])
      invariant choiceLines == WrapEach(wordLists[..i], width, measure)
    {
      var choiceLine := BuildLines(choices[i], width, measure);
      assert wordLists[i] == Split(choices[i]);
      WrapEachSnoc(wordLists, i, width, measure);
      choiceLines := choiceLines + choiceLine;
    }
    assert wordLists[..|choices|] == wordLists;
  }

  /** `ChoiceDialog.__build_lines`: the prompt wrapped at `width - 2 * border`, each choice at `width - 3 * border`. */
  method BuildChoiceLines(text: string, choices: seq<string>, menuWidth: int, border: int, measure: Measure)
    returns (lines: seq<Line>, choiceLines: seq<Line>)
    requires Split(text) != []
    requires forall i :: 0 <= i < |choices| ==> Split(choices[i]) != []
    ensures AllHaveWords(SplitEach(choices))
    ensures lines == Wrap(Split(text), menuWidth - 2 * border, measure)
    ensures choiceLines == WrapEach(SplitEach(choices), menuWidth - 3 * border, measure)
  {
    lines := BuildLines(text, menuWidth - 2 * border, measure);
    choiceLines := WrapChoices(choices, menuWidth - 3 * border, measure);
  }

  /** Each choice gives at least one line, and the choice lines hold exactly the choices' words, in order. */
  lemma {:induction false} WrapEachWords(wordLists: seq<seq<string>>, width: int, measure: Measure)
    requires AllHaveWords(wordLists)
    ensures |WrapEach(wordLists, width, measure)| >= |wordLists|
    ensures Concat(LineWords(WrapEach(wordLists, width, measure))) == Concat(wordLists)
    decreases |wordLists|
  {
    if wordLists != [] {
      var init, last := wordLists[..|wordLists| - 1], wordLists[|wordLists| - 1];
      var a, b := WrapEach(init, width, measure), Wrap(last, width, measure);
      assert WrapEach(wordLists, width, measure) == a + b;
      WrapEachWords(init, width, measure);
      WrapPartition(last, width, measure);
      LineWordsAppend(a, b);
      ConcatAppend(LineWords(a), LineWords(b));
      ConcatAppend(init, [last]);
      ConcatSingle(last);
      assert init + [last] == wordLists;
    }
  }

  /** Every choice line is a single word or fits the choice width. */
  lemma {:induction false} WrapEachFits(wordLists: seq<seq<string>>, width: int, measure: Measure)
    requires AllHaveWords(wordLists)
    ensures AllFit(WrapEach(wordLists, width, measure), width, measure)
    decreases |wordLists|
  {
    if wordLists != [] {
      var init, last := wordLists[..|wordLists| - 1], wordLists[|wordLists| - 1];
      var a, b := WrapEach(init, width, measure), Wrap(last, width, measure);
      WrapEachFits(init, width, measure);
      WrapFits(last, width, measure);
      forall i | 0 <= i < |a + b| ensures LineFits((a + b)[i], width, measure) {
        if i >= |a| { assert (a + b)[i] == b[i - |a|]; }
      }
    }
  }

  /**
   * The choices are listed right below the prompt, one border further
   * right: the first choice label starts the last prompt line's height plus
   * the line spacing below the last prompt label.
   */
  lemma ChoicesFollowPrompt(lines: seq<Line>, choiceLines: seq<Line>, border: int, spacing: int, choiceSpacing: int)
    requires |lines| > 0 && |choiceLines| > 0
    ensures Column(choiceLines, 2 * border, border + Advance(lines, spacing), choiceSpacing)[0].x
         == Column(lines, border, border, spacing)[0].x + border
    ensures Column(choiceLines, 2 * border, border + Advance(lines, spacing), choiceSpacing)[0].y
         == Column(lines, border, border, spacing)[|lines| - 1].y + lines[|lines| - 1].height + spacing
  {
    assert choiceLines[..0] == [];
    ColumnBottom(lines, border, border, spacing);
    AdvanceIsBoxHeight(lines, spacing);
  }

  /**
   * The two drawing loops of `ChoiceDialog.__init__`: the prompt at x =
   * border, then the choices at x = 2 * border, continuing the same `y_acc`
   * with the choice line spacing.
   */
  method PlaceChoiceLabels(lines: seq<Line>, choiceLines: seq<Line>, cfg: Config) returns (prompt: seq<Label>, options: seq<Label>)
    ensures prompt == Column(lines, cfg.borderWidth, cfg.borderWidth, cfg.lineSpacing)
    ensures options == Column(choiceLines, 2 * cfg.borderWidth, cfg.borderWidth + Advance(lines, cfg.lineSpacing), cfg.choiceLineSpacing)
  {
    var yAcc, yEnd;
    prompt, yAcc := PlaceLabels(lines, cfg.borderWidth, cfg.borderWidth, cfg.lineSpacing, 0);
    options, yEnd := PlaceLabels(choiceLines, 2 * cfg.borderWidth, cfg.borderWidth, cfg.choiceLineSpacing, yAcc);
  }

  /** A prompt followed by a list of options, one of which the player picks. */
  class ChoiceDialog {
    const text: string
    const choices: seq<string>
    const blockMovement: bool
    const frame: Frame
    const lines: seq<Line>
    const choiceLines: seq<Line>
    /** The prompt's labels, not focusable. */
    const promptLabels: seq<Label>
    /** The choices' labels, focusable, in order. */
    const choiceLabels: seq<Label>
    const panel: Panel
    /** The label the cursor starts on: the first choice line, if there is one. */
    const startingOption: Option<Label>
    var closed: bool

    constructor (text: string, choices: seq<string>, blockMovement: bool, cfg: Config, measure: Measure)
      requires Split(text) != []
      requires forall i :: 0 <= i < |choices| ==> Split(choices[i]) != []
      ensures AllHaveWords(SplitEach(choices))
      ensures this.text == text && this.choices == choices && this.blockMovement == blockMovement
      ensures frame == LowerHalfFrame(cfg)
      ensures lines == Wrap(Split(text), frame.width - 2 * cfg.borderWidth, measure)
      ensures choiceLines == WrapEach(SplitEach(choices), frame.width - 3 * cfg.borderWidth, measure)
      ensures promptLabels == Column(lines, cfg.borderWidth, cfg.borderWidth, cfg.lineSpacing)
      ensures choiceLabels == Column(choiceLines, 2 * cfg.borderWidth,
                                     cfg.borderWidth + Advance(lines, cfg.lineSpacing), cfg.choiceLineSpacing)
      ensures panel == Panel(frame.width, frame.height, promptLabels + choiceLabels)
      ensures startingOption == (if choiceLabels == [] then None else Some(choiceLabels[0]))
      ensures !closed
    {
      this.text := text;
      this.choices := choices;
      this.blockMovement := blockMovement;
      var f := LowerHalfFrame(cfg);
      frame := f;
      var ls, cls := BuildChoiceLines(text, choices, f.width, cfg.borderWidth, measure);
      lines := ls;
      choiceLines := cls;
      var prompt, options := PlaceChoiceLabels(ls, cls, cfg);
      promptLabels := prompt;
      choiceLabels := options;
      panel := Panel(f.width, f.height, prompt + options);
      startingOption := if options == [] then None else Some(options[0]);
      closed := false;
    }

    /**
     * The action key closes the dialog; the left and right keys are always
     * reported as blocking movement, whatever `block_movement` says; every
     * other event answers `block_movement`.
     */
    method ProcessEvent(e: Event, keys: Keys) returns (blocks: bool)
      modifies this
      ensures closed == (old(closed) || IsAction(e, keys))
      ensures blocks == (IsSideways(e, keys) || blockMovement)
    {
      if e.KeyDown? {
        if e.key in keys.action {
          closed := true;
        }
        if e.key in keys.left || e.key in keys.right {
          return true;
        }
      }
      return blockMovement;
    }
  }
}
