# Dialog layout and sequencing of librpg, in Dafny

This project models the dialog core of librpg (`librpg/dialog.py`) and proves
what it does. It covers:

- `build_lines`: greedy word wrapping against a font's measuring function.
- `split_boxes`: greedy pagination of the wrapped lines into fixed-height boxes.
- The label layout and the input rules of the four dialogs: `MessageDialog`,
  `ElasticMessageDialog`, `MultiMessageDialog` and `ChoiceDialog`.
- `MessageQueue`: the first-in first-out scheduler that shows the dialogs one
  at a time.

Files:

- `util.dfy` (module `Util`): `Option`, `Result` and sequence concatenation.
- `text.dfy` (module `Text`): Python's `str.split()` as `Split`, `' '.join` as
  `Join`, and the round trip between them.
- `wrap.dfy` (module `LineWrap`): `build_lines` as the loop `BuildLines`.
  `BuildLines` is proved equal to the recursive definition `Wrap`, and the
  properties of wrapping are lemmas about `Wrap`.
- `boxes.dfy` (module `BoxSplit`): `split_boxes` as the loop `SplitBoxes`,
  proved equal to `Boxes`, with the properties of pagination as lemmas.
- `placement.dfy` (module `Placement`): the label-drawing loops (`y_acc`) as
  `PlaceLabels`, proved equal to `Column`.
- `dialogs.dfy` (module `Dialogs`): the four dialog classes, their layout and
  their `process_event`.
- `queue.dfy` (module `Queue`): `MessageQueue` as a class. Each of its methods
  is proved equal to a step function on `QueueState`, which is generic in the dialog type, and the ordering
  guarantees are lemmas about those steps.

The font is a parameter `measure: string -> Size` with non-negative width and
height, standing for `font.size`. The configuration values are fields of a
`Config` value.

## Model

| member | source | states |
|---|---|---|
| LineWrap.BuildLines | librpg/dialog.py:20-35 | The loop returns exactly `Wrap` of the text's words at the box width; the text must hold at least one word. |
| LineWrap.WrapPartition | librpg/dialog.py:20-35 | There is at least one line. Each line is its own words joined by single spaces. The lines' words, in order, are exactly the words of the text. |
| LineWrap.WrapFits | librpg/dialog.py:26-33 | Every line is either a single word, kept unsplit however wide, or measures no wider than the box. |
| LineWrap.WrapGreedy | librpg/dialog.py:27-31 | For every line but the last, the line plus a space plus the next line's first word measures wider than the box. That line stores this projection's height. |
| LineWrap.WrapLastHeight | librpg/dialog.py:24-34 | The last line keeps the height measured last. That is its own height when it holds two or more words or is the only line. Otherwise it is the previous line's height. |
| LineWrap.WrapPrefixesFit | librpg/dialog.py:26-33 | Every prefix of two or more words of a line measures no wider than the box: each one is a projection that was measured and fitted. |
| LineWrap.RewrapIsStable | librpg/dialog.py:20-35 | Re-wrapping a produced line's words at the same width, for any font, gives exactly one line with the same text. Its height is the text's own measurement, which differs from the stored height when the line was closed by an over-wide projection. |
| LineWrap.WrapFrom | librpg/dialog.py:26-34 | The remaining lines of a wrap in progress: there is always at least one. |
| Text.SplitEmptyIffBlank | librpg/dialog.py:22-23 | `text.split()` is empty, so `words[0]` fails, exactly when the text is all whitespace. |
| Text.SplitJoin | librpg/dialog.py:22-33 | Splitting words joined by single spaces gives back those words. |
| Text.Split | librpg/dialog.py:22 | Every piece `str.split()` returns is a non-empty word without whitespace. |
| Text.WordLen | librpg/dialog.py:22 | The length of the leading word: no whitespace before it, and whitespace or the end right after it. |
| BoxSplit.SplitBoxes | librpg/dialog.py:38-54 | The loop returns exactly `Boxes` of the lines; there must be at least one line. |
| BoxSplit.BoxesPartition | librpg/dialog.py:38-54 | Every box is non-empty, and the boxes concatenated in order are exactly the input lines. |
| BoxSplit.BoxesFit | librpg/dialog.py:44-50 | Every box of two or more lines has height at most `box_height`: first height plus each later height and spacing. Only a single-line box can exceed the budget. |
| BoxSplit.BoxesGreedy | librpg/dialog.py:44-47 | Every box but the last would exceed `box_height` if the next box's first line were added. |
| BoxSplit.SplitFrom | librpg/dialog.py:43-52 | The boxes still to be produced from a box in progress: there is always at least one. |
| BoxSplit.BoxHeightSum | librpg/dialog.py:121-123 | The height accumulated for a box equals the sum of its line heights plus one spacing per gap between lines. |
| Placement.PlaceLabels | librpg/dialog.py:86-93 | The drawing loop places line `i` at `border + y_acc`, where `y_acc` is the advance over the earlier lines. The loop ends with `y_acc` advanced over every line. |
| Placement.Column | librpg/dialog.py:86-93 | There is one label per line. |
| Placement.ColumnStacked | librpg/dialog.py:137-144 | Each label sits exactly the previous line's height plus the spacing below the previous label. |
| Placement.AdvanceIsBoxHeight | librpg/dialog.py:186-192 | The final `y_acc` of a non-empty column is its box height plus one spacing. |
| Placement.ColumnBottom | librpg/dialog.py:186-192 | The last label's line ends exactly one box height below the top of the column. |
| Dialogs.MessageDialog.constructor | librpg/dialog.py:67-93 | The menu is the lower half of the screen inset by a border. The text is wrapped at `screen_width - 4 * border`. The panel holds one label per line. |
| Dialogs.MessageDialog.ProcessEvent | librpg/dialog.py:95-99 | The action key closes the dialog. The answer is always `block_movement`. |
| Dialogs.ElasticBoxHeight | librpg/dialog.py:121-123 | The elastic box's height is the text's box height (line heights plus one spacing per gap) plus four borders. |
| Dialogs.ElasticBoxFitsText | librpg/dialog.py:121-131 | The menu is sized to its text: the last line ends one border above the menu's bottom, and the menu ends one border above the screen's bottom. |
| Dialogs.ElasticMessageDialog.Create | librpg/dialog.py:109-144 | Construction fails with 'too much text' exactly when the computed box height is at least the screen height. Otherwise the menu is at y = `screen_height - box_height + border`. |
| Dialogs.ElasticMessageDialog.constructor | librpg/dialog.py:127-144 | The menu and panel are built from the computed box height. |
| Dialogs.ElasticMessageDialog.ProcessEvent | librpg/dialog.py:146-150 | The action key closes the dialog. The answer is always `block_movement`. |
| Dialogs.PagesFitPanel | librpg/dialog.py:179-192 | On every page of two or more lines, the last line ends at least one border above the bottom of the panel. |
| Dialogs.MultiMessageDialog.constructor | librpg/dialog.py:160-195 | The boxes are `split_boxes` of the wrapped text at `screen_height / 2 - 4 * border`. There is one panel per box, and the first page is shown. |
| Dialogs.MultiMessageDialog.AdvancePanel | librpg/dialog.py:197-203 | The shown panel is taken down. The head of the waiting panels, if any, is shown and removed from the waiting list. The page index moves one on, and the dialog stays open even past its last page. |
| Dialogs.MultiMessageDialog.ProcessEvent | librpg/dialog.py:205-211 | The action key moves to the next page. When that leaves no page shown, the dialog is closed. Other events change nothing. The answer is always `block_movement`. |
| Dialogs.BuildChoiceLines | librpg/dialog.py:266-278 | The prompt is wrapped at `width - 2 * border`. Each choice is wrapped on its own at `width - 3 * border`, and the results are concatenated in order. |
| Dialogs.WrapChoices | librpg/dialog.py:272-278 | The loop over the choices returns exactly `WrapEach` of the choices' words: each choice wrapped on its own, the lines collected in order. |
| Dialogs.WrapEachWords | librpg/dialog.py:272-278 | Each choice yields at least one line. The choice lines hold exactly the choices' words, in order. |
| Dialogs.WrapEachFits | librpg/dialog.py:272-278 | Every choice line is a single word or fits the choice width. |
| Dialogs.ChoicesFollowPrompt | librpg/dialog.py:245-260 | The first choice label sits one border right of the prompt and directly below the last prompt line, one line spacing further down. |
| Dialogs.PlaceChoiceLabels | librpg/dialog.py:245-260 | The prompt labels are at x = border. The choice labels are at x = 2 * border and continue the prompt's `y_acc` with the choice line spacing. |
| Dialogs.ChoiceDialog.constructor | librpg/dialog.py:227-264 | The prompt labels are at x = border and the choice labels at x = 2 * border, stacked with `choice_line_spacing` below the prompt. The cursor starts on the first choice label. |
| Dialogs.ChoiceDialog.ProcessEvent | librpg/dialog.py:280-286 | The action key closes the dialog. Left and right answer true whatever `block_movement` is. Any other event answers `block_movement`. |
| Queue.PopNextStep | librpg/dialog.py:303-307 | A dialog is started only when nothing is current and the queue is non-empty. The started dialog is the head of the queue, and it gets the controller. No dialog is lost or reordered. |
| Queue.PushStep | librpg/dialog.py:309-310 | The pushed dialog waits behind every dialog already queued. Nothing else changes. |
| Queue.UpdateStep | librpg/dialog.py:312-316 | At most one dialog starts per update, only if the previous one is done or there was none. The started dialog is the head of the queue and gets the controller. A dialog can finish and the next can start in the same update. Otherwise only `current` may be cleared. |
| Queue.StepConsistent | librpg/dialog.py:303-316 | Every push and update keeps the controller tied to the most recently started dialog, and keeps `current`, when present, as that dialog. |
| Queue.RunInPushOrder | librpg/dialog.py:289-316 | After any sequence of pushes and updates, the dialogs started and then those still waiting are exactly the pushed dialogs, in push order. |
| Queue.MessageQueue.constructor | librpg/dialog.py:291-295 | A new queue has nothing current, no controller and nothing waiting. |
| Queue.MessageQueue.IsActive | librpg/dialog.py:300-301 | `is_active` holds only when a dialog is current. In a consistent queue that dialog is the one started last, and it holds the controller. |
| Queue.MessageQueue.IsBusy | librpg/dialog.py:297-301 | `is_busy` holds only when `is_active` holds. |
| Queue.MessageQueue.PopNext | librpg/dialog.py:303-307 | The fields change exactly as `PopNextStep` says. |
| Queue.MessageQueue.Push | librpg/dialog.py:309-310 | The fields change exactly as `PushStep` says. |
| Queue.MessageQueue.Update | librpg/dialog.py:312-316 | The fields change exactly as `UpdateStep` says, and the answer is always false. |

## Left out

- pygame and the widget toolkit (`Menu`, `Panel`, `Label`, `add_widget`, `remove_widget`, `ArrowCursor`): a panel is a value holding its size and labels, and `close()` sets a `closed` flag.
- Font and theme loading: `font.size` is the parameter `measure`.
- The configuration modules are a read-only `Config` value and a `Keys` value of key-code sets. `screen_height / 2` is the integer field `halfScreenHeight`, because the source's division yields a float under Python 3.
- `get_context_stack().stack_context` is recorded only as the ghost sequence `stacked` of dialogs whose controllers were stacked. `MenuController.is_done()` is the `done` argument of `Update`.
- Which choice the player picked: the focus and cursor mechanism is not part of this model.
- Dialogs.ChoiceDialog.constructor: the panel's labels are kept as two sequences rather than one list with focus flags: `promptLabels` are the labels added with `focusable=False`, `choiceLabels` those added with `focusable=True`.
- LineWrap.BuildLines, BoxSplit.SplitBoxes and the dialog constructors take as a precondition what the source needs to avoid an `IndexError`: text with a word, a non-empty line list. The source does not handle these cases; it crashes.
- The `if box:` guard at librpg/dialog.py:51 is kept as written; the box is never empty there.
- `MessageDialog` and `ChoiceDialog` have no overflow check in the source, so the model has none: labels may be placed below the panel's height, and nothing checks for it.
