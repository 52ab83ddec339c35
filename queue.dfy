/**
 * `MessageQueue` (librpg/dialog.py): a first-in first-out, one-at-a-time
 * scheduler of dialogs.  `push` appends a dialog; `update` lets the current
 * dialog go once its controller reports done, and then `pop_next` starts the
 * head of the queue if nothing is current.
 *
 * The global context stack is not modelled beyond a ghost record of the
 * dialogs whose controllers were stacked, in order; the controller's
 * `is_done()` is an input of `update`.
 */
module Queue {
  import opened Util
  import opened Dialogs

  /** Any of the four dialogs a queue can show. */
  datatype Dialog =
    | Message(message: MessageDialog)
    | Elastic(elastic: ElasticMessageDialog)
    | Multi(multi: MultiMessageDialog)
    | Choice(choice: ChoiceDialog)
  {
    /** The dialog's `block_movement`. */
    function BlockMovement(): bool
    {
      match this
      case Message(d) => d.blockMovement
      case Elastic(d) => d.blockMovement
      case Multi(d) => d.blockMovement
      case Choice(d) => d.blockMovement
    }
  }

  /** `MenuController(dialog)`: the input controller stacked for a started dialog. */
  datatype Controller<D> = MenuController(menu: D)

  /**
   * The queue's fields as a value, with `stacked` the dialogs whose
   * controllers were put on the context stack, oldest first.  The steps
   * below do not look inside a dialog, so they are stated for any type `D`
   * of dialogs.
   */
  datatype QueueState<D> = QueueState(
    current: Option<D>, controller: Option<Controller<D>>, queue: seq<D>, stacked: seq<D>)

  /** A fresh queue: nothing current, no controller, nothing waiting or started. */
  function Empty<D>(): QueueState<D>
  {
    QueueState(None, None, [], [])
  }

  /**
   * The controller belongs to the most recently started dialog, and the
   * current dialog, if any, is that one.
   */
  predicate Consistent<D(==)>(s: QueueState<D>)
  {
    && (s.controller.Some? <==> s.stacked != [])
    && (s.controller.Some? ==> s.controller.value == MenuController(s.stacked[|s.stacked| - 1]))
    && (s.current.Some? ==> s.controller == Some(MenuController(s.current.value)))
  }

  /** `pop_next`: starts the head of the queue when nothing is current. */
  function PopNextStep<D(==)>(s: QueueState<D>): (t: QueueState<D>)
    ensures t.stacked + t.queue == s.stacked + s.queue
    ensures t != s <==> s.current.None? && s.queue != []
    ensures t != s ==>
              && t.current == Some(s.queue[0]) && t.stacked == s.stacked + [s.queue[0]]
              && t.controller == Some(MenuController(s.queue[0]))
  {
    if s.current.None? && s.queue != [] then
      var d := s.queue[0];
      assert s.stacked + s.queue == s.stacked + [d] + s.queue[1..];
      QueueState(Some(d), Some(MenuController(d)), s.queue[1..], s.stacked + [d])
    else
      s
  }

  /** `push`: the dialog waits behind every dialog already queued. */
  function PushStep<D(==)>(s: QueueState<D>, d: D): (t: QueueState<D>)
    ensures t.stacked + t.queue == s.stacked + s.queue + [d]
    ensures t.current == s.current && t.controller == s.controller && t.stacked == s.stacked
  {
    QueueState(s.current, s.controller, s.queue + [d], s.stacked)
  }

  /**
   * `update`, given the controller's `is_done()`: a finished dialog stops
   * being current, and in the same step the next waiting one, if any, is
   * started.  At most one dialog starts per step, and only when the previous
   * one is finished or there was none.
   */
  function UpdateStep<D(==)>(s: QueueState<D>, done: bool): (t: QueueState<D>)
    ensures t.stacked + t.queue == s.stacked + s.queue
    ensures |s.stacked| <= |t.stacked| <= |s.stacked| + 1
    ensures |t.stacked| == |s.stacked| + 1 <==> (s.current.None? || (s.controller.Some? && done)) && s.queue != []
    ensures |t.stacked| == |s.stacked| + 1 ==>
              t.current == Some(s.queue[0]) && t.controller == Some(MenuController(s.queue[0]))
    ensures |t.stacked| == |s.stacked| ==>
              && t.queue == s.queue && t.controller == s.controller
              && t.current == (if s.controller.Some? && done then None else s.current)
  {
    var freed := if s.controller.Some? && done then s.(current := None) else s;
    PopNextStep(freed)
  }

  /** An operation on the queue: a `push`, or an `update` with the controller's `is_done()`. */
  datatype Op<D> = Push(dialog: D) | Update(done: bool)

  function Apply<D(==)>(s: QueueState<D>, op: Op<D>): QueueState<D>
  {
    match op
    case Push(d) => PushStep(s, d)
    case Update(done) => UpdateStep(s, done)
  }

  /** The state after applying `ops` in order. */
  function Run<D(==)>(s: QueueState<D>, ops: seq<Op<D>>): QueueState<D>
  {
    if ops == [] then s else Apply(Run(s, ops[..|ops| - 1]), ops[|ops| - 1])
  }

  /** The dialogs pushed by `ops`, in order. */
  function Pushed<D>(ops: seq<Op<D>>): seq<D>
  {
    if ops == [] then []
    else Pushed(ops[..|ops| - 1]) + (if ops[|ops| - 1].Push? then [ops[|ops| - 1].dialog] else [])
  }

  /** Every step keeps the controller tied to the most recently started dialog. */
  lemma StepConsistent<D>(s: QueueState<D>, op: Op<D>)
    requires Consistent(s)
    ensures Consistent(Apply(s, op))
  {
    if op.Update? {
      var freed := if s.controller.Some? && op.done then s.(current := None) else s;
      assert Consistent(freed);
    }
  }

  /**
   * Dialogs start strictly in the order they were pushed: what has started,
   * followed by what still waits, is exactly the sequence of pushes, and the
   * controller always belongs to the last dialog started.
   */
  lemma {:induction false} RunInPushOrder<D>(ops: seq<Op<D>>)
    ensures Run(Empty(), ops).stacked + Run(Empty(), ops).queue == Pushed(ops)
    ensures Run(Empty(), ops).stacked <= Pushed(ops)
    ensures Consistent(Run(Empty(), ops))
    decreases |ops|
  {
    if ops != [] {
      var init := ops[..|ops| - 1];
      RunInPushOrder(init);
      StepConsistent(Run(Empty(), init), ops[|ops| - 1]);
    }
    var r := Run(Empty(), ops);
    assert Pushed(ops)[..|r.stacked|] == r.stacked;
  }

  /** `MessageQueue`: the dialog shown, its controller and the dialogs waiting. */
  class MessageQueue {
    var current: Option<Dialog>
    var controller: Option<Controller<Dialog>>
    var queue: seq<Dialog>
    /** The dialogs whose controllers were stacked, oldest first. */
    ghost var stacked: seq<Dialog>

    ghost function State(): QueueState<Dialog>
      reads this
    {
      QueueState(current, controller, queue, stacked)
    }

    constructor ()
      ensures State() == Empty()
    {
      current := None;
      controller := None;
      queue := [];
      stacked := [];
    }

    /**
     * `is_active`: a dialog is being shown.  In a consistent queue that is
     * the dialog started last, and it holds the controller.
     */
    predicate IsActive()
      reads this
      ensures IsActive() ==>
                && current.Some?
                && (Consistent(State()) ==>
                      && stacked != [] && stacked[|stacked| - 1] == current.value
                      && controller == Some(MenuController(current.value)))
    {
      current.Some?
    }

    /** `is_busy`: the dialog being shown blocks movement; only an active queue can be busy. */
    predicate IsBusy()
      reads this
      ensures IsBusy() ==> IsActive()
    {
      current.Some? && current.value.BlockMovement()
    }

    method PopNext()
      modifies this
      ensures State() == PopNextStep(old(State()))
    {
      if current == None && queue != [] {
        var d := queue[0];
        queue := queue[1..];
        current := Some(d);
        controller := Some(MenuController(d));
        stacked := stacked + [d];
      }
    }

    method Push(message: Dialog)
      modifies this
      ensures State() == PushStep(old(State()), message)
    {
      queue := queue + [message];
    }

    /** `update`; `done` is what the controller's `is_done()` answers.  It always returns false. */
    method Update(done: bool) returns (r: bool)
      modifies this
      ensures State() == UpdateStep(old(State()), done)
      ensures !r
    {
      if controller != None && done {
        current := None;
      }
      PopNext();
      return false;
    }
  }
}
