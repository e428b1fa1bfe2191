/** A tracker follows one window through its attempts until the relay has sent everything for it. */
module Trackers {
  import opened Wrappers
  import opened TimeWindows
  import C = Contexts
  import F = Filters

  datatype TaskState = New | Started | Done | Error

  /** What a query asks for besides the window. */
  datatype Subject = Subject(kinds: seq<int>, authors: seq<string>, tags: seq<F.FilterTag>)

  /** The value of a tracker: `ctx` is the context of its latest attempt. */
  datatype Tracker = Tracker(window: TimeWindow, ctx: Option<nat>, state: TaskState)

  function NewTracker(window: TimeWindow): Tracker { Tracker(window, None, New) }

  predicate IsDead(t: Tracker, tree: C.Tree) {
    t.ctx.None? || !C.Live(tree, t.ctx.value) || t.state.Error? || t.state.New?
  }

  datatype StartResult = Failed | StillRunning | NewAttempt(tracker: Tracker, tree: C.Tree, ctx: nat, filter: F.Filter)

  function CancelIfSet(tree: C.Tree, ctx: Option<nat>): (r: C.Tree)
    ensures |r| == |tree|
  {
    if ctx.Some? then C.Cancel(tree, ctx.value) else tree
  }

  function StartAttempt(t: Tracker, tree: C.Tree, parent: nat, subject: Subject): StartResult
    requires parent < |tree|
  {
    var filter := F.FilterOf(WindowQuery(t.window, subject.kinds, subject.tags, subject.authors));
    if t.state.Done? then Failed
    else if !IsDead(t, tree) then StillRunning
    else if filter.Err? then Failed
    else
      var cancelled := CancelIfSet(tree, t.ctx);
      NewAttempt(Tracker(t.window, Some(|tree|), Started), C.WithCancel(cancelled, Some(parent)), |tree|, filter.value)
  }

  function MarkDone(t: Tracker): Tracker {
    if t.state.Started? then t.(state := Done) else t
  }

  function MarkFailed(t: Tracker): Tracker {
    if t.state.Done? then t else t.(state := Error)
  }

  class TimeWindowTaskTracker {
    const window: TimeWindow
    var ctx: Option<nat>
    /** The context that the stored cancel function cancels; None is a nil function. */
    var cancel: Option<nat>
    var state: TaskState

    /** Once an attempt was started the cancel function is set, so calling it in state Done is safe. */
    ghost predicate Valid()
      reads this
    {
      cancel == ctx && (state.Started? || state.Done? ==> ctx.Some?)
    }

    function Value(): Tracker
      reads this
    {
      Tracker(window, ctx, state)
    }

    constructor (window: TimeWindow)
      ensures Valid() && Value() == NewTracker(window)
    {
      this.window := window;
      ctx, cancel, state := None, None, New;
    }

    method CheckIfDoneAndEnd(contexts: C.ContextTree) returns (ended: bool)
      requires Valid()
      modifies contexts
      ensures ended == state.Done?
      ensures contexts.nodes == CancelIfSet(old(contexts.nodes), if ended then ctx else None)
    {
      if state != Done {
        return false;
      }
      contexts.CancelContext(cancel.value);
      return true;
    }

    method MaybeStart(contexts: C.ContextTree, parent: nat, subject: Subject)
      returns (r: Result<Option<TimeWindowTask>>)
      requires Valid() && parent < |contexts.nodes|
      modifies this, contexts
      ensures Valid()
      ensures r.Ok? && r.value.Some? ==> fresh(r.value.value)
      ensures match old(StartAttempt(Value(), contexts.nodes, parent, subject))
              case Failed => r.Err? && Value() == old(Value()) && contexts.nodes == old(contexts.nodes)
              case StillRunning => r == Ok(None) && Value() == old(Value()) && contexts.nodes == old(contexts.nodes)
              case NewAttempt(tracker, tree, c, filter) =>
                && r.Ok? && r.value.Some?
                && r.value.value.tracker == this && r.value.value.ctx == c && r.value.value.filter == filter
                && Value() == tracker && contexts.nodes == tree
    {
      if state == Done {
        return Err;
      }
      if !(ctx.None? || !C.Live(contexts.nodes, ctx.value) || state == Error || state == New) {
        return Ok(None);
      }
      var filter := F.NewFilter(WindowQuery(window, subject.kinds, subject.tags, subject.authors));
      if filter.Err? {
        return Err;
      }
      if cancel.Some? {
        contexts.CancelContext(cancel.value);
      }
      var c := contexts.Derive(Some(parent));
      ctx := Some(c);
      cancel := Some(c);
      state := Started;
      var task := new TimeWindowTask(c, filter.value, this);
      return Ok(Some(task));
    }

    method MarkAsDone()
      requires Valid()
      modifies this
      ensures Valid() && Value() == MarkDone(old(Value()))
      ensures state == (if old(state) == Started then Done else old(state)) && ctx == old(ctx)
    {
      if state == Started {
        state := Done;
      }
    }

    method MarkAsFailed()
      requires Valid()
      modifies this
      ensures Valid() && Value() == MarkFailed(old(Value()))
      ensures state == (if old(state) == Done then Done else Error) && ctx == old(ctx)
    {
      if state != Done {
        state := Error;
      }
    }
  }

  /** One attempt at a window, handed to the downloader. */
  class TimeWindowTask {
    const ctx: nat
    const filter: F.Filter
    const tracker: TimeWindowTaskTracker

    constructor (ctx: nat, filter: F.Filter, tracker: TimeWindowTaskTracker)
      ensures this.ctx == ctx && this.filter == filter && this.tracker == tracker
    {
      this.ctx, this.filter, this.tracker := ctx, filter, tracker;
    }

    method OnReceivedEOSE(contexts: C.ContextTree)
      requires tracker.Valid()
      modifies tracker
      ensures tracker.Valid()
      ensures tracker.Value() == if C.Live(contexts.nodes, ctx) then MarkDone(old(tracker.Value()))
              else old(tracker.Value())
    {
      if C.Live(contexts.nodes, ctx) {
        tracker.MarkAsDone();
      }
    }

    method OnError(contexts: C.ContextTree)
      requires tracker.Valid()
      modifies tracker
      ensures tracker.Valid()
      ensures tracker.Value() == if C.Live(contexts.nodes, ctx) then MarkFailed(old(tracker.Value()))
              else old(tracker.Value())
    {
      if C.Live(contexts.nodes, ctx) {
        tracker.MarkAsFailed();
      }
    }
  }
}
