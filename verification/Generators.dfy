/** The generator of one query kind as an object: it keeps its trackers in a list and updates them in place. */
module Generators {
  import opened Sequences
  import opened Wrappers
  import opened TimeWindows
  import opened Trackers
  import M = SchedulerModel
  import G = Generation
  import C = Contexts

  ghost predicate Within(trackers: seq<TimeWindowTaskTracker>, repr: set<TimeWindowTaskTracker>) {
    forall i :: 0 <= i < |trackers| ==> trackers[i] in repr
  }

  ghost function Values(trackers: seq<TimeWindowTaskTracker>, repr: set<TimeWindowTaskTracker>): (r: seq<Tracker>)
    requires Within(trackers, repr)
    reads repr
    ensures |r| == |trackers| && forall i :: 0 <= i < |r| ==> r[i] == trackers[i].Value()
  {
    seq(|trackers|, i requires 0 <= i < |trackers| && Within(trackers, repr) reads repr => trackers[i].Value())
  }

  /** `kept` are the trackers of `created` with the numbers `ids`. */
  ghost predicate Selects(created: seq<TimeWindowTaskTracker>, ids: seq<nat>, kept: seq<TimeWindowTaskTracker>) {
    M.Ids(ids, |created|) && |ids| == |kept| && forall j :: 0 <= j < |ids| ==> kept[j] == created[ids[j]]
  }

  /** The tasks returned are the attempts, in order, each pointing at its tracker. */
  ghost predicate AreAttempts(tasks: seq<TimeWindowTask>, attempts: seq<G.Attempt>,
                              created: seq<TimeWindowTaskTracker>) {
    && |tasks| == |attempts|
    && forall i :: 0 <= i < |tasks| ==>
         && attempts[i].tracker < |created| && tasks[i].tracker == created[attempts[i].tracker]
         && tasks[i].ctx == attempts[i].ctx && tasks[i].filter == attempts[i].filter
  }

  class TimeWindowTaskGenerator {
    var lastWindow: TimeWindow
    var taskTrackers: seq<TimeWindowTaskTracker>

    ghost const start: int
    /** Every tracker this generator has made, and the numbers of those in `taskTrackers`. */
    ghost var created: seq<TimeWindowTaskTracker>
    ghost var active: seq<nat>
    ghost var Repr: set<TimeWindowTaskTracker>

    ghost predicate Valid()
      reads this, Repr
    {
      && Within(created, Repr) && (forall t :: t in Repr ==> t.Valid())
      && NoDuplicates(created) && Selects(created, active, taskTrackers)
    }

    ghost function Value(): M.Generator
      requires Within(created, Repr)
      reads this, Repr
    {
      M.Generator(start, lastWindow, Values(created, Repr), active)
    }

    constructor (now: int)
      ensures Valid() && Repr == {} && Value() == M.NewGenerator(now)
    {
      start := now - INITIAL_WINDOW_AGE;
      lastWindow := NewTimeWindow(now - INITIAL_WINDOW_AGE, WINDOW_SIZE).value;
      taskTrackers, created, active, Repr := [], [], [], {};
    }

    method MaybeGenerateNewTracker(now: int) returns (tracker: Option<TimeWindowTaskTracker>)
      modifies this`lastWindow
      ensures lastWindow == if tracker.Some? then old(lastWindow).Advance() else old(lastWindow)
      ensures tracker.Some? <==> old(lastWindow).End() <= now - WINDOW_SIZE
      ensures tracker.Some? ==>
                fresh(tracker.value) && tracker.value.Valid() && tracker.value.Value() == NewTracker(old(lastWindow))
    {
      var currentWindow := lastWindow;
      if currentWindow.End() > now - WINDOW_SIZE {
        return None;
      }
      var v := new TimeWindowTaskTracker(currentWindow);
      lastWindow := currentWindow.Advance();
      return Some(v);
    }

    method DropDone(contexts: C.ContextTree)
      requires Valid()
      modifies this`taskTrackers, this`active, contexts
      ensures Valid()
      ensures var p := G.PruneAll(old(Value()).store, old(active), old(contexts.nodes));
              active == p.active && contexts.nodes == p.tree
    {
      ghost var store, tree := Values(created, Repr), contexts.nodes;
      var kept: seq<TimeWindowTaskTracker> := [];
      ghost var keptIds: seq<nat> := [];
      for i := 0 to |taskTrackers|
        modifies contexts
        invariant G.Pruned(keptIds, contexts.nodes) == G.PruneAll(store, active[..i], tree)
        invariant Selects(created, keptIds, kept)
      {
        G.PruneOne(store, active, tree, i);
        assert store[active[i]] == taskTrackers[i].Value();
        var ended := taskTrackers[i].CheckIfDoneAndEnd(contexts);
        if !ended {
          kept := kept + [taskTrackers[i]];
          keptIds := keptIds + [active[i]];
        }
      }
      assert active[..|active|] == active;
      taskTrackers := kept;
      active := keptIds;
    }

    method Append(tracker: TimeWindowTaskTracker)
      requires Valid() && tracker !in Repr && tracker.Valid()
      modifies this`taskTrackers, this`active, this`created, this`Repr
      ensures Valid() && Repr == old(Repr) + {tracker} && created == old(created) + [tracker]
      ensures Value() == old(Value()).(store := old(Value()).store + [tracker.Value()],
                                       active := old(active) + [|old(created)|])
    {
      taskTrackers := taskTrackers + [tracker];
      active := active + [|created|];
      created := created + [tracker];
      Repr := Repr + {tracker};
    }

    /** One round of the loop that fills the list up. */
    method AddTracker(now: int)
      requires Valid()
      modifies this`taskTrackers, this`active, this`lastWindow, this`created, this`Repr
      ensures Valid() && fresh(Repr - old(Repr)) && old(Repr) <= Repr && old(created) <= created
      ensures Value() == M.Extend(old(Value()), now)
    {
      ghost var g := Value();
      var tracker := MaybeGenerateNewTracker(now);
      assert Values(created, Repr) == g.store;
      if tracker.Some? {
        Append(tracker.value);
      }
    }

    method AddTrackers(now: int)
      requires Valid()
      modifies this`taskTrackers, this`active, this`lastWindow, this`created, this`Repr
      ensures Valid() && fresh(Repr - old(Repr)) && old(Repr) <= Repr && old(created) <= created
      ensures var missing := if |old(active)| < M.CONCURRENCY then M.CONCURRENCY - |old(active)| else 0;
              Value() == G.GrowBy(old(Value()), now, missing)
    {
      ghost var g := Value();
      var i := |taskTrackers|;
      ghost var rounds := 0;
      while i < M.CONCURRENCY
        modifies this`taskTrackers, this`active, this`lastWindow, this`created, this`Repr
        invariant rounds + |old(active)| == i && (i <= M.CONCURRENCY || rounds == 0)
        invariant Valid() && fresh(Repr - old(Repr)) && old(Repr) <= Repr && old(created) <= created
        invariant Value() == G.GrowBy(g, now, rounds)
      {
        AddTracker(now);
        i := i + 1;
        rounds := rounds + 1;
      }
    }

    /** One round of the loop that starts attempts; `soFar` is what earlier rounds did. */
    method StartTracker(i: nat, contexts: C.ContextTree, parent: nat, subject: Subject, result: seq<TimeWindowTask>,
                        ghost soFar: G.StartedAll)
      returns (r: Result<seq<TimeWindowTask>>, ghost now: G.StartedAll)
      requires Valid() && parent < |contexts.nodes| && i < |taskTrackers|
      requires soFar == G.StartedAll(Values(created, Repr), contexts.nodes, soFar.attempts, false)
      requires AreAttempts(result, soFar.attempts, created)
      modifies Repr, contexts
      ensures Valid() && now == G.StartNext(soFar, active[i], parent, subject)
      ensures now == G.StartedAll(Values(created, Repr), contexts.nodes, now.attempts, r.Err?)
      ensures r.Ok? ==> AreAttempts(r.value, now.attempts, created)
    {
      now := G.StartNext(soFar, active[i], parent, subject);
      var task := taskTrackers[i].MaybeStart(contexts, parent, subject);
      if task.Err? {
        return Err, now;
      }
      r := Ok(if task.value.Some? then result + [task.value.value] else result);
    }

    method StartTrackers(contexts: C.ContextTree, parent: nat, subject: Subject)
      returns (r: Result<seq<TimeWindowTask>>)
      requires Valid() && parent < |contexts.nodes|
      modifies Repr, contexts
      ensures Valid()
      ensures var s := G.StartAll(old(Value()).store, active, old(contexts.nodes), parent, subject);
              && Values(created, Repr) == s.store && contexts.nodes == s.tree
              && (r.Ok? <==> !s.failed) && (r.Ok? ==> AreAttempts(r.value, s.attempts, created))
    {
      ghost var store, tree := Values(created, Repr), contexts.nodes;
      ghost var s := G.StartedAll(store, tree, [], false);
      r := Ok([]);
      for i := 0 to |taskTrackers|
        modifies Repr, contexts
        invariant Valid() && s == G.StartAll(store, active[..i], tree, parent, subject)
        invariant s == G.StartedAll(Values(created, Repr), contexts.nodes, s.attempts, false)
        invariant r.Ok? && AreAttempts(r.value, s.attempts, created)
      {
        assert active[..i + 1][..i] == active[..i];
        r, s := StartTracker(i, contexts, parent, subject, r.value, s);
        if r.Err? {
          FailureSticks(store, active, tree, parent, subject, i + 1);
          return Err;
        }
      }
      assert active[..|active|] == active;
    }

    method Generate(contexts: C.ContextTree, now: int, parent: nat, subject: Subject)
      returns (r: Result<seq<TimeWindowTask>>)
      requires Valid() && parent < |contexts.nodes|
      modifies this, Repr, contexts
      ensures Valid() && fresh(Repr - old(Repr)) && old(Repr) <= Repr
      ensures var g := G.Generate(old(Value()), old(contexts.nodes), now, parent, subject);
              && Value() == g.gen && contexts.nodes == g.tree
              && (r.Ok? <==> !g.failed) && (r.Ok? ==> AreAttempts(r.value, g.attempts, created))
    {
      ghost var g, tree := Value(), contexts.nodes;
      DropDone(contexts);
      ghost var kept := Value();
      assert kept == g.(active := G.PruneAll(g.store, g.active, tree).active);
      AddTrackers(now);
      ghost var grown := Value();
      G.GenerateStages(g, tree, now, parent, subject, kept, grown);
      r := StartTrackers(contexts, parent, subject);
      assert Value() == grown.(store := Values(created, Repr));
    }
  }

  lemma {:induction false} FailureSticks(store: seq<Tracker>, active: seq<nat>, tree: C.Tree, parent: nat,
                                         subject: Subject, n: nat)
    requires M.Ids(active, |store|) && parent < |tree| && n <= |active|
    requires G.StartAll(store, active[..n], tree, parent, subject).failed
    ensures G.StartAll(store, active, tree, parent, subject) == G.StartAll(store, active[..n], tree, parent, subject)
    decreases |active|
  {
    if n == |active| {
      assert active[..n] == active;
    } else {
      var shorter := active[..|active| - 1];
      assert shorter[..n] == active[..n];
      FailureSticks(store, shorter, tree, parent, subject, n);
    }
  }
}
