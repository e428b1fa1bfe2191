/** The migrations runner, over any number of runs with failing functions, failing storage and crashes. */
module Migrations {
  import opened Sequences
  import opened Wrappers

  type State = map<string, string>

  datatype Status = Failed | Finished

  // ---------------------------------------------------------------- the list

  datatype Migration = Migration(name: string, hasFn: bool)

  function Names(migrations: seq<Migration>): seq<string> {
    seq(|migrations|, i requires 0 <= i < |migrations| => migrations[i].name)
  }

  /** Refuses zero values and duplicate names, and nothing else. */
  method NewMigrations(migrations: seq<Migration>) returns (r: Result<seq<Migration>>)
    ensures r.Ok? <==> (forall i :: 0 <= i < |migrations| ==> migrations[i].hasFn) && NoDuplicates(Names(migrations))
    ensures r.Ok? ==> r.value == migrations
  {
    var names: set<string> := {};
    for i := 0 to |migrations|
      invariant forall j :: 0 <= j < i ==> migrations[j].hasFn
      invariant names == set j | 0 <= j < i :: migrations[j].name
      invariant forall j, k :: 0 <= j < k < i ==> migrations[j].name != migrations[k].name
    {
      if !migrations[i].hasFn {
        return Err;
      }
      if migrations[i].name in names {
        ghost var j :| 0 <= j < i && migrations[j].name == migrations[i].name;
        assert Names(migrations)[j] == Names(migrations)[i];
        return Err;
      }
      names := names + {migrations[i].name};
    }
    return Ok(migrations);
  }

  // ---------------------------------------------------------------- storage and its history

  /** What happened so far, over all runs: the callbacks, the executions with the state they were given,
      and the writes that reached the storage. */
  datatype Entry =
    | Running(i: nat)
    | Started(i: nat, given: State)
    | SavedState(i: nat, state: State)
    | SavedStatus(i: nat, status: Status)
    | ErrorAt(i: nat)
    | AllDone

  datatype World = World(states: map<string, State>, statuses: map<string, Status>, log: seq<Entry>)

  const EMPTY := World(map[], map[], [])

  function Apply(w: World, names: seq<string>, e: Entry): World {
    var w' := w.(log := w.log + [e]);
    if e.SavedState? && e.i < |names| then w'.(states := w.states[names[e.i] := e.state])
    else if e.SavedStatus? && e.i < |names| then w'.(statuses := w.statuses[names[e.i] := e.status])
    else w'
  }

  function StoredState(w: World, name: string): State {
    if name in w.states then w.states[name] else map[]
  }

  predicate IsFinished(w: World, name: string) {
    name in w.statuses && w.statuses[name] == Finished
  }

  /** A write that fails may still have reached the storage. */
  datatype Write = Stored | Lost | StoredWithError

  /** What the world outside does to one attempt at a migration: which reads fail, what the function saves
      and returns, whether the process dies while it executes, and what becomes of the status. */
  datatype Attempt = Attempt(statusReadable: bool, stateReadable: bool, saves: seq<(State, Write)>, dies: bool,
                             fnOk: bool, statusWrite: Write)

  datatype End = Continue | Fail | Dead

  // ---------------------------------------------------------------- the runner

  function SaveAll(w: World, names: seq<string>, i: nat, saves: seq<(State, Write)>): World
    decreases |saves|
  {
    if saves == [] then w
    else
      var before := SaveAll(w, names, i, saves[..|saves| - 1]);
      var last := saves[|saves| - 1];
      if last.1.Lost? then before else Apply(before, names, SavedState(i, last.0))
  }

  function Execute(w: World, names: seq<string>, i: nat, a: Attempt): (World, End)
    requires i < |names|
  {
    var saved := SaveAll(Apply(w, names, Started(i, StoredState(w, names[i]))), names, i, a.saves);
    if a.dies then (saved, Dead)
    else
      var done := if a.statusWrite.Lost? then saved
      else Apply(saved, names, SavedStatus(i, if a.fnOk then Finished else Failed));
      (done, if a.fnOk && a.statusWrite.Stored? then Continue else Fail)
  }

  function RunMigration(w: World, names: seq<string>, i: nat, a: Attempt): (World, End)
    requires i < |names|
  {
    if !a.statusReadable then (w, Fail)
    else if IsFinished(w, names[i]) then (w, Continue)
    else
      var running := Apply(w, names, Running(i));
      if !a.stateReadable then (running, Fail) else Execute(running, names, i, a)
  }

  function RunFrom(w: World, names: seq<string>, i: nat, script: seq<Attempt>): (World, End)
    requires i <= |names| == |script|
    decreases |names| - i
  {
    if i == |names| then (Apply(w, names, AllDone), Continue)
    else
      var (w', end) := RunMigration(w, names, i, script[i]);
      match end
      case Continue => RunFrom(w', names, i + 1, script)
      case Fail => (Apply(w', names, ErrorAt(i)), Fail)
      case Dead => (w', Dead)
  }

  /** Any number of runs over the same list, each with its own troubles. */
  function Runs(w: World, names: seq<string>, scripts: seq<seq<Attempt>>): World
    requires forall r :: 0 <= r < |scripts| ==> |scripts[r]| == |names|
    decreases |scripts|
  {
    if scripts == [] then w else Runs(RunFrom(w, names, 0, scripts[0]).0, names, scripts[1..])
  }

  // ---------------------------------------------------------------- what a history may look like

  function LastState(log: seq<Entry>, i: nat): State {
    if log == [] then map[]
    else
      var e := log[|log| - 1];
      if e.SavedState? && e.i == i then e.state else LastState(log[..|log| - 1], i)
  }

  function LastStatus(log: seq<Entry>, i: nat): Option<Status> {
    if log == [] then None
    else
      var e := log[|log| - 1];
      if e.SavedStatus? && e.i == i then Some(e.status) else LastStatus(log[..|log| - 1], i)
  }

  ghost predicate EarlierFinished(log: seq<Entry>, i: nat) {
    forall j: nat :: j < i ==> LastStatus(log, j) == Some(Finished)
  }

  /** It is migration i's turn. */
  ghost predicate Turn(log: seq<Entry>, n: nat, i: nat) {
    i < n && EarlierFinished(log, i) && LastStatus(log, i) != Some(Finished)
  }

  ghost predicate Allowed(log: seq<Entry>, n: nat, e: Entry) {
    match e
    case Started(i, given) => Turn(log, n, i) && given == LastState(log, i) && log != [] && log[|log| - 1] == Running(i)
    case ErrorAt(i) => i < n && EarlierFinished(log, i)
    case AllDone => EarlierFinished(log, n)
    case _ => Turn(log, n, e.i)
  }

  ghost predicate Orderly(log: seq<Entry>, n: nat) {
    forall p :: 0 <= p < |log| ==> Allowed(log[..p], n, log[p])
  }

  /** The storage holds what the history last put there. */
  ghost predicate Agrees(w: World, names: seq<string>) {
    forall i: nat :: i < |names| ==>
      && StoredState(w, names[i]) == LastState(w.log, i)
      && (if names[i] in w.statuses then Some(w.statuses[names[i]]) else None) == LastStatus(w.log, i)
  }

  ghost predicate Inv(w: World, names: seq<string>) {
    NoDuplicates(names) && Agrees(w, names) && Orderly(w.log, |names|)
  }

  lemma ApplyKeepsInv(w: World, names: seq<string>, e: Entry)
    requires Inv(w, names) && Allowed(w.log, |names|, e)
    ensures Inv(Apply(w, names, e), names)
  {
    var log := w.log + [e];
    assert log[..|w.log|] == w.log;
    forall p | 0 <= p < |log| ensures Allowed(log[..p], |names|, log[p]) {
      assert log[..p] == w.log[..p] && (p < |w.log| ==> log[p] == w.log[p]);
      assert p == |w.log| ==> w.log[..p] == w.log;
    }
  }

  /** Migration i is being executed: whatever it saves, it stays its turn. */
  lemma {:induction false} SavesKeepInv(w: World, names: seq<string>, i: nat, saves: seq<(State, Write)>)
    requires Inv(w, names) && Turn(w.log, |names|, i)
    ensures Inv(SaveAll(w, names, i, saves), names) && Turn(SaveAll(w, names, i, saves).log, |names|, i)
    decreases |saves|
  {
    if saves != [] {
      SavesKeepInv(w, names, i, saves[..|saves| - 1]);
      var before := SaveAll(w, names, i, saves[..|saves| - 1]);
      var e := SavedState(i, saves[|saves| - 1].0);
      ApplyKeepsInv(before, names, e);
      assert (before.log + [e])[..|before.log|] == before.log;
    }
  }

  lemma StatusesAfter(log: seq<Entry>, e: Entry)
    ensures forall j :: LastStatus(log + [e], j) == if e.SavedStatus? && e.i == j then Some(e.status)
            else LastStatus(log, j)
  {
    assert (log + [e])[..|log|] == log;
  }

  lemma StartAndSaveKeepInv(w: World, names: seq<string>, i: nat, saves: seq<(State, Write)>)
    requires Inv(w, names) && Turn(w.log, |names|, i) && w.log != [] && w.log[|w.log| - 1] == Running(i)
    ensures var saved := SaveAll(Apply(w, names, Started(i, StoredState(w, names[i]))), names, i, saves);
            Inv(saved, names) && Turn(saved.log, |names|, i)
  {
    var e := Started(i, StoredState(w, names[i]));
    ApplyKeepsInv(w, names, e);
    StatusesAfter(w.log, e);
    SavesKeepInv(Apply(w, names, e), names, i, saves);
  }

  lemma StatusKeepsInv(w: World, names: seq<string>, i: nat, status: Status)
    requires Inv(w, names) && Turn(w.log, |names|, i)
    ensures var w' := Apply(w, names, SavedStatus(i, status));
            Inv(w', names) && EarlierFinished(w'.log, i) && LastStatus(w'.log, i) == Some(status)
  {
    ApplyKeepsInv(w, names, SavedStatus(i, status));
    StatusesAfter(w.log, SavedStatus(i, status));
  }

  lemma ExecuteKeepsInv(w: World, names: seq<string>, i: nat, a: Attempt)
    requires Inv(w, names) && Turn(w.log, |names|, i) && w.log != [] && w.log[|w.log| - 1] == Running(i)
    ensures var (w', end) := Execute(w, names, i, a);
            Inv(w', names) && EarlierFinished(w'.log, i) && (end.Continue? ==> LastStatus(w'.log, i) == Some(Finished))
  {
    StartAndSaveKeepInv(w, names, i, a.saves);
    if !a.dies && !a.statusWrite.Lost? {
      var saved := SaveAll(Apply(w, names, Started(i, StoredState(w, names[i]))), names, i, a.saves);
      StatusKeepsInv(saved, names, i, if a.fnOk then Finished else Failed);
    }
  }

  lemma RunMigrationKeepsInv(w: World, names: seq<string>, i: nat, a: Attempt)
    requires Inv(w, names) && i < |names| && EarlierFinished(w.log, i)
    ensures var (w', end) := RunMigration(w, names, i, a);
            Inv(w', names) && EarlierFinished(w'.log, i) && (end.Continue? ==> EarlierFinished(w'.log, i + 1))
  {
    if a.statusReadable && !IsFinished(w, names[i]) {
      ApplyKeepsInv(w, names, Running(i));
      StatusesAfter(w.log, Running(i));
      if a.stateReadable {
        ExecuteKeepsInv(Apply(w, names, Running(i)), names, i, a);
      }
    }
  }

  lemma DoneKeepsInv(w: World, names: seq<string>)
    requires Inv(w, names) && EarlierFinished(w.log, |names|)
    ensures Inv(Apply(w, names, AllDone), names) && EarlierFinished(Apply(w, names, AllDone).log, |names|)
  {
    ApplyKeepsInv(w, names, AllDone);
    StatusesAfter(w.log, AllDone);
  }

  lemma ErrorKeepsInv(w: World, names: seq<string>, i: nat)
    requires Inv(w, names) && i < |names| && EarlierFinished(w.log, i)
    ensures Inv(Apply(w, names, ErrorAt(i)), names)
  {
    ApplyKeepsInv(w, names, ErrorAt(i));
  }

  /** What is to be shown of a run that came to this world. */
  ghost predicate KeptInv(w: World, names: seq<string>, end: End) {
    Inv(w, names) && (end.Continue? ==> EarlierFinished(w.log, |names|))
  }

  lemma {:induction false} RunKeepsInv(w: World, names: seq<string>, i: nat, script: seq<Attempt>)
    requires Inv(w, names) && i <= |names| == |script| && EarlierFinished(w.log, i)
    ensures KeptInv(RunFrom(w, names, i, script).0, names, RunFrom(w, names, i, script).1)
    decreases |names| - i
  {
    if i == |names| {
      DoneKeepsInv(w, names);
      return;
    }
    RunMigrationKeepsInv(w, names, i, script[i]);
    var (w', end) := RunMigration(w, names, i, script[i]);
    if end.Continue? {
      RunKeepsInv(w', names, i + 1, script);
      assert RunFrom(w, names, i, script) == RunFrom(w', names, i + 1, script);
    } else if end.Fail? {
      ErrorKeepsInv(w', names, i);
    }
  }

  lemma {:induction false} RunsKeepInv(w: World, names: seq<string>, scripts: seq<seq<Attempt>>)
    requires Inv(w, names) && forall r :: 0 <= r < |scripts| ==> |scripts[r]| == |names|
    ensures Inv(Runs(w, names, scripts), names)
    decreases |scripts|
  {
    if scripts != [] {
      RunKeepsInv(w, names, 0, scripts[0]);
      RunsKeepInv(RunFrom(w, names, 0, scripts[0]).0, names, scripts[1..]);
    }
  }

  // ---------------------------------------------------------------- over all runs

  ghost predicate History(names: seq<string>, w: World) {
    NoDuplicates(names) && exists scripts: seq<seq<Attempt>> ::
      (forall r :: 0 <= r < |scripts| ==> |scripts[r]| == |names|) && w == Runs(EMPTY, names, scripts)
  }

  lemma HistoriesKeepInv(names: seq<string>, w: World)
    requires History(names, w)
    ensures Inv(w, names)
  {
    var scripts: seq<seq<Attempt>> :|
      (forall r :: 0 <= r < |scripts| ==> |scripts[r]| == |names|) && w == Runs(EMPTY, names, scripts);
    RunsKeepInv(EMPTY, names, scripts);
  }

  /** A migration that has any status has only finished ones before it. */
  lemma {:induction false} StatusMeansEarlierFinished(log: seq<Entry>, n: nat, i: nat)
    requires Orderly(log, n) && LastStatus(log, i).Some?
    ensures EarlierFinished(log, i)
    decreases |log|
  {
    var before, e := log[..|log| - 1], log[|log| - 1];
    assert Allowed(before, n, e);
    assert log == before + [e];
    StatusesAfter(before, e);
    forall p | 0 <= p < |before| ensures Allowed(before[..p], n, before[p]) {
      assert before[..p] == log[..p];
    }
    if !(e.SavedStatus? && e.i == i) {
      StatusMeansEarlierFinished(before, n, i);
    }
  }

  /** The first k migrations are finished, the next one is at most failed, and the others have no status. */
  ghost predicate FinishedUpTo(names: seq<string>, w: World, k: nat) {
    && k <= |names|
    && (forall i :: 0 <= i < k ==> IsFinished(w, names[i]))
    && (k < |names| ==> !IsFinished(w, names[k]))
    && (forall i :: k < i < |names| ==> names[i] !in w.statuses)
  }

  /** The stored statuses: a prefix of finished migrations, then at most one failed one, then nothing. */
  lemma FinishedPrefix(names: seq<string>, w: World)
    requires History(names, w)
    ensures exists k :: FinishedUpTo(names, w, k)
  {
    HistoriesKeepInv(names, w);
    var k: nat := 0;
    while k < |names| && IsFinished(w, names[k])
      invariant k <= |names| && forall i :: 0 <= i < k ==> IsFinished(w, names[i])
    {
      k := k + 1;
    }
    forall i: nat | k < i < |names| ensures names[i] !in w.statuses {
      if names[i] in w.statuses {
        StatusMeansEarlierFinished(w.log, |names|, i);
      }
    }
    assert FinishedUpTo(names, w, k);
  }

  lemma {:induction false} LastStatusWasSaved(log: seq<Entry>, i: nat)
    requires LastStatus(log, i).Some?
    ensures exists q :: 0 <= q < |log| && log[q] == SavedStatus(i, LastStatus(log, i).value)
    decreases |log|
  {
    var e := log[|log| - 1];
    if !(e.SavedStatus? && e.i == i) {
      LastStatusWasSaved(log[..|log| - 1], i);
    }
  }

  /** A migration is executed only after the finished status of every earlier one was stored. */
  lemma RunsOnlyInOrder(names: seq<string>, w: World, p: nat, j: nat)
    requires History(names, w) && p < |w.log| && w.log[p].Started? && j < w.log[p].i
    ensures exists q :: 0 <= q < p && w.log[q] == SavedStatus(j, Finished)
  {
    HistoriesKeepInv(names, w);
    assert Allowed(w.log[..p], |names|, w.log[p]);
    LastStatusWasSaved(w.log[..p], j);
    var q :| 0 <= q < p && w.log[..p][q] == SavedStatus(j, Finished);
    assert w.log[q] == SavedStatus(j, Finished);
  }

  lemma {:induction false} FinishedStays(log: seq<Entry>, n: nat, q: nat, p: nat, i: nat)
    requires Orderly(log, n) && q < p <= |log| && log[q] == SavedStatus(i, Finished)
    ensures LastStatus(log[..p], i) == Some(Finished)
    decreases p
  {
    assert log[..p] == log[..p - 1] + [log[p - 1]];
    StatusesAfter(log[..p - 1], log[p - 1]);
    if q < p - 1 {
      FinishedStays(log, n, q, p - 1, i);
      assert Allowed(log[..p - 1], n, log[p - 1]);
    }
  }

  /** Once its finished status is stored a migration is never executed again, nor is anything of it stored. */
  lemma NeverAfterFinished(names: seq<string>, w: World, q: nat, p: nat)
    requires History(names, w) && q < p < |w.log| && w.log[q].SavedStatus? && w.log[q].status == Finished
    ensures w.log[p].Started? || w.log[p].SavedState? || w.log[p].SavedStatus? || w.log[p].Running? ==>
              w.log[p].i != w.log[q].i
  {
    HistoriesKeepInv(names, w);
    FinishedStays(w.log, |names|, q, p, w.log[q].i);
    assert Allowed(w.log[..p], |names|, w.log[p]);
  }

  lemma {:induction false} LastStateIsLast(log: seq<Entry>, i: nat, q: int)
    requires -1 <= q < |log| && (q >= 0 ==> log[q].SavedState? && log[q].i == i)
    requires forall p :: q < p < |log| ==> !(log[p].SavedState? && log[p].i == i)
    ensures LastState(log, i) == if q >= 0 then log[q].state else map[]
    decreases |log|
  {
    if q < |log| - 1 {
      LastStateIsLast(log[..|log| - 1], i, q);
    }
  }

  /** A retry is given the last state that was stored, a first execution the empty one; q is the position
      of the last save, or -1. */
  lemma RetryGetsLastState(names: seq<string>, w: World, p: nat, q: int)
    requires History(names, w) && p < |w.log| && w.log[p].Started? && -1 <= q < p
    requires q >= 0 ==> w.log[q].SavedState? && w.log[q].i == w.log[p].i
    requires forall r :: q < r < p ==> !(w.log[r].SavedState? && w.log[r].i == w.log[p].i)
    ensures w.log[p].given == if q >= 0 then w.log[q].state else map[]
  {
    HistoriesKeepInv(names, w);
    assert Allowed(w.log[..p], |names|, w.log[p]);
    LastStateIsLast(w.log[..p], w.log[p].i, q);
  }

  /** OnDone is called only when the finished status of every migration is stored. */
  lemma DoneMeansAllFinished(names: seq<string>, w: World, p: nat, i: nat)
    requires History(names, w) && p < |w.log| && w.log[p].AllDone? && i < |names|
    ensures exists q :: 0 <= q < p && w.log[q] == SavedStatus(i, Finished)
  {
    HistoriesKeepInv(names, w);
    assert Allowed(w.log[..p], |names|, w.log[p]);
    LastStatusWasSaved(w.log[..p], i);
    var q :| 0 <= q < p && w.log[..p][q] == SavedStatus(i, Finished);
    assert w.log[q] == SavedStatus(i, Finished);
  }

  /** Nothing goes wrong in this attempt: the migration was finished already, or it is executed and its
      function, the reads and the write of the status all succeed. */
  predicate Smooth(a: Attempt, finished: bool) {
    a.statusReadable && (finished || (a.stateReadable && !a.dies && a.fnOk && a.statusWrite.Stored?))
  }

  lemma {:induction false} SavesKeepStatuses(w: World, names: seq<string>, i: nat, saves: seq<(State, Write)>)
    ensures SaveAll(w, names, i, saves).statuses == w.statuses
    decreases |saves|
  {
    if saves != [] {
      SavesKeepStatuses(w, names, i, saves[..|saves| - 1]);
    }
  }

  /** The state after these saves, when it was `before`: the last one that reached the storage. */
  function LastStored(before: State, saves: seq<(State, Write)>): State {
    if saves == [] then before
    else if saves[|saves| - 1].1.Lost? then LastStored(before, saves[..|saves| - 1])
    else saves[|saves| - 1].0
  }

  lemma {:induction false} SavesStore(w: World, names: seq<string>, i: nat, saves: seq<(State, Write)>)
    requires i < |names|
    ensures StoredState(SaveAll(w, names, i, saves), names[i]) == LastStored(StoredState(w, names[i]), saves)
    decreases |saves|
  {
    if saves != [] {
      SavesStore(w, names, i, saves[..|saves| - 1]);
    }
  }

  /** What an execution leaves in the storage: its last save, and the status of its result unless the process
      died or the write was lost; the migration that failed is marked as failed. */
  lemma ExecutionStores(w: World, names: seq<string>, i: nat, a: Attempt)
    requires i < |names|
    ensures var w' := Execute(w, names, i, a).0;
            && StoredState(w', names[i]) == LastStored(StoredState(w, names[i]), a.saves)
            && w'.statuses == if a.dies || a.statusWrite.Lost? then w.statuses
                              else w.statuses[names[i] := if a.fnOk then Finished else Failed]
  {
    var started := Apply(w, names, Started(i, StoredState(w, names[i])));
    SavesStore(started, names, i, a.saves);
    SavesKeepStatuses(started, names, i, a.saves);
  }

  lemma AttemptSucceedsIff(w: World, names: seq<string>, i: nat, a: Attempt)
    requires NoDuplicates(names) && i < |names|
    ensures var (w', end) := RunMigration(w, names, i, a);
            && (end.Continue? <==> Smooth(a, IsFinished(w, names[i])))
            && (end.Continue? ==> IsFinished(w', names[i]))
            && forall j :: 0 <= j < |names| && j != i ==> IsFinished(w', names[j]) == IsFinished(w, names[j])
  {
    var running := Apply(w, names, Running(i));
    SavesKeepStatuses(Apply(running, names, Started(i, StoredState(w, names[i]))), names, i, a.saves);
    assert forall j :: 0 <= j < |names| && j != i ==> names[j] != names[i];
  }

  /** A run reports success exactly when nothing went wrong in it, however the earlier runs ended; then
      every migration is finished. */
  lemma {:induction false} RunSucceedsIff(w: World, names: seq<string>, i: nat, script: seq<Attempt>)
    requires NoDuplicates(names) && i <= |names| == |script|
    requires forall j :: 0 <= j < i ==> IsFinished(w, names[j])
    ensures var (w', end) := RunFrom(w, names, i, script);
            && (end.Continue? <==> forall j :: i <= j < |names| ==> Smooth(script[j], IsFinished(w, names[j])))
            && (end.Continue? ==> forall j :: 0 <= j < |names| ==> IsFinished(w', names[j]))
    decreases |names| - i
  {
    if i < |names| {
      AttemptSucceedsIff(w, names, i, script[i]);
      var (w', end) := RunMigration(w, names, i, script[i]);
      if end.Continue? {
        RunSucceedsIff(w', names, i + 1, script);
        assert forall j :: i < j < |names| ==> IsFinished(w', names[j]) == IsFinished(w, names[j]);
      } else {
        assert !Smooth(script[i], IsFinished(w, names[i]));
      }
    }
  }

  lemma {:induction false} SavesOnlyAppend(w: World, names: seq<string>, i: nat, saves: seq<(State, Write)>)
    ensures w.log <= SaveAll(w, names, i, saves).log
    decreases |saves|
  {
    if saves != [] {
      SavesOnlyAppend(w, names, i, saves[..|saves| - 1]);
    }
  }

  lemma AttemptOnlyAppends(w: World, names: seq<string>, i: nat, a: Attempt)
    requires i < |names|
    ensures w.log <= RunMigration(w, names, i, a).0.log
    ensures a.statusReadable && !IsFinished(w, names[i]) && a.stateReadable ==>
              w.log + [Running(i), Started(i, StoredState(w, names[i]))] <= RunMigration(w, names, i, a).0.log
  {
    var running := Apply(w, names, Running(i));
    SavesOnlyAppend(Apply(running, names, Started(i, StoredState(w, names[i]))), names, i, a.saves);
  }

  ghost function Added(w: World, w': World): seq<Entry> {
    if w.log <= w'.log then w'.log[|w.log|..] else []
  }

  /** OnRunning is meant to be called only when a migration is executed. It is called one step too early:
      no execution follows exactly when the status says run and the state cannot be loaded. */
  lemma OnRunningWithoutExecution(w: World, names: seq<string>, i: nat, a: Attempt)
    requires i < |names|
    ensures var added := Added(w, RunMigration(w, names, i, a).0);
            (Running(i) in added && forall given :: Started(i, given) !in added)
            <==> a.statusReadable && !IsFinished(w, names[i]) && !a.stateReadable
  {
    AttemptOnlyAppends(w, names, i, a);
    var added := Added(w, RunMigration(w, names, i, a).0);
    if a.statusReadable && !IsFinished(w, names[i]) {
      if a.stateReadable {
        assert added[1] == Started(i, StoredState(w, names[i]));
      } else {
        assert added == [Running(i)];
      }
    } else {
      assert added == [];
    }
  }

  // ---------------------------------------------------------------- what a run reports

  /** No OnError and no OnDone from here on. */
  ghost predicate NoReports(log: seq<Entry>, from: nat) {
    forall p :: from <= p < |log| ==> !log[p].ErrorAt? && !log[p].AllDone?
  }

  lemma {:induction false} SavesReportNothing(w: World, names: seq<string>, i: nat, saves: seq<(State, Write)>,
                                              from: nat)
    requires NoReports(w.log, from)
    ensures NoReports(SaveAll(w, names, i, saves).log, from)
    decreases |saves|
  {
    if saves != [] {
      SavesReportNothing(w, names, i, saves[..|saves| - 1], from);
    }
  }

  lemma AttemptReportsNothing(w: World, names: seq<string>, i: nat, a: Attempt)
    requires i < |names|
    ensures var w' := RunMigration(w, names, i, a).0;
            w.log <= w'.log && NoReports(w'.log, |w.log|)
  {
    AttemptOnlyAppends(w, names, i, a);
    var running := Apply(w, names, Running(i));
    SavesReportNothing(Apply(running, names, Started(i, StoredState(w, names[i]))), names, i, a.saves, |w.log|);
  }

  /** Of the migrations from i on, j is the first for which something goes wrong. */
  ghost predicate FailsFirst(w: World, names: seq<string>, i: nat, script: seq<Attempt>, j: nat)
    requires |script| == |names|
  {
    && i <= j < |names| && !Smooth(script[j], IsFinished(w, names[j]))
    && forall k :: i <= k < j ==> Smooth(script[k], IsFinished(w, names[k]))
  }

  /** How a run from w to w' is reported: once, at its end, OnDone for success and OnError of the first migration
      that failed for a failure; not at all if the process died. */
  ghost predicate IsReported(w: World, names: seq<string>, i: nat, script: seq<Attempt>, w': World, end: End)
    requires |script| == |names|
  {
    && w.log <= w'.log
    && match end
       case Dead => NoReports(w'.log, |w.log|)
       case _ =>
         var n := |w'.log| - 1;
         && |w.log| <= n && NoReports(w'.log[..n], |w.log|)
         && if end.Continue? then w'.log[n] == AllDone
            else w'.log[n].ErrorAt? && FailsFirst(w, names, i, script, w'.log[n].i)
  }

  lemma {:induction false} RunReports(w: World, names: seq<string>, i: nat, script: seq<Attempt>)
    requires NoDuplicates(names) && i <= |names| == |script|
    ensures IsReported(w, names, i, script, RunFrom(w, names, i, script).0, RunFrom(w, names, i, script).1)
    decreases |names| - i
  {
    if i == |names| {
      assert (w.log + [AllDone])[..|w.log|] == w.log;
      return;
    }
    AttemptReportsNothing(w, names, i, script[i]);
    AttemptSucceedsIff(w, names, i, script[i]);
    var (w', end) := RunMigration(w, names, i, script[i]);
    if end.Continue? {
      RunReports(w', names, i + 1, script);
      ReportedEarlier(w, w', names, i, script, RunFrom(w', names, i + 1, script).0,
                      RunFrom(w', names, i + 1, script).1);
    } else if end.Fail? {
      assert (w'.log + [ErrorAt(i)])[..|w'.log|] == w'.log;
    }
  }

  lemma ReportedEarlier(w: World, w': World, names: seq<string>, i: nat, script: seq<Attempt>, w'': World, end: End)
    requires i < |names| == |script| && w.log <= w'.log && NoReports(w'.log, |w.log|)
    requires IsReported(w', names, i + 1, script, w'', end) && Smooth(script[i], IsFinished(w, names[i]))
    requires forall j :: 0 <= j < |names| && j != i ==> IsFinished(w', names[j]) == IsFinished(w, names[j])
    ensures IsReported(w, names, i, script, w'', end)
  {
    assert forall p :: 0 <= p < |w'.log| ==> w''.log[p] == w'.log[p];
  }

  // ---------------------------------------------------------------- the methods

  class Runner {
    var w: World

    constructor ()
      ensures w == EMPTY
    {
      w := EMPTY;
    }

    method ExecuteFn(names: seq<string>, i: nat, saves: seq<(State, Write)>)
      modifies this
      ensures w == SaveAll(old(w), names, i, saves)
    {
      for k := 0 to |saves|
        invariant w == SaveAll(old(w), names, i, saves[..k])
      {
        assert saves[..k + 1][..k] == saves[..k];
        if !saves[k].1.Lost? {
          w := Apply(w, names, SavedState(i, saves[k].0));
        }
      }
      assert saves[..|saves|] == saves;
    }

    method RunMigrationAt(names: seq<string>, i: nat, a: Attempt) returns (end: End)
      requires i < |names|
      modifies this
      ensures (w, end) == RunMigration(old(w), names, i, a)
    {
      if !a.statusReadable {
        return Fail;
      }
      if IsFinished(w, names[i]) {
        return Continue;
      }
      w := Apply(w, names, Running(i));
      if !a.stateReadable {
        return Fail;
      }
      w := Apply(w, names, Started(i, StoredState(w, names[i])));
      ExecuteFn(names, i, a.saves);
      if a.dies {
        return Dead;
      }
      if !a.statusWrite.Lost? {
        w := Apply(w, names, SavedStatus(i, if a.fnOk then Finished else Failed));
      }
      return if a.fnOk && a.statusWrite.Stored? then Continue else Fail;
    }

    method Run(names: seq<string>, script: seq<Attempt>) returns (end: End)
      requires |script| == |names|
      modifies this
      ensures (w, end) == RunFrom(old(w), names, 0, script)
    {
      for i := 0 to |names|
        invariant RunFrom(w, names, i, script) == RunFrom(old(w), names, 0, script)
      {
        end := RunMigrationAt(names, i, script[i]);
        if end.Fail? {
          w := Apply(w, names, ErrorAt(i));
        }
        if !end.Continue? {
          return;
        }
      }
      w := Apply(w, names, AllDone);
      end := Continue;
    }
  }
}
