/** The values and the moves behind a relay's task generator: what a call for attempts and a push
    through one subscription have to come to, what the subscribers' contexts answered, and the loops of `Generate`
    as moves of the state machine in `Passes`. */
module RelayTaskModel {
  import opened Wrappers
  import opened Sequences
  import opened Trackers
  import opened SchedulerModel
  import opened Generation
  import opened Generators
  import opened Passes
  import opened SubscriptionLists
  import opened TaskSubjects
  import M = SchedulerModel
  import S = SchedulerProperties
  import C = Contexts
  import F = Filters

  /** An attempt that went through a channel; a goroutine works on it and calls it back. */
  datatype Sent = Sent(ch: nat, task: TimeWindowTask)

  ghost function Numbers(numbers: seq<nat>): set<nat> {
    set i | 0 <= i < |numbers| :: numbers[i]
  }

  /** All trackers the three generators have made. */
  datatype AllCreated = AllCreated(global: seq<TimeWindowTaskTracker>, author: seq<TimeWindowTaskTracker>,
                                   tag: seq<TimeWindowTaskTracker>) {
    ghost function Of(k: Kind): seq<TimeWindowTaskTracker> {
      match k case Global => global case Author => author case Tag => tag
    }

    ghost predicate GrownTo(later: AllCreated) {
      global <= later.global && author <= later.author && tag <= later.tag
    }
  }

  /** The object is the attempt that the state machine has recorded. */
  ghost predicate IsTask(task: TimeWindowTask, record: Task, made: AllCreated) {
    && task.ctx == record.ctx && task.filter == record.filter
    && record.tracker < |made.Of(record.kind)| && task.tracker == made.Of(record.kind)[record.tracker]
  }

  /** The objects are the attempts with these numbers. */
  ghost predicate AreTasks(tasks: seq<TimeWindowTask>, records: seq<Task>, ts: seq<nat>, made: AllCreated) {
    |tasks| == |ts| && forall i :: 0 <= i < |tasks| ==> ts[i] < |records| && IsTask(tasks[i], records[ts[i]], made)
  }

  lemma StillTasks(tasks: seq<TimeWindowTask>, records: seq<Task>, ts: seq<nat>, made: AllCreated,
                   records': seq<Task>, made': AllCreated)
    requires AreTasks(tasks, records, ts, made) && records <= records' && made.GrownTo(made')
    ensures AreTasks(tasks, records', ts, made')
  {
  }

  /** The object is the attempt to be pushed next. */
  ghost predicate IsNextTask(p: Pass, task: TimeWindowTask, made: AllCreated) {
    && p.phase.Pushing? && p.phase.queue != [] && p.phase.queue[0] < |p.w.tasks|
    && IsTask(task, p.w.tasks[p.phase.queue[0]], made)
  }

  function SentTasks(sent: seq<Sent>): seq<TimeWindowTask> {
    seq(|sent|, i requires 0 <= i < |sent| => sent[i].task)
  }

  /** The attempts started in between are of this kind and ask for this. */
  ghost predicate NewAsk(p: Pass, p': Pass, k: Kind, subject: Subject) {
    && p.w.tasks <= p'.w.tasks
    && forall t :: |p.w.tasks| <= t < |p'.w.tasks| ==> p'.w.tasks[t].kind == k && Asks(p'.w.tasks[t].filter, subject)
  }

  ghost predicate AllAsk(p: Pass, p': Pass, s: Subjects) {
    && p.w.tasks <= p'.w.tasks
    && forall t :: |p.w.tasks| <= t < |p'.w.tasks| ==> s.AskedBy(p'.w.tasks[t])
  }

  lemma AllAskJoin(a: Pass, b: Pass, c: Pass, s: Subjects)
    requires AllAsk(a, b, s) && AllAsk(b, c, s)
    ensures AllAsk(a, c, s)
  {
    forall t | |a.w.tasks| <= t < |c.w.tasks| ensures s.AskedBy(c.w.tasks[t]) {
      assert t < |b.w.tasks| ==> c.w.tasks[t] == b.w.tasks[t];
    }
  }

  /** The call goes on, with what it had and what it started. */
  ghost predicate SameCall(p: Pass, p': Pass) {
    p.phase.Collecting? && p'.phase.Collecting? && p'.phase.sub == p.phase.sub && p'.failures == p.failures
  }

  ghost predicate FailedCall(p: Pass, p': Pass) {
    p'.phase.Idle? && p'.failures == p.failures + 1
  }

  /** The order in which a call goes through the kinds. */
  function Place(k: Kind): nat {
    match k case Global => 0 case Author => 1 case Tag => 2
  }

  /** The call has come from p to q and goes on, through with the first n kinds: those of them that are wanted
      were busy. */
  ghost predicate HasCome(p: Pass, q: Pass, asked: Subjects, n: nat) {
    && Leads(p, q) && SameCall(p, q) && AllAsk(p, q, asked)
    && forall k: Kind :: Place(k) < n && asked.Wants(k) ==> WasBusy(p, q, k, q.phase.sub)
  }

  /** It has collected these attempts, or failed. */
  ghost predicate HasCollected(p: Pass, q: Pass, asked: Subjects, n: nat, r: Result<seq<TimeWindowTask>>,
                               made: AllCreated) {
    if r.Ok? then HasCome(p, q, asked, n) && AreTasks(r.value, q.w.tasks, Pending(q), made)
    else HasFailed(p, q, asked)
  }

  ghost predicate HasFailed(p: Pass, p': Pass, asked: Subjects) {
    Leads(p, p') && FailedCall(p, p') && AllAsk(p, p', asked) && SomeMarked(p, p')
  }

  ghost predicate KeepsUndone(w: World, k: Kind) {
    forall id: nat :: IsKept(w, k, id) ==> !w.gens.Of(k).store[id].state.Done?
  }

  ghost predicate KeepsDone(w: World, k: Kind) {
    exists id: nat :: IsKept(w, k, id) && w.gens.Of(k).store[id].state.Done?
  }

  ghost predicate WasUndone(p: Pass, p': Pass, k: Kind) {
    exists q :: Leads(p, q) && Leads(q, p') && KeepsUndone(q.w, k)
  }

  ghost predicate WasDone(p: Pass, p': Pass, k: Kind) {
    exists q :: Leads(p, q) && Leads(q, p') && KeepsDone(q.w, k)
  }

  /** The kind's tracker was marked as done in between: at one moment it was not, at a later one it was. */
  ghost predicate MarkedMeanwhile(p: Pass, p': Pass, k: Kind) {
    exists q :: Leads(p, q) && KeepsUndone(q.w, k) && WasDone(q, p', k)
  }

  ghost predicate SomeMarked(p: Pass, p': Pass) {
    exists k: Kind :: MarkedMeanwhile(p, p', k)
  }

  lemma WasDoneWithin(a: Pass, b: Pass, c: Pass, d: Pass, k: Kind)
    requires Leads(a, b) && WasDone(b, c, k) && Leads(c, d)
    ensures WasDone(a, d, k)
  {
    var q :| Leads(b, q) && Leads(q, c) && KeepsDone(q.w, k);
    LeadsJoin(a, b, q);
    LeadsJoin(q, c, d);
  }

  lemma IsMarked(p: Pass, q: Pass, p': Pass, k: Kind)
    requires WasUndone(p, q, k) && WasDone(q, p', k)
    ensures SomeMarked(p, p')
  {
    var v :| Leads(p, v) && Leads(v, q) && KeepsUndone(v.w, k);
    assert WasDone(v, p', k) by {
      LeadsSame(p');
      var last :| Leads(q, last) && Leads(last, p') && KeepsDone(last.w, k);
      LeadsJoin(v, q, last);
    }
    assert MarkedMeanwhile(p, p', k);
  }

  lemma MarkedWithin(a: Pass, b: Pass, c: Pass, d: Pass)
    requires Leads(a, b) && SomeMarked(b, c) && Leads(c, d)
    ensures SomeMarked(a, d)
  {
    var k: Kind :| MarkedMeanwhile(b, c, k);
    var q :| Leads(b, q) && KeepsUndone(q.w, k) && WasDone(q, c, k);
    LeadsJoin(a, b, q);
    LeadsSame(q);
    WasDoneWithin(q, q, c, d, k);
    assert MarkedMeanwhile(a, d, k);
  }

  lemma MarkedLater(a: Pass, b: Pass, c: Pass)
    requires Leads(a, b) && SomeMarked(b, c)
    ensures SomeMarked(a, c)
  {
    LeadsSame(c);
    MarkedWithin(a, b, c, c);
  }

  /** The call that failed, and why. */
  ghost predicate CallFailed(p: Pass, p': Pass) {
    p'.failures == p.failures + 1 && SomeMarked(p, p')
  }

  /** Every attempt started in between has its kind's query; the kinds that ask for keys have none without keys. */
  ghost predicate AllQueries(p: Pass, p': Pass, kinds: seq<int>, authors: seq<string>, tags: seq<F.FilterTag>) {
    && p.w.tasks <= p'.w.tasks
    && forall t :: |p.w.tasks| <= t < |p'.w.tasks| ==> IsQueryFor(p'.w.tasks[t], kinds, authors, tags)
  }

  /** The kinds that there are keys for were busy for the subscription. */
  ghost predicate ServesKinds(p: Pass, p': Pass, byAuthor: bool, byTag: bool, sub: nat) {
    && WasBusy(p, p', Global, sub) && (byAuthor ==> WasBusy(p, p', Author, sub)) && (byTag ==> WasBusy(p, p', Tag, sub))
  }

  lemma AskedMeans(p: Pass, p': Pass, s: Subjects)
    requires AllAsk(p, p', s)
    ensures AllQueries(p, p', s.kinds, s.authors, s.tags)
  {
    forall t | |p.w.tasks| <= t < |p'.w.tasks| ensures IsQueryFor(p'.w.tasks[t], s.kinds, s.authors, s.tags) {
      AskedByMeans(p'.w.tasks[t], s);
    }
  }

  lemma BusyMeans(p: Pass, p': Pass, s: Subjects, sub: nat)
    requires AllBusy(p, p', s, sub)
    ensures ServesKinds(p, p', s.authors != [], s.tags != [], sub)
  {
    WantedAre(s);
  }

  /** Every attempt started in between asks for what it should with these keys. */
  ghost predicate AllAskFor(p: Pass, p': Pass, keys: PublicKeys) {
    && p.w.tasks <= p'.w.tasks
    && forall t :: |p.w.tasks| <= t < |p'.w.tasks| ==> AsksFor(p'.w.tasks[t], keys)
  }

  /** The first n subscriptions were served with everything that the keys ask for. */
  ghost predicate KeysServedUpTo(p: Pass, p': Pass, keys: PublicKeys, subs: seq<TaskSubscription>, n: nat) {
    n <= |subs| && forall i :: 0 <= i < n ==> ServesKinds(p, p', keys.authors != [], keys.tagged != [], subs[i].ctx)
  }

  lemma KeysAskedFor(p: Pass, p': Pass, keys: PublicKeys)
    requires AllAsk(p, p', Subjects(GLOBAL_KINDS, keys.authors, TagsOf(keys.tagged)))
    ensures AllAskFor(p, p', keys)
  {
    AskedMeans(p, p', Subjects(GLOBAL_KINDS, keys.authors, TagsOf(keys.tagged)));
    forall t | |p.w.tasks| <= t < |p'.w.tasks| ensures AsksFor(p'.w.tasks[t], keys) {
      QueryAsksFor(p'.w.tasks[t], keys);
    }
  }

  lemma KeysServed(p: Pass, p': Pass, keys: PublicKeys, subs: seq<TaskSubscription>, n: nat)
    requires ServedUpTo(p, p', Subjects(GLOBAL_KINDS, keys.authors, TagsOf(keys.tagged)), subs, n)
    ensures KeysServedUpTo(p, p', keys, subs, n)
  {
    forall i | 0 <= i < n ensures ServesKinds(p, p', keys.authors != [], keys.tagged != [], subs[i].ctx) {
      BusyMeans(p, p', Subjects(GLOBAL_KINDS, keys.authors, TagsOf(keys.tagged)), subs[i].ctx);
    }
    assert TagsOf(keys.tagged) != [] <==> keys.tagged != [];
  }

  /** Every wanted kind was busy for the subscription at some moment in between. */
  ghost predicate AllBusy(p: Pass, p': Pass, asked: Subjects, sub: nat) {
    forall k: Kind :: asked.Wants(k) ==> WasBusy(p, p', k, sub)
  }

  lemma KindWasBusy(p: Pass, q: Pass, p': Pass, k: Kind, sub: nat)
    requires Leads(p, q) && Leads(q, p') && Leads(p, p') && HasGrown(q.w, k)
    requires q.w.gens.Of(k).active != [] ==> Busy(p'.w, k, sub)
    ensures WasBusy(p, p', k, sub)
  {
    LeadsSame(p');
    if q.w.gens.Of(k).active == [] {
      assert Busy(q.w, k, sub);
    }
  }

  lemma OneMoreBusy(p: Pass, q: Pass, p': Pass, asked: Subjects, k: Kind, sub: nat)
    requires HasCome(p, q, asked, Place(k)) && Leads(q, p') && Leads(p, p') && SameCall(q, p') && AllAsk(p, p', asked)
    requires Collects(q, sub) && (asked.Wants(k) ==> WasBusy(q, p', k, sub))
    ensures HasCome(p, p', asked, Place(k) + 1)
  {
    LeadsSame(p);
    LeadsSame(p');
    forall other: Kind | Place(other) < Place(k) + 1 && asked.Wants(other) ensures WasBusy(p, p', other, sub) {
      if Place(other) < Place(k) {
        WasBusyWithin(p, p, q, p', other, sub);
      } else {
        WasBusyWithin(p, q, p', p', other, sub);
      }
    }
  }

  lemma AllBusyWithin(a: Pass, b: Pass, c: Pass, d: Pass, asked: Subjects, sub: nat)
    requires Leads(a, b) && AllBusy(b, c, asked, sub) && Leads(c, d)
    ensures AllBusy(a, d, asked, sub)
  {
    forall k: Kind | asked.Wants(k) ensures WasBusy(a, d, k, sub) {
      WasBusyWithin(a, b, c, d, k, sub);
    }
  }

  lemma AllAreBusy(p: Pass, q: Pass, collected: Pass, p': Pass, asked: Subjects, sub: nat)
    requires Leads(p, q) && HasCome(q, collected, asked, Place(Tag) + 1) && Leads(collected, p')
    requires Collects(collected, sub)
    ensures AllBusy(p, p', asked, sub)
  {
    forall k: Kind | asked.Wants(k) ensures WasBusy(p, p', k, sub) {
      WasBusyWithin(p, q, collected, p', k, sub);
    }
  }

  /** The first n subscriptions were served. */
  ghost predicate ServedUpTo(p: Pass, p': Pass, asked: Subjects, subs: seq<TaskSubscription>, n: nat) {
    n <= |subs| && forall i :: 0 <= i < n ==> AllBusy(p, p', asked, subs[i].ctx)
  }

  /** From p to p' a subscription was pushed to: every wanted kind was busy for it, or else its context is done or its
      call failed. */
  ghost predicate IsPushed(p: Pass, p': Pass, asked: Subjects, ctx: nat, ok: bool, done: bool) {
    && Leads(p, p') && p'.phase.Idle? && AllAsk(p, p', asked)
    && if ok then p'.failures == p.failures && AllBusy(p, p', asked, ctx) else done || CallFailed(p, p')
  }

  lemma PushedLater(p: Pass, q: Pass, p': Pass, asked: Subjects, ctx: nat, ok: bool, done: bool)
    requires OnlyOthers(p, q) && IsPushed(q, p', asked, ctx, ok, done)
    ensures IsPushed(p, p', asked, ctx, ok, done)
  {
    LeadsJoin(p, q, p');
    LeadsSame(p');
    if ok {
      AllBusyWithin(p, q, p', p', asked, ctx);
    } else if CallFailed(q, p') {
      MarkedLater(p, q, p');
    }
  }

  /** A pass has come from p to q and goes on, through with the first n subscriptions. */
  ghost predicate HasServed(p: Pass, q: Pass, asked: Subjects, subs: seq<TaskSubscription>, n: nat) {
    && Leads(p, q) && q.phase.Idle? && q.failures == p.failures && AllAsk(p, q, asked)
    && ServedUpTo(p, q, asked, subs, n)
  }

  /** A pass from p to p' served so many subscriptions: all of them, or else the next one's context is done or its
      call failed. */
  ghost predicate PassEnds(p: Pass, p': Pass, asked: Subjects, subs: seq<TaskSubscription>, served: nat, ok: bool,
                           done: bool) {
    && Leads(p, p') && p'.phase.Idle? && AllAsk(p, p', asked) && ServedUpTo(p, p', asked, subs, served)
    && if ok then served == |subs| && p'.failures == p.failures
       else served < |subs| && (done || CallFailed(p, p'))
  }

  lemma ServedLater(p: Pass, q: Pass, p': Pass, asked: Subjects, subs: seq<TaskSubscription>, n: nat)
    requires ServedUpTo(p, q, asked, subs, n) && Leads(p, q) && Leads(q, p')
    ensures ServedUpTo(p, p', asked, subs, n)
  {
    LeadsSame(p);
    forall i | 0 <= i < n ensures AllBusy(p, p', asked, subs[i].ctx) {
      AllBusyWithin(p, p, q, p', asked, subs[i].ctx);
    }
  }

  lemma OnePushed(p: Pass, q: Pass, p': Pass, asked: Subjects, subs: seq<TaskSubscription>, n: nat, ok: bool,
                  done: bool)
    requires HasServed(p, q, asked, subs, n) && n < |subs| && IsPushed(q, p', asked, subs[n].ctx, ok, done)
    ensures if ok then HasServed(p, p', asked, subs, n + 1) else PassEnds(p, p', asked, subs, n, false, done)
  {
    LeadsJoin(p, q, p');
    AllAskJoin(p, q, p', asked);
    ServedLater(p, q, p', asked, subs, n);
    LeadsSame(p');
    if ok {
      AllBusyWithin(p, q, p', p', asked, subs[n].ctx);
    } else if CallFailed(q, p') {
      MarkedLater(p, q, p');
    }
  }

  lemma PassLater(p: Pass, q: Pass, p': Pass, asked: Subjects, subs: seq<TaskSubscription>, served: nat, ok: bool,
                  done: bool)
    requires SameAttempts(p, q) && PassEnds(q, p', asked, subs, served, ok, done)
    ensures PassEnds(p, p', asked, subs, served, ok, done)
  {
    LeadsJoin(p, q, p');
    LeadsSame(p');
    forall i | 0 <= i < served ensures AllBusy(p, p', asked, subs[i].ctx) {
      AllBusyWithin(p, q, p', p', asked, subs[i].ctx);
    }
    if CallFailed(q, p') {
      MarkedLater(p, q, p');
    }
  }

  /** One kind's share of a call: busy at some moment, or failed because its tracker was marked meanwhile. */
  ghost predicate KindIsDone(p: Pass, p': Pass, k: Kind, ctx: nat, ok: bool) {
    && Leads(p, p')
    && if ok then SameCall(p, p') && WasBusy(p, p', k, ctx) else FailedCall(p, p') && SomeMarked(p, p')
  }

  lemma KindAfterStart(p: Pass, q: Pass, p': Pass, k: Kind, ctx: nat, ok: bool)
    requires SameAttempts(p, q) && HasGrown(q.w, k) && WasUndone(p, q, k) && Leads(q, p') && p.phase.Collecting?
    requires if ok then SameCall(q, p') && (q.w.gens.Of(k).active != [] ==> Busy(p'.w, k, ctx))
             else FailedCall(q, p') && WasDone(q, p', k)
    ensures KindIsDone(p, p', k, ctx, ok)
  {
    LeadsJoin(p, q, p');
    if ok {
      KindWasBusy(p, q, p', k, ctx);
    } else {
      IsMarked(p, q, p', k);
    }
  }

  /** The attempt hangs below the context of the subscriber whose channel it went through. */
  ghost predicate GoesTo(s: Sent, sub: TaskSubscription, tree: C.Tree) {
    s.ch == sub.ch && s.task.ctx < |tree| && tree[s.task.ctx].parent == Some(sub.ctx)
  }

  ghost predicate GoesToOne(s: Sent, subs: seq<TaskSubscription>, tree: C.Tree) {
    exists sub :: sub in subs && GoesTo(s, sub, tree)
  }

  /** What was sent from there on. */
  ghost predicate AllGo(sent: seq<Sent>, from: nat, subs: seq<TaskSubscription>, tree: C.Tree) {
    forall i :: from <= i < |sent| ==> GoesToOne(sent[i], subs, tree)
  }

  lemma AllGoLater(sent: seq<Sent>, from: nat, subs: seq<TaskSubscription>, subs': seq<TaskSubscription>, tree: C.Tree,
                   tree': C.Tree)
    requires AllGo(sent, from, subs, tree) && Later(tree, tree') && forall sub :: sub in subs ==> sub in subs'
    ensures AllGo(sent, from, subs', tree')
  {
    forall i | from <= i < |sent| ensures GoesToOne(sent[i], subs', tree') {
      var sub :| sub in subs && GoesTo(sent[i], sub, tree);
      assert sub in subs' && GoesTo(sent[i], sub, tree');
    }
  }

  lemma AllGoJoin(before: seq<Sent>, sent: seq<Sent>, from: nat, subs: seq<TaskSubscription>, tree: C.Tree)
    requires before <= sent && AllGo(before, from, subs, tree) && AllGo(sent, |before|, subs, tree)
    ensures AllGo(sent, from, subs, tree)
  {
    forall i | from <= i < |sent| ensures GoesToOne(sent[i], subs, tree) {
      assert i < |before| ==> sent[i] == before[i];
    }
  }

  lemma OneMoreServed(before: seq<Sent>, sent: seq<Sent>, from: nat, subs: seq<TaskSubscription>, i: nat,
                      tree: C.Tree, tree': C.Tree)
    requires before <= sent && i < |subs| && Later(tree, tree')
    requires AllGo(before, from, subs, tree) && AllGo(sent, |before|, [subs[i]], tree')
    ensures AllGo(sent, from, subs, tree')
  {
    AllGoLater(before, from, subs, subs, tree, tree');
    AllGoLater(sent, |before|, [subs[i]], subs, tree', tree');
    AllGoJoin(before, sent, from, subs, tree');
  }

  function Through(ch: nat, tasks: seq<TimeWindowTask>): seq<Sent> {
    seq(|tasks|, i requires 0 <= i < |tasks| => Sent(ch, tasks[i]))
  }

  lemma OneMoreThrough(before: seq<Sent>, ch: nat, tasks: seq<TimeWindowTask>, i: nat)
    requires i < |tasks|
    ensures before + Through(ch, tasks[..i]) + [Sent(ch, tasks[i])] == before + Through(ch, tasks[..i + 1])
  {
  }

  lemma OneMoreGoes(before: seq<Sent>, sent: seq<Sent>, from: nat, sub: TaskSubscription, p: Pass, p': Pass)
    requires Leads(p, p') && AllGo(before, from, [sub], p.w.tree)
    requires sent == before || exists s :: sent == before + [s] && GoesTo(s, sub, p'.w.tree)
    ensures AllGo(sent, from, [sub], p'.w.tree)
  {
    LeadsIsLater(p, p');
    AllGoLater(before, from, [sub], [sub], p.w.tree, p'.w.tree);
    if sent != before {
      forall i | from <= i < |sent| ensures GoesToOne(sent[i], [sub], p'.w.tree) {
        assert i < |before| ==> GoesToOne(before[i], [sub], p'.w.tree);
        assert sub in [sub];
      }
    }
  }

  /** Every callback in progress has found its attempt's context live. */
  ghost predicate CallbacksOk(inProgress: set<(nat, bool)>, numbers: seq<nat>, checked: set<(nat, bool)>) {
    forall c :: c in inProgress ==> c.0 < |numbers| && (numbers[c.0], c.1) in checked
  }

  lemma CallbackEnds(inProgress: set<(nat, bool)>, numbers: seq<nat>, checked: set<(nat, bool)>, i: nat, isEose: bool)
    requires CallbacksOk(inProgress, numbers, checked) && NoDuplicates(numbers) && i < |numbers|
    ensures CallbacksOk(inProgress - {(i, isEose)}, numbers, checked - {(numbers[i], isEose)})
  {
    forall c | c in inProgress - {(i, isEose)} ensures (numbers[c.0], c.1) in checked - {(numbers[i], isEose)} {
      assert c.0 != i ==> numbers[c.0] != numbers[i];
    }
  }

  lemma MarkIs(p: Pass, t: nat, isEose: bool)
    requires (t, isEose) in p.w.checked && t < |p.w.tasks|
    requires p.w.tasks[t].tracker < |p.w.gens.Of(p.w.tasks[t].kind).store|
    ensures var k, id := p.w.tasks[t].kind, p.w.tasks[t].tracker;
            var g := p.w.gens.Of(k);
            Passes.Next(p, Other(Mark(t, isEose))) ==
            p.(w := p.w.(checked := p.w.checked - {(t, isEose)},
                         gens := p.w.gens.With(k, g.(store := g.store[id := Marked(g.store[id], isEose)]))))
  {
  }

  ghost predicate Allocated(subs: seq<TaskSubscription>, tree: C.Tree) {
    forall s :: s in subs ==> s.ctx < |tree|
  }

  /** The contexts were asked one after the other between these two states of the tree. */
  ghost predicate AreReadings(live: seq<bool>, subs: seq<TaskSubscription>, before: C.Tree, after: C.Tree) {
    |live| <= |subs| && forall i :: 0 <= i < |live| ==>
      (live[i] ==> C.Live(before, subs[i].ctx)) && (C.Live(after, subs[i].ctx) ==> live[i])
  }

  lemma ReadingsLater(live: seq<bool>, subs: seq<TaskSubscription>, before: C.Tree, after: C.Tree, later: C.Tree)
    requires AreReadings(live, subs, before, after) && Later(after, later) && Allocated(subs, after)
    ensures AreReadings(live, subs, before, later)
  {
    assert forall i :: 0 <= i < |subs| ==> subs[i] in subs;
  }

  lemma OneMoreReading(live: seq<bool>, alive: bool, subs: seq<TaskSubscription>, p: Pass, q: Pass, p': Pass)
    requires AreReadings(live, subs, p.w.tree, q.w.tree) && |live| < |subs| && Allocated(subs, p.w.tree)
    requires alive == C.Live(p'.w.tree, subs[|live|].ctx)
    requires Later(p.w.tree, q.w.tree) && Later(q.w.tree, p'.w.tree)
    ensures AreReadings(live + [alive], subs, p.w.tree, p'.w.tree)
  {
    assert forall i :: 0 <= i < |subs| ==> subs[i] in subs;
  }

  /** Attempts that are live and not sent are exactly the live ones that a failed call has dropped. */
  ghost predicate UnsentAreDropped(p: Pass, numbers: seq<nat>) {
    forall t: nat :: t < |p.w.tasks| && C.Live(p.w.tree, p.w.tasks[t].ctx) ==>
      (t !in Numbers(numbers) <==> t in p.dropped)
  }

  lemma AllSentOrDropped(p: Pass, numbers: seq<nat>)
    requires Reachable(p) && p.phase.Idle? && p.sent == Numbers(numbers)
    ensures UnsentAreDropped(p, numbers)
  {
    forall t: nat | t < |p.w.tasks| && C.Live(p.w.tree, p.w.tasks[t].ctx) ensures t !in Numbers(numbers) <==>
      t in p.dropped {
      UnsentIffDropped(p, t);
    }
  }

  lemma SentOneMore(p: Pass, sent: seq<Sent>, numbers: seq<nat>, s: Sent, made: AllCreated)
    requires Reachable(p) && IsNextTask(p, s.task, made)
    requires AreTasks(SentTasks(sent), p.w.tasks, numbers, made) && NoDuplicates(numbers) && p.sent == Numbers(numbers)
    ensures var numbers' := numbers + [p.phase.queue[0]];
            && AreTasks(SentTasks(sent + [s]), p.w.tasks, numbers', made) && NoDuplicates(numbers')
            && p.sent + {p.phase.queue[0]} == Numbers(numbers')
    ensures GoesTo(s, TaskSubscription(p.phase.sub, s.ch), p.w.tree)
  {
    ReachablePassInv(p);
    var t := p.phase.queue[0];
    assert t in p.phase.queue && t !in Numbers(numbers);
    assert forall i :: 0 <= i < |numbers| ==> numbers[i] in Numbers(numbers);
    var numbers' := numbers + [t];
    assert forall i :: 0 <= i < |numbers| ==> numbers'[i] == numbers[i];
    assert numbers'[|numbers|] == t;
  }

  // ---------------------------------------------------------------- the loops of Generate as moves

  function FirstKept(p: Pass, k: Kind): nat {
    if p.w.gens.Of(k).active == [] then 0 else p.w.gens.Of(k).active[0]
  }

  lemma PruneMove(p: Pass, k: Kind) returns (p': Pass)
    requires Reachable(p) && p.phase.Collecting?
    ensures SameAttempts(p, p') && ActiveOk(p.w.gens.Of(k)) && KeepsUndone(p'.w, k)
    ensures var g := p.w.gens.Of(k);
            var r := PruneAll(g.store, g.active, p.w.tree);
            p' == p.(w := p.w.(tree := r.tree, gens := p.w.gens.With(k, g.(active := r.active))))
  {
    ReachablePassInv(p);
    SameAfter(p, PruneKept(k, FirstKept(p, k)));
    p' := Passes.Next(p, PruneKept(k, FirstKept(p, k)));
    var g := p.w.gens.Of(k);
    PruneSmall(g.store, g.active, p.w.tree);
    if g.active != [] {
      assert g.active == [g.active[0]] && Remove([g.active[0]], g.active[0]) == [];
    }
  }

  /** If the kind keeps no tracker, no window remains to be issued. */
  ghost predicate HasGrown(w: World, k: Kind) {
    w.gens.Of(k).active == [] ==> S.Remaining(w.gens.Of(k), w.now) == 0
  }

  lemma GrowMove(p: Pass, k: Kind) returns (p': Pass)
    requires Reachable(p) && p.phase.Collecting?
    ensures SameAttempts(p, p')
    ensures var g := p.w.gens.Of(k);
            var missing := if |g.active| < CONCURRENCY then CONCURRENCY - |g.active| else 0;
            p' == p.(w := p.w.(gens := p.w.gens.With(k, GrowBy(g, p.w.now, missing))))
    ensures HasGrown(p'.w, k)
  {
    ReachablePassInv(p);
    SameAfter(p, GrowList(k));
    p' := Passes.Next(p, GrowList(k));
    var g := p.w.gens.Of(k);
    assert GrowBy(g, p.w.now, 0) == g && GrowBy(g, p.w.now, 1) == Extend(GrowBy(g, p.w.now, 0), p.w.now);
    S.GrowUsesOne(g, p.w.now);
  }

  function NewNumbers(n: nat, count: nat): (r: seq<nat>)
    ensures |r| == count && forall i :: 0 <= i < count ==> r[i] == n + i
  {
    seq(count, i requires 0 <= i < count => n + i)
  }

  ghost function AfterStarting(w: World, k: Kind, r: StartedAll): World {
    w.(tree := r.tree, gens := w.gens.With(k, w.gens.Of(k).(store := r.store)),
       tasks := w.tasks + ToTasks(k, r.attempts))
  }

  ghost predicate CanStart(g: Generator) {
    ActiveOk(g) && |g.active| <= 1 && (g.active != [] ==> g.store[g.active[0]].window.duration > 0)
  }

  lemma StartingIsStep(w: World, k: Kind, parent: nat, subject: Subject)
    requires parent < |w.tree| && CanStart(w.gens.Of(k))
    ensures var g := w.gens.Of(k);
            var r := StartAll(g.store, g.active, w.tree, parent, subject);
            && |r.attempts| <= |g.active| && (r.failed <==> g.active != [] && g.store[g.active[0]].state.Done?)
            && (r.failed ==> r.attempts == [])
            && AfterStarting(w, k, r) == (if g.active == [] then w
                                          else M.Next(w, Start(k, g.active[0], parent, subject)))
            && forall i :: 0 <= i < |r.attempts| ==> Asks(r.attempts[i].filter, subject)
  {
    var g := w.gens.Of(k);
    StartSmall(g.store, g.active, w.tree, parent, subject);
    assert w.tasks + [] == w.tasks;
    if g.active != [] {
      S.StartFailsOnlyWhenDone(g.store[g.active[0]], w.tree, parent, subject);
    }
  }

  ghost predicate IsStart(p: Pass, k: Kind, subject: Subject, p': Pass) {
    var active := p.w.gens.Of(k).active;
    if active == [] then p' == p
    else Passes.Enabled(p, StartKept(k, active[0], subject)) && p' == Passes.Next(p, StartKept(k, active[0], subject))
  }

  /** A start that does not fail leaves the kept tracker with a live context, unless the subscription's is done. */
  lemma StartedIsBusy(p: Pass, k: Kind, subject: Subject, p': Pass)
    requires Reachable(p) && IsStart(p, k, subject, p') && p.w.gens.Of(k).active != [] && p'.phase.Collecting?
    ensures Busy(p'.w, k, p.phase.sub)
  {
    ReachablePassInv(p);
    var id := p.w.gens.Of(k).active[0];
    var t := p.w.gens.Of(k).store[id];
    var r := StartAttempt(t, p.w.tree, p.phase.sub, subject);
    S.StartFailsOnlyWhenDone(t, p.w.tree, p.phase.sub, subject);
    assert IsKept(p'.w, k, id);
    if r.NewAttempt? {
      var cancelled := CancelIfSet(p.w.tree, t.ctx);
      C.LiveAfterWithCancel(cancelled, Some(p.phase.sub), |p.w.tree|);
      C.LiveAfterWithCancel(cancelled, Some(p.phase.sub), p.phase.sub);
    }
    assert C.Live(p'.w.tree, p.phase.sub) ==> HasLiveContext(p'.w, p'.w.gens.Of(k).store[id]);
  }

  lemma StartMove(p: Pass, k: Kind, subject: Subject) returns (p': Pass)
    requires Reachable(p) && p.phase.Collecting?
    ensures Leads(p, p') && ActiveOk(p.w.gens.Of(k)) && p.phase.sub < |p.w.tree| && NewAsk(p, p', k, subject)
    ensures IsStart(p, k, subject, p')
    ensures var g := p.w.gens.Of(k);
            var s := StartAll(g.store, g.active, p.w.tree, p.phase.sub, subject);
            && p'.w == AfterStarting(p.w, k, s)
            && p'.sent == p.sent
            && (s.failed <==> StartFails(p, StartKept(k, FirstKept(p, k), subject)))
            && if s.failed then p'.phase == Idle && p'.failures == p.failures + 1
               else p'.failures == p.failures
                    && p'.phase == Collecting(p.phase.sub, p.phase.result + NewNumbers(|p.w.tasks|, |s.attempts|))
  {
    ReachablePassInv(p);
    var g := p.w.gens.Of(k);
    StartingIsStep(p.w, k, p.phase.sub, subject);
    assert p.phase.result + [] == p.phase.result;
    if g.active == [] {
      LeadsSame(p);
      p' := p;
    } else {
      var m := StartKept(k, g.active[0], subject);
      LeadsOne(p, m);
      p' := Passes.Next(p, m);
    }
  }

  lemma NewAreTasks(records: seq<Task>, ts: seq<nat>, k: Kind, attempts: seq<Attempt>, result: seq<TimeWindowTask>,
                    tasks: seq<TimeWindowTask>,
                    made: AllCreated)
    requires AreTasks(result, records, ts, made) && AreAttempts(tasks, attempts, made.Of(k))
    ensures AreTasks(result + tasks, records + ToTasks(k, attempts), ts + NewNumbers(|records|, |attempts|), made)
  {
    var records', ts' := records + ToTasks(k, attempts), ts + NewNumbers(|records|, |attempts|);
    forall i | 0 <= i < |result + tasks| ensures ts'[i] < |records'| &&
      IsTask((result + tasks)[i], records'[ts'[i]], made) {
      if i < |result| {
        assert ts'[i] == ts[i] && records'[ts[i]] == records[ts[i]];
      } else {
        assert ts'[i] == |records| + (i - |result|) && records'[ts'[i]] == ToTasks(k, attempts)[i - |result|];
      }
    }
  }
}
