/** The rotating pair of filters that remembers recently seen ids. A Bloom filter is the set of what was added. */
module DuplicateFilter {

  datatype Filter = Filter(current: set<string>, previous: set<string>, lastRotated: int)

  /** One call of Add: the clock is read for the check and again when the rotation is noted. */
  datatype AddCall = AddCall(id: string, checked: int, noted: int)

  function Rotate(f: Filter, interval: int, checked: int, noted: int): Filter {
    if checked - f.lastRotated >= interval then Filter({}, f.current, noted) else f
  }

  function Add(f: Filter, interval: int, c: AddCall): Filter {
    var r := Rotate(f, interval, c.checked, c.noted);
    r.(current := r.current + {c.id})
  }

  predicate Contains(f: Filter, id: string) {
    id in f.current || id in f.previous
  }

  function AddAll(f: Filter, interval: int, calls: seq<AddCall>): Filter {
    if calls == [] then f else Add(AddAll(f, interval, calls[..|calls| - 1]), interval, calls[|calls| - 1])
  }

  /** The clock does not run backwards. */
  ghost predicate Ordered(calls: seq<AddCall>) {
    && (forall i :: 0 <= i < |calls| ==> calls[i].checked <= calls[i].noted)
    && (forall i, j :: 0 <= i < j < |calls| ==> calls[i].noted <= calls[j].checked)
  }

  // ---------------------------------------------------------------- retention

  lemma {:induction false} StillHeldOrExpired(f: Filter, interval: int, calls: seq<AddCall>, k: nat)
    requires Ordered(calls) && k < |calls|
    ensures var g := AddAll(f, interval, calls);
            || calls[k].id in g.current
            || (calls[k].id in g.previous && g.lastRotated >= calls[k].checked)
            || calls[|calls| - 1].checked >= calls[k].checked + interval
  {
    if k < |calls| - 1 {
      assert calls[..|calls| - 1][k] == calls[k];
      StillHeldOrExpired(f, interval, calls[..|calls| - 1], k);
      assert calls[|calls| - 2].noted <= calls[|calls| - 1].checked;
    }
  }

  /** An added id is reported until the clock has moved at least one rotation interval past its Add. */
  lemma ReportedForAnInterval(f: Filter, interval: int, calls: seq<AddCall>, k: nat, now: int)
    requires Ordered(calls) && k < |calls| && calls[|calls| - 1].noted <= now
    requires now < calls[k].checked + interval
    ensures Contains(AddAll(f, interval, calls), calls[k].id)
  {
    StillHeldOrExpired(f, interval, calls, k);
  }

  // ---------------------------------------------------------------- generations

  /** How often the calls rotated. */
  function Rotations(f: Filter, interval: int, calls: seq<AddCall>): nat {
    if calls == [] then 0
    else
      var before := calls[..|calls| - 1];
      Rotations(f, interval, before) +
      if calls[|calls| - 1].checked - AddAll(f, interval, before).lastRotated >= interval then 1 else 0
  }

  /** The generation of call k: the rotations up to and including its own. */
  function Generation(f: Filter, interval: int, calls: seq<AddCall>, k: nat): nat
    requires k < |calls|
  {
    Rotations(f, interval, calls[..k + 1])
  }

  ghost predicate AddedIn(f: Filter, interval: int, calls: seq<AddCall>, id: string, generation: int) {
    exists k :: 0 <= k < |calls| && calls[k].id == id && Generation(f, interval, calls, k) == generation
  }

  lemma AddedInPrefix(f: Filter, interval: int, calls: seq<AddCall>, id: string, generation: int)
    requires calls != []
    ensures var n := |calls| - 1;
            AddedIn(f, interval, calls, id, generation) <==>
            AddedIn(f, interval, calls[..n], id, generation) ||
              (calls[n].id == id && Rotations(f, interval, calls) == generation)
  {
    var n := |calls| - 1;
    assert calls[..n + 1] == calls;
    forall k | 0 <= k < n
      ensures calls[..n][..k + 1] == calls[..k + 1]
      ensures Generation(f, interval, calls[..n], k) == Generation(f, interval, calls, k)
    {
      assert calls[..n][..k + 1] == calls[..k + 1];
    }
    if AddedIn(f, interval, calls[..n], id, generation) {
      var k :| 0 <= k < n && calls[..n][k].id == id && Generation(f, interval, calls[..n], k) == generation;
      assert calls[k].id == id;
    }
    if AddedIn(f, interval, calls, id, generation) {
      var k :| 0 <= k < |calls| && calls[k].id == id && Generation(f, interval, calls, k) == generation;
      if k < n {
        assert calls[..n][k].id == id;
      }
    }
  }

  lemma {:induction false} GenerationsGrow(f: Filter, interval: int, calls: seq<AddCall>, id: string, generation: int)
    requires AddedIn(f, interval, calls, id, generation)
    ensures generation <= Rotations(f, interval, calls)
  {
    AddedInPrefix(f, interval, calls, id, generation);
    if AddedIn(f, interval, calls[..|calls| - 1], id, generation) {
      GenerationsGrow(f, interval, calls[..|calls| - 1], id, generation);
    }
  }

  /** From an empty filter, what is held is exactly what was added in this generation or the one before. */
  lemma {:induction false} HeldAreTwoGenerations(f: Filter, interval: int, calls: seq<AddCall>, id: string)
    requires f.current == {} && f.previous == {}
    ensures var g := AddAll(f, interval, calls);
            var n := Rotations(f, interval, calls);
            && (id in g.current <==> AddedIn(f, interval, calls, id, n))
            && (id in g.previous <==> AddedIn(f, interval, calls, id, n - 1))
  {
    if calls != [] {
      var before := calls[..|calls| - 1];
      var n: int := Rotations(f, interval, before);
      HeldAreTwoGenerations(f, interval, before, id);
      AddedInPrefix(f, interval, calls, id, n + 1);
      AddedInPrefix(f, interval, calls, id, n);
      AddedInPrefix(f, interval, calls, id, n - 1);
      if AddedIn(f, interval, before, id, n + 1) {
        GenerationsGrow(f, interval, before, id, n + 1);
      }
    }
  }

  /** So an id is reported iff it was added in this generation or the one before. */
  lemma {:induction false} ReportedIff(f: Filter, interval: int, calls: seq<AddCall>, id: string)
    requires f.current == {} && f.previous == {}
    ensures var n := Rotations(f, interval, calls);
            Contains(AddAll(f, interval, calls), id) <==>
              AddedIn(f, interval, calls, id, n) || AddedIn(f, interval, calls, id, n - 1)
  {
    HeldAreTwoGenerations(f, interval, calls, id);
  }

  // ---------------------------------------------------------------- forgetting

  lemma {:induction false} RotatedInThePast(f: Filter, interval: int, calls: seq<AddCall>)
    requires Ordered(calls) && (calls != [] ==> f.lastRotated <= calls[0].checked)
    ensures calls == [] || AddAll(f, interval, calls).lastRotated <= calls[|calls| - 1].noted
  {
    if calls != [] {
      var before := calls[..|calls| - 1];
      RotatedInThePast(f, interval, before);
      if before != [] {
        assert before[|before| - 1].noted <= calls[|calls| - 1].checked;
      }
    }
  }

  lemma {:induction false} RotationsGrow(f: Filter, interval: int, calls: seq<AddCall>, i: nat, j: nat)
    requires i <= j <= |calls|
    ensures Rotations(f, interval, calls[..i]) <= Rotations(f, interval, calls[..j])
    ensures Rotations(f, interval, calls[..i]) == Rotations(f, interval, calls[..j]) ==>
              AddAll(f, interval, calls[..i]).lastRotated == AddAll(f, interval, calls[..j]).lastRotated
    decreases j
  {
    if i < j {
      RotationsGrow(f, interval, calls, i, j - 1);
      assert calls[..j][..j - 1] == calls[..j - 1];
    }
  }

  /** An Add that comes at least an interval after another one finds a rotation in between, or makes one. */
  lemma RotatesBetween(f: Filter, interval: int, calls: seq<AddCall>, i: nat, j: nat)
    requires Ordered(calls) && i < j < |calls| && f.lastRotated <= calls[0].checked
    requires calls[j].checked >= calls[i].noted + interval
    ensures Generation(f, interval, calls, i) < Generation(f, interval, calls, j)
  {
    RotatedInThePast(f, interval, calls[..i + 1]);
    RotationsGrow(f, interval, calls, i + 1, j);
    assert calls[..j + 1][..j] == calls[..j];
  }

  lemma TwoRotationsSince(f: Filter, interval: int, calls: seq<AddCall>, k: nat, i: nat, j: nat)
    requires Ordered(calls) && k < i < j < |calls| && f.lastRotated <= calls[0].checked
    requires calls[i].checked >= calls[k].noted + interval && calls[j].checked >= calls[i].noted + interval
    ensures Generation(f, interval, calls, k) + 2 <= Rotations(f, interval, calls)
  {
    RotatesBetween(f, interval, calls, k, i);
    RotatesBetween(f, interval, calls, i, j);
    GenerationsBounded(f, interval, calls, j);
  }

  lemma GenerationsBounded(f: Filter, interval: int, calls: seq<AddCall>, j: nat)
    requires j < |calls|
    ensures Generation(f, interval, calls, j) <= Rotations(f, interval, calls)
  {
    RotationsGrow(f, interval, calls, j + 1, |calls|);
    assert calls[..|calls|] == calls;
  }

  /** An id is forgotten at the latest when two Adds follow its last one at intervals. */
  lemma ForgottenAfterTwoIntervals(f: Filter, interval: int, calls: seq<AddCall>, k: nat, i: nat, j: nat, id: string)
    requires f.current == {} && f.previous == {} && Ordered(calls) && k < i < j < |calls|
    requires f.lastRotated <= calls[0].checked && forall l :: k < l < |calls| ==> calls[l].id != id
    requires calls[i].checked >= calls[k].noted + interval && calls[j].checked >= calls[i].noted + interval
    ensures !Contains(AddAll(f, interval, calls), id)
  {
    TwoRotationsSince(f, interval, calls, k, i, j);
    forall l: nat | l < |calls| && calls[l].id == id
      ensures Generation(f, interval, calls, l) <= Generation(f, interval, calls, k)
    {
      RotationsGrow(f, interval, calls, l + 1, k + 1);
    }
    ReportedIff(f, interval, calls, id);
  }

  // ---------------------------------------------------------------- the object

  class EventFilter {
    const interval: int
    var current: set<string>
    var previous: set<string>
    var lastRotated: int

    function Value(): Filter
      reads this
    {
      Filter(current, previous, lastRotated)
    }

    constructor (interval: int, now: int)
      ensures Value() == Filter({}, {}, now) && this.interval == interval
    {
      this.interval := interval;
      current, previous, lastRotated := {}, {}, now;
    }

    method AddId(c: AddCall)
      modifies this
      ensures Value() == Add(old(Value()), interval, c)
    {
      MaybeRotate(c.checked, c.noted);
      current := current + {c.id};
    }

    method MaybeRotate(checked: int, noted: int)
      modifies this
      ensures Value() == Rotate(old(Value()), interval, checked, noted)
    {
      if checked - lastRotated >= interval {
        previous := current;
        current := {};
        lastRotated := noted;
      }
    }

    /** `collides` says whether the bits of other ids make the test hit. */
    method ContainsId(id: string, collides: bool) returns (r: bool)
      ensures r <==> Contains(Value(), id) || collides
      ensures r <==> id in current || id in previous || collides
    {
      r := id in current || collides || id in previous;
    }
  }
}
