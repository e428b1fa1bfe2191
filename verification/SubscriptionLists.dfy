/** The list of subscribers of a relay and the in-place loop that drops the done ones from it. */
module SubscriptionLists {
  /** A subscriber: its context and the number of its channel. */
  datatype TaskSubscription = TaskSubscription(ctx: nat, ch: nat)

  /** The subscriptions found live; `live` are the answers of their contexts, asked one after the other. */
  function LiveOnes(subs: seq<TaskSubscription>, live: seq<bool>): (r: seq<TaskSubscription>)
    requires |live| == |subs|
    ensures |r| <= |subs|
  {
    if subs == [] then []
    else
      var n := |subs| - 1;
      LiveOnes(subs[..n], live[..n]) + if live[n] then [subs[n]] else []
  }

  /** slices.DeleteFunc moves the live ones to the front; as its result is dropped, the old tail stays. */
  function Compacted(subs: seq<TaskSubscription>, live: seq<bool>): (r: seq<TaskSubscription>)
    requires |live| == |subs|
    ensures |r| == |subs|
  {
    LiveOnes(subs, live) + subs[|LiveOnes(subs, live)|..]
  }

  ghost predicate AllLive(live: seq<bool>) {
    forall i :: 0 <= i < |live| ==> live[i]
  }

  ghost predicate FoundLive(subs: seq<TaskSubscription>, live: seq<bool>, s: TaskSubscription) {
    exists i :: 0 <= i < |subs| && i < |live| && subs[i] == s && live[i]
  }

  lemma FoundInFrontOrLast(subs: seq<TaskSubscription>, live: seq<bool>, s: TaskSubscription)
    requires |live| == |subs| > 0
    ensures var n := |subs| - 1;
            FoundLive(subs, live, s) <==> FoundLive(subs[..n], live[..n], s) || (subs[n] == s && live[n])
  {
    var n := |subs| - 1;
    if FoundLive(subs[..n], live[..n], s) {
      var i :| 0 <= i < n && subs[..n][i] == s && live[..n][i];
      assert subs[i] == s && live[i];
    }
    if FoundLive(subs, live, s) {
      var i :| 0 <= i < |subs| && subs[i] == s && live[i];
      assert i < n ==> subs[..n][i] == s && live[..n][i];
    }
  }

  lemma {:induction false} LiveOnesAre(subs: seq<TaskSubscription>, live: seq<bool>, s: TaskSubscription)
    requires |live| == |subs|
    ensures s in LiveOnes(subs, live) <==> FoundLive(subs, live, s)
  {
    if subs != [] {
      var n := |subs| - 1;
      LiveOnesAre(subs[..n], live[..n], s);
      FoundInFrontOrLast(subs, live, s);
    }
  }

  /** How many were found live. */
  function CountLive(live: seq<bool>): nat {
    if live == [] then 0 else CountLive(live[..|live| - 1]) + if live[|live| - 1] then 1 else 0
  }

  /** The live ones stay in order: each comes behind as many as were found live before it. */
  lemma {:induction false} LiveOnesInOrder(subs: seq<TaskSubscription>, live: seq<bool>, i: nat)
    requires |live| == |subs| && i < |subs| && live[i]
    ensures |LiveOnes(subs, live)| == CountLive(live)
    ensures CountLive(live[..i]) < CountLive(live) && LiveOnes(subs, live)[CountLive(live[..i])] == subs[i]
    decreases |subs|
  {
    var n := |subs| - 1;
    LiveOnesCounted(subs, live);
    LiveOnesCounted(subs[..n], live[..n]);
    if i < n {
      assert live[..n][..i] == live[..i];
      LiveOnesInOrder(subs[..n], live[..n], i);
    }
  }

  lemma {:induction false} LiveOnesCounted(subs: seq<TaskSubscription>, live: seq<bool>)
    requires |live| == |subs|
    ensures |LiveOnes(subs, live)| == CountLive(live)
    decreases |subs|
  {
    if subs != [] {
      LiveOnesCounted(subs[..|subs| - 1], live[..|subs| - 1]);
    }
  }

  lemma {:induction false} AllOrFewer(subs: seq<TaskSubscription>, live: seq<bool>)
    requires |live| == |subs|
    ensures if AllLive(live) then LiveOnes(subs, live) == subs else |LiveOnes(subs, live)| < |subs|
  {
    if subs != [] {
      var n := |subs| - 1;
      AllOrFewer(subs[..n], live[..n]);
      assert subs == subs[..n] + [subs[n]];
      assert live == live[..n] + [live[n]];
    }
  }

  /** No subscription found live is lost and none is invented, but the slice shrinks to the live ones
      exactly when there was nothing to delete. */
  lemma CompactionKeepsLive(subs: seq<TaskSubscription>, live: seq<bool>)
    requires |live| == |subs|
    ensures forall i :: 0 <= i < |subs| && live[i] ==> subs[i] in Compacted(subs, live)
    ensures forall s :: s in Compacted(subs, live) ==> s in subs
    ensures Compacted(subs, live) == LiveOnes(subs, live) <==> AllLive(live)
  {
    forall s ensures s in LiveOnes(subs, live) <==> FoundLive(subs, live, s) {
      LiveOnesAre(subs, live, s);
    }
    AllOrFewer(subs, live);
  }

  /** A live subscription behind a dead one is served twice, a dead one behind a live one stays. */
  lemma CompactionExamples(alive: TaskSubscription, dead: TaskSubscription)
    ensures Compacted([dead, alive], [false, true]) == [alive, alive]
    ensures Compacted([alive, dead], [true, false]) == [alive, dead]
  {
    assert [dead, alive][..1] == [dead] && [alive, dead][..1] == [alive] && [false, true][..1] == [false] &&
           [true, false][..1] == [true];
    assert LiveOnes([dead], [false]) == [] && LiveOnes([alive], [true]) == [alive];
    assert LiveOnes([dead, alive], [false, true]) == [alive] && LiveOnes([alive, dead], [true, false]) == [alive];
  }

  /** The slice after the first elements were looked at. */
  ghost predicate CompactedUpTo(s: seq<TaskSubscription>, kept: nat, subs: seq<TaskSubscription>, live: seq<bool>) {
    && kept <= |live| <= |subs| && |s| == |subs| && kept == |LiveOnes(subs[..|live|], live)|
    && s == LiveOnes(subs[..|live|], live) + subs[kept..]
  }

  lemma CompactOne(s: seq<TaskSubscription>, kept: nat, subs: seq<TaskSubscription>, live: seq<bool>)
    requires CompactedUpTo(s, kept, subs, live) && |live| < |subs|
    ensures s[|live|] == subs[|live|]
    ensures CompactedUpTo(s, kept, subs, live + [false])
    ensures CompactedUpTo(s[kept := s[|live|]], kept + 1, subs, live + [true])
  {
    var j := |live|;
    assert subs[..j + 1][..j] == subs[..j] && (live + [false])[..j] == live && (live + [true])[..j] == live;
    assert subs[kept..][1..] == subs[kept + 1..];
  }

  lemma NoneLookedAt(subs: seq<TaskSubscription>)
    ensures CompactedUpTo(subs, 0, subs, [])
  {
    assert subs[..0] == [] && subs[0..] == subs && [] + subs == subs;
  }
}
