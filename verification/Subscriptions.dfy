/** The subscriptions of a relay connection: the map of what is wanted, the channels of the subscribers,
    and the REQ and CLOSE messages on the wire. */
module Subscriptions {
  // ---------------------------------------------------------------- the wire

  datatype Message = Req(id: string, filter: int) | Close(id: string)

  /** The subscriptions the relay has open after these messages. */
  function OpenIds(wire: seq<Message>): set<string> {
    if wire == [] then {}
    else
      var before := OpenIds(wire[..|wire| - 1]);
      match wire[|wire| - 1]
      case Req(id, _) => before + {id}
      case Close(id) => before - {id}
  }

  /** No REQ for an open subscription, no CLOSE for one that is not open. */
  ghost predicate WellFormed(wire: seq<Message>) {
    forall i :: 0 <= i < |wire| ==> (wire[i].Close? <==> wire[i].id in OpenIds(wire[..i]))
  }

  lemma OneMoreMessage(wire: seq<Message>, m: Message)
    requires WellFormed(wire) && (m.Close? <==> m.id in OpenIds(wire))
    ensures WellFormed(wire + [m])
    ensures OpenIds(wire + [m]) == if m.Req? then OpenIds(wire) + {m.id} else OpenIds(wire) - {m.id}
  {
    assert (wire + [m])[..|wire|] == wire;
    forall i | 0 <= i < |wire|
      ensures (wire + [m])[i].Close? <==> (wire + [m])[i].id in OpenIds((wire + [m])[..i])
    {
      assert (wire + [m])[..i] == wire[..i];
    }
  }

  /** In between two messages of the same kind for an id there is one of the other kind. */
  lemma ReqsAndClosesAlternate(wire: seq<Message>, i: nat, j: nat)
    requires WellFormed(wire) && i < j < |wire| && wire[i].id == wire[j].id && (wire[i].Req? <==> wire[j].Req?)
    ensures exists k :: i < k < j && wire[k].id == wire[i].id && (wire[k].Req? <==> !wire[i].Req?)
  {
    if forall k :: i < k < j ==> wire[k].id != wire[i].id || (wire[k].Req? <==> wire[i].Req?) {
      StaysUntilTouched(wire, i, j);
    }
  }

  lemma {:induction false} StaysUntilTouched(wire: seq<Message>, i: nat, j: nat)
    requires WellFormed(wire) && i < j <= |wire|
    requires forall k :: i < k < j ==> wire[k].id != wire[i].id || (wire[k].Req? <==> wire[i].Req?)
    ensures wire[i].id in OpenIds(wire[..j]) <==> wire[i].Req?
  {
    assert wire[..j][..j - 1] == wire[..j - 1];
    if j > i + 1 {
      StaysUntilTouched(wire, i, j - 1);
    }
  }

  /** After `start` and then `sent` the relay has `active` open, and no message was out of turn. */
  ghost predicate Sent(start: seq<Message>, sent: seq<Message>, wire: seq<Message>, active: set<string>) {
    wire == start + sent && WellFormed(wire) && OpenIds(wire) == active
  }

  class Connection {
    var wire: seq<Message>
    /** How many sends have failed. */
    ghost var failures: nat

    constructor ()
      ensures wire == [] && failures == 0
    {
      wire, failures := [], 0;
    }

    /** Sending may fail; only what was sent counts. */
    method SendMessage(m: Message) returns (ok: bool)
      modifies this
      ensures wire == if ok then old(wire) + [m] else old(wire)
      ensures failures == old(failures) + if ok then 0 else 1
    {
      ok := *;
      if ok {
        wire := wire + [m];
      } else {
        failures := failures + 1;
      }
    }

    /** Sending after `sent`, which came after `start`, when `active` is open. */
    method SendNext(m: Message, ghost start: seq<Message>, ghost sent: seq<Message>, ghost active: set<string>)
      returns (ok: bool)
      requires Sent(start, sent, wire, active) && (m.Close? <==> m.id in active)
      modifies this
      ensures !ok ==> wire == old(wire)
      ensures ok ==> Sent(start, sent + [m], wire, if m.Req? then active + {m.id} else active - {m.id})
      ensures failures == old(failures) + if ok then 0 else 1
    {
      OneMoreMessage(wire, m);
      assert start + (sent + [m]) == start + sent + [m];
      ok := SendMessage(m);
    }
  }

  // ---------------------------------------------------------------- channels

  datatype ChannelEvent = Opened(ch: nat) | Passed(ch: nat, value: int) | Closed(ch: nat)

  function OpenChannels(log: seq<ChannelEvent>): set<nat> {
    if log == [] then {}
    else
      var before := OpenChannels(log[..|log| - 1]);
      match log[|log| - 1]
      case Opened(ch) => before + {ch}
      case Passed(_, _) => before
      case Closed(ch) => before - {ch}
  }

  /** Channels are new when opened, and open when something is passed or when they are closed. */
  ghost predicate Proper(log: seq<ChannelEvent>) {
    forall i :: 0 <= i < |log| ==>
      if log[i].Opened? then forall j :: 0 <= j < i ==> log[j].ch != log[i].ch
      else log[i].ch in OpenChannels(log[..i])
  }

  lemma OneMoreChannelEvent(log: seq<ChannelEvent>, e: ChannelEvent)
    requires Proper(log)
    requires if e.Opened? then forall j :: 0 <= j < |log| ==> log[j].ch != e.ch else e.ch in OpenChannels(log)
    ensures Proper(log + [e])
    ensures OpenChannels(log + [e]) ==
            if e.Opened? then OpenChannels(log) + {e.ch} else if e.Closed? then OpenChannels(log) - {e.ch}
            else OpenChannels(log)
  {
    assert (log + [e])[..|log|] == log;
    forall i | 0 <= i < |log| && !(log + [e])[i].Opened?
      ensures (log + [e])[i].ch in OpenChannels((log + [e])[..i])
    {
      assert (log + [e])[..i] == log[..i];
    }
  }

  lemma {:induction false} ClosedForGood(log: seq<ChannelEvent>, i: nat, j: nat)
    requires Proper(log) && i < j <= |log| && log[i].Closed?
    ensures log[i].ch !in OpenChannels(log[..j])
  {
    assert log[..j][..j - 1] == log[..j - 1];
    if j > i + 1 {
      ClosedForGood(log, i, j - 1);
      if log[j - 1].Opened? {
        assert log[j - 1].ch != log[i].ch;
      }
    }
  }

  /** A closed channel is never closed again, and nothing is passed to it any more. */
  lemma NothingAfterClose(log: seq<ChannelEvent>, i: nat, j: nat)
    requires Proper(log) && i < j < |log| && log[i].Closed?
    ensures log[j].ch != log[i].ch
  {
    ClosedForGood(log, i, j);
    if log[j].Opened? {
      assert log[i].ch != log[j].ch;
    }
  }

  // ---------------------------------------------------------------- the connection's subscriptions

  datatype Subscription = Subscription(id: string, ch: nat, filter: int)

  function WithoutChannel(subs: map<string, Subscription>, ch: nat): map<string, Subscription> {
    map id | id in subs && subs[id].ch != ch :: subs[id]
  }

  lemma OnlyOneOfChannel(subs: map<string, Subscription>, id: string, ch: nat)
    requires id in subs && subs[id].ch == ch && forall a :: a in subs && subs[a].ch == ch ==> a == id
    ensures WithoutChannel(subs, ch) == subs - {id}
  {
  }

  /** The ids of the messages of each kind. */
  ghost function ReqIds(sent: seq<Message>): set<string> {
    set i | 0 <= i < |sent| && sent[i].Req? :: sent[i].id
  }

  ghost function CloseIds(sent: seq<Message>): set<string> {
    set i | 0 <= i < |sent| && sent[i].Close? :: sent[i].id
  }

  lemma OneMoreId(sent: seq<Message>, m: Message)
    ensures ReqIds(sent + [m]) == ReqIds(sent) + if m.Req? then {m.id} else {}
    ensures CloseIds(sent + [m]) == CloseIds(sent) + if m.Close? then {m.id} else {}
  {
    var t := sent + [m];
    assert t[|sent|] == m && forall i :: 0 <= i < |sent| ==> t[i] == sent[i];
    assert forall id :: id in ReqIds(sent) ==> id in ReqIds(t);
    assert forall id :: id in CloseIds(sent) ==> id in CloseIds(t);
  }

  ghost predicate ClosesFirst(sent: seq<Message>) {
    forall i, j :: 0 <= i < j < |sent| && sent[i].Req? ==> sent[j].Req?
  }

  lemma NoReqs(sent: seq<Message>)
    ensures ReqIds(sent) == {} ==> forall i :: 0 <= i < |sent| ==> !sent[i].Req?
  {
    forall i | 0 <= i < |sent| && sent[i].Req? ensures ReqIds(sent) != {} {
      assert sent[i].id in ReqIds(sent);
    }
  }

  /** The messages sent by one update, `toClose` and `toOpen` being the ids that differ: at most one per id,
      the closes first, and every REQ with its subscription's filter. */
  ghost predicate Reconciles(sent: seq<Message>, toClose: set<string>, toOpen: set<string>,
                             wanted: map<string, Subscription>) {
    && CloseIds(sent) <= toClose && ReqIds(sent) <= toOpen
    && |sent| == |CloseIds(sent)| + |ReqIds(sent)|
    && (ReqIds(sent) != {} ==> CloseIds(sent) == toClose) && ClosesFirst(sent)
    && forall i :: 0 <= i < |sent| && sent[i].Req? ==>
      sent[i].id in wanted && sent[i].filter == wanted[sent[i].id].filter
  }

  /** Halfway through the closes: `todo` is what is still to be looked at. */
  ghost predicate Closing(sent: seq<Message>, active: set<string>, active': set<string>, todo: set<string>,
                          wanted: map<string, Subscription>) {
    && Reconciles(sent, active - wanted.Keys, {}, wanted)
    && active' == active - CloseIds(sent) && todo <= active' && active' - todo <= wanted.Keys
  }

  lemma ClosingGoesOn(sent: seq<Message>, id: string, active: set<string>, active': set<string>, todo: set<string>,
                      wanted: map<string, Subscription>)
    requires Closing(sent, active, active', todo, wanted) && id in todo
    ensures id in wanted ==> Closing(sent, active, active', todo - {id}, wanted)
    ensures id !in wanted ==> Closing(sent + [Close(id)], active, active' - {id}, todo - {id}, wanted)
  {
    if id !in wanted {
      NoReqs(sent);
      OneMoreId(sent, Close(id));
    }
  }

  lemma ClosingIsDone(sent: seq<Message>, active: set<string>, active': set<string>, wanted: map<string, Subscription>)
    requires Closing(sent, active, active', {}, wanted)
    ensures CloseIds(sent) == active - wanted.Keys && active' == active * wanted.Keys
  {
    assert active' <= wanted.Keys;
  }

  /** Halfway through the REQs. */
  ghost predicate Opening(sent: seq<Message>, toClose: set<string>, active: set<string>, active': set<string>,
                          todo: set<string>,
                          wanted: map<string, Subscription>) {
    && Reconciles(sent, toClose, wanted.Keys - active, wanted) && CloseIds(sent) == toClose
    && active' == active + ReqIds(sent) && ReqIds(sent) !! todo
    && active <= wanted.Keys && todo <= wanted.Keys <= active' + todo
  }

  lemma OneMoreReq(sent: seq<Message>, id: string, toClose: set<string>, toOpen: set<string>,
                   wanted: map<string, Subscription>)
    requires Reconciles(sent, toClose, toOpen, wanted) && CloseIds(sent) == toClose
    requires id in toOpen && id in wanted && id !in ReqIds(sent)
    ensures var more := sent + [Req(id, wanted[id].filter)];
            && Reconciles(more, toClose, toOpen, wanted) && CloseIds(more) == toClose
            && ReqIds(more) == ReqIds(sent) + {id}
  {
    OneMoreId(sent, Req(id, wanted[id].filter));
  }

  lemma OpeningSkips(sent: seq<Message>, id: string, toClose: set<string>, active: set<string>, active': set<string>,
                     todo: set<string>, wanted: map<string, Subscription>)
    requires Opening(sent, toClose, active, active', todo, wanted) && id in todo && id in active'
    ensures Opening(sent, toClose, active, active', todo - {id}, wanted)
  {
  }

  lemma OpeningSends(sent: seq<Message>, id: string, toClose: set<string>, active: set<string>, active': set<string>,
                     todo: set<string>, wanted: map<string, Subscription>)
    requires Opening(sent, toClose, active, active', todo, wanted) && id in todo && id !in active'
    ensures Opening(sent + [Req(id, wanted[id].filter)], toClose, active, active' + {id}, todo - {id}, wanted)
  {
    OneMoreReq(sent, id, toClose, wanted.Keys - active, wanted);
    assert active' + {id} == active + (ReqIds(sent) + {id});
  }

  lemma OpeningIsDone(sent: seq<Message>, toClose: set<string>, active: set<string>, active': set<string>,
                      wanted: map<string, Subscription>)
    requires Opening(sent, toClose, active, active', {}, wanted)
    ensures active' == wanted.Keys && ReqIds(sent) == wanted.Keys - active
  {
  }

  /** What one update sends when `before` is open: at most one message for each id that differs, the CLOSEs first,
      every REQ with its subscription's filter; all of them unless it fails. */
  ghost predicate IsUpdate(before: set<string>, wanted: map<string, Subscription>, sent: seq<Message>,
                           after: set<string>, ok: bool) {
    && CloseIds(sent) <= before - wanted.Keys && ReqIds(sent) <= wanted.Keys - before
    && |sent| == |CloseIds(sent)| + |ReqIds(sent)| && after == before - CloseIds(sent) + ReqIds(sent)
    && (ReqIds(sent) != {} ==> CloseIds(sent) == before - wanted.Keys)
    && (forall i, j :: 0 <= i < j < |sent| && sent[i].Req? ==> sent[j].Req?)
    && (forall i :: 0 <= i < |sent| && sent[i].Req? ==>
          sent[i].id in wanted && sent[i].filter == wanted[sent[i].id].filter)
    && (ok <==> CloseIds(sent) == before - wanted.Keys && ReqIds(sent) == wanted.Keys - before)
  }

  lemma SetsDiffer(before: set<string>, wanted: set<string>, taken: set<string>, added: set<string>)
    requires taken <= before - wanted && added <= wanted - before
    ensures before - taken + added == wanted <==> taken == before - wanted && added == wanted - before
  {
    var after := before - taken + added;
    if after == wanted {
      assert forall id :: id in before - wanted ==> id !in after;
      assert forall id :: id in wanted - before ==> id in after;
    }
  }

  lemma UpdateIs(before: set<string>, wanted: map<string, Subscription>, sent: seq<Message>, after: set<string>,
                 ok: bool)
    requires Reconciles(sent, before - wanted.Keys, wanted.Keys - before, wanted)
    requires after == before - CloseIds(sent) + ReqIds(sent) && (ok <==> after == wanted.Keys)
    ensures IsUpdate(before, wanted, sent, after, ok)
  {
    SetsDiffer(before, wanted.Keys, CloseIds(sent), ReqIds(sent));
  }

  /** The wire is one update after the other, each for its wanted map and from what the ones before have left open;
      only the last may have failed. */
  ghost predicate AreUpdates(wire: seq<Message>, wanted: seq<map<string, Subscription>>, updates: seq<seq<Message>>,
                             ok: bool)
    decreases |updates|
  {
    if updates == [] then wire == []
    else
      var n := |updates| - 1;
      && n < |wanted| && |updates[n]| <= |wire|
      && var before := wire[..|wire| - |updates[n]|];
         && wire == before + updates[n] && AreUpdates(before, wanted, updates[..n], true)
         && IsUpdate(OpenIds(before), wanted[n], updates[n], OpenIds(wire), ok)
  }

  /** The wire after these updates, and what they leave open. */
  ghost predicate Managed(wire: seq<Message>, wanted: seq<map<string, Subscription>>, updates: seq<seq<Message>>,
                          active: set<string>, ok: bool) {
    WellFormed(wire) && OpenIds(wire) == active && AreUpdates(wire, wanted, updates, ok)
  }

  class RelayConnection {
    var subscriptions: map<string, Subscription>
    var log: seq<ChannelEvent>
    /** The goroutines of GetEvents that still wait for their context. */
    ghost var waiting: set<nat>

    ghost predicate Valid()
      reads this
    {
      && Proper(log) && waiting == OpenChannels(log)
      && (forall id :: id in subscriptions ==> subscriptions[id].id == id && subscriptions[id].ch in OpenChannels(log))
      && (forall a, b :: a in subscriptions && b in subscriptions && subscriptions[a].ch == subscriptions[b].ch ==>
          a == b)
      && (forall ch :: ch in OpenChannels(log) ==> exists id :: id in subscriptions && subscriptions[id].ch == ch)
    }

    constructor ()
      ensures Valid() && subscriptions == map[] && log == []
    {
      subscriptions, log, waiting := map[], [], {};
    }

    /** Adds a subscription with a new id and a new channel, and leaves a goroutine waiting for its context. */
    method GetEvents(id: string, ch: nat, filter: int)
      requires Valid() && id !in subscriptions && forall i :: 0 <= i < |log| ==> log[i].ch != ch
      modifies this
      ensures Valid() && subscriptions == old(subscriptions)[id := Subscription(id, ch, filter)]
      ensures log == old(log) + [Opened(ch)] && waiting == old(waiting) + {ch}
    {
      ghost var before := log;
      OneMoreChannelEvent(log, Opened(ch));
      assert ch !in OpenChannels(log) by {
        OpenWereOpened(log, ch);
      }
      subscriptions := subscriptions[id := Subscription(id, ch, filter)];
      log := log + [Opened(ch)];
      waiting := waiting + {ch};
      forall c | c in OpenChannels(log) ensures exists i :: i in subscriptions && subscriptions[i].ch == c {
        if c == ch {
          assert subscriptions[id].ch == c;
        } else {
          var i :| i in old(subscriptions) && old(subscriptions)[i].ch == c;
          assert i in subscriptions && subscriptions[i].ch == c;
        }
      }
    }

    /** Closes the channel and forgets its subscription; an error only if there is none. */
    method RemoveSubscriptionChannel(ch: nat) returns (err: bool)
      requires Valid()
      modifies this`subscriptions, this`log
      ensures err <==> ch !in OpenChannels(old(log))
      ensures log == if err then old(log) else old(log) + [Closed(ch)]
      ensures subscriptions == WithoutChannel(old(subscriptions), ch)
    {
      var todo := subscriptions.Keys;
      while todo != {}
        invariant subscriptions == old(subscriptions) && log == old(log) && todo <= subscriptions.Keys
        invariant forall id :: id in subscriptions && id !in todo ==> subscriptions[id].ch != ch
        decreases |todo|
      {
        var id :| id in todo;
        todo := todo - {id};
        if subscriptions[id].ch == ch {
          OnlyOneOfChannel(subscriptions, id, ch);
          log := log + [Closed(ch)];
          subscriptions := subscriptions - {id};
          return false;
        }
      }
      return true;
    }

    /** What the waiting goroutine does when the context ends: it runs once, and never gets the error. */
    method ContextDone(ch: nat) returns (err: bool)
      requires Valid() && ch in waiting
      modifies this
      ensures Valid() && !err && waiting == old(waiting) - {ch} && log == old(log) + [Closed(ch)]
    {
      OneMoreChannelEvent(log, Closed(ch));
      err := RemoveSubscriptionChannel(ch);
      waiting := waiting - {ch};
      forall c | c in OpenChannels(log) ensures exists i :: i in subscriptions && subscriptions[i].ch == c {
        var i :| i in old(subscriptions) && old(subscriptions)[i].ch == c;
        assert i in subscriptions && subscriptions[i].ch == c;
      }
    }

    /** Passes a value to the subscription's channel, unless its context is done first or it is gone. */
    method PassEventOrEOSEToChannel(id: string, value: int, contextDone: bool) returns (passed: bool)
      requires Valid()
      modifies this`log
      ensures Valid() && (passed ==> id in subscriptions) && (!contextDone && id in subscriptions ==> passed)
      ensures log == old(log) + if passed then [Passed(subscriptions[id].ch, value)] else []
    {
      if id in subscriptions {
        passed := true;
        if contextDone {
          passed := *;
        }
        if passed {
          OneMoreChannelEvent(log, Passed(subscriptions[id].ch, value));
          log := log + [Passed(subscriptions[id].ch, value)];
        }
      } else {
        passed := false;
      }
    }

    /** First the CLOSEs of what is open and not wanted any more, in any order. */
    method CloseUnwanted(conn: Connection, active: set<string>)
      returns (ok: bool, active': set<string>, ghost sent: seq<Message>)
      requires WellFormed(conn.wire) && OpenIds(conn.wire) == active
      modifies conn
      ensures Sent(old(conn.wire), sent, conn.wire, active')
      ensures Reconciles(sent, active - subscriptions.Keys, {}, subscriptions)
      ensures ok ==> CloseIds(sent) == active - subscriptions.Keys && active' <= subscriptions.Keys
      ensures active' == active - CloseIds(sent) && (!ok ==> active' != subscriptions.Keys)
      ensures conn.failures == old(conn.failures) + if ok then 0 else 1
    {
      sent := [];
      var todo := active;
      active' := active;
      assert old(conn.wire) + [] == old(conn.wire);
      while todo != {}
        invariant Sent(old(conn.wire), sent, conn.wire, active')
        invariant Closing(sent, active, active', todo, subscriptions) && conn.failures == old(conn.failures)
        decreases |todo|
      {
        var id :| id in todo;
        ClosingGoesOn(sent, id, active, active', todo, subscriptions);
        todo := todo - {id};
        if id !in subscriptions {
          ok := conn.SendNext(Close(id), old(conn.wire), sent, active');
          if !ok {
            return false, active', sent;
          }
          sent := sent + [Close(id)];
          active' := active' - {id};
        }
      }
      ClosingIsDone(sent, active, active', subscriptions);
      return true, active', sent;
    }

    /** Then the REQs of what is wanted and not open. */
    method OpenWanted(conn: Connection, active: set<string>, ghost start: seq<Message>, ghost first: seq<Message>,
                      ghost toClose: set<string>)
      returns (ok: bool, active': set<string>, ghost sent: seq<Message>)
      requires Sent(start, first, conn.wire, active) && active <= subscriptions.Keys
      requires Reconciles(first, toClose, {}, subscriptions) && CloseIds(first) == toClose
      modifies conn
      ensures Sent(start, sent, conn.wire, active')
      ensures Reconciles(sent, toClose, subscriptions.Keys - active, subscriptions)
      ensures ok ==> active' == subscriptions.Keys
      ensures CloseIds(sent) == toClose && active' == active + ReqIds(sent) && (!ok ==> active' != subscriptions.Keys)
      ensures conn.failures == old(conn.failures) + if ok then 0 else 1
    {
      sent := first;
      var todo := subscriptions.Keys;
      active' := active;
      while todo != {}
        invariant Sent(start, sent, conn.wire, active')
        invariant Opening(sent, toClose, active, active', todo, subscriptions) && conn.failures == old(conn.failures)
        decreases |todo|
      {
        var id :| id in todo;
        if id in active' {
          OpeningSkips(sent, id, toClose, active, active', todo, subscriptions);
        } else {
          OpeningSends(sent, id, toClose, active, active', todo, subscriptions);
        }
        todo := todo - {id};
        if id !in active' {
          var m := Req(id, subscriptions[id].filter);
          ok := conn.SendNext(m, start, sent, active');
          if !ok {
            return false, active', sent;
          }
          sent := sent + [m];
          active' := active' + {id};
        }
      }
      OpeningIsDone(sent, toClose, active, active', subscriptions);
      return true, active', sent;
    }

    /** Brings the wire in line with the map. Even when a send fails midway, the set of active
        subscriptions is what the messages sent so far amount to; on success it is what is wanted, with
        exactly one message for each id that differed. */
    method UpdateSubs(conn: Connection, active: set<string>)
      returns (ok: bool, active': set<string>, ghost sent: seq<Message>)
      requires WellFormed(conn.wire) && OpenIds(conn.wire) == active
      modifies conn
      ensures Sent(old(conn.wire), sent, conn.wire, active')
      ensures IsUpdate(active, subscriptions, sent, active', ok)
      ensures ok <==> active' == subscriptions.Keys
      ensures conn.failures == old(conn.failures) + if ok then 0 else 1
    {
      ghost var before := active;
      ok, active', sent := CloseUnwanted(conn, active);
      if !ok {
        UpdateIs(before, subscriptions, sent, active', ok);
        return;
      }
      assert subscriptions.Keys - active' == subscriptions.Keys - before;
      ok, active', sent := OpenWanted(conn, active', old(conn.wire), sent, before - subscriptions.Keys);
      UpdateIs(before, subscriptions, sent, active', ok);
    }

    /** The next update. */
    method ManageNext(conn: Connection, wanted: seq<map<string, Subscription>>, i: nat, active: set<string>,
                      ghost updates: seq<seq<Message>>)
      returns (ok: bool, active': set<string>, ghost updates': seq<seq<Message>>)
      requires i == |updates| < |wanted| && Managed(conn.wire, wanted, updates, active, true)
      modifies conn, this`subscriptions
      ensures Managed(conn.wire, wanted, updates', active', ok) && |updates'| == |updates| + 1
      ensures conn.failures == old(conn.failures) + if ok then 0 else 1
    {
      subscriptions := wanted[i];
      ghost var sent;
      ok, active', sent := UpdateSubs(conn, active);
      updates' := updates + [sent];
      assert updates'[..|updates|] == updates && conn.wire[..|conn.wire| - |sent|] == old(conn.wire);
    }

    /** The loop over all updates of one connection, which ends early at a failed send only; `wanted` are the
        maps other goroutines leave behind, `updates` what is sent for each of them. */
    method ManageSubs(conn: Connection, wanted: seq<map<string, Subscription>>)
      returns (ok: bool, active: set<string>, ghost updates: seq<seq<Message>>)
      requires conn.wire == []
      modifies conn, this`subscriptions
      ensures Managed(conn.wire, wanted, updates, active, ok)
      ensures if ok then |updates| == |wanted| else updates != []
      ensures conn.failures == old(conn.failures) + if ok then 0 else 1
    {
      active, updates := {}, [];
      for i := 0 to |wanted|
        invariant Managed(conn.wire, wanted, updates, active, true) && |updates| == i
        invariant conn.failures == old(conn.failures)
      {
        ok, active, updates := ManageNext(conn, wanted, i, active, updates);
        if !ok {
          return false, active, updates;
        }
      }
      return true, active, updates;
    }
  }

  lemma {:induction false} OpenWereOpened(log: seq<ChannelEvent>, ch: nat)
    requires forall i :: 0 <= i < |log| ==> log[i].ch != ch
    ensures ch !in OpenChannels(log)
  {
    if log != [] {
      OpenWereOpened(log[..|log| - 1], ch);
    }
  }
}
