/** The subscriber object of gateway/redis.go. Every public method runs under its mutex; how the
    mutex is shared with the read loop is the subject of the module Progress. */
module Subscriber {
  import opened RedisModel
  import opened HubModel
  import opened Options

  /** What the read loop runs into: a message from Redis, or that SetDeliver attached a callback (None
      for nil) since the last one. Callbacks are numbered. */
  datatype Turn = Attaches(callback: Option<nat>) | Delivers(msg: Message)

  /** The callback after those turns. */
  function Attached(callback: Option<nat>, turns: seq<Turn>): Option<nat> {
    if |turns| == 0 then callback
    else if turns[|turns| - 1].Attaches? then turns[|turns| - 1].callback
    else Attached(callback, turns[..|turns| - 1])
  }

  /** Each message goes to the callback attached when it arrives; without one it is dropped. */
  function Forwards(callback: Option<nat>, turns: seq<Turn>): seq<(nat, Message)> {
    if |turns| == 0 then []
    else
      var front, last := turns[..|turns| - 1], turns[|turns| - 1];
      Forwards(callback, front) +
      if last.Delivers? && Attached(callback, front).Some? then [(Attached(callback, front).value, last.msg)] else []
  }

  function Arrivals(turns: seq<Turn>): seq<Message> {
    if |turns| == 0 then []
    else Arrivals(turns[..|turns| - 1]) + if turns[|turns| - 1].Delivers? then [turns[|turns| - 1].msg] else []
  }

  /** As main does it, with a callback attached before the loop starts: however often the callback is
      replaced, every message is forwarded once, in order. */
  lemma {:induction false} NothingDropped(callback: Option<nat>, turns: seq<Turn>)
    requires callback.Some? && forall turn | turn in turns && turn.Attaches? :: turn.callback.Some?
    ensures Attached(callback, turns).Some?
    ensures |Forwards(callback, turns)| == |Arrivals(turns)|
    ensures forall i | 0 <= i < |Arrivals(turns)| :: Forwards(callback, turns)[i].1 == Arrivals(turns)[i]
  {
    if |turns| > 0 {
      NothingDropped(callback, turns[..|turns| - 1]);
    }
  }

  /** No callback is attached or detached in these turns. */
  ghost predicate Undisturbed(turns: seq<Turn>) {
    forall turn | turn in turns :: turn.Delivers?
  }

  lemma {:induction false} AttachedLast(callback: Option<nat>, front: seq<Turn>, attaching: Turn, rest: seq<Turn>)
    requires attaching.Attaches? && Undisturbed(rest)
    ensures Attached(callback, front + [attaching] + rest) == attaching.callback
  {
    var turns := front + [attaching] + rest;
    if |rest| > 0 {
      AttachedLast(callback, front, attaching, rest[..|rest| - 1]);
      assert turns[..|turns| - 1] == front + [attaching] + rest[..|rest| - 1];
      assert turns[|turns| - 1] == rest[|rest| - 1] && rest[|rest| - 1] in rest;
    }
  }

  lemma {:induction false} ForwardsAppend(callback: Option<nat>, a: seq<Turn>, b: seq<Turn>)
    ensures Attached(callback, a + b) == Attached(Attached(callback, a), b)
    ensures Forwards(callback, a + b) == Forwards(callback, a) + Forwards(Attached(callback, a), b)
  {
    if |b| == 0 {
      assert a + b == a;
    } else {
      ForwardsAppend(callback, a, b[..|b| - 1]);
      assert (a + b)[..|a + b| - 1] == a + b[..|b| - 1];
    }
  }

  /** A message goes to the callback that was attached last before it arrived, directly behind what was
      forwarded before, and is dropped exactly if that was nil. */
  lemma GoesToTheLastAttached(callback: Option<nat>, front: seq<Turn>, attaching: Turn, between: seq<Turn>,
                              msg: Message, rest: seq<Turn>)
    requires attaching.Attaches? && Undisturbed(between)
    ensures var before := front + [attaching] + between;
            var forwarded := Forwards(callback, before + [Delivers(msg)] + rest);
            Forwards(callback, before) + (if attaching.callback.Some? then [(attaching.callback.value, msg)] else [])
            <= forwarded
            && |forwarded| == |Forwards(callback, before)| + (if attaching.callback.Some? then 1 else 0)
                              + |Forwards(Attached(callback, before + [Delivers(msg)]), rest)|
  {
    var before := front + [attaching] + between;
    AttachedLast(callback, front, attaching, between);
    ForwardsAppend(callback, before + [Delivers(msg)], rest);
    assert (before + [Delivers(msg)])[..|before|] == before;
  }

  class RedisSubscriber {
    var activeChans: map<string, int>
    var closed: bool
    var started: bool
    var deliver: Option<nat>              // the callback attached
    var forwarded: seq<(nat, Message)>    // which callback was given what
    var loops: nat                        // read loops spawned
    var pubsubCloses: nat
    var clientCloses: nat
    ghost var log: map<string, seq<Cmd>>

    ghost function View(): Redis
      reads this
    {
      Redis(activeChans, closed, log)
    }

    /** Spawns the read loop, once. */
    method Start()
      modifies this`started, this`loops
      ensures started && loops == old(loops) + if old(started) then 0 else 1
    {
      if started {
        return;
      }
      started := true;
      loops := loops + 1;
    }

    constructor (deliver: Option<nat>)
      ensures View() == EMPTY && forwarded == [] && this.deliver == deliver
      ensures pubsubCloses == clientCloses == 0 && started == deliver.Some?
      ensures loops == if deliver.Some? then 1 else 0
    {
      activeChans, closed, log, forwarded := map[], false, map[], [];
      this.deliver, pubsubCloses, clientCloses := deliver, 0, 0;
      started, loops := false, 0;
      new;
      if deliver.Some? {
        Start();
      }
    }

    method SetDeliver(callback: Option<nat>)
      modifies this`deliver
      ensures deliver == callback
    {
      deliver := callback;
    }

    /** `ok` is the outcome of the SUBSCRIBE command, should one be issued. */
    method Subscribe(channel: string, ok: bool) returns (err: bool)
      modifies this`activeChans, this`log
      ensures View() == RedisModel.Subscribe(old(View()), channel, ok)
      ensures err <==> SubscribeErrs(old(View()), channel, ok)
    {
      if closed {
        return true;
      }
      activeChans := activeChans[channel := (if channel in activeChans then activeChans[channel] else 0) + 1];
      if activeChans[channel] == 1 {
        log := log[channel := Log(View(), channel) + [Cmd(true, ok)]];
        if !ok {
          activeChans := activeChans[channel := activeChans[channel] - 1];
          return true;
        }
      }
      return false;
    }

    method Unsubscribe(channel: string, ok: bool) returns (err: bool)
      modifies this`activeChans, this`log
      ensures View() == RedisModel.Unsubscribe(old(View()), channel, ok)
      ensures err <==> UnsubscribeErrs(old(View()), channel, ok)
    {
      if closed {
        return false;
      }
      if channel !in activeChans {
        return false;
      }
      activeChans := activeChans[channel := activeChans[channel] - 1];
      if activeChans[channel] > 0 {
        return false;
      }
      activeChans := activeChans - {channel};
      assert activeChans == old(activeChans) - {channel};
      log := log[channel := Log(View(), channel) + [Cmd(false, ok)]];
      return !ok;
    }

    /** `ok` tells whether closing the Redis client works, should it be closed; only the first call
        closes anything, whatever it returns. */
    method Close(ok: bool) returns (err: bool)
      modifies this`closed, this`pubsubCloses, this`clientCloses
      ensures View() == old(View()).(closed := true)
      ensures err <==> !old(closed) && !ok
      ensures pubsubCloses == old(pubsubCloses) + if old(closed) then 0 else 1
      ensures clientCloses == old(clientCloses) + if old(closed) then 0 else 1
    {
      if closed {
        return false;
      }
      closed := true;
      pubsubCloses := pubsubCloses + 1;
      clientCloses := clientCloses + 1;
      return !ok;
    }

    /** readLoop over what happens until the subscription is closed. */
    method ReadLoop(turns: seq<Turn>)
      modifies this`deliver, this`forwarded
      ensures deliver == Attached(old(deliver), turns)
      ensures forwarded == old(forwarded) + Forwards(old(deliver), turns)
    {
      for i := 0 to |turns|
        invariant deliver == Attached(old(deliver), turns[..i])
        invariant forwarded == old(forwarded) + Forwards(old(deliver), turns[..i])
      {
        assert turns[..i + 1][..i] == turns[..i];
        match turns[i]
        case Attaches(callback) => SetDeliver(callback);
        case Delivers(msg) =>
          var attached := deliver;
          if attached.Some? {
            forwarded := forwarded + [(attached.value, msg)];
          }
      }
      assert turns[..|turns|] == turns;
    }
  }
}
