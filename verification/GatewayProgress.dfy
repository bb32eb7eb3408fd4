/** The gateway is one of the systems that Progress speaks of: each of its actions is a run there. */
module GatewayProgress {
  import opened ChannelNames
  import opened RedisModel
  import opened HubModel
  import opened HubInvariant
  import opened ServingOrder
  import opened GatewaySystem
  import opened SystemInvariant
  import P = Progress

  // ---- What a handler asks of the subscriber, and whom it evicts ----

  lemma AddCalls<C>(s: State<C>, c: C, ch: string, fail: set<string>) returns (calls: seq<Call>)
    requires c in s.conns
    ensures AddSubscription(s, c, ch, fail).redis == From(s.redis, calls) && |calls| <= 1
  {
    if ch in s.conns[c].subscribed || ch in s.channels {
      calls := [];
    } else {
      calls := [Sub(ch, Succeeds(ch, fail))];
      assert calls[..0] == [];
    }
  }

  lemma {:induction false} FromAppend(r: Redis, a: seq<Call>, b: seq<Call>)
    ensures From(r, a + b) == From(From(r, a), b)
    decreases |b|
  {
    if |b| == 0 {
      assert a + b == a;
    } else {
      FromAppend(r, a, b[..|b| - 1]);
      assert (a + b)[..|a + b| - 1] == a + b[..|b| - 1];
    }
  }

  lemma RegisterCalls<C>(cfg: Config, s: State<C>, c: C, fail: set<string>) returns (calls: seq<Call>)
    requires c in s.conns
    ensures HandleRegister(cfg, s, c, fail).redis == From(s.redis, calls) && |calls| <= 2
  {
    var s1, k := s.(pending := s.pending - {c}), s.conns[c];
    if OverTotal(cfg, s1) || OverUser(cfg, s1, k.userID) {
      calls := [];
    } else {
      var a := AddCalls(Join(s1, c), c, SessionChannel(k.sessionKey), fail);
      var joined := AddSubscription(Join(s1, c), c, SessionChannel(k.sessionKey), fail);
      var b := AddCalls(joined, c, UserChannel(k.userID), fail);
      FromAppend(s.redis, a, b);
      calls := a + b;
    }
  }

  lemma {:induction false} LeaveCalls(r: Redis, gone: set<string>, fail: set<string>) returns (calls: seq<Call>)
    ensures UnsubscribeAll(r, gone, fail) == From(r, calls) && |calls| == |gone|
    decreases gone
  {
    if gone == {} {
      calls := [];
    } else {
      var ch :| ch in gone;
      var rest := LeaveCalls(r, gone - {ch}, fail);
      UnsubscribeNext(r, gone - {ch}, ch, fail);
      assert (gone - {ch}) + {ch} == gone;
      calls := rest + [Unsub(ch, Succeeds(ch, fail))];
      assert calls[..|calls| - 1] == rest;
    }
  }

  lemma {:induction false} Fewer<T>(a: set<T>, b: set<T>)
    requires a <= b
    ensures |a| <= |b|
    decreases a
  {
    if a != {} {
      var x :| x in a;
      Fewer(a - {x}, b - {x});
    }
  }

  lemma UnregisterCalls<C>(s: State<C>, c: C, fail: set<string>) returns (calls: seq<Call>)
    requires c in s.conns
    ensures HandleUnregister(s, c, fail).redis == From(s.redis, calls)
    ensures |calls| <= |s.conns[c].subscribed|
  {
    if c !in s.clients {
      calls := [];
    } else {
      var gone := Emptied(s.channels, c, s.conns[c].subscribed);
      calls := LeaveCalls(s.redis, gone, fail);
      Fewer(gone, s.conns[c].subscribed);
    }
  }

  lemma SubscribeCalls<C>(s: State<C>, c: C, ch: string, fail: set<string>) returns (calls: seq<Call>)
    requires c in s.conns
    ensures var t := HandleSubscribe(s, c, ch, fail);
            && t.redis == From(s.redis, calls) && t.pending == s.pending
            && |s.posts| <= |t.posts| && |calls| + |t.posts| - |s.posts| <= 1
  {
    Fewer(FullOnes(s.conns, {c}), {c});
    if c in s.clients && ValidName(ch) && !Reserved(ch) && ch in s.conns[c].allowed {
      calls := AddCalls(s, c, ch, fail);
    } else {
      calls := [];
    }
  }

  lemma UnsubscribeCalls<C>(s: State<C>, c: C, ch: string, fail: set<string>) returns (calls: seq<Call>)
    requires c in s.conns
    ensures var t := HandleUnsubscribe(s, c, ch, fail);
            t.redis == From(s.redis, calls) && |calls| <= 1 && t.pending == s.pending && t.posts == s.posts
  {
    if c !in s.clients || ch !in s.conns[c].subscribed {
      calls := [];
    } else {
      calls := LeaveCalls(s.redis, Emptied(s.channels, c, {ch}), fail);
      Fewer(Emptied(s.channels, c, {ch}), {ch});
    }
  }

  // ---- Runs of Progress ----

  /** How often the hub enters the subscriber. */
  function Entries(run: seq<P.Step>): nat {
    if |run| == 0 then 0 else (if run[0].EnterCall? then 1 else 0) + Entries(run[1..])
  }

  lemma Then(s: P.State, e: P.Step, rest: seq<P.Step>)
    requires P.Enabled(s, e) && P.IsRun(P.Do(s, e), rest)
    ensures P.IsRun(s, [e] + rest) && P.After(s, [e] + rest) == P.After(P.Do(s, e), rest)
    ensures Entries([e] + rest) == (if e.EnterCall? then 1 else 0) + Entries(rest)
  {
    assert ([e] + rest)[1..] == rest;
  }

  /** The rest of a handler, with nobody else at work. */
  lemma {:induction false} HandlerRun(s: P.State) returns (run: seq<P.Step>)
    requires s.hub.Handling? && s.mutex.Free?
    ensures P.IsRun(s, run) && P.After(s, run) == s.(hub := P.Selecting) && Entries(run) == s.hub.calls
    decreases s.hub.calls
  {
    if s.hub.calls == 0 {
      Then(s, P.FinishHandler, []);
      run := [P.FinishHandler] + [];
    } else {
      var inside := P.Do(s, P.EnterCall);
      var rest := HandlerRun(P.Do(inside, P.LeaveCall));
      Then(inside, P.LeaveCall, rest);
      Then(s, P.EnterCall, [P.LeaveCall] + rest);
      run := [P.EnterCall] + ([P.LeaveCall] + rest);
    }
  }

  /** One request goes through its queue and is served. */
  lemma ServedRun(s: P.State, q: P.Name, calls: nat, evicted: nat) returns (run: seq<P.Step>)
    requires s.hub.Selecting? && s.mutex.Free? && P.Get(s, q).sending > 0 && P.Get(s, q).queued == 0
    requires P.Handles(q, calls, evicted)
    ensures P.IsRun(s, run) && Entries(run) == calls
    ensures P.After(s, run) ==
            P.Sending(P.Set(s, q, P.Queue(P.Get(s, q).sending - 1, 0)), P.Unregister, evicted)
  {
    var queued := P.Do(s, P.Enqueue(q));
    var taken := P.Do(queued, P.Take(q, calls, evicted));
    var rest := HandlerRun(taken);
    Then(queued, P.Take(q, calls, evicted), rest);
    Then(s, P.Enqueue(q), [P.Take(q, calls, evicted)] + rest);
    run := [P.Enqueue(q)] + ([P.Take(q, calls, evicted)] + rest);
  }

  /** A request that somebody sends now, served at once. */
  lemma SentRun(s: P.State, q: P.Name, calls: nat, evicted: nat) returns (run: seq<P.Step>)
    requires s.hub.Selecting? && s.mutex.Free? && P.Get(s, q) == P.EMPTY && q != P.Unregister
    requires P.Handles(q, calls, evicted)
    ensures P.IsRun(s, run) && Entries(run) == calls && P.After(s, run) == P.Sending(s, P.Unregister, evicted)
  {
    var rest := ServedRun(P.Do(s, P.Send(q)), q, calls, evicted);
    Then(s, P.Send(q), rest);
    run := [P.Send(q)] + rest;
  }

  // ---- The gateway between two actions ----

  /** What is posted and not served counts as being sent, and nobody holds the mutex. */
  ghost function View<C>(s: System<C>): P.State {
    P.State(P.Free, P.Selecting, P.Receiving, |s.incoming|,
            P.Queue(|s.hub.pending|, 0), P.Queue(|s.hub.posts|, 0), P.EMPTY, P.EMPTY, 0)
  }

  /** `run` is what the action is in Progress, with one entry into the subscriber per call. */
  ghost predicate Matches<C>(cfg: Config, s: System<C>, a: Action<C>, run: seq<P.Step>, calls: seq<Call>)
    requires Possible(s, a)
  {
    var t := Act(cfg, s, a);
    && P.IsRun(View(s), run) && P.After(View(s), run) == View(t) && Entries(run) == |calls|
    && t.hub.redis == From(s.hub.redis, calls).(closed := t.hub.redis.closed)
  }

  lemma RegisterQueues<C>(cfg: Config, s: State<C>, c: C, fail: set<string>)
    requires c in s.conns && c in s.pending
    ensures var t := HandleRegister(cfg, s, c, fail);
            t.pending == s.pending - {c} && t.posts == s.posts && t.redis.closed == s.redis.closed
  {
  }

  lemma RegisterMatches<C>(cfg: Config, s: System<C>, c: C, fail: set<string>) returns (run: seq<P.Step>, calls: seq<Call>)
    requires Possible(s, HubServes(Register(c, fail)))
    ensures Matches(cfg, s, HubServes(Register(c, fail)), run, calls)
  {
    calls := RegisterCalls(cfg, s.hub, c, fail);
    RegisterQueues(cfg, s.hub, c, fail);
    run := ServedRun(View(s), P.Register, |calls|, 0);
  }

  lemma UnregisterMatches<C>(cfg: Config, s: System<C>, c: C, fail: set<string>) returns (run: seq<P.Step>, calls: seq<Call>)
    requires Possible(s, HubServes(Unregister(c, fail)))
    ensures Matches(cfg, s, HubServes(Unregister(c, fail)), run, calls)
  {
    calls := UnregisterCalls(s.hub, c, fail);
    run := ServedRun(View(s), P.Unregister, |calls|, 0);
  }

  lemma SubscribeMatches<C>(cfg: Config, s: System<C>, c: C, ch: string, fail: set<string>)
    returns (run: seq<P.Step>, calls: seq<Call>)
    requires Possible(s, HubServes(ClientSubscribe(c, ch, fail)))
    ensures Matches(cfg, s, HubServes(ClientSubscribe(c, ch, fail)), run, calls)
  {
    calls := SubscribeCalls(s.hub, c, ch, fail);
    run := SentRun(View(s), P.Subscribe, |calls|, |HandleSubscribe(s.hub, c, ch, fail).posts| - |s.hub.posts|);
  }

  lemma UnsubscribeMatches<C>(cfg: Config, s: System<C>, c: C, ch: string, fail: set<string>)
    returns (run: seq<P.Step>, calls: seq<Call>)
    requires Possible(s, HubServes(ClientUnsubscribe(c, ch, fail)))
    ensures Matches(cfg, s, HubServes(ClientUnsubscribe(c, ch, fail)), run, calls)
  {
    calls := UnsubscribeCalls(s.hub, c, ch, fail);
    run := SentRun(View(s), P.Unsubscribe, |calls|, 0);
  }

  /** A message needs no call, and evicts the members whose queue is full. */
  lemma MessageMatches<C>(cfg: Config, s: System<C>) returns (run: seq<P.Step>, calls: seq<Call>)
    requires Possible(s, HubReceives)
    ensures Matches(cfg, s, HubReceives, run, calls) && calls == []
  {
    calls := [];
    var evicted := |HandleIncoming(s.hub, s.incoming[0]).posts| - |s.hub.posts|;
    var rest := HandlerRun(P.Do(View(s), P.TakeMessage(evicted)));
    Then(View(s), P.TakeMessage(evicted), rest);
    run := [P.TakeMessage(evicted)] + rest;
  }

  lemma OneStepRun(s: P.State, e: P.Step)
    requires P.Enabled(s, e) && !e.EnterCall?
    ensures P.IsRun(s, [e]) && P.After(s, [e]) == P.Do(s, e) && Entries([e]) == 0
  {
    Then(s, e, []);
    assert [e] + [] == [e];
  }

  /** The read loop forwards one message. */
  lemma ForwardMatches<C>(cfg: Config, s: System<C>) returns (run: seq<P.Step>)
    requires Possible(s, Forward)
    ensures Matches(cfg, s, Forward, run, [])
  {
    var s1 := P.Do(View(s), P.MessageArrives);
    var s2 := P.Do(s1, P.ReaderLocks);
    var s3 := P.Do(s2, P.ReaderUnlocks);
    OneStepRun(s3, P.ReaderPushes);
    Then(s2, P.ReaderUnlocks, [P.ReaderPushes]);
    Then(s1, P.ReaderLocks, [P.ReaderUnlocks] + [P.ReaderPushes]);
    run := [P.MessageArrives] + ([P.ReaderLocks] + ([P.ReaderUnlocks] + [P.ReaderPushes]));
    Then(View(s), P.MessageArrives, [P.ReaderLocks] + ([P.ReaderUnlocks] + [P.ReaderPushes]));
  }

  lemma CloseMatches<C>(cfg: Config, s: System<C>) returns (run: seq<P.Step>)
    requires Possible(s, HubServes(CloseManager))
    ensures Matches(cfg, s, HubServes(CloseManager), run, [])
  {
    var s1 := P.Do(View(s), P.OtherArrives);
    var s2 := P.Do(s1, P.OtherLocks);
    OneStepRun(s2, P.OtherUnlocks);
    Then(s1, P.OtherLocks, [P.OtherUnlocks]);
    run := [P.OtherArrives] + ([P.OtherLocks] + [P.OtherUnlocks]);
    Then(View(s), P.OtherArrives, [P.OtherLocks] + [P.OtherUnlocks]);
  }

  lemma PostMatches<C>(cfg: Config, s: System<C>, e: Event<C>) returns (run: seq<P.Step>)
    requires Indexed(s.hub) && Possible(s, HubServes(e)) && (e.PostRegister? || e.PostUnregister?)
    ensures Matches(cfg, s, HubServes(e), run, [])
  {
    var q := if e.PostRegister? then P.Register else P.Unregister;
    OneStepRun(View(s), P.Send(q));
    run := [P.Send(q)];
    assert e.PostRegister? ==> e.c !in s.hub.pending;
  }

  lemma ServedMatches<C>(cfg: Config, s: System<C>, e: Event<C>) returns (run: seq<P.Step>, calls: seq<Call>)
    requires Indexed(s.hub) && Possible(s, HubServes(e))
    ensures Matches(cfg, s, HubServes(e), run, calls)
  {
    match e
    case Register(c, fail) => run, calls := RegisterMatches(cfg, s, c, fail);
    case Unregister(c, fail) => run, calls := UnregisterMatches(cfg, s, c, fail);
    case ClientSubscribe(c, ch, fail) => run, calls := SubscribeMatches(cfg, s, c, ch, fail);
    case ClientUnsubscribe(c, ch, fail) => run, calls := UnsubscribeMatches(cfg, s, c, ch, fail);
    case CloseManager =>
      run := CloseMatches(cfg, s);
      calls := [];
    case _ =>
      run := PostMatches(cfg, s, e);
      calls := [];
  }

  /** Every action of the gateway is a run of Progress, entering the subscriber once for every call
      that changes the refcounts and evicting exactly the clients it posts unregister requests for. */
  lemma ActionMatches<C>(cfg: Config, s: System<C>, a: Action<C>) returns (run: seq<P.Step>, calls: seq<Call>)
    requires Indexed(s.hub) && Possible(s, a)
    ensures Matches(cfg, s, a, run, calls)
  {
    match a
    case HubServes(e) => run, calls := ServedMatches(cfg, s, e);
    case HubReceives => run, calls := MessageMatches(cfg, s);
    case Forward =>
      run := ForwardMatches(cfg, s);
      calls := [];
    case _ => run, calls := [], [];
  }

  lemma {:induction false} RunMatches<C>(cfg: Config, s: System<C>, actions: seq<Action<C>>) returns (run: seq<P.Step>)
    requires Sound(cfg, s) && IsRun(cfg, s, actions)
    ensures P.IsRun(View(s), run) && P.After(View(s), run) == View(After(cfg, s, actions))
    decreases |actions|
  {
    if |actions| == 0 {
      run := [];
    } else {
      ActSound(cfg, s, actions[0]);
      var first, calls := ActionMatches(cfg, s, actions[0]);
      var rest := RunMatches(cfg, Act(cfg, s, actions[0]), actions[1..]);
      P.RunAppend(View(s), first, rest);
      run := first + rest;
    }
  }

  /** Whatever the gateway has been through, under every scheduler it then works off everything that
      was posted and queued: no goroutine waits for ever. */
  lemma EveryGatewayDrains<C>(cfg: Config, actions: seq<Action<C>>, f: (nat, P.State) -> P.Step)
    returns (past: seq<P.Step>, run: seq<P.Step>)
    requires IsRun(cfg, Start(), actions) && P.Scheduler(f)
    ensures P.IsRun(P.START, past) && P.After(P.START, past) == View(After(cfg, Start(), actions))
    ensures P.IsRun(View(After(cfg, Start(), actions)), run) && P.Scheduled(f, 0, View(After(cfg, Start(), actions)), run)
    ensures P.Drained(P.After(View(After(cfg, Start(), actions)), run))
  {
    var start: System<C> := Start();
    assert View(start) == P.START;
    assert Sound(cfg, start);
    past := RunMatches(cfg, start, actions);
    P.RunDisciplined(P.START, past);
    run := P.EveryScheduleDrains(f, 0, View(After(cfg, start, actions)));
  }
}
