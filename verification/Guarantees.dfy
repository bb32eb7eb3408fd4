/** What every run of the gateway guarantees to its connections. */
module Guarantees {
  import opened ChannelNames
  import opened HubModel
  import opened Options
  import opened HubInvariant
  import opened HubRelation
  import opened GatewaySystem
  import opened SystemInvariant

  // ---- Order and loss, end to end ----

  /** The messages WritePump took for `c`, then those still queued. */
  function Received<C>(s: System<C>, c: C): seq<Message>
    requires c in s.hub.conns && c in s.pumps
  {
    DataOf(s.pumps[c].taken + s.hub.conns[c].send)
  }

  lemma {:induction false} KeptIsOrdered<C>(processed: seq<Message>, audience: seq<set<C>>, c: C, lost: set<nat>)
    requires |audience| == |processed|
    requires forall i | 0 <= i < |processed| :: processed[i].seqNo == i
    ensures var kept := Kept(processed, audience, c, lost);
            && (forall i, j | 0 <= i < j < |kept| :: kept[i].seqNo < kept[j].seqNo)
            && (forall m | m in kept :: m.seqNo < |processed| && processed[m.seqNo] == m)
            && (forall i | 0 <= i < |processed| ::
                  processed[i] in kept <==> Routed(processed, audience, c, i) && i !in lost)
  {
    if |processed| > 0 {
      var n := |processed| - 1;
      KeptIsOrdered(processed[..n], audience[..n], c, lost);
      var front := Kept(processed[..n], audience[..n], c, lost);
      forall i | 0 <= i < |processed|
        ensures processed[i] in Kept(processed, audience, c, lost)
                <==> Routed(processed, audience, c, i) && i !in lost
      {
        if i < n {
          assert processed[..n][i] == processed[i] && audience[..n][i] == audience[i];
          assert processed[i] in front <==> Routed(processed[..n], audience[..n], c, i) && i !in lost;
        } else {
          assert processed[n] !in front;
        }
      }
    }
  }

  /** In every run: what a connection receives is in the order Redis delivered it, without
      duplicates and unaltered; a message the hub took while the connection was on its channel is
      either among it or lost, never both, and nothing else is; and once one is lost, the
      connection's removal has been posted or has happened. */
  lemma OrderAndLoss<C>(cfg: Config, run: seq<Action<C>>, c: C)
    requires IsRun(cfg, Start(), run)
    requires c in After(cfg, Start(), run).hub.conns
    ensures var s := After(cfg, Start(), run);
            && c in s.pumps && |s.audience| == |s.processed|
            && s.processed <= s.arrived
            && var received, lost := Received(s, c), s.hub.conns[c].hist.lost;
               && (forall i, j | 0 <= i < j < |received| :: received[i].seqNo < received[j].seqNo)
               && (forall m | m in received :: m.seqNo < |s.arrived| && s.arrived[m.seqNo] == m)
               && (forall i | 0 <= i < |s.processed| ::
                     Routed(s.processed, s.audience, c, i) <==> (s.arrived[i] in received || i in lost))
               && (forall i | i in lost :: i < |s.processed| && s.arrived[i] !in received)
               && (lost != {} ==> s.hub.conns[c].closes == 1 || (c in s.hub.clients && c in s.hub.posts))
  {
    EveryRunSound(cfg, run);
    var s := After(cfg, Start(), run);
    var k := s.hub.conns[c];
    assert ConnOk(k, s.pumps[c], c in s.hub.pending, c in s.hub.clients) && Accounted(s, c);
    forall i | 0 <= i < |s.processed| ensures s.processed[i] == s.arrived[i] && s.processed[i].seqNo == i {
    }
    KeptIsOrdered(s.processed, s.audience, c, k.hist.lost);
    forall i | i in k.hist.lost ensures i < |s.processed| && s.arrived[i] !in Received(s, c) {
      assert Routed(s.processed, s.audience, c, i) && s.processed[i] == s.arrived[i];
    }
    forall i | 0 <= i < |s.processed|
      ensures Routed(s.processed, s.audience, c, i) <==> (s.arrived[i] in Received(s, c) || i in k.hist.lost)
    {
      assert s.processed[i] == s.arrived[i];
    }
  }

  lemma MemberFacts<C>(cfg: Config, s: System<C>, c: C, ch: string)
    requires Sound(cfg, s) && |s.incoming| > 0 && c in Members(s.hub.channels, ch)
    ensures c in s.hub.conns && s.hub.conns[c].closes == 0
    ensures s.incoming[0].seqNo !in s.hub.conns[c].hist.lost
  {
    assert c in s.hub.clients;
    assert ConnOk(s.hub.conns[c], s.pumps[c], c in s.hub.pending, c in s.hub.clients) && Accounted(s, c);
    SeqNos(s);
  }

  lemma QueuedOrLost<C>(s: State<C>, msg: Message, c: C)
    requires c in s.conns && s.conns[c].closes == 0
    requires !Reserved(msg.channel) && c in Members(s.channels, msg.channel)
    ensures var t := HandleIncoming(s, msg);
            && c in t.conns
            && var k, k' := s.conns[c], t.conns[c];
               if |k.send| < SEND_CAPACITY
               then k'.send == k.send + [Data(msg)] && k'.hist == k.hist && t.posts[c] == s.posts[c]
               else k'.send == k.send && k'.hist.lost == k.hist.lost + {msg.seqNo} && k'.mailbox.Some?
                    && k'.hist.signals == k.hist.signals + [Reason(SLOW_CLIENT, "slow_client")]
                    && t.posts[c] == s.posts[c] + 1
  {
  }

  /** A message is lost exactly when the queue is full, and then the client is signalled 4408 once and
      one unregister request for it is posted; otherwise it is queued behind everything else. */
  lemma LossExactlyWhenFull<C>(cfg: Config, run: seq<Action<C>>, c: C)
    requires IsRun(cfg, Start(), run) && Possible(After(cfg, Start(), run), HubReceives)
    requires var s := After(cfg, Start(), run);
             !Reserved(s.incoming[0].channel) && c in Members(s.hub.channels, s.incoming[0].channel)
    ensures var s := After(cfg, Start(), run);
            var msg, t := s.incoming[0], HandleIncoming(s.hub, s.incoming[0]);
            && c in s.hub.conns && c in t.conns
            && var k, k' := s.hub.conns[c], t.conns[c];
               if |k.send| < SEND_CAPACITY
               then k'.send == k.send + [Data(msg)] && k'.hist == k.hist && t.posts[c] == s.hub.posts[c]
               else k'.send == k.send && k'.hist.lost == k.hist.lost + {msg.seqNo} && msg.seqNo !in k.hist.lost
                    && k'.mailbox.Some? && k'.hist.signals == k.hist.signals + [Reason(SLOW_CLIENT, "slow_client")]
                    && t.posts[c] == s.hub.posts[c] + 1
  {
    EveryRunSound(cfg, run);
    var s := After(cfg, Start(), run);
    MemberFacts(cfg, s, c, s.incoming[0].channel);
    QueuedOrLost(s.hub, s.incoming[0], c);
  }

  // ---- The closed-queue protocol ----

  /** In every run no frame is sent on a closed queue and no queue is closed twice: the queue of a
      waiting or registered connection is open, that of a removed one was closed exactly once, and a
      connection refused by a cap, whose queue stays open, got nothing but its 4429. */
  lemma QueueProtocol<C>(cfg: Config, run: seq<Action<C>>, c: C)
    requires IsRun(cfg, Start(), run)
    requires c in After(cfg, Start(), run).hub.conns
    ensures var s := After(cfg, Start(), run);
            var k := s.hub.conns[c];
            && k.hist.panics == 0
            && (c in s.hub.clients || c in s.hub.pending ==> k.closes == 0)
            && (c !in s.hub.clients && c !in s.hub.pending ==>
                  k.closes == 1 || (k.closes == 0 && c in s.pumps && TurnedAway(k, s.pumps[c])))
  {
    EveryRunSound(cfg, run);
    var s := After(cfg, Start(), run);
    assert ConnOk(s.hub.conns[c], s.pumps[c], c in s.hub.pending, c in s.hub.clients);
  }

  // ---- Signals ----

  /** The pump only ever acts on the first signal the hub posted, and then has stopped. */
  lemma FirstSignalWins<C>(cfg: Config, run: seq<Action<C>>, c: C)
    requires IsRun(cfg, Start(), run)
    requires c in After(cfg, Start(), run).hub.conns
    ensures var s := After(cfg, Start(), run);
            c in s.pumps &&
            var k, p := s.hub.conns[c], s.pumps[c];
            && (p.acted.Some? ==> !p.running && k.hist.signals != [] && p.acted.value == k.hist.signals[0])
            && (p.acted.None? && k.hist.signals != [] ==> k.mailbox == Some(k.hist.signals[0]))
  {
    EveryRunSound(cfg, run);
    var s := After(cfg, Start(), run);
    assert ConnOk(s.hub.conns[c], s.pumps[c], c in s.hub.pending, c in s.hub.clients);
  }

  predicate Gone<C>(s: State<C>, c: C) {
    c in s.conns && c !in s.pending && c !in s.clients
  }

  /** The pump of a connection that was removed or refused has a signal to stop on, as long as it runs. */
  lemma RemovedPumpCanStop<C>(cfg: Config, run: seq<Action<C>>, c: C)
    requires IsRun(cfg, Start(), run) && Gone(After(cfg, Start(), run).hub, c)
    ensures var s := After(cfg, Start(), run);
            c in s.pumps && (s.pumps[c].running ==> Possible(s, PumpWakes(c, OnSignal)))
  {
    EveryRunSound(cfg, run);
    var s := After(cfg, Start(), run);
    assert ConnOk(s.hub.conns[c], s.pumps[c], false, false);
  }

  lemma RegisterSignals<C>(cfg: Config, s: State<C>, c: C, fail: set<string>)
    requires c in s.conns
    ensures c in HandleRegister(cfg, s, c, fail).conns
    ensures s.conns[c].hist.signals <= HandleRegister(cfg, s, c, fail).conns[c].hist.signals
  {
    var s1, k := s.(pending := s.pending - {c}), s.conns[c];
    if !OverTotal(cfg, s1) && !OverUser(cfg, s1, k.userID) { Admitted(s1, c, fail); }
  }

  lemma ServedSignals<C>(cfg: Config, s: State<C>, e: Event<C>, c: C)
    requires Enabled(s, e) && !e.Incoming? && c in s.conns
    ensures c in Step(cfg, s, e).conns && s.conns[c].hist.signals <= Step(cfg, s, e).conns[c].hist.signals
  {
    if !Concerns(e, c) {
      OthersUntouched(cfg, s, e, c);
    } else {
      match e
      case Register(_, fail) => RegisterSignals(cfg, s, c, fail);
      case ClientSubscribe(_, ch, fail) => SubscribeConns(s, c, ch, fail);
      case _ =>
    }
  }

  /** A signal once posted stays on record: later ones come after it. */
  lemma {:induction false} SignalsGrow<C>(cfg: Config, s: System<C>, run: seq<Action<C>>, c: C)
    requires IsRun(cfg, s, run) && c in s.hub.conns
    ensures c in After(cfg, s, run).hub.conns
    ensures s.hub.conns[c].hist.signals <= After(cfg, s, run).hub.conns[c].hist.signals
    decreases |run|
  {
    if |run| > 0 {
      if run[0].HubServes? { ServedSignals(cfg, s.hub, run[0].e, c); }
      SignalsGrow(cfg, Act(cfg, s, run[0]), run[1..], c);
    }
  }

  lemma OneStep<C>(cfg: Config, s: System<C>, a: Action<C>)
    requires Possible(s, a)
    ensures IsRun(cfg, s, [a]) && After(cfg, s, [a]) == Act(cfg, s, a)
  {
    var run: seq<Action<C>> := [a];
    assert run[1..] == [];
  }

  lemma {:induction false} RunAppend<C>(cfg: Config, s: System<C>, past: seq<Action<C>>, future: seq<Action<C>>)
    requires IsRun(cfg, s, past) && IsRun(cfg, After(cfg, s, past), future)
    ensures IsRun(cfg, s, past + future)
    ensures After(cfg, s, past + future) == After(cfg, After(cfg, s, past), future)
    decreases |past|
  {
    if |past| == 0 {
      assert past + future == future;
    } else {
      RunAppend(cfg, Act(cfg, s, past[0]), past[1..], future);
      assert (past + future)[0] == past[0] && (past + future)[1..] == past[1..] + future;
    }
  }

  /** The first reason the hub ever posted to a connection decides, in every future: as long as the
      pump runs that reason waits for it, and no other is acted on. */
  lemma FirstReasonDecides<C>(cfg: Config, past: seq<Action<C>>, c: C, future: seq<Action<C>>)
    requires IsRun(cfg, Start(), past) && c in After(cfg, Start(), past).hub.conns
    requires After(cfg, Start(), past).hub.conns[c].hist.signals != []
    requires IsRun(cfg, After(cfg, Start(), past), future)
    ensures var s := After(cfg, Start(), past);
            var t := After(cfg, s, future);
            && c in t.hub.conns && c in t.pumps
            && var k, p, first := t.hub.conns[c], t.pumps[c], s.hub.conns[c].hist.signals[0];
               && (p.running ==> k.mailbox == Some(first) && Possible(t, PumpWakes(c, OnSignal)))
               && (p.acted.Some? ==> !p.running && p.acted.value == first)
  {
    var s := After(cfg, Start(), past);
    SignalsGrow(cfg, s, future, c);
    RunAppend(cfg, Start(), past, future);
    FirstSignalWins(cfg, past + future, c);
  }

  /** A pump that stopped writes nothing and acts on nothing, whatever happens next. */
  lemma {:induction false} StoppedForGood<C>(cfg: Config, s: System<C>, run: seq<Action<C>>, c: C)
    requires IsRun(cfg, s, run) && c in s.hub.conns && c in s.pumps && !s.pumps[c].running
    ensures c in After(cfg, s, run).pumps && After(cfg, s, run).pumps[c] == s.pumps[c]
    decreases |run|
  {
    if |run| > 0 {
      var t := Act(cfg, s, run[0]);
      if run[0].HubServes? {
        ServesKeys(cfg, s.hub, run[0].e);
      } else if run[0].HubReceives? {
        assert t.hub.conns.Keys == s.hub.conns.Keys;
      }
      StoppedForGood(cfg, t, run[1..], c);
    }
  }

  lemma GoneServed<C>(cfg: Config, s: State<C>, e: Event<C>, c: C)
    requires Enabled(s, e) && !e.Incoming? && Gone(s, c)
    ensures Gone(Step(cfg, s, e), c) && Step(cfg, s, e).conns[c] == s.conns[c]
  {
    if !Concerns(e, c) { OthersUntouched(cfg, s, e, c); }
  }

  lemma GoneIncoming<C>(s: State<C>, msg: Message, c: C)
    requires Indexed(s) && Gone(s, c)
    ensures Gone(HandleIncoming(s, msg), c) && HandleIncoming(s, msg).conns[c] == s.conns[c]
  {
    assert c !in Members(s.channels, msg.channel);
  }

  lemma GoneStep<C>(cfg: Config, s: System<C>, a: Action<C>, c: C)
    requires Sound(cfg, s) && Possible(s, a) && Gone(s.hub, c)
    ensures var t := Act(cfg, s, a);
            && Gone(t.hub, c) && c in t.pumps
            && t.hub.conns[c].hist == s.hub.conns[c].hist && t.hub.conns[c].closes == s.hub.conns[c].closes
            && t.pumps[c].taken + t.hub.conns[c].send == s.pumps[c].taken + s.hub.conns[c].send
  {
    match a
    case HubServes(_) => GoneServed(cfg, s.hub, a.e, c);
    case HubReceives => GoneIncoming(s.hub, s.incoming[0], c);
    case PumpWakes(d, w) =>
      assert ConnOk(s.hub.conns[d], s.pumps[d], d in s.hub.pending, d in s.hub.clients);
      WakeOk(s.hub.conns[d], s.pumps[d], w, d in s.hub.pending, d in s.hub.clients);
    case _ =>
  }

  /** Once the hub turned a connection away or removed it, it posts no further signal to it and
      queues no further frame, in any continuation. */
  lemma {:induction false} GoneForGood<C>(cfg: Config, s: System<C>, run: seq<Action<C>>, c: C)
    requires Sound(cfg, s) && IsRun(cfg, s, run) && Gone(s.hub, c)
    ensures var t := After(cfg, s, run);
            && Gone(t.hub, c) && c in t.pumps
            && t.hub.conns[c].hist == s.hub.conns[c].hist && t.hub.conns[c].closes == s.hub.conns[c].closes
            && t.pumps[c].taken + t.hub.conns[c].send == s.pumps[c].taken + s.hub.conns[c].send
    decreases |run|
  {
    if |run| > 0 {
      GoneStep(cfg, s, run[0], c);
      ActSound(cfg, s, run[0]);
      GoneForGood(cfg, Act(cfg, s, run[0]), run[1..], c);
    }
  }

  lemma UnregisterServes<C>(s: State<C>, c: C, fail: set<string>)
    requires Indexed(s) && c in s.conns
    ensures var t := HandleUnregister(s, c, fail);
            && (c in s.pending ==> t == s.(posts := s.posts - multiset{c}))
            && (c !in s.pending ==> Gone(t, c))
  {
  }

  /** A read pump that ends posts an unregister request to have the hub clean up. Serving it removes the
      connection, for good, exactly when its registration has been served before; otherwise the request
      is used up and nothing else happens. */
  lemma UnregisterRemovesExactlyWhen<C>(cfg: Config, past: seq<Action<C>>, c: C, fail: set<string>, future: seq<Action<C>>)
    requires IsRun(cfg, Start(), past) && Possible(After(cfg, Start(), past), HubServes(Unregister(c, fail)))
    requires IsRun(cfg, Act(cfg, After(cfg, Start(), past), HubServes(Unregister(c, fail))), future)
    ensures var s := After(cfg, Start(), past).hub;
            var t := Act(cfg, After(cfg, Start(), past), HubServes(Unregister(c, fail)));
            && (Gone(t.hub, c) <==> c !in s.pending)
            && (c !in s.pending ==> Gone(After(cfg, t, future).hub, c))
            && (c in s.pending ==> t.hub == s.(posts := s.posts - multiset{c}))
  {
    EveryRunSound(cfg, past);
    var s := After(cfg, Start(), past);
    UnregisterServes(s.hub, c, fail);
    if c !in s.hub.pending {
      ActSound(cfg, s, HubServes(Unregister(c, fail)));
      GoneForGood(cfg, Act(cfg, s, HubServes(Unregister(c, fail))), future, c);
    }
  }

  /** The other case exists: select serves the unregister request first. The connection ends up
      registered, and nothing that would remove it is under way. */
  lemma UnregisterOvertakes<C>(cfg: Config, c: C, u: int, key: string)
    requires cfg.maxTotal <= 0 && cfg.maxPerUser <= 0
    ensures var s0 := Step(cfg, Init(), PostRegister(c, u, key, {}));
            var s1 := Step(cfg, s0, PostUnregister(c));
            && Enabled(s1, Unregister(c, {})) && Enabled(s1, Register(c, {}))
            && var s2 := Step(cfg, s1, Unregister(c, {}));
               && Enabled(s2, Register(c, {}))
               && var s3 := Step(cfg, s2, Register(c, {}));
                  && c in s3.clients && s3.posts == multiset{} && s3.pending == {}
  {
  }

  lemma RefusedServed<C>(cfg: Config, s: State<C>, c: C, fail: set<string>)
    requires c in s.conns && c !in HandleRegister(cfg, s, c, fail).clients
    ensures var t := HandleRegister(cfg, s, c, fail);
            Gone(t, c) && t.conns[c].closes == s.conns[c].closes
  {
  }

  lemma RefusedIsGone<C>(cfg: Config, s: System<C>, c: C, fail: set<string>)
    requires Sound(cfg, s) && Possible(s, HubServes(Register(c, fail)))
    requires c !in HandleRegister(cfg, s.hub, c, fail).clients
    ensures var t := Act(cfg, s, HubServes(Register(c, fail)));
            Sound(cfg, t) && Gone(t.hub, c) && t.hub.conns[c].closes == 0
  {
    ActSound(cfg, s, HubServes(Register(c, fail)));
    assert ConnOk(s.hub.conns[c], s.pumps[c], true, false);
    RefusedServed(cfg, s.hub, c, fail);
  }

  lemma TurnedAwayAtAnyTime<C>(cfg: Config, s: System<C>, c: C)
    requires Sound(cfg, s) && Gone(s.hub, c) && s.hub.conns[c].closes == 0
    ensures c in s.pumps && TurnedAway(s.hub.conns[c], s.pumps[c]) && FirstSignal(s.hub.conns[c], s.pumps[c])
  {
  }

  /** A connection refused by a cap: the one signal it is ever sent is 4429, that is the only
      signal its pump can act on, and it never gets a frame. */
  lemma RefusedOnlyGets4429<C>(cfg: Config, past: seq<Action<C>>, c: C, fail: set<string>, future: seq<Action<C>>)
    requires IsRun(cfg, Start(), past)
    requires Possible(After(cfg, Start(), past), HubServes(Register(c, fail)))
    requires c !in HandleRegister(cfg, After(cfg, Start(), past).hub, c, fail).clients
    requires IsRun(cfg, Act(cfg, After(cfg, Start(), past), HubServes(Register(c, fail))), future)
    ensures var t := After(cfg, Act(cfg, After(cfg, Start(), past), HubServes(Register(c, fail))), future);
            && c in t.hub.conns && c in t.pumps && c !in t.hub.clients
            && |t.hub.conns[c].hist.signals| == 1 && t.hub.conns[c].hist.signals[0].code == TOO_MANY_CONNECTIONS
            && (t.pumps[c].acted.Some? ==> t.pumps[c].acted.value.code == TOO_MANY_CONNECTIONS)
            && t.pumps[c].taken + t.hub.conns[c].send == []
  {
    EveryRunSound(cfg, past);
    var s := After(cfg, Start(), past);
    RefusedIsGone(cfg, s, c, fail);
    var t0 := Act(cfg, s, HubServes(Register(c, fail)));
    RunSound(cfg, t0, future);
    GoneForGood(cfg, t0, future, c);
    TurnedAwayAtAnyTime(cfg, After(cfg, t0, future), c);
  }

  // ---- Identity ----

  ghost predicate SameIdentity(k: Conn, k': Conn) {
    k.userID == k'.userID && k.sessionKey == k'.sessionKey && k.allowed == k'.allowed
  }

  lemma RegisterIdentity<C>(cfg: Config, s: State<C>, c: C, fail: set<string>)
    requires c in s.conns
    ensures c in HandleRegister(cfg, s, c, fail).conns
    ensures SameIdentity(s.conns[c], HandleRegister(cfg, s, c, fail).conns[c])
  {
    var s1, k := s.(pending := s.pending - {c}), s.conns[c];
    if !OverTotal(cfg, s1) && !OverUser(cfg, s1, k.userID) { Admitted(s1, c, fail); }
  }

  lemma SubscribeIdentity<C>(s: State<C>, c: C, ch: string, fail: set<string>)
    requires c in s.conns
    ensures c in HandleSubscribe(s, c, ch, fail).conns
    ensures SameIdentity(s.conns[c], HandleSubscribe(s, c, ch, fail).conns[c])
  {
    SubscribeConns(s, c, ch, fail);
  }

  lemma IdentityServed<C>(cfg: Config, s: State<C>, e: Event<C>, c: C)
    requires Enabled(s, e) && !e.Incoming? && c in s.conns
    ensures c in Step(cfg, s, e).conns && SameIdentity(s.conns[c], Step(cfg, s, e).conns[c])
  {
    if !Concerns(e, c) {
      OthersUntouched(cfg, s, e, c);
    } else {
      match e
      case Register(_, fail) => RegisterIdentity(cfg, s, c, fail);
      case ClientSubscribe(_, ch, fail) => SubscribeIdentity(s, c, ch, fail);
      case _ =>
    }
  }

  lemma IdentityStep<C>(cfg: Config, s: System<C>, a: Action<C>, c: C)
    requires Possible(s, a) && c in s.hub.conns
    ensures c in Act(cfg, s, a).hub.conns && SameIdentity(s.hub.conns[c], Act(cfg, s, a).hub.conns[c])
  {
    if a.HubServes? { IdentityServed(cfg, s.hub, a.e, c); }
  }

  /** User, session and allow-list are those given when the connection was accepted. */
  lemma {:induction false} IdentityFixed<C>(cfg: Config, s: System<C>, run: seq<Action<C>>, c: C)
    requires IsRun(cfg, s, run) && c in s.hub.conns
    ensures c in After(cfg, s, run).hub.conns && SameIdentity(s.hub.conns[c], After(cfg, s, run).hub.conns[c])
    decreases |run|
  {
    if |run| > 0 {
      IdentityStep(cfg, s, run[0], c);
      IdentityFixed(cfg, Act(cfg, s, run[0]), run[1..], c);
    }
  }

  // ---- The hub as a relation, over whole runs ----

  /** The relation after a run: only the requests the hub served and who was accepted matter. */
  ghost function RelRun<C>(cfg: Config, r: Rel<C>, who: map<C, Conn>, run: seq<Action<C>>): Rel<C>
    decreases |run|
  {
    if |run| == 0 then r
    else
      match run[0]
      case HubServes(PostRegister(c, u, key, allowed)) =>
        RelRun(cfg, r, who[c := Fresh(u, key, allowed)], run[1..])
      case HubServes(e) => RelRun(cfg, RelStep(cfg, r, who, e), who, run[1..])
      case _ => RelRun(cfg, r, who, run[1..])
  }

  ghost predicate SameWho<C>(who: map<C, Conn>, conns: map<C, Conn>) {
    who.Keys == conns.Keys && forall c | c in who :: SameIdentity(who[c], conns[c])
  }

  lemma RelStepSameWho<C>(cfg: Config, r: Rel<C>, who: map<C, Conn>, conns: map<C, Conn>, e: Event<C>)
    requires SameWho(who, conns)
    ensures RelStep(cfg, r, who, e) == RelStep(cfg, r, conns, e)
  {
    forall u ensures OfUser(r, who, u) == OfUser(r, conns, u) {
    }
  }

  lemma IncomingSameIndex<C>(s: State<C>, msg: Message)
    ensures SameIndex(s, HandleIncoming(s, msg))
  {
  }

  lemma OtherActionsSameIndex<C>(cfg: Config, s: System<C>, a: Action<C>)
    requires Possible(s, a) && !a.HubServes?
    ensures SameIndex(s.hub, Act(cfg, s, a).hub)
  {
    if a.HubReceives? { IncomingSameIndex(s.hub, s.incoming[0]); }
  }

  /** The relation changes only with a request. */
  lemma OtherActionsKeepRelation<C>(cfg: Config, s: System<C>, a: Action<C>)
    requires Indexed(s.hub) && Possible(s, a) && !a.HubServes?
    ensures Indexed(Act(cfg, s, a).hub) && Abs(Act(cfg, s, a).hub) == Abs(s.hub)
    ensures Act(cfg, s, a).hub.conns.Keys == s.hub.conns.Keys
  {
    OtherActionsSameIndex(cfg, s, a);
    SameIndexIndexed(s.hub, Act(cfg, s, a).hub);
    AbsSame(s.hub, Act(cfg, s, a).hub);
  }

  lemma {:induction false} RelRunMatches<C>(cfg: Config, s: System<C>, who: map<C, Conn>, run: seq<Action<C>>)
    requires Indexed(s.hub) && IsRun(cfg, s, run) && SameWho(who, s.hub.conns)
    ensures Indexed(After(cfg, s, run).hub)
    ensures Abs(After(cfg, s, run).hub) == RelRun(cfg, Abs(s.hub), who, run)
    decreases |run|
  {
    if |run| > 0 {
      var a, t := run[0], Act(cfg, s, run[0]);
      forall c | c in s.hub.conns ensures c in t.hub.conns && SameIdentity(s.hub.conns[c], t.hub.conns[c]) {
        IdentityStep(cfg, s, a, c);
      }
      if a.HubServes? {
        StepRefines(cfg, s.hub, a.e);
        ServesKeys(cfg, s.hub, a.e);
        RelStepSameWho(cfg, Abs(s.hub), who, s.hub.conns, a.e);
        var who' := if a.e.PostRegister? then who[a.e.c := Fresh(a.e.userID, a.e.sessionKey, a.e.allowed)] else who;
        RelRunMatches(cfg, t, who', run[1..]);
      } else {
        OtherActionsKeepRelation(cfg, s, a);
        RelRunMatches(cfg, t, who, run[1..]);
      }
    }
  }

  /** After every run the hub's maps are those of the relation that the requests served so far
      define: its clients, the members of each channel, and no channel without members. */
  lemma HubIsRelation<C>(cfg: Config, run: seq<Action<C>>, ch: string)
    requires IsRun(cfg, Start(), run)
    ensures var s, r := After(cfg, Start(), run).hub, RelRun(cfg, Rel({}, {}), map[], run);
            && s.clients == r.registered
            && Members(s.channels, ch) == OnChannel(r, ch)
            && (ch in s.channels <==> OnChannel(r, ch) != {})
            && (forall c | c in s.clients :: c in s.conns &&
                  (ch in s.conns[c].subscribed <==> (c, ch) in r.on))
            && (forall u :: Members(s.userClients, u) == OfUser(r, s.conns, u))
  {
    var start: System<C> := Start();
    assert Abs(start.hub) == Rel({}, {});
    RelRunMatches(cfg, start, map[], run);
    IndexesFromRelation(After(cfg, start, run).hub);
  }

  // ---- Allow-list, over whole runs ----

  /** From acceptance on, every frame ever queued for a connection is an error frame or a message
      on a well-formed, unreserved channel of the allow-list it was accepted with. */
  lemma AllowListSafety<C>(cfg: Config, before: System<C>, c: C, u: int, key: string, allowed: set<string>, run: seq<Action<C>>)
    requires Sound(cfg, before) && c !in before.hub.conns
    requires IsRun(cfg, Act(cfg, before, HubServes(PostRegister(c, u, key, allowed))), run)
    ensures var s := After(cfg, Act(cfg, before, HubServes(PostRegister(c, u, key, allowed))), run);
            && c in s.hub.conns && c in s.pumps
            && forall f | f in s.pumps[c].taken + s.hub.conns[c].send ::
                 f.Error? || (f.msg.channel in allowed && ValidName(f.msg.channel) && !Reserved(f.msg.channel))
  {
    var first := HubServes(PostRegister(c, u, key, allowed));
    ActSound(cfg, before, first);
    RunSound(cfg, Act(cfg, before, first), run);
    IdentityFixed(cfg, Act(cfg, before, first), run, c);
    var s := After(cfg, Act(cfg, before, first), run);
    assert ConnOk(s.hub.conns[c], s.pumps[c], c in s.hub.pending, c in s.hub.clients);
  }

  // ---- Caps ----

  /** Caps and conservation, in every run. */
  lemma CapsAndTotals<C>(cfg: Config, run: seq<Action<C>>)
    requires IsRun(cfg, Start(), run)
    ensures var s := After(cfg, Start(), run).hub;
            && s.clients <= s.conns.Keys
            && (cfg.maxTotal > 0 ==> |s.clients| <= cfg.maxTotal)
            && (cfg.maxPerUser > 0 ==> forall u :: |Members(s.userClients, u)| <= cfg.maxPerUser)
            && Total(s.channels) == Total(SubscribedBy(s))
            && Total(s.userClients) == |s.clients|
  {
    EveryRunSound(cfg, run);
    DoubleCounting(After(cfg, Start(), run).hub);
  }
}
