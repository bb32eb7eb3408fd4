/** Every action of the gateway keeps `Sound`, so every run does. */
module SystemInvariant {
  import opened ChannelNames
  import opened HubModel
  import opened HubInvariant
  import opened GatewaySystem

  // ---- Requests served by the hub touch one connection ----

  ghost predicate Concerns<C>(e: Event<C>, c: C) {
    match e
    case Incoming(_) => false
    case CloseManager => false
    case _ => e.c == c
  }

  ghost predicate SameStanding<C>(s: State<C>, t: State<C>, d: C) {
    && (d in s.conns <==> d in t.conns)
    && (d in s.conns ==> t.conns[d] == s.conns[d])
    && (d in t.clients <==> d in s.clients) && (d in t.pending <==> d in s.pending)
    && (d in s.posts ==> d in t.posts)
  }

  lemma DeliverOneFrame<C>(s: State<C>, c: C, f: Frame)
    requires c in s.conns
    ensures Deliver(s, {c}, f).conns == s.conns[c := Push(s.conns[c], f)]
    ensures c in Deliver(s, {c}, f).posts <==> c in s.posts || Full(s.conns[c])
    ensures forall d | d in s.conns && d != c :: SameStanding(s, Deliver(s, {c}, f), d)
  {
  }

  function Answered(k: Conn, ch: string): Conn {
    if !ValidName(ch) || Reserved(ch) then Push(k, Error(ch, "invalid_channel"))
    else if ch !in k.allowed then Push(k, Error(ch, "forbidden"))
    else k.(subscribed := k.subscribed + {ch})
  }

  lemma SubscribeConns<C>(s: State<C>, c: C, ch: string, fail: set<string>)
    requires c in s.conns
    ensures var t := HandleSubscribe(s, c, ch, fail);
            && t.clients == s.clients && t.pending == s.pending
            && t.conns == if c in s.clients then s.conns[c := Answered(s.conns[c], ch)] else s.conns
  {
    if c !in s.clients {
    } else if !ValidName(ch) || Reserved(ch) {
      DeliverOneFrame(s, c, Error(ch, "invalid_channel"));
    } else if ch !in s.conns[c].allowed {
      DeliverOneFrame(s, c, Error(ch, "forbidden"));
    } else if ch in s.conns[c].subscribed {
      assert s.conns[c].subscribed + {ch} == s.conns[c].subscribed;
      assert s.conns[c := s.conns[c]] == s.conns;
    }
  }

  lemma SubscribeOthers<C>(s: State<C>, c: C, ch: string, fail: set<string>, d: C)
    requires c in s.conns && d in s.conns && c != d
    ensures SameStanding(s, HandleSubscribe(s, c, ch, fail), d)
  {
  }

  /** Registration leaves the connection on its two control channels. */
  lemma Admitted<C>(s: State<C>, c: C, fail: set<string>)
    requires c in s.conns
    ensures var k := s.conns[c];
            var t := AddSubscription(AddSubscription(Join(s, c), c, SessionChannel(k.sessionKey), fail), c, UserChannel(k.userID), fail);
            && t.conns == s.conns[c := k.(subscribed := k.subscribed + {SessionChannel(k.sessionKey), UserChannel(k.userID)})]
            && t.clients == s.clients + {c} && t.pending == s.pending && t.posts == s.posts
  {
    var k := s.conns[c];
    var own := {SessionChannel(k.sessionKey), UserChannel(k.userID)};
    var a := AddSubscription(Join(s, c), c, SessionChannel(k.sessionKey), fail);
    assert a.conns[c].subscribed == k.subscribed + {SessionChannel(k.sessionKey)};
    var t := AddSubscription(a, c, UserChannel(k.userID), fail);
    assert t.conns[c].subscribed == k.subscribed + own;
    assert t.conns == s.conns[c := k.(subscribed := k.subscribed + own)];
  }

  lemma UnregisterOthers<C>(s: State<C>, c: C, fail: set<string>, d: C)
    requires c in s.conns && d in s.conns && c != d
    ensures SameStanding(s, HandleUnregister(s, c, fail), d)
  {
  }

  lemma UnsubscribeOthers<C>(s: State<C>, c: C, ch: string, fail: set<string>, d: C)
    requires c in s.conns && d in s.conns && c != d
    ensures SameStanding(s, HandleUnsubscribe(s, c, ch, fail), d)
  {
  }

  lemma OthersUntouched<C>(cfg: Config, s: State<C>, e: Event<C>, d: C)
    requires Enabled(s, e) && !e.Incoming? && !Concerns(e, d) && d in s.conns
    ensures SameStanding(s, Step(cfg, s, e), d)
  {
    match e
    case Unregister(c, fail) => UnregisterOthers(s, c, fail, d);
    case ClientSubscribe(c, ch, fail) => SubscribeOthers(s, c, ch, fail, d);
    case ClientUnsubscribe(c, ch, fail) => UnsubscribeOthers(s, c, ch, fail, d);
    case Register(c, fail) =>
      var s1, k := s.(pending := s.pending - {c}), s.conns[c];
      if !OverTotal(cfg, s1) && !OverUser(cfg, s1, k.userID) { Admitted(s1, c, fail); }
    case _ =>
  }

  /** What a request does to the connection it names. */
  ghost predicate ServedWell<C>(s: State<C>, t: State<C>, c: C, p: Pump) {
    && c in s.conns && c in t.conns
    && ConnOk(t.conns[c], p, c in t.pending, c in t.clients)
    && DataOf(p.taken + t.conns[c].send) == DataOf(p.taken + s.conns[c].send)
    && t.conns[c].hist.lost == s.conns[c].hist.lost
    && (t.conns[c].closes > 0 || (c in t.clients && c in t.posts)
        <== s.conns[c].closes > 0 || (c in s.clients && c in s.posts))
  }

  lemma RegisterServed<C>(cfg: Config, s: State<C>, c: C, fail: set<string>, p: Pump)
    requires c in s.conns && c in s.pending && c !in s.clients
    requires ConnOk(s.conns[c], p, true, false)
    ensures ServedWell(s, HandleRegister(cfg, s, c, fail), c, p)
  {
    var s1, k := s.(pending := s.pending - {c}), s.conns[c];
    if OverTotal(cfg, s1) {
      RefuseOk(k, p, "max_connections_total");
    } else if OverUser(cfg, s1, k.userID) {
      RefuseOk(k, p, "max_connections_per_user");
    } else {
      Admitted(s1, c, fail);
      assert k.subscribed + {SessionChannel(k.sessionKey), UserChannel(k.userID)}
          == {SessionChannel(k.sessionKey), UserChannel(k.userID)};
      AdmitOk(k, p);
    }
  }

  lemma UnregisterServed<C>(s: State<C>, c: C, fail: set<string>, p: Pump)
    requires c in s.conns && ConnOk(s.conns[c], p, c in s.pending, c in s.clients)
    ensures ServedWell(s, HandleUnregister(s, c, fail), c, p)
  {
  }

  lemma ErrorServed<C>(s: State<C>, c: C, f: Frame, p: Pump)
    requires c in s.conns && c in s.clients && c !in s.pending && ConnOk(s.conns[c], p, false, true) && f.Error?
    ensures ServedWell(s, Deliver(s, {c}, f), c, p)
  {
    var k := s.conns[c];
    DeliverOneFrame(s, c, f);
    PushOk(k, p, f);
    assert p.taken + (k.send + [f]) == (p.taken + k.send) + [f];
    DataOfSnoc(p.taken + k.send, f);
  }

  lemma SubscribeServed<C>(s: State<C>, c: C, ch: string, fail: set<string>, p: Pump)
    requires c in s.conns && ConnOk(s.conns[c], p, c in s.pending, c in s.clients)
    ensures ServedWell(s, HandleSubscribe(s, c, ch, fail), c, p)
  {
    if c !in s.clients {
    } else if !ValidName(ch) || Reserved(ch) {
      ErrorServed(s, c, Error(ch, "invalid_channel"), p);
    } else if ch !in s.conns[c].allowed {
      ErrorServed(s, c, Error(ch, "forbidden"), p);
    } else {
      SubscribeOk(s.conns[c], p, ch);
      if ch in s.conns[c].subscribed {
        assert s.conns[c].subscribed + {ch} == s.conns[c].subscribed;
      }
    }
  }

  lemma UnsubscribeServed<C>(s: State<C>, c: C, ch: string, fail: set<string>, p: Pump)
    requires c in s.conns && ConnOk(s.conns[c], p, c in s.pending, c in s.clients)
    ensures ServedWell(s, HandleUnsubscribe(s, c, ch, fail), c, p)
  {
  }

  lemma NamedServed<C>(cfg: Config, s: State<C>, e: Event<C>, c: C, p: Pump)
    requires Enabled(s, e) && Concerns(e, c) && !e.PostRegister?
    requires ConnOk(s.conns[c], p, c in s.pending, c in s.clients)
    ensures ServedWell(s, Step(cfg, s, e), c, p)
  {
    match e
    case Register(_, fail) => RegisterServed(cfg, s, c, fail, p);
    case Unregister(_, fail) => UnregisterServed(s, c, fail, p);
    case ClientSubscribe(_, ch, fail) => SubscribeServed(s, c, ch, fail, p);
    case ClientUnsubscribe(_, ch, fail) => UnsubscribeServed(s, c, ch, fail, p);
    case _ =>
  }

  lemma RegisterKeys<C>(cfg: Config, s: State<C>, c: C, fail: set<string>)
    requires c in s.conns
    ensures HandleRegister(cfg, s, c, fail).conns.Keys == s.conns.Keys
  {
  }

  lemma ServesKeys<C>(cfg: Config, s: State<C>, e: Event<C>)
    requires Enabled(s, e) && !e.Incoming?
    ensures Step(cfg, s, e).conns.Keys == if e.PostRegister? then s.conns.Keys + {e.c} else s.conns.Keys
  {
    match e
    case Register(c, fail) => RegisterKeys(cfg, s, c, fail);
    case ClientSubscribe(c, ch, fail) => SubscribeConns(s, c, ch, fail);
    case _ =>
  }

  lemma {:induction false} NeverRouted<C>(processed: seq<Message>, audience: seq<set<C>>, c: C, lost: set<nat>)
    requires |audience| == |processed|
    requires forall i | 0 <= i < |audience| :: c !in audience[i]
    ensures Kept(processed, audience, c, lost) == []
  {
    if |processed| > 0 {
      NeverRouted(processed[..|processed| - 1], audience[..|processed| - 1], c, lost);
    }
  }

  lemma ServedConn<C>(cfg: Config, s: System<C>, e: Event<C>, c: C)
    requires Sound(cfg, s) && Possible(s, HubServes(e)) && c in s.hub.conns
    ensures var t := Act(cfg, s, HubServes(e));
            && c in t.hub.conns && c in t.pumps
            && ConnOk(t.hub.conns[c], t.pumps[c], c in t.hub.pending, c in t.hub.clients)
            && Accounted(t, c)
  {
    var t := Act(cfg, s, HubServes(e));
    assert t.pumps[c] == s.pumps[c];
    assert ConnOk(s.hub.conns[c], s.pumps[c], c in s.hub.pending, c in s.hub.clients) && Accounted(s, c);
    if Concerns(e, c) {
      NamedServed(cfg, s.hub, e, c, s.pumps[c]);
    } else {
      OthersUntouched(cfg, s.hub, e, c);
    }
  }

  lemma Newcomer<C>(cfg: Config, s: System<C>, e: Event<C>)
    requires Sound(cfg, s) && Possible(s, HubServes(e)) && e.PostRegister?
    ensures var t := Act(cfg, s, HubServes(e));
            && ConnOk(t.hub.conns[e.c], t.pumps[e.c], e.c in t.hub.pending, e.c in t.hub.clients)
            && Accounted(t, e.c)
  {
    NeverRouted(s.processed, s.audience, e.c, {});
  }

  lemma ServesSound<C>(cfg: Config, s: System<C>, e: Event<C>)
    requires Sound(cfg, s) && Possible(s, HubServes(e))
    ensures Sound(cfg, Act(cfg, s, HubServes(e)))
  {
    var t := Act(cfg, s, HubServes(e));
    StepIndexed(cfg, s.hub, e);
    StepCounts(cfg, s.hub, e);
    StepCapped(cfg, s.hub, e);
    ServesKeys(cfg, s.hub, e);
    assert Streams(t);
    forall c | c in t.hub.conns
      ensures ConnOk(t.hub.conns[c], t.pumps[c], c in t.hub.pending, c in t.hub.clients)
      ensures Accounted(t, c)
    {
      if e.PostRegister? && e.c == c {
        Newcomer(cfg, s, e);
      } else {
        ServedConn(cfg, s, e, c);
      }
    }
  }

  // ---- A message served by the hub ----

  lemma MessageConn<C>(s: System<C>, k: Conn, c: C, msg: Message)
    requires Indexed(s.hub) && Streams(s) && c in s.hub.conns && k == s.hub.conns[c]
    requires ConnOk(k, s.pumps[c], c in s.hub.pending, c in s.hub.clients)
    ensures var t := HandleIncoming(s.hub, msg);
            c in t.conns && ConnOk(t.conns[c], s.pumps[c], c in t.pending, c in t.clients)
  {
    if c in Members(s.hub.channels, msg.channel) {
      assert c in s.hub.clients;
      assert msg.channel in k.subscribed <==> c in Members(s.hub.channels, msg.channel);
      ControlNames(k.sessionKey, k.sessionKey, k.userID, k.userID);
      if !Reserved(msg.channel) {
        PushOk(k, s.pumps[c], Data(msg));
      } else {
        SignalOk(k, s.pumps[c], Reason(SESSION_REVOKED, "session_revoked"));
      }
    }
  }

  lemma KeptSnoc<C>(processed: seq<Message>, audience: seq<set<C>>, msg: Message, to: set<C>, c: C, lost: set<nat>)
    requires |audience| == |processed|
    ensures Kept(processed + [msg], audience + [to], c, lost) ==
            Kept(processed, audience, c, lost) +
            if c in to && !Reserved(msg.channel) && msg.seqNo !in lost then [msg] else []
  {
  }

  /** One more message: queued, lost, or not for `c`. */
  lemma KeptNext<C>(processed: seq<Message>, audience: seq<set<C>>, msg: Message, to: set<C>, c: C, k: Conn, taken: seq<Frame>)
    requires |audience| == |processed| == msg.seqNo
    requires forall i | 0 <= i < |processed| :: processed[i].seqNo == i
    requires DataOf(taken + k.send) == Kept(processed, audience, c, k.hist.lost)
    requires forall i | i in k.hist.lost :: i < |processed|
    requires k.closes == 0
    ensures var k' := if !Reserved(msg.channel) && c in to then Push(k, Data(msg)) else k;
            DataOf(taken + k'.send) == Kept(processed + [msg], audience + [to], c, k'.hist.lost)
  {
    var lost := k.hist.lost;
    KeptSnoc(processed, audience, msg, to, c, lost);
    if !Reserved(msg.channel) && c in to {
      KeptSnoc(processed, audience, msg, to, c, lost + {msg.seqNo});
      KeptIgnores(processed, audience, c, lost, msg.seqNo);
      assert taken + (k.send + [Data(msg)]) == (taken + k.send) + [Data(msg)];
      DataOfSnoc(taken + k.send, Data(msg));
    }
  }

  lemma SeqNos<C>(s: System<C>)
    requires Streams(s) && |s.incoming| > 0
    ensures forall i | 0 <= i < |s.processed| :: s.processed[i].seqNo == i
    ensures s.incoming[0].seqNo == |s.processed|
  {
    forall i | 0 <= i < |s.processed| ensures s.processed[i].seqNo == i {
      assert s.arrived[i] == s.processed[i];
    }
    assert s.arrived[|s.processed|] == s.incoming[0];
  }

  lemma RoutedSnoc<C>(processed: seq<Message>, audience: seq<set<C>>, msg: Message, to: set<C>, c: C, lost: set<nat>)
    requires |audience| == |processed|
    requires forall i | i in lost :: i < |processed| && Routed(processed, audience, c, i)
    ensures forall i | i in lost :: i < |processed + [msg]| && Routed(processed + [msg], audience + [to], c, i)
  {
  }

  /** A message that is not forwarded to `c` leaves its frames alone. */
  lemma PassedOver<C>(cfg: Config, s: System<C>, c: C)
    requires Streams(s) && |s.incoming| > 0 && c in s.hub.conns && Accounted(s, c)
    requires Reserved(s.incoming[0].channel) || c !in Members(s.hub.channels, s.incoming[0].channel)
    ensures var t := Act(cfg, s, HubReceives);
            c in t.hub.conns && |t.audience| == |t.processed| && Accounted(t, c)
  {
    var t, msg, lost := Act(cfg, s, HubReceives), s.incoming[0], s.hub.conns[c].hist.lost;
    var to := Members(s.hub.channels, msg.channel);
    assert t.hub.conns[c].send == s.hub.conns[c].send && t.hub.conns[c].hist.lost == lost;
    assert t.hub.clients == s.hub.clients && (c in s.hub.posts ==> c in t.hub.posts);
    KeptSnoc(s.processed, s.audience, msg, to, c, lost);
    RoutedSnoc(s.processed, s.audience, msg, to, c, lost);
  }

  lemma Forwarded<C>(cfg: Config, s: System<C>, c: C)
    requires Streams(s) && |s.incoming| > 0 && c in s.hub.conns && Accounted(s, c)
    requires !Reserved(s.incoming[0].channel) && c in Members(s.hub.channels, s.incoming[0].channel)
    requires s.hub.conns[c].closes == 0 && c in s.hub.clients
    ensures var t := Act(cfg, s, HubReceives);
            c in t.hub.conns && |t.audience| == |t.processed| && Accounted(t, c)
  {
    var t, msg, k, p := Act(cfg, s, HubReceives), s.incoming[0], s.hub.conns[c], s.pumps[c];
    var to := Members(s.hub.channels, msg.channel);
    SeqNos(s);
    KeptNext(s.processed, s.audience, msg, to, c, k, p.taken);
    RoutedSnoc(s.processed, s.audience, msg, to, c, k.hist.lost);
    assert t.hub.conns[c] == Push(k, Data(msg));
    assert Routed(t.processed, t.audience, c, |s.processed|);
    if Full(k) {
      assert c in FullOnes(s.hub.conns, to);
      assert c in t.hub.posts;
    } else {
      assert t.hub.conns[c].hist.lost == k.hist.lost;
    }
  }

  lemma ReceivesStreams<C>(cfg: Config, s: System<C>)
    requires Indexed(s.hub) && Streams(s) && |s.incoming| > 0
    ensures Streams(Act(cfg, s, HubReceives))
    ensures Act(cfg, s, HubReceives).hub.conns.Keys == s.hub.conns.Keys
  {
  }

  lemma ReceivesSound<C>(cfg: Config, s: System<C>)
    requires Sound(cfg, s) && |s.incoming| > 0
    ensures Sound(cfg, Act(cfg, s, HubReceives))
  {
    var t, msg := Act(cfg, s, HubReceives), s.incoming[0];
    assert t.hub == Step(cfg, s.hub, Incoming(msg));
    StepIndexed(cfg, s.hub, Incoming(msg));
    StepCounts(cfg, s.hub, Incoming(msg));
    StepCapped(cfg, s.hub, Incoming(msg));
    ReceivesStreams(cfg, s);
    forall c | c in t.hub.conns
      ensures ConnOk(t.hub.conns[c], t.pumps[c], c in t.hub.pending, c in t.hub.clients)
      ensures Accounted(t, c)
    {
      assert ConnOk(s.hub.conns[c], s.pumps[c], c in s.hub.pending, c in s.hub.clients) && Accounted(s, c);
      MessageConn(s, s.hub.conns[c], c, msg);
      if Reserved(msg.channel) || c !in Members(s.hub.channels, msg.channel) {
        PassedOver(cfg, s, c);
      } else {
        assert c in s.hub.clients;
        Forwarded(cfg, s, c);
      }
    }
  }

  // ---- The pumps and the read loop ----

  /** An action of the write pump of `c` touches its queue, its mailbox and the pump itself. */
  ghost predicate PumpMoved<C>(s: System<C>, t: System<C>, c: C) {
    && c in s.hub.conns && c in t.hub.conns && c in s.pumps && c in t.pumps
    && t == s.(hub := s.hub.(conns := s.hub.conns[c := t.hub.conns[c]]), pumps := s.pumps[c := t.pumps[c]])
    && t.hub.conns[c] == s.hub.conns[c].(send := t.hub.conns[c].send, mailbox := t.hub.conns[c].mailbox)
    && t.pumps[c].taken + t.hub.conns[c].send == s.pumps[c].taken + s.hub.conns[c].send
  }

  lemma PumpHub<C>(cfg: Config, s: System<C>, t: System<C>, c: C)
    requires Indexed(s.hub) && CountsFollow(s.hub) && Capped(cfg, s.hub) && Streams(s) && PumpMoved(s, t, c)
    ensures Indexed(t.hub) && CountsFollow(t.hub) && Capped(cfg, t.hub) && Streams(t)
    ensures t.hub.conns.Keys == s.hub.conns.Keys
  {
    assert t.hub.conns.Keys == s.hub.conns.Keys && t.pumps.Keys == s.pumps.Keys;
    SameIndexIndexed(s.hub, t.hub);
    SameChannelsCounts(s.hub, t.hub);
  }

  lemma PumpSound<C>(cfg: Config, s: System<C>, t: System<C>, c: C)
    requires Sound(cfg, s) && PumpMoved(s, t, c)
    requires ConnOk(t.hub.conns[c], t.pumps[c], c in s.hub.pending, c in s.hub.clients)
    ensures Sound(cfg, t)
  {
    PumpHub(cfg, s, t, c);
    forall d | d in t.hub.conns
      ensures ConnOk(t.hub.conns[d], t.pumps[d], d in t.hub.pending, d in t.hub.clients)
      ensures Accounted(t, d)
    {
      assert ConnOk(s.hub.conns[d], s.pumps[d], d in s.hub.pending, d in s.hub.clients) && Accounted(s, d);
    }
  }

  lemma SameHubSound<C>(cfg: Config, s: System<C>, t: System<C>)
    requires Sound(cfg, s) && t.hub == s.hub && t.pumps == s.pumps
    requires t.processed == s.processed && t.audience == s.audience && Streams(t)
    ensures Sound(cfg, t)
  {
  }

  lemma ActSound<C>(cfg: Config, s: System<C>, a: Action<C>)
    requires Sound(cfg, s) && Possible(s, a)
    ensures Sound(cfg, Act(cfg, s, a))
  {
    match a
    case HubServes(e) => ServesSound(cfg, s, e);
    case HubReceives => ReceivesSound(cfg, s);
    case Arrive(ch, body) =>
      SameHubSound(cfg, s, Act(cfg, s, a));
    case Forward =>
      var t := Act(cfg, s, a);
      assert t.incoming + t.stream == s.incoming + s.stream;
      assert t.processed + t.incoming + t.stream == s.processed + (s.incoming + s.stream);
      SameHubSound(cfg, s, t);
    case PumpWakes(c, w) =>
      assert ConnOk(s.hub.conns[c], s.pumps[c], c in s.hub.pending, c in s.hub.clients);
      WakeOk(s.hub.conns[c], s.pumps[c], w, c in s.hub.pending, c in s.hub.clients);
      PumpSound(cfg, s, Act(cfg, s, a), c);
  }

  /** Whatever the scheduler, the clients, the publishers and Redis do. */
  lemma {:induction false} RunSound<C>(cfg: Config, s: System<C>, run: seq<Action<C>>)
    requires Sound(cfg, s) && IsRun(cfg, s, run)
    ensures Sound(cfg, After(cfg, s, run))
    decreases |run|
  {
    if |run| > 0 {
      ActSound(cfg, s, run[0]);
      RunSound(cfg, Act(cfg, s, run[0]), run[1..]);
    }
  }

  lemma EveryRunSound<C>(cfg: Config, run: seq<Action<C>>)
    requires IsRun(cfg, Start(), run)
    ensures Sound(cfg, After(cfg, Start(), run))
  {
    RunSound(cfg, Start(), run);
  }
}
