/** The whole way: from a publisher through the gateway to the socket, and from the code the gateway
    closes with to what the browser client does about it. */
module EndToEnd {
  import opened ChannelNames
  import opened RedisModel
  import opened HubModel
  import opened Options
  import opened HubInvariant
  import opened GatewaySystem
  import opened SystemInvariant
  import opened Guarantees
  import opened Pumps
  import opened Effects
  import opened Revocation
  import Browser = ReconnectModel
  import History = BrowserHistory

  // ---- Close codes ----

  predicate OneOfFive(r: Reason) {
    || r == Reason(4401, "session_revoked") || r == Reason(4408, "slow_client")
    || r == Reason(4429, "max_connections_total") || r == Reason(4429, "max_connections_per_user")
    || r == Reason(0, "")
  }

  lemma FirstReason(k: Conn, pending: bool, client: bool)
    requires Shape(k, pending, client) && k.hist.signals != []
    ensures OneOfFive(k.hist.signals[0])
  {
    var signals := k.hist.signals;
    if !pending && !client && k.closes > 0 && |signals| > 1 {
      assert signals[..|signals| - 1][0] == signals[0];
    }
  }

  /** What the pump acted on is one of the five reasons, and 4401 is the only one on which a browser
      client that has not been closed stays away: after 4408 and 4429 it connects again. */
  lemma CloseCodeDecides<C>(cfg: Config, run: seq<Action<C>>, c: C, b: Browser.Client, i: nat, jitter: real)
    requires IsRun(cfg, Start(), run)
    requires c in After(cfg, Start(), run).hub.conns && c in After(cfg, Start(), run).pumps
    requires After(cfg, Start(), run).pumps[c].acted.Some?
    requires Browser.Inv(b) && b.shouldReconnect
    requires Browser.Enabled(b, Browser.Closes(i, After(cfg, Start(), run).pumps[c].acted.value.code, jitter))
    ensures var r := After(cfg, Start(), run).pumps[c].acted.value;
            && OneOfFive(r)
            && (History.ComesBack(Browser.Step(b, Browser.Closes(i, r.code, jitter))) <==> r != Reason(4401, "session_revoked"))
  {
    var s := After(cfg, Start(), run);
    PumpFollowsWakes(cfg, run, c);
    SignalsOfAConnection(cfg, run, c);
    FirstReason(s.hub.conns[c], c in s.hub.pending, c in s.hub.clients);
    History.ComesBackExactlyWhen(b, i, s.pumps[c].acted.value.code, jitter);
  }

  /** A revoked session stays away: from the hub's receipt of the revoke, through the pump that takes the
      signal, to a browser client whose close event carries the code the pump acted on. */
  lemma RevokedBrowserStaysAway<C>(cfg: Config, past: seq<Action<C>>, to: Target, c: C, future: seq<Action<C>>,
                                   b: Browser.Client, i: nat, jitter: real, es: seq<Browser.Event>)
    requires IsRun(cfg, Start(), past) && Open(After(cfg, Start(), past), to, c)
    requires Possible(After(cfg, Start(), past), HubReceives)
    requires IsRevoke(to, After(cfg, Start(), past).incoming[0])
    requires !Told(After(cfg, Start(), past).hub.conns[c]) && Listening(After(cfg, Start(), past), to, c)
    requires IsRun(cfg, Act(cfg, After(cfg, Start(), past), HubReceives), future)
    requires OnSignal in WakesOf(future, c)
    ensures var t := After(cfg, Act(cfg, After(cfg, Start(), past), HubReceives), future);
            && c in t.pumps && t.pumps[c].acted.Some?
            && var closes := Browser.Closes(i, t.pumps[c].acted.value.code, jitter);
               Browser.Inv(b) && Browser.Enabled(b, closes) && Browser.IsRun(Browser.Step(b, closes), es) ==>
                 |Browser.After(Browser.Step(b, closes), es).sockets| == |b.sockets|
  {
    RevokedConnectionCloses4401(cfg, past, to, c, future);
    var closes := Browser.Closes(i, 4401, jitter);
    if Browser.Inv(b) && Browser.Enabled(b, closes) && Browser.IsRun(Browser.Step(b, closes), es) {
      History.UnauthorizedCloseIsFinal(b, i, jitter, es);
    }
  }

  // ---- A message on its way ----

  lemma Follow<C>(cfg: Config, s: System<C>, a: Action<C>, rest: seq<Action<C>>)
    requires Possible(s, a) && IsRun(cfg, Act(cfg, s, a), rest)
    ensures IsRun(cfg, s, [a] + rest) && After(cfg, s, [a] + rest) == After(cfg, Act(cfg, s, a), rest)
  {
    assert ([a] + rest)[1..] == rest;
  }

  /** From an empty hub: `c` joins and subscribes. */
  function WithSubscriber<C>(cfg: Config, c: C, u: int, key: string, ch: string): State<C> {
    var joined := HandleRegister(cfg, Step(cfg, Init(), PostRegister(c, u, key, {ch})), c, {});
    if c in joined.conns then HandleSubscribe(joined, c, ch, {}) else joined
  }

  lemma NotJoined<C>(s: State<C>, c: C, ch: string, one: string, two: string)
    requires c in s.conns && ch != one && ch != two && ch !in s.channels && s.redis == EMPTY
    ensures var a := AddSubscription(Join(s, c), c, one, {});
            var t := AddSubscription(a, c, two, {});
            ch !in t.channels && Log(t.redis, ch) == [] && Count(t.redis, ch) == 0 && !t.redis.closed
  {
  }

  lemma Subscribed<C>(cfg: Config, c: C, u: int, key: string, ch: string)
    requires cfg.maxTotal <= 0 && cfg.maxPerUser <= 0 && ValidName(ch) && !Reserved(ch)
    ensures var s0 := Step(cfg, Init(), PostRegister(c, u, key, {ch}));
            && Enabled(s0, Register(c, {})) && c in HandleRegister(cfg, s0, c, {}).conns
    ensures var t := WithSubscriber(cfg, c, u, key, ch);
            && c in t.conns && t.conns[c].send == [] && t.conns[c].closes == 0 && c in Members(t.channels, ch)
            && OnWire(Log(t.redis, ch))
  {
    var s0 := Step(cfg, Init(), PostRegister(c, u, key, {ch}));
    var s1 := s0.(pending := s0.pending - {c});
    Admitted(s1, c, {});
    ControlNames(key, key, u, u);
    var joined := HandleRegister(cfg, s0, c, {});
    assert ch !in joined.conns[c].subscribed;
    NotJoined(s1, c, ch, SessionChannel(key), UserChannel(u));
    OnWireStep([], Cmd(true, true));
  }

  function Joining<C>(c: C, u: int, key: string, ch: string): seq<Action<C>> {
    [HubServes(PostRegister(c, u, key, {ch}))] + ([HubServes(Register(c, {}))] + [HubServes(ClientSubscribe(c, ch, {}))])
  }

  function Passing<C>(c: C, ch: string, body: Body): seq<Action<C>> {
    [Arrive(ch, body)] + ([Forward] + ([HubReceives] + [PumpWakes(c, OnFrame(true))]))
  }

  /** The gateway with that hub, one fresh pump and no message so far. */
  function Ready<C>(hub: State<C>, c: C): System<C> {
    System(hub, map[c := Pump(true, [], None)], [], [], [], [], [])
  }

  lemma ServeNext<C>(cfg: Config, s: System<C>, e: Event<C>, rest: seq<Action<C>>)
    requires Enabled(s.hub, e) && !e.Incoming? && !e.PostRegister?
    requires IsRun(cfg, s.(hub := Step(cfg, s.hub, e)), rest)
    ensures IsRun(cfg, s, [HubServes(e)] + rest)
    ensures After(cfg, s, [HubServes(e)] + rest) == After(cfg, s.(hub := Step(cfg, s.hub, e)), rest)
  {
    Follow(cfg, s, HubServes(e), rest);
  }

  lemma JoiningRun<C>(cfg: Config, c: C, u: int, key: string, ch: string)
    requires cfg.maxTotal <= 0 && cfg.maxPerUser <= 0 && ValidName(ch) && !Reserved(ch)
    ensures IsRun(cfg, Start(), Joining(c, u, key, ch))
    ensures After(cfg, Start(), Joining(c, u, key, ch)) == Ready(WithSubscriber(cfg, c, u, key, ch), c)
  {
    Subscribed(cfg, c, u, key, ch);
    var h1 := Step(cfg, Init(), PostRegister(c, u, key, {ch}));
    var h2 := Step(cfg, h1, Register(c, {}));
    var h3 := Step(cfg, h2, ClientSubscribe(c, ch, {}));
    var s1, s2, s3 := Ready(h1, c), Ready(h2, c), Ready(h3, c);
    assert h3 == WithSubscriber(cfg, c, u, key, ch);
    assert IsRun(cfg, s3, []);
    ServeNext(cfg, s2, ClientSubscribe(c, ch, {}), []);
    assert [HubServes(ClientSubscribe(c, ch, {}))] + [] == [HubServes(ClientSubscribe(c, ch, {}))];
    ServeNext(cfg, s1, Register(c, {}), [HubServes(ClientSubscribe(c, ch, {}))]);
    Follow(cfg, Start(), HubServes(PostRegister(c, u, key, {ch})),
           [HubServes(Register(c, {}))] + [HubServes(ClientSubscribe(c, ch, {}))]);
  }

  /** A message on a channel of `c`, with nothing else under way, reaches the socket of `c`. */
  lemma PassingRun<C>(cfg: Config, s: System<C>, c: C, ch: string, body: Body)
    requires c in s.hub.conns && c in s.pumps && s.pumps[c].running && s.hub.conns[c].send == []
    requires s.hub.conns[c].closes == 0 && c in Members(s.hub.channels, ch) && !Reserved(ch)
    requires s.stream == s.incoming == []
    ensures IsRun(cfg, s, Passing(c, ch, body))
    ensures c in After(cfg, s, Passing(c, ch, body)).pumps
    ensures After(cfg, s, Passing(c, ch, body)).pumps[c].taken
            == s.pumps[c].taken + [Data(Message(|s.arrived|, ch, body))]
  {
    var msg := Message(|s.arrived|, ch, body);
    var s1 := Act(cfg, s, Arrive(ch, body));
    var s2 := Act(cfg, s1, Forward);
    var s3 := Act(cfg, s2, HubReceives);
    assert s2.incoming == [msg] && s2.hub == s.hub && s2.pumps == s.pumps;
    assert s3.hub.conns[c].send == [Data(msg)] && s3.pumps == s.pumps;
    OneStep(cfg, s3, PumpWakes(c, OnFrame(true)));
    Follow(cfg, s2, HubReceives, [PumpWakes(c, OnFrame(true))]);
    Follow(cfg, s1, Forward, [HubReceives] + [PumpWakes(c, OnFrame(true))]);
    Follow(cfg, s, Arrive(ch, body), [Forward] + ([HubReceives] + [PumpWakes(c, OnFrame(true))]));
  }

  /** It can work: on every channel of its allow-list that is well-formed and not reserved, a client that
      connects and subscribes is sent what is then published there. */
  lemma MessageArrives<C>(cfg: Config, c: C, u: int, key: string, ch: string, body: Body)
    requires cfg.maxTotal <= 0 && cfg.maxPerUser <= 0 && ValidName(ch) && !Reserved(ch)
    ensures IsRun(cfg, Start(), Joining(c, u, key, ch))
    ensures var s := After(cfg, Start(), Joining(c, u, key, ch));
            && Publish(cfg, s, ch, body) == Act(cfg, s, Arrive(ch, body))
            && IsRun(cfg, s, Passing(c, ch, body))
            && c in After(cfg, s, Passing(c, ch, body)).pumps
            && After(cfg, s, Passing(c, ch, body)).pumps[c].taken == [Data(Message(0, ch, body))]
  {
    Subscribed(cfg, c, u, key, ch);
    JoiningRun(cfg, c, u, key, ch);
    PassingRun(cfg, After(cfg, Start(), Joining(c, u, key, ch)), c, ch, body);
  }
}
